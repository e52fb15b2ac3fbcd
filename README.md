# apitrace: the GL state-dump generator and the trace parser, in Dafny

This project models two pieces of apitrace and proves properties of them.

**`glstate.py`** is a Python script. It prints the C++ function `dumpParameters`, which
reads every piece of GL state through the right `glGet*` query and writes it as JSON.
The model covers four parts of it:

- `GetInflector` chooses the query variant for a type. When a family has no direct entry
  for a type, it falls back along B→I, E→I, I→F.
- `StateGetter` finds a parameter by name and prints the declarations and the single
  query call that fetch its value.
- `JsonWriter` prints the writer calls for a value's type. It draws a fresh loop-index
  name `__iN` from a class-level counter for every array.
- `StateDumper` walks the state categories, in this order: globals, material faces,
  lights, vertex attributes, texture environments, ARB programs and texture units.

Each printed line becomes one `Stmt` value. A run is an object of class `Generator`,
whose `out` field is the text printed so far and whose `index` field is the writer's
counter. Every printing routine is a method on that object. Each method is proved to
append exactly what a specification function (`Write`, `Plan`, `Atoms`, `Parts`, ...)
says, and to leave the counter where that function says. The lemmas then prove what
the printed code looks like:

- every brace, JSON object and JSON array is closed, innermost first;
- the `glGetError()` branch is empty;
- `dumpParameters` leaves exactly seven members begun and never ended. This is how the
  source is written: the two material faces, the three texture environment targets and
  the two program targets call `beginMember` with no `endMember`;
- every array loop uses a different index name;
- the texture unit is restored once, after the unit loop;
- every visited parameter gets exactly one query call, in the through-a-pointer form
  exactly when the query's name ends in `v`.

**`trace_parser.cpp`** holds `Trace::Parser`, which decodes the binary trace format.
The model has:

- a `Stream` of bytes with a position, where reading past the end returns -1;
- the signature `Table`s, which grow when an id misses;
- pending `Call` objects with their argument vectors;
- a `Parser` class whose fields are those of the source.

Each parsing method is proved against a function on the bytes and a cursor. The cursor
holds the position and the contents of the four tables (`DecodeUint`, `StringAt`,
`ValueAt`, `DetailsAt`, `EnterAt`, ...). Those functions are tied to a writer
(`EncodeUint`, `Encode`, `EncodeDetails`) by round-trip lemmas: decoding what the writer
wrote gives the value back and stops right after it, whatever bytes follow.

The files are:

| file | contents |
|---|---|
| `results.dfy` | `Option`, `Result` |
| `text.dfy` | decimal formatting, `split`/`join`, lower case |
| `gl_types.dfy` | the type descriptors and the `parameters` row type |
| `generated_code.dfy` | the printed statements, the structural predicates, the `Generator` class |
| `get_inflector.dfy` | `GetInflector` |
| `state_getter.dfy` | `StateGetter` |
| `json_writer.dfy` | `JsonWriter` |
| `dump_plan.dfy` | what `StateDumper` prints, as functions, and the lemmas about it |
| `state_dumper.dfy` | the `StateDumper` methods |
| `trace_format.dfy` | tags, values, signatures |
| `trace_decode.dfy` | the specification of the parser, and the writer |
| `trace_writer.dfy` | call details, and the writer's side of `parse_enter` |
| `trace_parser.dfy` | `Stream`, `Table`, `Call`, `Parser` |

## Model

| member | source | states |
|---|---|---|
| GetInflector.Inflector.ReducedType | glstate.py:59-64 | On success, the reduced type is a key of the family's inflections. It raises NotImplementedError only for a type that is not a key. The recursion terminates. |
| GetInflector.Inflector.ReducedTypeIsFirstSupported | glstate.py:48-64 | Reduction fails exactly when no type on the chain t, B→I, E→I, I→F is a key. Otherwise the result is the first type on the chain that is a key. The chain has at most three types, and reducing an already-reduced type returns it unchanged. |
| GetInflector.Inflector.Inflection | glstate.py:69-72 | Defined exactly when the reduction succeeds. The result is one of the family's inflection strings. |
| GetInflector.Inflector.Inflect | glstate.py:66-67 | Defined exactly when the reduction succeeds. The result is radical + inflections[reduced type] + suffix. |
| GetInflector.BooleanFallsBackToFloat | glstate.py:48-72 | In a family with only a GLfloat entry, GLboolean is queried through it (B→I→F). |
| Text.Split | glstate.py:396 | `str.split`: at least one field, and no field contains the separator. |
| Text.JoinSplit | glstate.py:396 | Joining the fields of a split gives the string back. |
| Text.SplitJoin | glstate.py:396 | Splitting a join of separator-free fields gives the fields back. |
| Text.Decimal | glstate.py:216 | `%u` of the counter: a non-empty string of digits, one digit exactly below 10. |
| Text.DecimalRoundTrip | glstate.py:216 | The decimal text of n reads back as n. |
| Text.DecimalInjective | glstate.py:216 | Different counter values print differently. |
| StateGetter.TempName | glstate.py:103-107 | `pname[3:].lower()`: the characters from the fourth on, each lowered, so no upper-case letter is left. |
| StateGetter.Lookup | glstate.py:92-95 | The first row with a declared (non-X) type and the given name, with no such row before it. None means no row matches. |
| StateGetter.StateGetter.GetUsesEffectiveType | glstate.py:89-99 | A successful `__call__` used the first matching row. It visited `Array(type, str(count))` when count != 1 and the declared type otherwise. |
| StateGetter.StateGetter.GetMissesUnknownNames | glstate.py:89-101 | A name that no typed row carries raises NotImplementedError. |
| StateGetter.NumericCountAvoidsLengthOne | glstate.py:96-97 | A numeric count other than 1 never becomes an array of length "1". |
| StateGetter.StateGetter.PlanQueriesOnce | glstate.py:109-157 | Every successful visit declares the temporary `temp_name(args)`, then prints exactly one query call, last. That call takes the caller's arguments and names the family's query plus the suffix. It passes a pointer exactly when the query ends in `v`. |
| StateGetter.StateGetter.ScalarPlanShaped | glstate.py:112-121 | The same shape, for `visit_scalar`. |
| StateGetter.StateGetter.StringPlanShaped | glstate.py:123-128 | The same shape for `visit_string`: a single cast call. |
| StateGetter.StateGetter.ArrayPlanShaped | glstate.py:139-149 | The same shape, for `visit_array` with a length other than "1". |
| StateGetter.StateGetter.OpaquePlanShaped | glstate.py:151-157 | The same shape for `visit_opaque`: a `GLvoid *` local filled through its address. |
| StateGetter.StateGetter.LengthOneArrayRaises | glstate.py:139-142 | The length-"1" branch calls `visit` without `args`, so it always raises. The error is NotImplementedError exactly when the element is a bare literal (the base `visit_literal` takes any arguments), and TypeError otherwise (the visitor's own methods need `args`). |
| StateGetter.SupportedScalarPlan | glstate.py:112-118 | For any alias whose reduction succeeds (the fallback to another type included), a `v` query prints a zeroed local of the reduced type, then one call passing its address. |
| StateGetter.DirectScalarPlan | glstate.py:119-120 | A query without the `v` prints one declaration of the reduced type initialised by the call. |
| StateGetter.SupportedArrayPlan | glstate.py:143-148 | For any element whose reduction succeeds, it prints a buffer of the reduced type with exactly `length` elements, then a `memset` of the whole buffer, then one filling call. |
| StateGetter.GlGetInflections | glstate.py:160-167 | glGet has its own entries for GLboolean (`glGetBooleanv`) and GLfloat (`glGetFloatv`). |
| StateGetter.BooleanThroughGlGet | glstate.py:112-118 | A GLboolean through glGet: `GLboolean x = 0; glGetBooleanv(args, &x);`. |
| StateGetter.MaterialBooleanInflection | glstate.py:48-72 | glMaterial has no GLboolean entry, so GLboolean reduces to GLint and is queried through `glGetMaterialiv`. |
| StateGetter.BooleanThroughGlGetMaterial | glstate.py:112-118 | A GLboolean material parameter is printed as `GLint x = 0; glGetMaterialiv(args, &x);`. |
| StateGetter.SixteenFloatsThroughGlGet | glstate.py:139-149 | `GLfloat x[16]`, then its `memset`, then `glGetFloatv(args, x)`. |
| StateGetter.StateGetter.ScalarPlan | glstate.py:112-121 | Succeeds exactly when the type reduces, and raises only NotImplementedError. On success the first statement declares the temporary `temp_name(args)`, which is the handle. |
| StateGetter.StateGetter.StringPlan | glstate.py:123-128 | Succeeds exactly when the query inflects without a `v`. A `v` query fails its assertion. On success the first statement declares the temporary. |
| StateGetter.StateGetter.ArrayPlan | glstate.py:139-149 | For a length other than "1", succeeds exactly when the element inflects to a `v` query, and fails its assertion on a query without `v`. On success the first statement declares the temporary. |
| StateGetter.StateGetter.OpaquePlan | glstate.py:151-157 | Succeeds exactly when the query inflects to a `v` query, and fails its assertion otherwise. On success the first statement declares the temporary. |
| StateGetter.StateGetter.Plan | glstate.py:109-157 | Every successful visit hands back `temp_name(args)`. The only errors raised are NotImplementedError, AssertionError and TypeError. |
| StateGetter.StateGetter.Get | glstate.py:89-101 | `args[-1]` raises IndexError exactly when there are no arguments. On success the handle is `temp_name(args)`. |
| StateGetter.VisitScalar | glstate.py:112-121 | Prints exactly what `ScalarPlan` gives and returns its temporary, or raises what it raises. |
| StateGetter.VisitString | glstate.py:123-128 | Prints exactly what `StringPlan` gives. |
| StateGetter.VisitArray | glstate.py:139-149 | Prints exactly what `ArrayPlan` gives. |
| StateGetter.VisitOpaque | glstate.py:151-157 | Prints exactly what `OpaquePlan` gives. |
| StateGetter.Visit | glstate.py:109-137 | Dispatches on the descriptor and prints exactly what `Plan` gives. |
| StateGetter.Call | glstate.py:89-101 | Prints exactly what `Get` gives and returns the effective type and the temporary. |
| JsonWriter.Write | glstate.py:186-222 | The counter never goes back. A value that is written prints at least one statement. The only errors are NotImplementedError and AssertionError. |
| JsonWriter.WriteSucceedsIffWritable | glstate.py:186-222 | Writing succeeds exactly on the writable types: Bool/SInt/Uint/Float/Double literals, unsized strings, enums, opaques, and aliases and arrays of these. On success it prints one value call inside one loop per array dimension and advances the counter by the number of dimensions. |
| JsonWriter.UnsignedLiteralNotWritten | glstate.py:186-192 | The literal test spells `Uint`, so a `UInt` literal raises NotImplementedError. A SInt literal is one `writeNumber`. |
| JsonWriter.StandardTypesWritable | glstate.py:186-211 | GLboolean, GLint, GLenum, GLfloat, GLdouble, the GL string and GLvoid * are all writable. |
| JsonWriter.WriteCounted | glstate.py:213-222 | The loops printed for one value use the counter values from the old counter up to the new one, in order. |
| JsonWriter.ArrayCounted | glstate.py:215-222 | An array takes the current counter value for its own loop, then its element takes the values that follow. |
| JsonWriter.WriteWellFormed | glstate.py:215-222 | A written value is balanced (`beginArray`, `for {`, `}`, `endArray` nest) and begins no member. |
| JsonWriter.ArrayBalanced | glstate.py:218-222 | `beginArray`, the loop and `endArray` are balanced around a balanced element. |
| JsonWriter.Visit | glstate.py:186-222 | Prints exactly `Write(t, instance, counter)` and leaves the class counter where `Write` says. |
| GeneratedCode.LoopVarInjective | glstate.py:216 | Different counter values give different `__iN` names. |
| GeneratedCode.LoopVarRangeDistinct | glstate.py:216-217 | The names of a run of counter values are pairwise distinct. |
| GeneratedCode.GuardBalanced | glstate.py:403-409 | `if (glGetError() ...) { } else { ... }` is balanced around a balanced body. |
| GeneratedCode.Generator.Emit | glstate.py:117-118 | A `print` appends its lines to the output and changes nothing else. |
| DumpPlan.Atom | glstate.py:393-411 | One row never moves the counter back and never raises IndexError. |
| DumpPlan.Atoms | glstate.py:393-411 | The first n rows never move the counter back and never raise IndexError. |
| DumpPlan.AtomSettled | glstate.py:393-411 | A visited row prints a well-formed block that switches no texture unit. It begins exactly one member, named by the row, and ends it. A skipped row prints nothing. |
| DumpPlan.AtomMembers | glstate.py:400-410 | The row's block begins the member `name` and no other. |
| DumpPlan.GuardedMemberSound | glstate.py:403-409 | The error branch is empty. `beginMember`, the value and `endMember` appear only on the no-error branch. |
| DumpPlan.AtomsSettled | glstate.py:393-411 | Over the first n rows, `dump_atoms` prints well-formed code whose members are exactly the selected rows' names, in table order. |
| DumpPlan.AtomsStuck | glstate.py:393-411 | Once a row raises, later rows print nothing. |
| DumpPlan.AtomsCounted | glstate.py:393-411 | The array loops of `dump_atoms` take consecutive counter values. |
| DumpPlan.DumpAtomsCounted | glstate.py:393-411 | The same, over the whole table. |
| DumpPlan.SelectedRowFound | glstate.py:394-402 | A row `dump_atoms` visits is found by the getter's lookup at or before its own position. The lookup ignores families. |
| DumpPlan.FaceKept | glstate.py:291-295 | A material face block is well formed and leaves one member unended. |
| DumpPlan.TexEnvKept | glstate.py:316-325 | A texture environment block, guarded except for GL_TEXTURE_FILTER_CONTROL, leaves one member unended. |
| DumpPlan.ProgramKept | glstate.py:347-353 | A program target block is guarded by `glIsEnabled` and leaves one member unended. |
| DumpPlan.TextureTargetKept | glstate.py:372-385 | A texture target block is well formed and ends the member it begins. |
| DumpPlan.TextureTargetGated | glstate.py:372-385 | Three plain statements read the binding, then `if (glIsEnabled(target) \|\| texture) {` opens the rest, closed by `}` and a blank line. Inside it is balanced, and its members are the target, then the selected glGetTexParameter rows, then the selected glGetTexLevelParameter rows. |
| DumpPlan.TextureAtomsMembers | glstate.py:379-381 | The members of the two families' atoms are the selected rows of glGetTexParameter, then those of glGetTexLevelParameter. |
| DumpPlan.TextureUnitLoop | glstate.py:355-390 | `max_units` is `std::max` of the two limits and bounds the `unit` loop. The loop body is balanced, calls `glActiveTexture(GL_TEXTURE0 + unit)` and holds the target blocks. |
| DumpPlan.FaceBlock | glstate.py:291-295 | One face raises exactly what its glGetMaterial atoms raise, and leaves the counter where they do. |
| DumpPlan.TexEnvBlock | glstate.py:316-325 | One target raises exactly what its glGetTexEnv atoms raise, and leaves the counter where they do. |
| DumpPlan.ProgramBlock | glstate.py:347-353 | One target raises exactly what its glGetProgramARB atoms raise, and leaves the counter where they do. |
| DumpPlan.TextureBlock | glstate.py:372-385 | The texture parameter atoms run first. If they raise, that is the block's error. Otherwise the level-0 texture level parameter atoms follow, and the block ends as they do. |
| DumpPlan.LightParams | glstate.py:298-313 | Raises exactly what the glGetLight atoms of `GL_LIGHT0 + index` raise, with the counter where they leave it. |
| DumpPlan.VertexAttribs | glstate.py:327-339 | Raises exactly what the glGetVertexAttrib atoms raise, with the counter where they leave it. |
| DumpPlan.TextureParameters | glstate.py:355-391 | Raises exactly what the loop over the texture targets raises, with the counter where it leaves it. |
| DumpPlan.DumpParameters | glstate.py:269-285 | Raises exactly what the seven parts raise, with the counter where they leave it. |
| DumpPlan.TextureAtomsKept | glstate.py:379-381 | Texture parameters, then the level-0 texture level parameters: well formed, every member ended. |
| DumpPlan.TargetBlockKept | glstate.py:291-385 | Each target block of a fixed target list leaves its group's number of members open. |
| DumpPlan.BlocksKept | glstate.py:291-385 | The loop over n targets leaves n times that number open. |
| DumpPlan.BlocksCounted | glstate.py:291-385 | The loops over fixed targets take consecutive counter values. |
| DumpPlan.MaterialParamsSound | glstate.py:290-296 | `dump_material_params` is well formed and leaves two members open. |
| DumpPlan.LightParamsSound | glstate.py:298-313 | `dump_light_params` is well formed and ends every member. |
| DumpPlan.VertexAttribsSound | glstate.py:327-339 | `dump_vertex_attribs` is well formed and ends every member. |
| DumpPlan.TextureParametersSound | glstate.py:355-391 | `dump_texture_parameters` is well formed and ends every member. |
| DumpPlan.TextureRestoredAfterLoop | glstate.py:355-390 | The texture block ends with `glActiveTexture(active_texture)`, then `}`. No restore comes before it. Everything before it, the unit loop included, is closed except the block's own `{`. |
| DumpPlan.MaterialParamsCounted | glstate.py:290-296 | Consecutive counter values for the faces. |
| DumpPlan.LightParamsCounted | glstate.py:298-313 | Consecutive counter values for the lights. |
| DumpPlan.VertexAttribsCounted | glstate.py:327-339 | Consecutive counter values for the vertex attributes. |
| DumpPlan.TextureParametersCounted | glstate.py:355-391 | Consecutive counter values for the texture targets. |
| DumpPlan.PartSound | glstate.py:274-281 | Each of the seven parts of `dumpParameters` is well formed with its own number of open members, unless it raised. |
| DumpPlan.PartsSound | glstate.py:274-281 | The first n parts are well formed with the sum of their open members. |
| DumpPlan.PartsCounted | glstate.py:274-281 | The parts take consecutive counter values. |
| DumpPlan.DumpParametersWellFormed | glstate.py:269-285 | When generation does not raise, `dumpParameters` is well formed, with seven members begun and never ended. |
| DumpPlan.DumpParametersCounted | glstate.py:269-285 | The array loops of `dumpParameters` take consecutive counter values. |
| DumpPlan.DumpParametersLoopNames | glstate.py:213-222 | All array loops of `dumpParameters`, even in a run that raised, are named `__iN` for consecutive N, so the names are pairwise distinct. |
| StateDumper.WriteMember | glstate.py:403-409 | Prints the error check, then `beginMember(name)`, the value and `endMember` on the no-error branch, as `Atom` says. |
| StateDumper.DumpAtom | glstate.py:395-411 | Prints one row exactly as `Atom` says. |
| StateDumper.DumpRow | glstate.py:394-411 | One loop step: the output becomes that of the first i+1 rows. A raise fixes the whole loop's output. |
| StateDumper.DumpAtoms | glstate.py:393-411 | Prints exactly `DumpAtoms` and leaves the counter where it says. |
| StateDumper.DumpFace | glstate.py:291-295 | Prints one face exactly as `FaceBlock` says. |
| StateDumper.DumpTexEnv | glstate.py:316-325 | Prints one target exactly as `TexEnvBlock` says. |
| StateDumper.DumpProgram | glstate.py:347-353 | Prints one target exactly as `ProgramBlock` says. |
| StateDumper.DumpTextureTarget | glstate.py:372-385 | Prints one target exactly as `TextureBlock` says. |
| StateDumper.DumpTarget | glstate.py:291-385 | Prints target i of a fixed list as `TargetBlock` says. |
| StateDumper.DumpNextTarget | glstate.py:291-385 | One step of a target loop, against `Blocks`. |
| StateDumper.DumpMaterialParams | glstate.py:290-296 | Prints exactly `MaterialParams`. |
| StateDumper.DumpLightParams | glstate.py:298-313 | Prints exactly `LightParams`. |
| StateDumper.DumpVertexAttribs | glstate.py:327-339 | Prints exactly `VertexAttribs`. |
| StateDumper.DumpTexenvParams | glstate.py:315-325 | Prints exactly `TexEnvParams`. |
| StateDumper.DumpProgramParams | glstate.py:346-353 | Prints exactly `ProgramParams`. |
| StateDumper.DumpTextureParameters | glstate.py:355-391 | Prints exactly `TextureParameters`. |
| StateDumper.DumpParts | glstate.py:274-281 | The seven calls, in order, stopping at the first raise, against `Parts`. |
| StateDumper.DumpParameters | glstate.py:269-285 | Prints exactly `DumpParameters`: the "parameters" member object around the parts. |
| TraceDecode.DecodeUint | trace_parser.cpp:415-431 | `read_uint` reads a byte. It consumes nothing exactly at the end of the stream, and never reads past it. |
| TraceDecode.EncodeUint | trace_parser.cpp:415-431 | The writer's digits: the high bit is set on every byte but the last. |
| TraceDecode.DecodeEncodeUint | trace_parser.cpp:415-431 | `read_uint` reads back any encoded number and stops right after its last byte. |
| TraceParser.ReadUintStep | trace_parser.cpp:419-428 | One loop pass: OR-ing the low seven bits at `shift` adds them times 2^shift. A byte below 0x80 ends the number. |
| TraceParser.Parser.ReadUint | trace_parser.cpp:415-431 | Its loop returns `DecodeUint` of the old position and moves the stream to where `DecodeUint` stops. |
| TraceDecode.Chunk | trace_parser.cpp:404-405 | `gzread` of `(unsigned)len` bytes: the bytes that remain, up to that many. A short read leaves zeros. |
| TraceDecode.ChunkRoundTrip | trace_parser.cpp:404-405 | A read of bytes that are there returns them. |
| TraceDecode.StringAt | trace_parser.cpp:399-412 | The string has exactly the length read. A length of 0 gives the empty string and reads nothing after the length. |
| TraceDecode.StringRoundTrip | trace_parser.cpp:399-412 | `read_string` reads back a length-prefixed string and stops after it. |
| TraceParser.Parser.ReadString | trace_parser.cpp:399-412 | Reads exactly `StringAt`. |
| TraceParser.Stream.GetC | trace_parser.cpp:434-443 | `gzgetc`: the next byte, or -1 at the end, and advances only when a byte was read. |
| TraceParser.Stream.ReadBuffer | trace_parser.cpp:404-405 | `gzread`: returns and consumes what `Chunk` says. |
| TraceDecode.LookupIn | trace_parser.cpp:126-134 | A hit returns the slot and leaves the table alone. A miss grows the table to index+1 with empty new slots and returns none. Either way the index then fits. |
| TraceDecode.LookupAgain | trace_parser.cpp:126-134 | A second lookup of the same index changes nothing. |
| TraceParser.Table.Lookup | trace_parser.cpp:126-134 | Updates the table in place as `LookupIn` says. |
| TraceParser.Table.Store | trace_parser.cpp:148 | `functions[id] = sig` sets that slot only. |
| TraceDecode.FunctionSigAt | trace_parser.cpp:138-149 | The signature ends up stored at its id and no other table changes. |
| TraceDecode.KnownSignature | trace_parser.cpp:140-149 | A known id reads nothing more than the id. |
| TraceParser.Parser.FunctionSignature | trace_parser.cpp:138-149 | Reads and stores exactly as `FunctionSigAt` says. |
| TraceDecode.NewCall | trace_parser.cpp:152 | A new call has one null slot per argument name and a null return value. |
| TraceDecode.EnterAt | trace_parser.cpp:137-160 | A parsed enter event carries the signature stored for its id, and never moves the stream or the tables back. |
| TraceDecode.EnterAtSplit | trace_parser.cpp:137-160 | Once the signature has been read, the rest of the event is the details of a new call for it. |
| TraceParser.Parser.ParseEnter | trace_parser.cpp:137-160 | The new call gets the old `next_call_no`, and the counter goes up by one (as an `unsigned`). The call is appended to the pending list exactly when its details reached `CALL_END`. The cursor and tables are as `EnterAt` says. |
| TraceWriter.EnterRoundTrip | trace_parser.cpp:137-160 | An enter event for a known function, followed by written details, gives the call state the details build. It stops after the end marker. |
| TraceDecode.FirstWith | trace_parser.cpp:166-172 | The position of the first pending call with that number. None exactly when no pending call has it. |
| TraceParser.Numbers | trace_parser.cpp:166-167 | The numbers of the pending calls, in order. |
| TraceParser.Parser.ParseLeave | trace_parser.cpp:163-183 | Removes the first pending call with the number read, and the others keep their order. With no match it returns none and reads nothing more. The call is returned only when its details reached `CALL_END`. Every other pending call keeps its arguments and return value. |
| TraceDecode.DetailAt | trace_parser.cpp:188-203 | One detail: `CALL_END` stops, `CALL_ARG` sets an argument, `CALL_RET` sets the return value, and any other byte is fatal. |
| TraceDecode.DetailsAt | trace_parser.cpp:186-205 | The details loop reports false only at the end of the stream. |
| TraceParser.Parser.ParseCallDetails | trace_parser.cpp:186-205 | Its loop ends with exactly the result, position and call state of `DetailsAt`. |
| TraceWriter.DetailsRoundTrip | trace_parser.cpp:186-205 | Written details followed by `CALL_END` read back as those details applied in order, and the call is complete. |
| TraceWriter.DetailRoundTrip | trace_parser.cpp:188-199 | One written detail reads back as that detail. |
| TraceDecode.Put | trace_parser.cpp:211-214 | After the store the vector holds at least index+1 slots, and the slot holds the value. No other slot changes, and new slots are null. |
| TraceDecode.ArgAt | trace_parser.cpp:208-215 | A parsed argument never moves the stream or the tables back. |
| TraceDecode.ArgAtKeepsOtherSlots | trace_parser.cpp:208-215 | After the store the arguments cover the `unsigned` index read and all the old slots, and every old slot but that one is unchanged. |
| TraceParser.Parser.ParseArg | trace_parser.cpp:208-215 | Sets the argument at the `unsigned` index as `ArgAt` says, and leaves the return value alone. |
| TraceWriter.ArgAtRoundTrip | trace_parser.cpp:208-215 | A written argument is stored at its index. |
| TraceDecode.ValueAt | trace_parser.cpp:218-278 | Parsing moves forward. It consumes nothing only at the end of the stream, where it gives null. |
| TraceDecode.ScalarAt | trace_parser.cpp:222-271 | A sub-parser that needs no table stays within the stream and never moves back. Null, false and true read nothing after the tag. Enums, bitmasks, arrays and structs are not handled here. |
| TraceDecode.ValueAtScalar | trace_parser.cpp:222-271 | A tag without tables dispatches to its sub-parser. An unknown tag is fatal. |
| TraceParser.Parser.ParseValue | trace_parser.cpp:218-278 | Gives exactly `ValueAt`'s value, position and tables, or its fatal error. |
| TraceDecode.ValueRoundTrip | trace_parser.cpp:218-278 | `parse_value` reads back every value the writer can write without a signature table, and stops right after it. |
| TraceDecode.SIntAt | trace_parser.cpp:281-283 | A signed integer, never positive, whose negation is the number read. It consumes nothing exactly at the end of the stream. |
| TraceDecode.SIntRoundTrip | trace_parser.cpp:281-283 | `parse_sint` gives the negation of the number that follows. |
| TraceParser.Parser.ParseSInt | trace_parser.cpp:281-283 | Reads exactly `SIntAt`. |
| TraceDecode.UIntAt | trace_parser.cpp:286-288 | The unsigned number read. It consumes nothing exactly at the end of the stream. |
| TraceDecode.UIntRoundTrip | trace_parser.cpp:286-288 | `parse_uint` reads back an unsigned number. |
| TraceParser.Parser.ParseUInt | trace_parser.cpp:286-288 | Reads exactly `UIntAt`. |
| TraceDecode.FloatAt | trace_parser.cpp:291-302 | Exactly `width` raw bytes, reading no more than that. When they are all there, they are the bytes of the stream. |
| TraceDecode.FloatRoundTrip | trace_parser.cpp:291-302 | A float (4 bytes) or double (8 bytes) reads back as its raw bytes. |
| TraceParser.Parser.ParseFloat | trace_parser.cpp:291-302 | Reads exactly `FloatAt`. |
| TraceDecode.StringValueAt | trace_parser.cpp:305-307 | A string value that moves forward. The empty string reads nothing after its length. |
| TraceDecode.StringValueRoundTrip | trace_parser.cpp:305-307 | A string value reads back. |
| TraceParser.Parser.ParseString | trace_parser.cpp:305-307 | Reads exactly `StringValueAt`. |
| TraceDecode.EnumAt | trace_parser.cpp:310-321 | The enum's signature ends up stored at its id. |
| TraceParser.Parser.ParseEnum | trace_parser.cpp:310-321 | Gives exactly what `EnumAt` gives. |
| TraceDecode.FlagsAt | trace_parser.cpp:330-336 | The flag loop reads exactly n flags and moves forward within the stream. |
| TraceDecode.BitmaskAt | trace_parser.cpp:324-343 | Never fails. The bitmask's signature ends up stored at its id. |
| TraceParser.Parser.BitmaskSignature | trace_parser.cpp:325-340 | A known id reads nothing more. Otherwise it reads `size` flags, each a name and a value, and stores them at the id. |
| TraceParser.Parser.ParseBitmask | trace_parser.cpp:324-343 | Gives exactly what `BitmaskAt` gives. |
| TraceDecode.ArrayAt | trace_parser.cpp:347-354 | An array has exactly `len` elements. |
| TraceDecode.ValuesAt | trace_parser.cpp:349-351 | n recursive `parse_value` calls give n values. |
| TraceDecode.ValuesExit | trace_parser.cpp:349-351 | Once an element is fatal, the array is fatal with that error. |
| TraceParser.Parser.ParseArray | trace_parser.cpp:347-354 | Its loop gives exactly `ArrayAt`. |
| TraceDecode.ArrayRoundTrip | trace_parser.cpp:347-354 | A written array reads back element by element. |
| TraceDecode.ValuesRoundTrip | trace_parser.cpp:349-351 | The first n written elements read back in order. |
| TraceDecode.BlobAt | trace_parser.cpp:357-364 | A blob of exactly the size read, whose bytes come after the size. |
| TraceDecode.BlobAtRoundTrip | trace_parser.cpp:357-364 | A written blob reads back. A size of 0 reads nothing more. |
| TraceParser.Parser.ParseBlob | trace_parser.cpp:357-364 | Reads exactly `BlobAt`. |
| TraceDecode.StructSigAt | trace_parser.cpp:368-380 | The struct's signature ends up stored at its id. |
| TraceParser.Parser.StructSignature | trace_parser.cpp:368-380 | Reads and stores exactly as `StructSigAt` says. |
| TraceDecode.NamesAt | trace_parser.cpp:143-146 | The argument-name loop reads exactly n names and moves forward within the stream. |
| TraceDecode.SigBodyAt | trace_parser.cpp:142-146 | A name, then as many names as the `unsigned` count read. |
| TraceParser.Parser.ReadSigBody | trace_parser.cpp:142-146 | Its loop reads exactly `SigBodyAt`. |
| TraceDecode.StructAt | trace_parser.cpp:367-389 | A struct has exactly as many members as its signature has member names. |
| TraceParser.Parser.ParseStruct | trace_parser.cpp:367-389 | Its loop gives exactly `StructAt`. |
| TraceDecode.OpaqueAt | trace_parser.cpp:392-396 | A pointer holding the number read. It consumes nothing exactly at the end of the stream. |
| TraceDecode.PointerRoundTrip | trace_parser.cpp:392-396 | `parse_opaque` reads back an address. |
| TraceParser.Parser.ParseOpaque | trace_parser.cpp:392-396 | Reads exactly `OpaqueAt`. |
| TraceParser.Parser.constructor | trace_parser.cpp:42-46 | A new parser is at position 0, with empty tables, no pending calls and call number 0. |

## Left out

- The external tables of `glstate.py` (`parameters`, `GLenum.values`, the stdapi/gltypes type classes) are inputs. `B`, `I`, `E`, `F`, `D`, `S`, `P` are representative descriptors, and Python's `is` on type objects is structural equality.
- The `Visitor` base class (stdapi) is not part of this model. A visit of a kind a visitor does not define raises NotImplementedError.
- The constant boilerplate of `StateDumper.dump` (includes, `enumToString`, `dumpEnum`) and the `__main__` driver are not modelled, nor the text of the `// name` comments after `endMember`.
- `Text.Lower` lowers ASCII letters only.
- The `trace_format.hpp` tag values are not part of this model. The tags are numbered in declaration order, and the proofs use only that they are distinct.
- The `Call` constructor (trace_model.hpp is not part of this model) is taken to give one null argument slot per argument name.
- TraceDecode.DecodeUint: the number is unbounded. It does not model the 64-bit truncation of `unsigned long long`, nor shifts of 64 bits or more.
- TraceDecode.SIntAt: does not model the overflow of the signed cast.
- The `unsigned` conversions of an argument index, the number read by `parse_leave`, a signature's name count and the `gzread` length are modelled as arithmetic modulo 2^32. The `size_t` ids and sizes are not truncated.
- TraceParser.Parser.ParseEnter: the declaration of `next_call_no` (trace_parser.hpp) is not part of this model. It is taken to be an `unsigned`, so the counter wraps at 2^32.
- A short `gzread` leaves the rest of its buffer uninitialised in the source. The model fills it with zeros.
- Floats and doubles are kept as their raw bytes. No floating point is modelled.
- TraceWriter.EnterRoundTrip: covers only an enter event for a function whose signature is already known. The first enter of a function carries its signature inline (trace_parser.cpp:140-149), and no writer-side round trip covers it. `FunctionSigAt` still states that the signature it reads is stored under its id.
- TraceDecode.ValueRoundTrip: the writer side covers only values that need no signature table (not enums, bitmasks or structs) and signed integers that are not positive. Those are the values `parse_sint` can produce.
- `exit(1)` on an unknown tag or detail becomes a `Fatal` result that stops parsing.
- The `std::cerr` diagnostics, including the warning about a zero bitmask flag, the `TRACE_VERBOSE` output and the `delete`/`deleteAll` cleanup are not modelled. A call dropped because of the end of the stream is simply not kept.
- `open`, `close`, the version check and `parse_call` (trace_parser.cpp:54-120) sit on gzip I/O and the event loop. They are not modelled.
- The helper methods `ReadSigBody`, `FunctionSignature`, `StructSignature` and `BitmaskSignature` are pieces of the sub-parsers' inline code, separated so that each can be proved on its own.
- glws_wgl.cpp, glretrace_cgl.cpp and gui/imageviewer.h (window-system and UI glue) are not part of this model.
