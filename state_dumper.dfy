/** StateDumper's generation methods, printing into a `Generator` run; each
    is proved to print exactly what the matching DumpPlan function says. */
module StateDumper {
  import opened Results
  import opened Text
  import opened GlTypes
  import opened GeneratedCode
  import opened StateGetter
  import JsonWriter
  import opened DumpPlan

  /** The error check and the member the row's value is written into,
      after `pre` was printed past `base`. */
  method WriteMember(g: Generator, name: string, t: Type, handle: string, ghost base: seq<Stmt>, ghost pre: seq<Stmt>)
    returns (failure: Option<Failure>)
    requires g.out == base + pre
    modifies g
    ensures var e := Wrap(pre + [If(GlError), Else, BeginMember(Quoted(name))], JsonWriter.Write(t, handle, old(g.index)),
                          [EndMember, CloseBlock, CloseBlock, Blank]);
      g.out == base + e.stmts && g.index == e.index && failure == e.failure
  {
    var mid := [If(GlError), Else, BeginMember(Quoted(name))];
    g.Emit(mid);
    ghost var w := JsonWriter.Write(t, handle, g.index);
    failure := JsonWriter.Visit(g, t, handle);
    if failure.None? {
      g.Emit([EndMember, CloseBlock, CloseBlock, Blank]);
    }
    WrapOut(base, pre + mid, w, [EndMember, CloseBlock, CloseBlock, Blank], g.out);
  }

  /** One pass of the `dump_atoms` loop, for the row `row`. */
  method DumpAtom(g: Generator, params: seq<Param>, getter: StateGetter, args: seq<string>, row: Param)
    returns (failure: Option<Failure>)
    modifies g
    ensures var e := Atom(params, getter, args, row, old(g.index));
      g.out == old(g.out) + e.stmts && g.index == e.index && failure == e.failure
  {
    var inflection := getter.inflector.radical + getter.suffix;
    if !(inflection in Split(row.functions, ',')) || row.declared.None? {
      return None;
    }
    var head := [Comment(row.name), OpenBlock];
    g.Emit(head);
    var v := Call(g, getter, params, args + [row.name]);
    if v.Err? {
      return Some(v.error);
    }
    ghost var plan := getter.Get(params, args + [row.name]).value.1;
    var t, handle := v.value.0, v.value.1;
    failure := WriteMember(g, row.name, t, handle, old(g.out), head + plan.stmts);
  }

  /** The `i`th pass of the `dump_atoms` loop, continuing the run that
      began with `base` printed and the counter at `from`. */
  method DumpRow(g: Generator, params: seq<Param>, getter: StateGetter, args: seq<string>, i: nat,
                 ghost base: seq<Stmt>, ghost from: nat)
    returns (failure: Option<Failure>)
    requires i < |params|
    requires var e := Atoms(params, getter, args, i, from);
      e.failure.None? && g.out == base + e.stmts && g.index == e.index
    modifies g
    ensures var e := Atoms(params, getter, args, i + 1, from);
      g.out == base + e.stmts && g.index == e.index && failure == e.failure
    ensures failure.Some? ==> Atoms(params, getter, args, |params|, from) == Atoms(params, getter, args, i + 1, from)
  {
    ghost var done := Atoms(params, getter, args, i, from);
    failure := DumpAtom(g, params, getter, args, params[i]);
    ghost var atom := Atom(params, getter, args, params[i], done.index);
    AtomsNext(params, getter, args, i, from);
    ThenOut(base, done, atom, g.out);
    if failure.Some? {
      AtomsStuck(params, getter, args, i + 1, |params|, from);
    }
  }

  /** `dump_atoms`: one block per selected row of the table, in order; the
      first raise ends the run. */
  method DumpAtoms(g: Generator, params: seq<Param>, getter: StateGetter, args: seq<string>)
    returns (failure: Option<Failure>)
    modifies g
    ensures var e := DumpPlan.DumpAtoms(params, getter, args, old(g.index));
      g.out == old(g.out) + e.stmts && g.index == e.index && failure == e.failure
  {
    var i := 0;
    failure := None;
    while i < |params| && failure.None?
      invariant 0 <= i <= |params|
      invariant var e := Atoms(params, getter, args, i, old(g.index));
        g.out == old(g.out) + e.stmts && g.index == e.index && failure == e.failure
      invariant failure.Some? ==> Atoms(params, getter, args, |params|, old(g.index)) == Atoms(params, getter, args, i, old(g.index))
    {
      failure := DumpRow(g, params, getter, args, i, old(g.out), old(g.index));
      i := i + 1;
    }
  }

  // -----------------------------------------------------------------------
  // The loops over fixed target lists.

  /** The body of the `dump_material_params` loop for one face. */
  method DumpFace(g: Generator, params: seq<Param>, face: string) returns (failure: Option<Failure>)
    modifies g
    ensures var e := FaceBlock(params, face, old(g.index));
      g.out == old(g.out) + e.stmts && g.index == e.index && failure == e.failure
  {
    var pre := [BeginMember(Quoted(face)), BeginObject];
    g.Emit(pre);
    ghost var a := DumpPlan.DumpAtoms(params, glGetMaterial, [face], g.index);
    failure := DumpAtoms(g, params, glGetMaterial, [face]);
    if failure.None? {
      g.Emit([EndObject]);
    }
    WrapOut(old(g.out), pre, a, [EndObject], g.out);
  }

  /** The body of the `dump_texenv_params` loop for one target. */
  method DumpTexEnv(g: Generator, params: seq<Param>, target: string) returns (failure: Option<Failure>)
    modifies g
    ensures var e := TexEnvBlock(params, target, old(g.index));
      g.out == old(g.out) + e.stmts && g.index == e.index && failure == e.failure
  {
    var open := OpenBlock;
    if target != "GL_TEXTURE_FILTER_CONTROL" {
      open := If(IsEnabled(target));
    }
    var pre := [open, BeginMember(Quoted(target)), BeginObject];
    g.Emit(pre);
    ghost var a := DumpPlan.DumpAtoms(params, glGetTexEnv, [target], g.index);
    failure := DumpAtoms(g, params, glGetTexEnv, [target]);
    if failure.None? {
      g.Emit([EndObject, CloseBlock]);
    }
    WrapOut(old(g.out), pre, a, [EndObject, CloseBlock], g.out);
  }

  /** The body of the `dump_program_params` loop for one target. */
  method DumpProgram(g: Generator, params: seq<Param>, target: string) returns (failure: Option<Failure>)
    modifies g
    ensures var e := ProgramBlock(params, target, old(g.index));
      g.out == old(g.out) + e.stmts && g.index == e.index && failure == e.failure
  {
    var pre := [If(IsEnabled(target)), BeginMember(Quoted(target)), BeginObject];
    g.Emit(pre);
    ghost var a := DumpPlan.DumpAtoms(params, glGetProgramARB, [target], g.index);
    failure := DumpAtoms(g, params, glGetProgramARB, [target]);
    if failure.None? {
      g.Emit([EndObject, CloseBlock]);
    }
    WrapOut(old(g.out), pre, a, [EndObject, CloseBlock], g.out);
  }

  /** The body of the target loop of `dump_texture_parameters`: the texture
      parameters, then those of level 0. */
  method DumpTextureTarget(g: Generator, params: seq<Param>, target: string, binding: string)
    returns (failure: Option<Failure>)
    modifies g
    ensures var e := TextureBlock(params, target, binding, old(g.index));
      g.out == old(g.out) + e.stmts && g.index == e.index && failure == e.failure
  {
    var pre := [Comment(target), AssignZero("texture"), CallByRef("glGetIntegerv", [binding], "texture"),
                If(IsEnabledOr(target, "texture")), BeginMember(Quoted(target)), BeginObject];
    var post := [EndObject, EndMember, CloseBlock, Blank];
    g.Emit(pre);
    ghost var body := TextureAtoms(params, target, g.index);
    ghost var a := DumpPlan.DumpAtoms(params, glGetTexParameter, [target], g.index);
    ghost var mid := g.out;
    failure := DumpAtoms(g, params, glGetTexParameter, [target]);
    if failure.None? {
      ghost var b := DumpPlan.DumpAtoms(params, glGetTexLevelParameter, [target, "0"], g.index);
      failure := DumpAtoms(g, params, glGetTexLevelParameter, [target, "0"]);
      ThenOut(mid, a, b, g.out);
      if failure.None? {
        g.Emit(post);
      }
    }
    WrapOut(old(g.out), pre, body, post, g.out);
  }

  /** The body of the group's loop for its `i`th target. */
  method DumpTarget(g: Generator, params: seq<Param>, grp: Group, i: nat) returns (failure: Option<Failure>)
    requires i < TargetCount(grp)
    modifies g
    ensures var e := TargetBlock(params, grp, i, old(g.index));
      g.out == old(g.out) + e.stmts && g.index == e.index && failure == e.failure
  {
    match grp {
      case MaterialFaces => failure := DumpFace(g, params, Faces[i]);
      case TexEnvs => failure := DumpTexEnv(g, params, TexEnvTargets[i]);
      case Programs => failure := DumpProgram(g, params, ProgramTargets[i]);
      case TextureTargetBlocks =>
        var (target, binding) := TextureTargets[i];
        failure := DumpTextureTarget(g, params, target, binding);
    }
  }

  /** The `i`th pass of the group's loop, continuing the run that began
      with `base` printed and the counter at `from`. */
  method DumpNextTarget(g: Generator, params: seq<Param>, grp: Group, i: nat, ghost base: seq<Stmt>, ghost from: nat)
    returns (failure: Option<Failure>)
    requires i < TargetCount(grp)
    requires var e := Blocks(params, grp, i, from);
      e.failure.None? && g.out == base + e.stmts && g.index == e.index
    modifies g
    ensures var e := Blocks(params, grp, i + 1, from);
      g.out == base + e.stmts && g.index == e.index && failure == e.failure
    ensures failure.Some? ==> Blocks(params, grp, TargetCount(grp), from) == Blocks(params, grp, i + 1, from)
  {
    ghost var done := Blocks(params, grp, i, from);
    failure := DumpTarget(g, params, grp, i);
    BlocksNext(params, grp, i, from);
    ThenOut(base, done, TargetBlock(params, grp, i, done.index), g.out);
    if failure.Some? {
      BlocksStuck(params, grp, i + 1, TargetCount(grp), from);
    }
  }

  /** `dump_material_params`: the two faces, then a blank line. */
  method DumpMaterialParams(g: Generator, params: seq<Param>) returns (failure: Option<Failure>)
    modifies g
    ensures var e := MaterialParams(params, old(g.index));
      g.out == old(g.out) + e.stmts && g.index == e.index && failure == e.failure
  {
    ghost var base := g.out;
    var i := 0;
    failure := None;
    while i < |Faces| && failure.None?
      invariant 0 <= i <= |Faces|
      invariant var e := Blocks(params, MaterialFaces, i, old(g.index));
        g.out == base + e.stmts && g.index == e.index && failure == e.failure
      invariant failure.Some? ==> Blocks(params, MaterialFaces, TargetCount(MaterialFaces), old(g.index)) == Blocks(params, MaterialFaces, i, old(g.index))
    {
      failure := DumpNextTarget(g, params, MaterialFaces, i, base, old(g.index));
      i := i + 1;
    }
    if failure.None? {
      g.Emit([Blank]);
    }
    WrapOut(old(g.out), [], Blocks(params, MaterialFaces, |Faces|, old(g.index)), [Blank], g.out);
  }

  /** `dump_texenv_params`: the three texture environment targets. */
  method DumpTexenvParams(g: Generator, params: seq<Param>) returns (failure: Option<Failure>)
    modifies g
    ensures var e := TexEnvParams(params, old(g.index));
      g.out == old(g.out) + e.stmts && g.index == e.index && failure == e.failure
  {
    ghost var base := g.out;
    var i := 0;
    failure := None;
    while i < |TexEnvTargets| && failure.None?
      invariant 0 <= i <= |TexEnvTargets|
      invariant var e := Blocks(params, TexEnvs, i, old(g.index));
        g.out == base + e.stmts && g.index == e.index && failure == e.failure
      invariant failure.Some? ==> Blocks(params, TexEnvs, TargetCount(TexEnvs), old(g.index)) == Blocks(params, TexEnvs, i, old(g.index))
    {
      failure := DumpNextTarget(g, params, TexEnvs, i, base, old(g.index));
      i := i + 1;
    }
  }

  /** `dump_program_params`: the two ARB program targets. */
  method DumpProgramParams(g: Generator, params: seq<Param>) returns (failure: Option<Failure>)
    modifies g
    ensures var e := ProgramParams(params, old(g.index));
      g.out == old(g.out) + e.stmts && g.index == e.index && failure == e.failure
  {
    ghost var base := g.out;
    var i := 0;
    failure := None;
    while i < |ProgramTargets| && failure.None?
      invariant 0 <= i <= |ProgramTargets|
      invariant var e := Blocks(params, Programs, i, old(g.index));
        g.out == base + e.stmts && g.index == e.index && failure == e.failure
      invariant failure.Some? ==> Blocks(params, Programs, TargetCount(Programs), old(g.index)) == Blocks(params, Programs, i, old(g.index))
    {
      failure := DumpNextTarget(g, params, Programs, i, base, old(g.index));
      i := i + 1;
    }
  }

  /** `dump_texture_parameters`: the unit loop around the texture targets, and the restore of the active unit after it. */
  method DumpTextureParameters(g: Generator, params: seq<Param>) returns (failure: Option<Failure>)
    modifies g
    ensures var e := TextureParameters(params, old(g.index));
      g.out == old(g.out) + e.stmts && g.index == e.index && failure == e.failure
  {
    g.Emit(TexturePrologue);
    ghost var base := g.out;
    var i := 0;
    failure := None;
    while i < |TextureTargets| && failure.None?
      invariant 0 <= i <= |TextureTargets|
      invariant var e := Blocks(params, TextureTargetBlocks, i, old(g.index));
        g.out == base + e.stmts && g.index == e.index && failure == e.failure
      invariant failure.Some? ==> Blocks(params, TextureTargetBlocks, TargetCount(TextureTargetBlocks), old(g.index)) == Blocks(params, TextureTargetBlocks, i, old(g.index))
    {
      failure := DumpNextTarget(g, params, TextureTargetBlocks, i, base, old(g.index));
      i := i + 1;
    }
    if failure.None? {
      g.Emit(TextureEpilogue);
    }
    WrapOut(old(g.out), TexturePrologue, Blocks(params, TextureTargetBlocks, |TextureTargets|, old(g.index)), TextureEpilogue, g.out);
  }

  // -----------------------------------------------------------------------
  // The loops the generated code runs itself.

  /** `dump_light_params`: a loop over the lights, each enabled one dumped
      as a member named by `snprintf`. */
  method DumpLightParams(g: Generator, params: seq<Param>) returns (failure: Option<Failure>)
    modifies g
    ensures var e := LightParams(params, old(g.index));
      g.out == old(g.out) + e.stmts && g.index == e.index && failure == e.failure
  {
    var pre := [DeclZero("GLint", "max_lights"), CallByRef("__glGetIntegerv", ["GL_MAX_LIGHTS"], "max_lights"),
                ForCount("index", "max_lights"), DeclInit("GLenum", "light", "GL_LIGHT0 + index"),
                If(IsEnabled("light")), DeclNameBuffer, FormatName("GL_LIGHT", "index"),
                BeginMember(NameBuffer), BeginObject];
    var post := [EndObject, EndMember, CloseBlock, CloseBlock, Blank];
    g.Emit(pre);
    ghost var a := DumpPlan.DumpAtoms(params, glGetLight, ["    GL_LIGHT0 + index"], g.index);
    failure := DumpAtoms(g, params, glGetLight, ["    GL_LIGHT0 + index"]);
    if failure.None? {
      g.Emit(post);
    }
    WrapOut(old(g.out), pre, a, post, g.out);
  }

  /** `dump_vertex_attribs`: a loop over the vertex attributes. */
  method DumpVertexAttribs(g: Generator, params: seq<Param>) returns (failure: Option<Failure>)
    modifies g
    ensures var e := VertexAttribs(params, old(g.index));
      g.out == old(g.out) + e.stmts && g.index == e.index && failure == e.failure
  {
    var pre := [DeclZero("GLint", "max_vertex_attribs"),
                CallByRef("__glGetIntegerv", ["GL_MAX_VERTEX_ATTRIBS"], "max_vertex_attribs"),
                ForCount("index", "max_vertex_attribs"), DeclNameBuffer, FormatName("GL_VERTEX_ATTRIB_ARRAY", "index"),
                BeginMember(NameBuffer), BeginObject];
    var post := [EndObject, EndMember, CloseBlock, Blank];
    g.Emit(pre);
    ghost var a := DumpPlan.DumpAtoms(params, glGetVertexAttrib, ["index"], g.index);
    failure := DumpAtoms(g, params, glGetVertexAttrib, ["index"]);
    if failure.None? {
      g.Emit(post);
    }
    WrapOut(old(g.out), pre, a, post, g.out);
  }

  // -----------------------------------------------------------------------
  // dumpParameters

  /** The seven calls between the braces of `dumpParameters`, in order;
      a raise ends the run. */
  method DumpParts(g: Generator, params: seq<Param>) returns (failure: Option<Failure>)
    modifies g
    ensures var e := Parts(params, PartCount, old(g.index));
      g.out == old(g.out) + e.stmts && g.index == e.index && failure == e.failure
  {
    ghost var base, from := g.out, g.index;
    ghost var before, at := g.out, g.index;
    assert base + Parts(params, 0, from).stmts == base;
    failure := DumpAtoms(g, params, glGet, []);
    PartsStep(params, 0, from, base, before, DumpPlan.DumpAtoms(params, glGet, [], at), g.out);
    if failure.None? {
      before, at := g.out, g.index;
      failure := DumpMaterialParams(g, params);
      PartsStep(params, 1, from, base, before, MaterialParams(params, at), g.out);
    } else {
      PartsStuckNext(params, 1, from);
    }
    if failure.None? {
      before, at := g.out, g.index;
      failure := DumpLightParams(g, params);
      PartsStep(params, 2, from, base, before, LightParams(params, at), g.out);
    } else {
      PartsStuckNext(params, 2, from);
    }
    if failure.None? {
      before, at := g.out, g.index;
      failure := DumpVertexAttribs(g, params);
      PartsStep(params, 3, from, base, before, VertexAttribs(params, at), g.out);
    } else {
      PartsStuckNext(params, 3, from);
    }
    if failure.None? {
      before, at := g.out, g.index;
      failure := DumpTexenvParams(g, params);
      PartsStep(params, 4, from, base, before, TexEnvParams(params, at), g.out);
    } else {
      PartsStuckNext(params, 4, from);
    }
    if failure.None? {
      before, at := g.out, g.index;
      failure := DumpProgramParams(g, params);
      PartsStep(params, 5, from, base, before, ProgramParams(params, at), g.out);
    } else {
      PartsStuckNext(params, 5, from);
    }
    if failure.None? {
      before, at := g.out, g.index;
      failure := DumpTextureParameters(g, params);
      PartsStep(params, 6, from, base, before, TextureParameters(params, at), g.out);
    } else {
      PartsStuckNext(params, 6, from);
    }
  }

  /** The body of `dumpParameters`: the "parameters" member, holding the
      global state, material, lights, vertex attributes, texture
      environments, ARB programs and textures, in that order; a raise ends
      the run. */
  method DumpParameters(g: Generator, params: seq<Param>) returns (failure: Option<Failure>)
    modifies g
    ensures var e := DumpPlan.DumpParameters(params, old(g.index));
      g.out == old(g.out) + e.stmts && g.index == e.index && failure == e.failure
  {
    var pre := [OpenBlock, BeginMember(Quoted("parameters")), BeginObject];
    var post := [EndObject, EndMember, CloseBlock, Blank];
    g.Emit(pre);
    failure := DumpParts(g, params);
    if failure.None? {
      g.Emit(post);
    }
    WrapOut(old(g.out), pre, Parts(params, PartCount, old(g.index)), post, g.out);
  }
}
