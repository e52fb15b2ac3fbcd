/** What StateDumper prints for `dumpParameters`, as functions of the
    parameter table and the writer's counter, and the structure every
    successful run gives the generated code. */
module DumpPlan {
  import opened Results
  import opened Text
  import opened GlTypes
  import opened GeneratedCode
  import opened StateGetter
  import JsonWriter

  // -----------------------------------------------------------------------
  // dump_atoms

  /** `dump_atoms` visits a row when the family's radical plus suffix is one
      of the comma-separated names in its first column and its type is not X. */
  predicate Selected(getter: StateGetter, row: Param) {
    getter.inflector.radical + getter.suffix in Split(row.functions, ',') && row.declared.Some?
  }

  /** One visited row: a commented block that fetches the value, checks for
      a GL error, and writes the value as a member named by the row. */
  function Atom(params: seq<Param>, getter: StateGetter, args: seq<string>, row: Param, index: nat): (r: Emission)
    ensures index <= r.index
    ensures r.failure != Some(IndexError)
  {
    if !Selected(getter, row) then Nothing(index)
    else
      var head := [Comment(row.name), OpenBlock];
      match getter.Get(params, args + [row.name])
      case Err(e) => Emission(head, index, Some(e))
      case Ok(v) =>
        Wrap(head + v.1.stmts + [If(GlError), Else, BeginMember(Quoted(row.name))],
             JsonWriter.Write(v.0, v.1.handle, index),
             [EndMember, CloseBlock, CloseBlock, Blank])
  }

  /** `dump_atoms` over the first `n` rows of the table; a raise ends the run. */
  function Atoms(params: seq<Param>, getter: StateGetter, args: seq<string>, n: nat, index: nat): (r: Emission)
    requires n <= |params|
    ensures index <= r.index
    ensures r.failure != Some(IndexError)
    decreases n
  {
    if n == 0 then Nothing(index)
    else
      var prev := Atoms(params, getter, args, n - 1, index);
      if prev.failure.Some? then prev
      else Then(prev, Atom(params, getter, args, params[n - 1], prev.index))
  }

  function DumpAtoms(params: seq<Param>, getter: StateGetter, args: seq<string>, index: nat): Emission {
    Atoms(params, getter, args, |params|, index)
  }

  /** The member keys `dump_atoms` should write: one per selected row, in
      table order. */
  function SelectedKeys(getter: StateGetter, rows: seq<Param>): seq<Key>
    decreases |rows|
  {
    if rows == [] then []
    else SelectedKeys(getter, rows[..|rows| - 1])
         + (if Selected(getter, rows[|rows| - 1]) then [Quoted(rows[|rows| - 1].name)] else [])
  }

  /** The texture unit restore, `glActiveTexture(active_texture)`. */
  const Restore := ActiveTexture("active_texture")

  /** What a successful stretch of atoms keeps: well formed, every member it
      begins also ended, no texture unit switch. */
  predicate Settled(s: seq<Stmt>) {
    Sound(s, 0) && NoSwitch(s)
  }

  /** No texture unit switch. */
  predicate NoSwitch(s: seq<Stmt>) {
    forall k :: 0 <= k < |s| ==> !s[k].ActiveTexture?
  }

  lemma NoSwitchConcat(a: seq<Stmt>, b: seq<Stmt>)
    requires NoSwitch(a) && NoSwitch(b)
    ensures NoSwitch(a + b)
  {
    var ab := a + b;
    forall k | 0 <= k < |ab|
      ensures !ab[k].ActiveTexture?
    {
      if k >= |a| {
        assert ab[k] == b[k - |a|];
      }
    }
  }

  /** The block printed for one visited row, around the retrieval `plan`
      and the value write `w`. */
  function AtomBlock(name: string, plan: seq<Stmt>, w: seq<Stmt>): seq<Stmt> {
    [Comment(name), OpenBlock] + plan + [If(GlError), Else, BeginMember(Quoted(name))] + w
    + [EndMember, CloseBlock, CloseBlock, Blank]
  }

  /** A visited row that does not raise prints a well-formed block that
      begins and ends exactly one member, keyed by the row's name, and does
      not switch texture units. */
  lemma AtomSettled(params: seq<Param>, getter: StateGetter, args: seq<string>, row: Param, index: nat)
    requires Atom(params, getter, args, row, index).failure.None?
    ensures var s := Atom(params, getter, args, row, index).stmts;
      Settled(s) && Members(s) == (if Selected(getter, row) then [Quoted(row.name)] else [])
  {
    if Selected(getter, row) {
      var v := getter.Get(params, args + [row.name]).value;
      var plan := v.1.stmts;
      var w := JsonWriter.Write(v.0, v.1.handle, index).stmts;
      getter.PlanQueriesOnce(v.0, args + [row.name]);
      JsonWriter.WriteWellFormed(v.0, v.1.handle, index);
      assert Atom(params, getter, args, row, index).stmts == AtomBlock(row.name, plan, w);
      AtomBlockSound(row.name, plan, w);
      AtomMembers(row.name, plan, w);
      AtomNoSwitch(row.name, plan, w);
    } else {
      assert Atom(params, getter, args, row, index).stmts == [];
    }
  }

  lemma AtomBlockSound(name: string, plan: seq<Stmt>, w: seq<Stmt>)
    requires AllPlain(plan) && Sound(w, 0)
    ensures Sound(AtomBlock(name, plan, w), 0)
  {
    var guarded := [If(GlError), Else] + ([BeginMember(Quoted(name))] + w + [EndMember]) + [CloseBlock];
    GuardedMemberSound(name, w);
    SoundPlain(plan);
    SoundConcat(plan, guarded, 0, 0);
    Brackets();
    SoundEnclose(OpenBlock, plan + guarded, CloseBlock, Block, 0);
    SoundPlain([Comment(name)]);
    SoundPlain([Blank]);
    var block := [OpenBlock] + (plan + guarded) + [CloseBlock];
    SoundConcat([Comment(name)], block, 0, 0);
    SoundConcat([Comment(name)] + block, [Blank], 0, 0);
    AtomBlockNested(name, plan, w);
  }

  /** `if (error) {} else { beginMember(name); w endMember(); }` */
  lemma GuardedMemberSound(name: string, w: seq<Stmt>)
    requires Sound(w, 0)
    ensures Sound([If(GlError), Else] + ([BeginMember(Quoted(name))] + w + [EndMember]) + [CloseBlock], 0)
  {
    var key := Quoted(name);
    SoundMember(key);
    SoundConcat([BeginMember(key)], w, 1, 0);
    SoundConcat([BeginMember(key)] + w, [EndMember], 1, -1);
    SoundGuard([BeginMember(key)] + w + [EndMember], 0);
  }

  lemma AtomBlockNested(name: string, plan: seq<Stmt>, w: seq<Stmt>)
    ensures AtomBlock(name, plan, w)
      == [Comment(name)]
         + ([OpenBlock]
            + (plan + ([If(GlError), Else] + ([BeginMember(Quoted(name))] + w + [EndMember]) + [CloseBlock]))
            + [CloseBlock])
         + [Blank]
  {
  }

  lemma AtomNoSwitch(name: string, plan: seq<Stmt>, w: seq<Stmt>)
    requires AllQuiet(plan) && AllQuiet(w)
    ensures NoSwitch(AtomBlock(name, plan, w))
  {
    var key := Quoted(name);
    NoSwitchConcat([Comment(name), OpenBlock] + plan, [If(GlError), Else, BeginMember(key)] + w);
    NoSwitchConcat([Comment(name), OpenBlock] + plan + [If(GlError), Else, BeginMember(key)] + w,
                   [EndMember, CloseBlock, CloseBlock, Blank]);
  }

  lemma AtomMembers(name: string, plan: seq<Stmt>, w: seq<Stmt>)
    requires AllPlain(plan) && Members(w) == []
    ensures Members(AtomBlock(name, plan, w)) == [Quoted(name)]
  {
    var a := [Comment(name), OpenBlock];
    var c := [If(GlError), Else, BeginMember(Quoted(name))];
    var d := [EndMember, CloseBlock, CloseBlock, Blank];
    PlainMembers(plan);
    NoMembers(a);
    assert Members(c) == [Quoted(name)] by {
      NoMembers([If(GlError), Else]);
      MembersOne(BeginMember(Quoted(name)));
      MembersConcat([If(GlError), Else], [BeginMember(Quoted(name))]);
      assert c == [If(GlError), Else] + [BeginMember(Quoted(name))];
    }
    assert Members(d) == [] by {
      NoMembers(d);
    }
    MembersConcat(a, plan);
    MembersConcat(a + plan, c);
    MembersConcat(a + plan + c, w);
    MembersConcat(a + plan + c + w, d);
  }

  lemma {:induction false} NoMembers(s: seq<Stmt>)
    requires forall k :: 0 <= k < |s| ==> !s[k].BeginMember?
    ensures Members(s) == []
    decreases |s|
  {
    if s != [] {
      NoMembers(s[1..]);
    }
  }

  /** `dump_atoms` over the first `n` rows, when it does not raise, prints
      well-formed blocks that begin and end one member per selected row, keyed
      by the row names in table order, and never switch texture units. */
  lemma {:induction false} AtomsSettled(params: seq<Param>, getter: StateGetter, args: seq<string>, n: nat, index: nat)
    requires n <= |params|
    requires Atoms(params, getter, args, n, index).failure.None?
    ensures var s := Atoms(params, getter, args, n, index).stmts;
      Settled(s) && Members(s) == SelectedKeys(getter, params[..n])
    decreases n
  {
    if n == 0 {
      assert Members([]) == [] && params[..0] == [];
      SoundPlain([]);
    } else {
      var prev := Atoms(params, getter, args, n - 1, index);
      var atom := Atom(params, getter, args, params[n - 1], prev.index);
      AtomsSettled(params, getter, args, n - 1, index);
      AtomsNext(params, getter, args, n - 1, index);
      AtomSettled(params, getter, args, params[n - 1], prev.index);
      SettledConcat(prev.stmts, atom.stmts);
      SelectedKeysStep(getter, params, n);
    }
  }

  lemma SettledConcat(a: seq<Stmt>, b: seq<Stmt>)
    requires Settled(a) && Settled(b)
    ensures Settled(a + b) && Members(a + b) == Members(a) + Members(b)
  {
    SoundConcat(a, b, 0, 0);
    NoSwitchConcat(a, b);
    MembersConcat(a, b);
  }

  lemma SelectedKeysStep(getter: StateGetter, params: seq<Param>, n: nat)
    requires 0 < n <= |params|
    ensures SelectedKeys(getter, params[..n]) == SelectedKeys(getter, params[..n - 1])
      + (if Selected(getter, params[n - 1]) then [Quoted(params[n - 1].name)] else [])
  {
    assert params[..n][..n - 1] == params[..n - 1];
    assert params[..n][n - 1] == params[n - 1];
  }

  /** Once a row raises, later rows print nothing more. */
  lemma {:induction false} AtomsStuck(params: seq<Param>, getter: StateGetter, args: seq<string>, m: nat, n: nat, index: nat)
    requires m <= n <= |params|
    requires Atoms(params, getter, args, m, index).failure.Some?
    ensures Atoms(params, getter, args, n, index) == Atoms(params, getter, args, m, index)
    decreases n
  {
    if n > m {
      AtomsStuck(params, getter, args, m, n - 1, index);
    }
  }

  /** Every array loop printed by `dump_atoms` takes the next counter value
      as its index name. */
  lemma AtomCounted(params: seq<Param>, getter: StateGetter, args: seq<string>, row: Param, index: nat)
    ensures Counted(Atom(params, getter, args, row, index), index)
  {
    if Selected(getter, row) && getter.Get(params, args + [row.name]).Ok? {
      var v := getter.Get(params, args + [row.name]).value;
      var pre := [Comment(row.name), OpenBlock] + v.1.stmts + [If(GlError), Else, BeginMember(Quoted(row.name))];
      var post := [EndMember, CloseBlock, CloseBlock, Blank];
      var w := JsonWriter.Write(v.0, v.1.handle, index);
      assert Atom(params, getter, args, row, index) == Wrap(pre, w, post);
      getter.PlanQueriesOnce(v.0, args + [row.name]);
      JsonWriter.WriteCounted(v.0, v.1.handle, index);
      AtomBlockCounted(row.name, v.1.stmts, w, index);
    } else {
      NoLoops(Atom(params, getter, args, row, index).stmts);
    }
  }

  lemma AtomBlockCounted(name: string, plan: seq<Stmt>, w: Emission, index: nat)
    requires AllPlain(plan) && Counted(w, index)
    ensures Counted(Wrap([Comment(name), OpenBlock] + plan + [If(GlError), Else, BeginMember(Quoted(name))], w,
                         [EndMember, CloseBlock, CloseBlock, Blank]), index)
  {
    var pre := [Comment(name), OpenBlock] + plan + [If(GlError), Else, BeginMember(Quoted(name))];
    assert forall k :: 0 <= k < |pre| ==> !pre[k].ForIndex? by {
      forall k | 0 <= k < |pre| ensures !pre[k].ForIndex? {
        if 2 <= k < 2 + |plan| { assert pre[k] == plan[k - 2] && Plain(plan[k - 2]); }
      }
    }
    WrappedCounted(pre, w, [EndMember, CloseBlock, CloseBlock, Blank], index);
  }

  lemma {:induction false} AtomsCounted(params: seq<Param>, getter: StateGetter, args: seq<string>, n: nat, index: nat)
    requires n <= |params|
    ensures Counted(Atoms(params, getter, args, n, index), index)
    decreases n
  {
    if n == 0 {
      assert LoopVars([]) == [] == LoopVarRange(index, index);
    } else {
      var prev := Atoms(params, getter, args, n - 1, index);
      AtomsCounted(params, getter, args, n - 1, index);
      if prev.failure.None? {
        AtomsNext(params, getter, args, n - 1, index);
        AtomCounted(params, getter, args, params[n - 1], prev.index);
        ThenCounted(prev, Atom(params, getter, args, params[n - 1], prev.index), index);
      }
    }
  }

  /** A row `dump_atoms` visits is always found by the getter's lookup, at
      its own position or at an earlier row of the same name. */
  lemma SelectedRowFound(params: seq<Param>, getter: StateGetter, i: nat)
    requires i < |params| && Selected(getter, params[i])
    ensures Lookup(params, params[i].name).Some?
    ensures Lookup(params, params[i].name).value <= i
  {
    assert Matches(params[i], params[i].name);
  }

  // -----------------------------------------------------------------------
  // The per-target blocks: material faces, texture environments, ARB
  // programs and texture targets.

  const Faces: seq<string> := ["GL_FRONT", "GL_BACK"]
  const TexEnvTargets: seq<string> := ["GL_TEXTURE_ENV", "GL_TEXTURE_FILTER_CONTROL", "GL_POINT_SPRITE"]
  const ProgramTargets: seq<string> := ["GL_FRAGMENT_PROGRAM_ARB", "GL_VERTEX_PROGRAM_ARB"]
  /** `texture_targets`: each target with the query for its binding. */
  const TextureTargets: seq<(string, string)> := [
    ("GL_TEXTURE_1D", "GL_TEXTURE_BINDING_1D"),
    ("GL_TEXTURE_2D", "GL_TEXTURE_BINDING_2D"),
    ("GL_TEXTURE_3D", "GL_TEXTURE_BINDING_3D"),
    ("GL_TEXTURE_RECTANGLE", "GL_TEXTURE_BINDING_RECTANGLE"),
    ("GL_TEXTURE_CUBE_MAP", "GL_TEXTURE_BINDING_CUBE_MAP")
  ]

  /** The loops over fixed target lists. */
  datatype Group = MaterialFaces | TexEnvs | Programs | TextureTargetBlocks

  function TargetCount(g: Group): nat {
    match g
    case MaterialFaces => |Faces|
    case TexEnvs => |TexEnvTargets|
    case Programs => |ProgramTargets|
    case TextureTargetBlocks => |TextureTargets|
  }

  /** One face of `dump_material_params`: the member is begun but, as
      written, never ended. */
  function FaceBlock(params: seq<Param>, face: string, index: nat): (r: Emission)
    ensures var a := DumpAtoms(params, glGetMaterial, [face], index);
      r.failure == a.failure && r.index == a.index
  {
    Wrap([BeginMember(Quoted(face)), BeginObject],
         DumpAtoms(params, glGetMaterial, [face], index),
         [EndObject])
  }

  /** One target of `dump_texenv_params`: guarded by `glIsEnabled` except
      for GL_TEXTURE_FILTER_CONTROL, which gets a bare block; the member is
      never ended. */
  function TexEnvBlock(params: seq<Param>, target: string, index: nat): (r: Emission)
    ensures var a := DumpAtoms(params, glGetTexEnv, [target], index);
      r.failure == a.failure && r.index == a.index
  {
    var open := if target != "GL_TEXTURE_FILTER_CONTROL" then If(IsEnabled(target)) else OpenBlock;
    Wrap([open, BeginMember(Quoted(target)), BeginObject],
         DumpAtoms(params, glGetTexEnv, [target], index),
         [EndObject, CloseBlock])
  }

  /** One target of `dump_program_params`; the member is never ended. */
  function ProgramBlock(params: seq<Param>, target: string, index: nat): (r: Emission)
    ensures var a := DumpAtoms(params, glGetProgramARB, [target], index);
      r.failure == a.failure && r.index == a.index
  {
    Wrap([If(IsEnabled(target)), BeginMember(Quoted(target)), BeginObject],
         DumpAtoms(params, glGetProgramARB, [target], index),
         [EndObject, CloseBlock])
  }

  /** The texture and the level-0 parameters of one target. */
  function TextureAtoms(params: seq<Param>, target: string, index: nat): Emission {
    var a := DumpAtoms(params, glGetTexParameter, [target], index);
    if a.failure.Some? then a
    else Then(a, DumpAtoms(params, glGetTexLevelParameter, [target, "0"], a.index))
  }

  /** One target inside the texture unit loop: dumped when enabled or bound. */
  function TextureBlock(params: seq<Param>, target: string, binding: string, index: nat): (r: Emission)
    ensures var a := DumpAtoms(params, glGetTexParameter, [target], index);
      var b := DumpAtoms(params, glGetTexLevelParameter, [target, "0"], a.index);
      && (a.failure.Some? ==> r.failure == a.failure && r.index == a.index)
      && (a.failure.None? ==> r.failure == b.failure && r.index == b.index)
  {
    Wrap([Comment(target), AssignZero("texture"), CallByRef("glGetIntegerv", [binding], "texture"),
          If(IsEnabledOr(target, "texture")), BeginMember(Quoted(target)), BeginObject],
         TextureAtoms(params, target, index),
         [EndObject, EndMember, CloseBlock, Blank])
  }

  function TargetBlock(params: seq<Param>, g: Group, i: nat, index: nat): Emission
    requires i < TargetCount(g)
  {
    match g
    case MaterialFaces => FaceBlock(params, Faces[i], index)
    case TexEnvs => TexEnvBlock(params, TexEnvTargets[i], index)
    case Programs => ProgramBlock(params, ProgramTargets[i], index)
    case TextureTargetBlocks => TextureBlock(params, TextureTargets[i].0, TextureTargets[i].1, index)
  }

  /** The loop over the first `n` targets of the group. */
  function Blocks(params: seq<Param>, g: Group, n: nat, index: nat): Emission
    requires n <= TargetCount(g)
    decreases n
  {
    if n == 0 then Nothing(index)
    else
      var prev := Blocks(params, g, n - 1, index);
      if prev.failure.Some? then prev
      else Then(prev, TargetBlock(params, g, n - 1, prev.index))
  }

  /** One more pass of `dump_atoms` after a run that did not raise. */
  lemma AtomsNext(params: seq<Param>, getter: StateGetter, args: seq<string>, i: nat, index: nat)
    requires i < |params|
    requires Atoms(params, getter, args, i, index).failure.None?
    ensures var done := Atoms(params, getter, args, i, index);
      Atoms(params, getter, args, i + 1, index) == Then(done, Atom(params, getter, args, params[i], done.index))
  {
  }

  /** One more target after a run of the loop that did not raise. */
  lemma BlocksNext(params: seq<Param>, g: Group, i: nat, index: nat)
    requires i < TargetCount(g)
    requires Blocks(params, g, i, index).failure.None?
    ensures var done := Blocks(params, g, i, index);
      Blocks(params, g, i + 1, index) == Then(done, TargetBlock(params, g, i, done.index))
  {
  }

  /** Once a block raised, the loop's run is that of the block. */
  lemma {:induction false} BlocksStuck(params: seq<Param>, g: Group, m: nat, n: nat, index: nat)
    requires m <= n <= TargetCount(g)
    requires Blocks(params, g, m, index).failure.Some?
    ensures Blocks(params, g, n, index) == Blocks(params, g, m, index)
    decreases n
  {
    if n > m {
      BlocksStuck(params, g, m, n - 1, index);
    }
  }

  /** Members each block of the group leaves open. */
  function OpenMembers(g: Group): int {
    match g
    case MaterialFaces => 1
    case TexEnvs => 1
    case Programs => 1
    case TextureTargetBlocks => 0
  }

  /** Members the first `n` blocks of the group leave open. */
  function OpenAfter(g: Group, n: nat): int {
    if g.TextureTargetBlocks? then 0 else n
  }

  // -----------------------------------------------------------------------
  // The parts of dumpParameters.

  /** `dump_light_params`: a loop over the lights, each enabled one dumped
      as a member named by `snprintf`. */
  function LightParams(params: seq<Param>, index: nat): (r: Emission)
    ensures var a := DumpAtoms(params, glGetLight, ["    GL_LIGHT0 + index"], index);
      r.failure == a.failure && r.index == a.index
  {
    Wrap([DeclZero("GLint", "max_lights"), CallByRef("__glGetIntegerv", ["GL_MAX_LIGHTS"], "max_lights"),
          ForCount("index", "max_lights"), DeclInit("GLenum", "light", "GL_LIGHT0 + index"),
          If(IsEnabled("light")), DeclNameBuffer, FormatName("GL_LIGHT", "index"),
          BeginMember(NameBuffer), BeginObject],
         DumpAtoms(params, glGetLight, ["    GL_LIGHT0 + index"], index),
         [EndObject, EndMember, CloseBlock, CloseBlock, Blank])
  }

  /** `dump_vertex_attribs`: a loop over the vertex attributes, each dumped
      as a member named by `snprintf`. */
  function VertexAttribs(params: seq<Param>, index: nat): (r: Emission)
    ensures var a := DumpAtoms(params, glGetVertexAttrib, ["index"], index);
      r.failure == a.failure && r.index == a.index
  {
    Wrap([DeclZero("GLint", "max_vertex_attribs"),
          CallByRef("__glGetIntegerv", ["GL_MAX_VERTEX_ATTRIBS"], "max_vertex_attribs"),
          ForCount("index", "max_vertex_attribs"), DeclNameBuffer, FormatName("GL_VERTEX_ATTRIB_ARRAY", "index"),
          BeginMember(NameBuffer), BeginObject],
         DumpAtoms(params, glGetVertexAttrib, ["index"], index),
         [EndObject, EndMember, CloseBlock, Blank])
  }

  /** What `dump_texture_parameters` prints before the target blocks: save
      the active unit, bound the unit loop, and open the unit's member. */
  const TexturePrologue: seq<Stmt> := [OpenBlock] + TextureLocals + UnitHead

  /** The texture prologue's plain declarations before the unit loop. */
  const TextureLocals: seq<Stmt> := [
    DeclInit("GLint", "active_texture", "GL_TEXTURE0"),
    CallByRef("glGetIntegerv", ["GL_ACTIVE_TEXTURE"], "active_texture"),
    DeclZero("GLint", "max_texture_coords"),
    CallByRef("glGetIntegerv", ["GL_MAX_TEXTURE_COORDS"], "max_texture_coords"),
    DeclZero("GLint", "max_combined_texture_image_units"),
    CallByRef("glGetIntegerv", ["GL_MAX_COMBINED_TEXTURE_IMAGE_UNITS"], "max_combined_texture_image_units"),
    DeclMax("max_units", "max_combined_texture_image_units", "max_texture_coords")
  ]

  /** The head of the unit loop, up to the target blocks. */
  const UnitHead: seq<Stmt> := [
    ForCount("unit", "max_units"),
    DeclNameBuffer,
    FormatName("GL_TEXTURE", "unit"),
    BeginMember(NameBuffer),
    ActiveTexture("GL_TEXTURE0 + unit"),
    BeginObject,
    DeclUninit("GLint", "texture"),
    Blank
  ]

  /** What it prints after them: close the unit, the loop, restore the
      active unit, close the block. */
  const TextureEpilogue: seq<Stmt> := [EndObject, EndMember, CloseBlock, Restore, CloseBlock, Blank]

  function TextureParameters(params: seq<Param>, index: nat): (r: Emission)
    ensures var b := Blocks(params, TextureTargetBlocks, |TextureTargets|, index);
      r.failure == b.failure && r.index == b.index
  {
    Wrap(TexturePrologue, Blocks(params, TextureTargetBlocks, |TextureTargets|, index), TextureEpilogue)
  }

  /** `dump_material_params`: both faces, then a blank line. */
  function MaterialParams(params: seq<Param>, index: nat): Emission {
    Wrap([], Blocks(params, MaterialFaces, |Faces|, index), [Blank])
  }

  /** `dump_texenv_params`. */
  function TexEnvParams(params: seq<Param>, index: nat): Emission {
    Blocks(params, TexEnvs, |TexEnvTargets|, index)
  }

  /** `dump_program_params`. */
  function ProgramParams(params: seq<Param>, index: nat): Emission {
    Blocks(params, Programs, |ProgramTargets|, index)
  }

  /** The seven calls of `dumpParameters`, in order. */
  const PartCount := 7

  function Part(params: seq<Param>, k: nat, index: nat): Emission
    requires k < PartCount
  {
    if k == 0 then DumpAtoms(params, glGet, [], index)
    else if k == 1 then MaterialParams(params, index)
    else if k == 2 then LightParams(params, index)
    else if k == 3 then VertexAttribs(params, index)
    else if k == 4 then TexEnvParams(params, index)
    else if k == 5 then ProgramParams(params, index)
    else TextureParameters(params, index)
  }

  function Parts(params: seq<Param>, n: nat, index: nat): Emission
    requires n <= PartCount
    decreases n
  {
    if n == 0 then Nothing(index)
    else
      var prev := Parts(params, n - 1, index);
      if prev.failure.Some? then prev
      else Then(prev, Part(params, n - 1, prev.index))
  }

  /** One more part after a run that did not raise. */
  lemma PartsNext(params: seq<Param>, k: nat, index: nat)
    requires k < PartCount
    requires Parts(params, k, index).failure.None?
    ensures var done := Parts(params, k, index);
      Parts(params, k + 1, index) == Then(done, Part(params, k, done.index))
  {
  }

  /** The run after one more part: what has been printed after `base`,
      where the counter stands, and, if the part raised, the end of the run. */
  lemma PartsStep(params: seq<Param>, k: nat, from: nat, base: seq<Stmt>, before: seq<Stmt>,
                  part: Emission, out: seq<Stmt>)
    requires k < PartCount
    requires var done := Parts(params, k, from);
      done.failure.None? && before == base + done.stmts && part == Part(params, k, done.index)
    requires out == before + part.stmts
    ensures var e := Parts(params, k + 1, from);
      out == base + e.stmts && e.index == part.index && e.failure == part.failure
  {
    PartsNext(params, k, from);
    ThenOut(base, Parts(params, k, from), part, out);
  }

  /** Once a part raised, no later part runs. */
  lemma PartsStuckNext(params: seq<Param>, k: nat, index: nat)
    requires k < PartCount
    requires Parts(params, k, index).failure.Some?
    ensures Parts(params, k + 1, index) == Parts(params, k, index)
  {
  }

  /** The body of `dumpParameters`, between its braces: the "parameters"
      member holding one object. */
  function DumpParameters(params: seq<Param>, index: nat): (r: Emission)
    ensures var p := Parts(params, PartCount, index);
      r.failure == p.failure && r.index == p.index
  {
    Wrap([OpenBlock, BeginMember(Quoted("parameters")), BeginObject],
         Parts(params, PartCount, index),
         [EndObject, EndMember, CloseBlock, Blank])
  }

  // -----------------------------------------------------------------------
  // Structure of each part when it does not raise.

  /** A run that, if it did not raise, printed a well-formed stretch with
      `m` members left open and no texture unit switch. */
  predicate Kept(e: Emission, m: int) {
    e.failure.None? ==> Sound(e.stmts, m) && NoSwitch(e.stmts)
  }

  /** `beginMember(key)`, `plain`, then `body` as an object. */
  lemma ObjectSound(key: Key, plain: seq<Stmt>, body: seq<Stmt>, m: int)
    requires AllPlain(plain) && Sound(body, m)
    ensures Sound([BeginMember(key)] + (plain + ([BeginObject] + body + [EndObject])), m + 1)
  {
    Brackets();
    SoundEnclose(BeginObject, body, EndObject, Obj, m);
    SoundPlain(plain);
    SoundConcat(plain, [BeginObject] + body + [EndObject], 0, m);
    SoundMember(key);
    SoundConcat([BeginMember(key)], plain + ([BeginObject] + body + [EndObject]), 1, m);
  }

  /** The same, with the member ended after the object. */
  lemma ObjectMemberSound(key: Key, plain: seq<Stmt>, body: seq<Stmt>, m: int)
    requires AllPlain(plain) && Sound(body, m)
    ensures Sound([BeginMember(key)] + (plain + ([BeginObject] + body + [EndObject])) + [EndMember], m)
  {
    ObjectSound(key, plain, body, m);
    SoundMember(key);
    SoundConcat([BeginMember(key)] + (plain + ([BeginObject] + body + [EndObject])), [EndMember], m + 1, -1);
  }

  lemma KeptConcat(a: seq<Stmt>, b: seq<Stmt>, m: int, n: int)
    requires Sound(a, m) && NoSwitch(a) && Sound(b, n) && NoSwitch(b)
    ensures Sound(a + b, m + n) && NoSwitch(a + b)
  {
    SoundConcat(a, b, m, n);
    NoSwitchConcat(a, b);
  }

  lemma AtomsKept(params: seq<Param>, getter: StateGetter, args: seq<string>, index: nat)
    ensures Kept(DumpAtoms(params, getter, args, index), 0)
  {
    if DumpAtoms(params, getter, args, index).failure.None? {
      AtomsSettled(params, getter, args, |params|, index);
    }
  }

  lemma FaceKept(params: seq<Param>, face: string, index: nat)
    ensures Kept(FaceBlock(params, face, index), 1)
  {
    var atoms := DumpAtoms(params, glGetMaterial, [face], index);
    AtomsKept(params, glGetMaterial, [face], index);
    if atoms.failure.None? {
      UnendedObjectKept(Quoted(face), atoms.stmts);
    }
  }

  /** One member object around `body` whose member is never ended. */
  lemma UnendedObjectKept(key: Key, body: seq<Stmt>)
    requires Sound(body, 0) && NoSwitch(body)
    ensures var s := [BeginMember(key), BeginObject] + body + [EndObject];
      Sound(s, 1) && NoSwitch(s)
  {
    ObjectSound(key, [], body, 0);
    assert [BeginMember(key), BeginObject] + body + [EndObject]
      == [BeginMember(key)] + ([] + ([BeginObject] + body + [EndObject]));
    NoSwitchConcat([BeginMember(key), BeginObject] + body, [EndObject]);
  }

  /** A target block guarded by `open` holding one unended member object. */
  lemma GuardedObjectSound(open: Stmt, key: Key, body: seq<Stmt>)
    requires open == OpenBlock || open.If?
    requires open != If(GlError)
    requires Sound(body, 0)
    ensures Sound([open] + ([BeginMember(key)] + ([] + ([BeginObject] + body + [EndObject]))) + [CloseBlock], 1)
  {
    ObjectSound(key, [], body, 0);
    Brackets();
    SoundEnclose(open, [BeginMember(key)] + ([] + ([BeginObject] + body + [EndObject])), CloseBlock, Block, 1);
  }

  /** `open`, one unended member object around `body`, `}`. */
  lemma GuardedObjectKept(open: Stmt, key: Key, body: seq<Stmt>)
    requires open == OpenBlock || (open.If? && open != If(GlError))
    requires Sound(body, 0) && NoSwitch(body)
    ensures var s := [open, BeginMember(key), BeginObject] + body + [EndObject, CloseBlock];
      Sound(s, 1) && NoSwitch(s)
  {
    GuardedObjectSound(open, key, body);
    assert [open, BeginMember(key), BeginObject] + body + [EndObject, CloseBlock]
      == [open] + ([BeginMember(key)] + ([] + ([BeginObject] + body + [EndObject]))) + [CloseBlock];
    NoSwitchConcat([open, BeginMember(key), BeginObject] + body, [EndObject, CloseBlock]);
  }

  lemma TexEnvKept(params: seq<Param>, target: string, index: nat)
    ensures Kept(TexEnvBlock(params, target, index), 1)
  {
    var atoms := DumpAtoms(params, glGetTexEnv, [target], index);
    AtomsKept(params, glGetTexEnv, [target], index);
    if atoms.failure.None? {
      var open := if target != "GL_TEXTURE_FILTER_CONTROL" then If(IsEnabled(target)) else OpenBlock;
      GuardedObjectKept(open, Quoted(target), atoms.stmts);
    }
  }

  lemma ProgramKept(params: seq<Param>, target: string, index: nat)
    ensures Kept(ProgramBlock(params, target, index), 1)
  {
    var atoms := DumpAtoms(params, glGetProgramARB, [target], index);
    AtomsKept(params, glGetProgramARB, [target], index);
    if atoms.failure.None? {
      GuardedObjectKept(If(IsEnabled(target)), Quoted(target), atoms.stmts);
    }
  }

  lemma TextureAtomsKept(params: seq<Param>, target: string, index: nat)
    ensures Kept(TextureAtoms(params, target, index), 0)
  {
    var a := DumpAtoms(params, glGetTexParameter, [target], index);
    AtomsKept(params, glGetTexParameter, [target], index);
    if a.failure.None? {
      var b := DumpAtoms(params, glGetTexLevelParameter, [target, "0"], a.index);
      AtomsKept(params, glGetTexLevelParameter, [target, "0"], a.index);
      if b.failure.None? {
        SoundConcat(a.stmts, b.stmts, 0, 0);
        NoSwitchConcat(a.stmts, b.stmts);
      }
    }
  }

  /** The statements of one texture target block around `body`. */
  function TextureBlockText(target: string, binding: string, body: seq<Stmt>): seq<Stmt> {
    [Comment(target), AssignZero("texture"), CallByRef("glGetIntegerv", [binding], "texture"),
     If(IsEnabledOr(target, "texture")), BeginMember(Quoted(target)), BeginObject]
    + body + [EndObject, EndMember, CloseBlock, Blank]
  }

  lemma TextureBlockTextKept(target: string, binding: string, body: seq<Stmt>)
    requires Sound(body, 0) && NoSwitch(body)
    ensures Sound(TextureBlockText(target, binding, body), 0) && NoSwitch(TextureBlockText(target, binding, body))
  {
    TextureBlockTextSound(target, binding, body);
    var head := [Comment(target), AssignZero("texture"), CallByRef("glGetIntegerv", [binding], "texture"),
                 If(IsEnabledOr(target, "texture")), BeginMember(Quoted(target)), BeginObject];
    NoSwitchConcat(head, body);
    NoSwitchConcat(head + body, [EndObject, EndMember, CloseBlock, Blank]);
  }

  lemma TextureBlockTextSound(target: string, binding: string, body: seq<Stmt>)
    requires Sound(body, 0)
    ensures Sound(TextureBlockText(target, binding, body), 0)
  {
    var head := [Comment(target), AssignZero("texture"), CallByRef("glGetIntegerv", [binding], "texture")];
    var guarded := [If(IsEnabledOr(target, "texture"))]
      + ([BeginMember(Quoted(target))] + ([] + ([BeginObject] + body + [EndObject])) + [EndMember]) + [CloseBlock];
    EnabledOrBoundSound(target, body);
    SoundPlain(head);
    SoundPlain([Blank]);
    SoundConcat(head, guarded, 0, 0);
    SoundConcat(head + guarded, [Blank], 0, 0);
    TextureBlockTextNested(target, binding, body);
  }

  /** `if (glIsEnabled(target) || texture) { member object }` */
  lemma EnabledOrBoundSound(target: string, body: seq<Stmt>)
    requires Sound(body, 0)
    ensures Sound([If(IsEnabledOr(target, "texture"))]
      + ([BeginMember(Quoted(target))] + ([] + ([BeginObject] + body + [EndObject])) + [EndMember]) + [CloseBlock], 0)
  {
    var member := [BeginMember(Quoted(target))] + ([] + ([BeginObject] + body + [EndObject])) + [EndMember];
    ObjectMemberSound(Quoted(target), [], body, 0);
    Brackets();
    SoundEnclose(If(IsEnabledOr(target, "texture")), member, CloseBlock, Block, 0);
  }

  lemma TextureBlockTextNested(target: string, binding: string, body: seq<Stmt>)
    ensures TextureBlockText(target, binding, body)
      == [Comment(target), AssignZero("texture"), CallByRef("glGetIntegerv", [binding], "texture")]
         + ([If(IsEnabledOr(target, "texture"))]
            + ([BeginMember(Quoted(target))] + ([] + ([BeginObject] + body + [EndObject])) + [EndMember])
            + [CloseBlock])
         + [Blank]
  {
  }

  lemma TextureTargetKept(params: seq<Param>, target: string, binding: string, index: nat)
    ensures Kept(TextureBlock(params, target, binding, index), 0)
  {
    var atoms := TextureAtoms(params, target, index);
    TextureAtomsKept(params, target, index);
    if atoms.failure.None? {
      TextureBlockTextKept(target, binding, atoms.stmts);
      assert TextureBlock(params, target, binding, index).stmts == TextureBlockText(target, binding, atoms.stmts);
    }
  }

  /** One texture target, when it does not raise: three plain statements
      read the binding, then `if (glIsEnabled(target) || texture) {` opens a
      brace that only the block's last `}` closes, and every member the
      block begins lies inside it: the target's own, then one per selected
      row of glGetTexParameter and one per selected row of
      glGetTexLevelParameter (level 0), in table order. */
  lemma TextureTargetGated(params: seq<Param>, target: string, binding: string, index: nat)
    requires TextureBlock(params, target, binding, index).failure.None?
    ensures var s := TextureBlock(params, target, binding, index).stmts;
      && |s| >= 6 && AllPlain(s[..3]) && s[3] == If(IsEnabledOr(target, "texture"))
      && s[|s| - 2..] == [CloseBlock, Blank]
      && Balanced(s[4..|s| - 2])
      && Members(s[4..|s| - 2]) == [Quoted(target)]
           + SelectedKeys(glGetTexParameter, params) + SelectedKeys(glGetTexLevelParameter, params)
  {
    var atoms := TextureAtoms(params, target, index);
    TextureAtomsMembers(params, target, index);
    TextureAtomsKept(params, target, index);
    assert TextureBlock(params, target, binding, index).stmts == TextureBlockText(target, binding, atoms.stmts);
    TextureBlockTextGated(target, binding, atoms.stmts);
    MemberObject(Quoted(target), atoms.stmts);
  }

  /** Both families' atoms, in order: their members are the selected rows
      of glGetTexParameter, then those of glGetTexLevelParameter. */
  lemma TextureAtomsMembers(params: seq<Param>, target: string, index: nat)
    requires TextureAtoms(params, target, index).failure.None?
    ensures Members(TextureAtoms(params, target, index).stmts)
      == SelectedKeys(glGetTexParameter, params) + SelectedKeys(glGetTexLevelParameter, params)
  {
    var a := DumpAtoms(params, glGetTexParameter, [target], index);
    var b := DumpAtoms(params, glGetTexLevelParameter, [target, "0"], a.index);
    assert params[..|params|] == params;
    AtomsSettled(params, glGetTexParameter, [target], |params|, index);
    AtomsSettled(params, glGetTexLevelParameter, [target, "0"], |params|, a.index);
    MembersConcat(a.stmts, b.stmts);
  }

  lemma TextureBlockTextGated(target: string, binding: string, body: seq<Stmt>)
    ensures var s := TextureBlockText(target, binding, body);
      && |s| >= 6 && AllPlain(s[..3]) && s[3] == If(IsEnabledOr(target, "texture"))
      && s[|s| - 2..] == [CloseBlock, Blank]
      && s[4..|s| - 2] == [BeginMember(Quoted(target))] + ([BeginObject] + body + [EndObject]) + [EndMember]
  {
  }

  /** A member whose value is an object around a balanced `body`. */
  lemma MemberObject(key: Key, body: seq<Stmt>)
    requires Balanced(body)
    ensures var s := [BeginMember(key)] + ([BeginObject] + body + [EndObject]) + [EndMember];
      Balanced(s) && Members(s) == [key] + Members(body)
  {
    var obj := [BeginObject] + body + [EndObject];
    ObjectBalanced(body);
    SoundMember(key);
    BalancedConcat([BeginMember(key)], obj);
    BalancedConcat([BeginMember(key)] + obj, [EndMember]);
    ObjectMembers(body);
    MembersConcat([BeginMember(key)], obj);
    MembersConcat([BeginMember(key)] + obj, [EndMember]);
    MembersOne(BeginMember(key));
    MembersOne(EndMember);
  }

  lemma ObjectBalanced(body: seq<Stmt>)
    requires Balanced(body)
    ensures Balanced([BeginObject] + body + [EndObject])
  {
    Brackets();
    Bracket(BeginObject, body, EndObject, Obj);
  }

  lemma ObjectMembers(body: seq<Stmt>)
    ensures Members([BeginObject] + body + [EndObject]) == Members(body)
  {
    MembersConcat([BeginObject], body);
    MembersConcat([BeginObject] + body, [EndObject]);
    MembersOne(BeginObject);
    MembersOne(EndObject);
  }

  /** `dump_texture_parameters`, when it does not raise: the unit count is
      declared as the larger of the two limits, then `for (unit = 0; unit <
      max_units; ...)` opens a brace that the loop's own `}` closes; inside
      it, the unit is made active with `glActiveTexture(GL_TEXTURE0 + unit)`
      before the target blocks. */
  lemma TextureUnitLoop(params: seq<Param>, index: nat)
    requires TextureParameters(params, index).failure.None?
    ensures var s := TextureParameters(params, index).stmts;
      var blocks := Blocks(params, TextureTargetBlocks, TargetCount(TextureTargetBlocks), index).stmts;
      && |s| == 22 + |blocks|
      && s[7] == DeclMax("max_units", "max_combined_texture_image_units", "max_texture_coords")
      && s[8] == ForCount("unit", "max_units") && s[|s| - 4] == CloseBlock
      && Balanced(s[9..|s| - 4])
      && s[12] == ActiveTexture("GL_TEXTURE0 + unit")
      && s[16..|s| - 6] == blocks
  {
    var blocks := Blocks(params, TextureTargetBlocks, TargetCount(TextureTargetBlocks), index).stmts;
    assert TextureParameters(params, index).stmts == TexturePrologue + blocks + TextureEpilogue;
    BlocksKept(params, TextureTargetBlocks, TargetCount(TextureTargetBlocks), index);
    TextureTextLoop(blocks);
  }

  lemma TextureTextLoop(body: seq<Stmt>)
    requires Sound(body, 0)
    ensures var s := TexturePrologue + body + TextureEpilogue;
      && |s| == 22 + |body|
      && s[7] == DeclMax("max_units", "max_combined_texture_image_units", "max_texture_coords")
      && s[8] == ForCount("unit", "max_units") && s[|s| - 4] == CloseBlock
      && Balanced(s[9..|s| - 4])
      && s[12] == ActiveTexture("GL_TEXTURE0 + unit")
      && s[16..|s| - 6] == body
  {
    var locals := [DeclUninit("GLint", "texture"), Blank];
    var name := [DeclNameBuffer, FormatName("GL_TEXTURE", "unit")];
    UnitLoopPlain();
    SoundPlain(locals);
    SoundConcat(locals, body, 0, 0);
    NamedSound(name, [ActiveTexture("GL_TEXTURE0 + unit")], locals + body);
    UnitLoopBody(body);
  }

  lemma UnitLoopBody(body: seq<Stmt>)
    ensures var s := TexturePrologue + body + TextureEpilogue;
      && |s| == 22 + |body|
      && s[7] == DeclMax("max_units", "max_combined_texture_image_units", "max_texture_coords")
      && s[8] == ForCount("unit", "max_units") && s[|s| - 4] == CloseBlock
      && s[12] == ActiveTexture("GL_TEXTURE0 + unit")
      && s[16..|s| - 6] == body
      && s[9..|s| - 4] == [DeclNameBuffer, FormatName("GL_TEXTURE", "unit")]
           + NamedObject([ActiveTexture("GL_TEXTURE0 + unit")], [DeclUninit("GLint", "texture"), Blank] + body)
  {
  }

  lemma TargetBlockKept(params: seq<Param>, g: Group, i: nat, index: nat)
    requires i < TargetCount(g)
    ensures Kept(TargetBlock(params, g, i, index), OpenMembers(g))
  {
    match g {
      case MaterialFaces => FaceKept(params, Faces[i], index);
      case TexEnvs => TexEnvKept(params, TexEnvTargets[i], index);
      case Programs => ProgramKept(params, ProgramTargets[i], index);
      case TextureTargetBlocks => TextureTargetKept(params, TextureTargets[i].0, TextureTargets[i].1, index);
    }
  }

  /** The loop over `n` targets leaves `n` times the group's open members. */
  lemma {:induction false} BlocksKept(params: seq<Param>, g: Group, n: nat, index: nat)
    requires n <= TargetCount(g)
    ensures Kept(Blocks(params, g, n, index), OpenAfter(g, n))
    decreases n
  {
    if n == 0 {
      SoundPlain([]);
    } else {
      BlocksKept(params, g, n - 1, index);
      BlocksKeptNext(params, g, n - 1, index);
    }
  }

  lemma BlocksKeptNext(params: seq<Param>, g: Group, k: nat, index: nat)
    requires k < TargetCount(g)
    requires Kept(Blocks(params, g, k, index), OpenAfter(g, k))
    ensures Kept(Blocks(params, g, k + 1, index), OpenAfter(g, k + 1))
  {
    var prev := Blocks(params, g, k, index);
    if prev.failure.None? {
      var b := TargetBlock(params, g, k, prev.index);
      BlocksNext(params, g, k, index);
      TargetBlockKept(params, g, k, prev.index);
      KeptThen(prev, b, OpenAfter(g, k), OpenMembers(g));
    }
  }

  lemma KeptThen(a: Emission, b: Emission, m: int, n: int)
    requires a.failure.None? && Kept(a, m) && Kept(b, n)
    ensures Kept(Then(a, b), m + n)
  {
    if b.failure.None? {
      KeptConcat(a.stmts, b.stmts, m, n);
    }
  }

  // -----------------------------------------------------------------------
  // The loops over lights, vertex attributes and texture units.

  /** `beginMember(name buffer)`, `plain`, an object around `body`,
      `endMember`. */
  function NamedObject(plain: seq<Stmt>, body: seq<Stmt>): seq<Stmt> {
    [BeginMember(NameBuffer)] + (plain + ([BeginObject] + body + [EndObject])) + [EndMember]
  }

  function LightText(body: seq<Stmt>): seq<Stmt> {
    [DeclZero("GLint", "max_lights"), CallByRef("__glGetIntegerv", ["GL_MAX_LIGHTS"], "max_lights"),
     ForCount("index", "max_lights"), DeclInit("GLenum", "light", "GL_LIGHT0 + index"),
     If(IsEnabled("light")), DeclNameBuffer, FormatName("GL_LIGHT", "index"),
     BeginMember(NameBuffer), BeginObject]
    + body + [EndObject, EndMember, CloseBlock, CloseBlock, Blank]
  }

  lemma LightTextNested(body: seq<Stmt>)
    ensures LightText(body)
      == [DeclZero("GLint", "max_lights"), CallByRef("__glGetIntegerv", ["GL_MAX_LIGHTS"], "max_lights")]
         + ([ForCount("index", "max_lights")]
            + ([DeclInit("GLenum", "light", "GL_LIGHT0 + index")]
               + ([If(IsEnabled("light"))]
                  + ([DeclNameBuffer, FormatName("GL_LIGHT", "index")] + NamedObject([], body))
                  + [CloseBlock]))
            + [CloseBlock])
         + [Blank]
  {
  }

  /** `plain`, then `open` ... `}` around a sound stretch. */
  lemma PlainThenBlock(plain: seq<Stmt>, open: Stmt, body: seq<Stmt>)
    requires AllPlain(plain) && Sound(body, 0)
    requires (open.If? && open != If(GlError)) || open.ForCount? || open == OpenBlock
    ensures Sound(plain + ([open] + body + [CloseBlock]), 0)
  {
    Brackets();
    SoundEnclose(open, body, CloseBlock, Block, 0);
    SoundPlain(plain);
    SoundConcat(plain, [open] + body + [CloseBlock], 0, 0);
  }

  /** `plain`, `open` ... `}` around a sound stretch, then a blank line. */
  lemma BlockThenBlank(plain: seq<Stmt>, open: Stmt, body: seq<Stmt>)
    requires AllPlain(plain) && Sound(body, 0)
    requires (open.If? && open != If(GlError)) || open.ForCount? || open == OpenBlock
    ensures Sound(plain + ([open] + body + [CloseBlock]) + [Blank], 0)
  {
    PlainThenBlock(plain, open, body);
    SoundPlain([Blank]);
    SoundConcat(plain + ([open] + body + [CloseBlock]), [Blank], 0, 0);
  }

  /** The body of the light loop: the enabled light as a named object. */
  lemma EnabledLightSound(body: seq<Stmt>)
    requires Sound(body, 0)
    ensures Sound([DeclInit("GLenum", "light", "GL_LIGHT0 + index")]
                  + ([If(IsEnabled("light"))]
                     + ([DeclNameBuffer, FormatName("GL_LIGHT", "index")] + NamedObject([], body))
                     + [CloseBlock]), 0)
  {
    LightTextPlain();
    NamedSound([DeclNameBuffer, FormatName("GL_LIGHT", "index")], [], body);
    PlainThenBlock([DeclInit("GLenum", "light", "GL_LIGHT0 + index")], If(IsEnabled("light")),
                   [DeclNameBuffer, FormatName("GL_LIGHT", "index")] + NamedObject([], body));
  }

  lemma LightTextPlain()
    ensures AllPlain([DeclZero("GLint", "max_lights"), CallByRef("__glGetIntegerv", ["GL_MAX_LIGHTS"], "max_lights")])
    ensures AllPlain([DeclInit("GLenum", "light", "GL_LIGHT0 + index")])
    ensures AllPlain([DeclNameBuffer, FormatName("GL_LIGHT", "index")]) && AllPlain([])
  {
  }

  lemma LightTextSound(body: seq<Stmt>)
    requires Sound(body, 0)
    ensures Sound(LightText(body), 0)
  {
    EnabledLightSound(body);
    LightTextPlain();
    BlockThenBlank([DeclZero("GLint", "max_lights"), CallByRef("__glGetIntegerv", ["GL_MAX_LIGHTS"], "max_lights")],
                   ForCount("index", "max_lights"),
                   [DeclInit("GLenum", "light", "GL_LIGHT0 + index")]
                   + ([If(IsEnabled("light"))]
                      + ([DeclNameBuffer, FormatName("GL_LIGHT", "index")] + NamedObject([], body))
                      + [CloseBlock]));
    LightTextNested(body);
  }

  function VertexText(body: seq<Stmt>): seq<Stmt> {
    [DeclZero("GLint", "max_vertex_attribs"),
     CallByRef("__glGetIntegerv", ["GL_MAX_VERTEX_ATTRIBS"], "max_vertex_attribs"),
     ForCount("index", "max_vertex_attribs"), DeclNameBuffer, FormatName("GL_VERTEX_ATTRIB_ARRAY", "index"),
     BeginMember(NameBuffer), BeginObject]
    + body + [EndObject, EndMember, CloseBlock, Blank]
  }

  lemma VertexTextNested(body: seq<Stmt>)
    ensures VertexText(body)
      == [DeclZero("GLint", "max_vertex_attribs"),
          CallByRef("__glGetIntegerv", ["GL_MAX_VERTEX_ATTRIBS"], "max_vertex_attribs")]
         + ([ForCount("index", "max_vertex_attribs")]
            + ([DeclNameBuffer, FormatName("GL_VERTEX_ATTRIB_ARRAY", "index")] + NamedObject([], body))
            + [CloseBlock])
         + [Blank]
  {
  }

  lemma VertexTextSound(body: seq<Stmt>)
    requires Sound(body, 0)
    ensures Sound(VertexText(body), 0)
  {
    var head := [DeclZero("GLint", "max_vertex_attribs"),
                 CallByRef("__glGetIntegerv", ["GL_MAX_VERTEX_ATTRIBS"], "max_vertex_attribs")];
    var name := [DeclNameBuffer, FormatName("GL_VERTEX_ATTRIB_ARRAY", "index")];
    VertexTextPlain();
    NamedSound(name, [], body);
    BlockThenBlank(head, ForCount("index", "max_vertex_attribs"), name + NamedObject([], body));
    VertexTextNested(body);
  }

  lemma VertexTextPlain()
    ensures AllPlain([DeclZero("GLint", "max_vertex_attribs"),
                      CallByRef("__glGetIntegerv", ["GL_MAX_VERTEX_ATTRIBS"], "max_vertex_attribs")])
    ensures AllPlain([DeclNameBuffer, FormatName("GL_VERTEX_ATTRIB_ARRAY", "index")]) && AllPlain([])
  {
  }

  /** A name formatted into the buffer, then the member it names. */
  lemma NamedSound(name: seq<Stmt>, plain: seq<Stmt>, body: seq<Stmt>)
    requires AllPlain(name) && AllPlain(plain) && Sound(body, 0)
    ensures Sound(name + NamedObject(plain, body), 0)
  {
    ObjectMemberSound(NameBuffer, plain, body, 0);
    SoundPlain(name);
    SoundConcat(name, NamedObject(plain, body), 0, 0);
  }

  /** The unit loop of `dump_texture_parameters` around the target blocks. */
  function UnitLoop(body: seq<Stmt>): seq<Stmt> {
    [ForCount("unit", "max_units")]
    + ([DeclNameBuffer, FormatName("GL_TEXTURE", "unit")]
       + NamedObject([ActiveTexture("GL_TEXTURE0 + unit")], [DeclUninit("GLint", "texture"), Blank] + body))
    + [CloseBlock]
  }

  lemma TextureTextNested(body: seq<Stmt>)
    ensures TexturePrologue + body + TextureEpilogue
      == [OpenBlock] + (TextureLocals + UnitLoop(body) + [Restore]) + [CloseBlock] + [Blank]
  {
    UnitLoopFlat(body);
    assert TextureEpilogue == [EndObject, EndMember, CloseBlock] + [Restore] + [CloseBlock] + [Blank];
  }

  /** The unit loop as printed: its head, the blocks, and its three closers. */
  lemma UnitLoopFlat(body: seq<Stmt>)
    ensures UnitLoop(body) == UnitHead + body + [EndObject, EndMember, CloseBlock]
  {
  }

  lemma UnitLoopSound(body: seq<Stmt>)
    requires Sound(body, 0)
    ensures Sound(UnitLoop(body), 0)
  {
    var locals := [DeclUninit("GLint", "texture"), Blank];
    var name := [DeclNameBuffer, FormatName("GL_TEXTURE", "unit")];
    UnitLoopPlain();
    SoundPlain(locals);
    SoundConcat(locals, body, 0, 0);
    NamedSound(name, [ActiveTexture("GL_TEXTURE0 + unit")], locals + body);
    PlainThenBlock([], ForCount("unit", "max_units"), name + NamedObject([ActiveTexture("GL_TEXTURE0 + unit")], locals + body));
    assert [] + UnitLoop(body) == UnitLoop(body);
  }

  lemma UnitLoopPlain()
    ensures AllPlain([DeclUninit("GLint", "texture"), Blank]) && AllPlain([ActiveTexture("GL_TEXTURE0 + unit")])
    ensures AllPlain([DeclNameBuffer, FormatName("GL_TEXTURE", "unit")]) && AllPlain([])
  {
  }

  lemma TextureTextSound(body: seq<Stmt>)
    requires Sound(body, 0)
    ensures Sound(TexturePrologue + body + TextureEpilogue, 0)
  {
    UnitLoopSound(body);
    TextureLocalsPlain();
    TextureBlockSound(TextureLocals, UnitLoop(body));
    TextureTextNested(body);
  }

  lemma TextureBlockSound(locals: seq<Stmt>, loop: seq<Stmt>)
    requires AllPlain(locals) && Sound(loop, 0)
    ensures Sound([OpenBlock] + (locals + loop + [Restore]) + [CloseBlock] + [Blank], 0)
  {
    SoundPlain(locals);
    SoundPlain([Restore]);
    SoundConcat(locals, loop, 0, 0);
    SoundConcat(locals + loop, [Restore], 0, 0);
    BlockThenBlank([], OpenBlock, locals + loop + [Restore]);
    assert [] + ([OpenBlock] + (locals + loop + [Restore]) + [CloseBlock]) + [Blank]
      == [OpenBlock] + (locals + loop + [Restore]) + [CloseBlock] + [Blank];
  }

  // -----------------------------------------------------------------------
  // The parts of dumpParameters and the whole.

  /** Members each part leaves open: the two material faces, the three
      texture environment targets and the two ARB program targets. */
  function PartSurplus(k: nat): int
    requires k < PartCount
  {
    if k == 1 then 2 else if k == 4 then 3 else if k == 5 then 2 else 0
  }

  function PartsSurplus(n: nat): int
    requires n <= PartCount
  {
    (if n > 1 then 2 else 0) + (if n > 4 then 3 else 0) + (if n > 5 then 2 else 0)
  }

  /** A part's statements are well formed with the given surplus, unless it raised. */
  predicate SoundUnlessRaised(e: Emission, m: int) {
    e.failure.None? ==> Sound(e.stmts, m)
  }

  lemma SoundThen(a: Emission, b: Emission, m: int, n: int)
    requires a.failure.None? && SoundUnlessRaised(a, m) && SoundUnlessRaised(b, n)
    ensures SoundUnlessRaised(Then(a, b), m + n)
  {
    if b.failure.None? {
      SoundConcat(a.stmts, b.stmts, m, n);
    }
  }

  lemma MaterialParamsSound(params: seq<Param>, index: nat)
    ensures SoundUnlessRaised(MaterialParams(params, index), 2)
  {
    var b := Blocks(params, MaterialFaces, TargetCount(MaterialFaces), index);
    BlocksKept(params, MaterialFaces, TargetCount(MaterialFaces), index);
    if b.failure.None? {
      SoundPlain([Blank]);
      SoundConcat(b.stmts, [Blank], 2, 0);
      assert MaterialParams(params, index).stmts == b.stmts + [Blank];
    }
  }

  lemma LightParamsSound(params: seq<Param>, index: nat)
    ensures SoundUnlessRaised(LightParams(params, index), 0)
  {
    var a := DumpAtoms(params, glGetLight, ["    GL_LIGHT0 + index"], index);
    AtomsKept(params, glGetLight, ["    GL_LIGHT0 + index"], index);
    if a.failure.None? {
      LightTextSound(a.stmts);
      assert LightParams(params, index).stmts == LightText(a.stmts);
    }
  }

  lemma VertexAttribsSound(params: seq<Param>, index: nat)
    ensures SoundUnlessRaised(VertexAttribs(params, index), 0)
  {
    var a := DumpAtoms(params, glGetVertexAttrib, ["index"], index);
    AtomsKept(params, glGetVertexAttrib, ["index"], index);
    if a.failure.None? {
      VertexTextSound(a.stmts);
      assert VertexAttribs(params, index).stmts == VertexText(a.stmts);
    }
  }

  lemma TextureParametersSound(params: seq<Param>, index: nat)
    ensures SoundUnlessRaised(TextureParameters(params, index), 0)
  {
    var b := Blocks(params, TextureTargetBlocks, TargetCount(TextureTargetBlocks), index);
    BlocksKept(params, TextureTargetBlocks, TargetCount(TextureTargetBlocks), index);
    if b.failure.None? {
      TextureTextSound(b.stmts);
    }
  }

  lemma PartSound(params: seq<Param>, k: nat, index: nat)
    requires k < PartCount
    ensures SoundUnlessRaised(Part(params, k, index), PartSurplus(k))
  {
    if k == 0 {
      AtomsKept(params, glGet, [], index);
    } else if k == 1 {
      MaterialParamsSound(params, index);
    } else if k == 2 {
      LightParamsSound(params, index);
    } else if k == 3 {
      VertexAttribsSound(params, index);
    } else if k == 4 {
      BlocksKept(params, TexEnvs, TargetCount(TexEnvs), index);
    } else if k == 5 {
      BlocksKept(params, Programs, TargetCount(Programs), index);
    } else {
      TextureParametersSound(params, index);
    }
  }

  lemma {:induction false} PartsSound(params: seq<Param>, n: nat, index: nat)
    requires n <= PartCount
    ensures SoundUnlessRaised(Parts(params, n, index), PartsSurplus(n))
    decreases n
  {
    if n == 0 {
      SoundPlain([]);
    } else {
      PartsSound(params, n - 1, index);
      PartsSoundNext(params, n - 1, index);
    }
  }

  lemma PartsSoundNext(params: seq<Param>, k: nat, index: nat)
    requires k < PartCount
    requires SoundUnlessRaised(Parts(params, k, index), PartsSurplus(k))
    ensures SoundUnlessRaised(Parts(params, k + 1, index), PartsSurplus(k + 1))
  {
    var prev := Parts(params, k, index);
    if prev.failure.None? {
      PartsNext(params, k, index);
      PartSound(params, k, prev.index);
      SoundThen(prev, Part(params, k, prev.index), PartsSurplus(k), PartSurplus(k));
    }
  }

  /** The texture block restores the active texture unit exactly once, as
      its last statement before its closing brace, when only that block's
      own brace is still open (so after the unit loop has ended). */
  lemma TextureRestoredAfterLoop(params: seq<Param>, index: nat)
    requires TextureParameters(params, index).failure.None?
    ensures var s := TextureParameters(params, index).stmts;
      && |s| >= 3 && s[|s| - 3..] == [Restore, CloseBlock, Blank]
      && Nest(s[..|s| - 3], []) == Some([Block])
      && Restore !in s[..|s| - 3]
  {
    var b := Blocks(params, TextureTargetBlocks, TargetCount(TextureTargetBlocks), index);
    var s := TextureParameters(params, index).stmts;
    assert s == TexturePrologue + b.stmts + TextureEpilogue;
    BlocksKept(params, TextureTargetBlocks, TargetCount(TextureTargetBlocks), index);
    TextureInnerSound(b.stmts);
    TextureTextNested(b.stmts);
    RestoreNotInPrologue(b.stmts);
    RestoreLast(s, TextureLocals + UnitLoop(b.stmts));
  }

  lemma TextureInnerSound(body: seq<Stmt>)
    requires Sound(body, 0)
    ensures Sound(TextureLocals + UnitLoop(body), 0)
  {
    UnitLoopSound(body);
    TextureLocalsPlain();
    SoundPlain(TextureLocals);
    SoundConcat(TextureLocals, UnitLoop(body), 0, 0);
  }

  lemma TextureLocalsPlain()
    ensures AllPlain(TextureLocals)
  {
  }

  /** `{`, a balanced stretch, the restore, `}`. */
  lemma RestoreLast(s: seq<Stmt>, inner: seq<Stmt>)
    requires Balanced(inner)
    requires s == [OpenBlock] + (inner + [Restore]) + [CloseBlock] + [Blank]
    ensures |s| >= 3 && s[|s| - 3..] == [Restore, CloseBlock, Blank]
    ensures s[..|s| - 3] == [OpenBlock] + inner
    ensures Nest([OpenBlock] + inner, []) == Some([Block])
  {
    NestCons(OpenBlock, inner, []);
    Brackets();
    NestShift(inner, [], [], [Block]);
    assert [Block] + [] == [Block];
  }

  lemma RestoreNotInPrologue(body: seq<Stmt>)
    requires NoSwitch(body)
    ensures Restore !in [OpenBlock] + (TextureLocals + UnitLoop(body))
  {
    UnitLoopFlat(body);
    RestoreNotInFrame();
    assert forall k :: 0 <= k < |body| ==> body[k] != Restore;
    assert [OpenBlock] + (TextureLocals + UnitLoop(body))
      == [OpenBlock] + (TextureLocals + (UnitHead + body + [EndObject, EndMember, CloseBlock]));
  }

  lemma RestoreNotInFrame()
    ensures Restore !in [OpenBlock] && Restore !in TextureLocals && Restore !in UnitHead
    ensures Restore !in [EndObject, EndMember, CloseBlock]
  {
  }

  /** dumpParameters, when generation does not raise, prints well-formed
      code (every brace, object and array closed innermost first; every
      error branch empty) in which seven members are begun and never ended:
      the two material faces, the three texture environment targets and
      the two ARB program targets. */
  lemma DumpParametersWellFormed(params: seq<Param>, index: nat)
    requires DumpParameters(params, index).failure.None?
    ensures WellFormed(DumpParameters(params, index).stmts)
    ensures Surplus(DumpParameters(params, index).stmts) == 7
  {
    var p := Parts(params, PartCount, index);
    PartsSound(params, PartCount, index);
    assert PartsSurplus(PartCount) == 7;
    DocumentSound(p.stmts, 7);
  }

  /** The function body around the parts: the "parameters" member. */
  lemma DocumentSound(body: seq<Stmt>, m: int)
    requires Sound(body, m)
    ensures Sound([OpenBlock, BeginMember(Quoted("parameters")), BeginObject] + body
                  + [EndObject, EndMember, CloseBlock, Blank], m)
  {
    ObjectMemberSound(Quoted("parameters"), [], body, m);
    var member := [BeginMember(Quoted("parameters"))] + ([] + ([BeginObject] + body + [EndObject])) + [EndMember];
    Brackets();
    SoundEnclose(OpenBlock, member, CloseBlock, Block, m);
    SoundPlain([Blank]);
    SoundConcat([OpenBlock] + member + [CloseBlock], [Blank], m, 0);
    DocumentNested(body);
  }

  lemma DocumentNested(body: seq<Stmt>)
    ensures [OpenBlock, BeginMember(Quoted("parameters")), BeginObject] + body + [EndObject, EndMember, CloseBlock, Blank]
      == [OpenBlock] + ([BeginMember(Quoted("parameters"))] + ([] + ([BeginObject] + body + [EndObject])) + [EndMember])
         + [CloseBlock] + [Blank]
  {
  }

  // -----------------------------------------------------------------------
  // Array loop names across the whole dump.

  lemma DumpAtomsCounted(params: seq<Param>, getter: StateGetter, args: seq<string>, index: nat)
    ensures Counted(DumpAtoms(params, getter, args, index), index)
  {
    AtomsCounted(params, getter, args, |params|, index);
  }

  /** A part printed around a counted run by loop-free statements. */
  lemma WrappedCounted(pre: seq<Stmt>, e: Emission, post: seq<Stmt>, index: nat)
    requires Counted(e, index)
    requires forall k :: 0 <= k < |pre| ==> !pre[k].ForIndex?
    requires forall k :: 0 <= k < |post| ==> !post[k].ForIndex?
    ensures Counted(Wrap(pre, e, post), index)
  {
    NoLoops(pre);
    NoLoops(post);
    WrapCounted(pre, e, post, index);
  }

  lemma FaceBlockCounted(params: seq<Param>, face: string, index: nat)
    ensures Counted(FaceBlock(params, face, index), index)
  {
    DumpAtomsCounted(params, glGetMaterial, [face], index);
    WrappedCounted([BeginMember(Quoted(face)), BeginObject],
                   DumpAtoms(params, glGetMaterial, [face], index), [EndObject], index);
  }

  lemma TexEnvBlockCounted(params: seq<Param>, target: string, index: nat)
    ensures Counted(TexEnvBlock(params, target, index), index)
  {
    var open := if target != "GL_TEXTURE_FILTER_CONTROL" then If(IsEnabled(target)) else OpenBlock;
    DumpAtomsCounted(params, glGetTexEnv, [target], index);
    WrappedCounted([open, BeginMember(Quoted(target)), BeginObject],
                   DumpAtoms(params, glGetTexEnv, [target], index), [EndObject, CloseBlock], index);
  }

  lemma ProgramBlockCounted(params: seq<Param>, target: string, index: nat)
    ensures Counted(ProgramBlock(params, target, index), index)
  {
    DumpAtomsCounted(params, glGetProgramARB, [target], index);
    WrappedCounted([If(IsEnabled(target)), BeginMember(Quoted(target)), BeginObject],
                   DumpAtoms(params, glGetProgramARB, [target], index), [EndObject, CloseBlock], index);
  }

  lemma TextureAtomsCounted(params: seq<Param>, target: string, index: nat)
    ensures Counted(TextureAtoms(params, target, index), index)
  {
    var a := DumpAtoms(params, glGetTexParameter, [target], index);
    DumpAtomsCounted(params, glGetTexParameter, [target], index);
    if a.failure.None? {
      DumpAtomsCounted(params, glGetTexLevelParameter, [target, "0"], a.index);
      ThenCounted(a, DumpAtoms(params, glGetTexLevelParameter, [target, "0"], a.index), index);
    }
  }

  lemma TextureBlockCounted(params: seq<Param>, target: string, binding: string, index: nat)
    ensures Counted(TextureBlock(params, target, binding, index), index)
  {
    TextureAtomsCounted(params, target, index);
    WrappedCounted([Comment(target), AssignZero("texture"), CallByRef("glGetIntegerv", [binding], "texture"),
                    If(IsEnabledOr(target, "texture")), BeginMember(Quoted(target)), BeginObject],
                   TextureAtoms(params, target, index), [EndObject, EndMember, CloseBlock, Blank], index);
  }

  lemma TargetBlockCounted(params: seq<Param>, g: Group, i: nat, index: nat)
    requires i < TargetCount(g)
    ensures Counted(TargetBlock(params, g, i, index), index)
  {
    match g {
      case MaterialFaces => FaceBlockCounted(params, Faces[i], index);
      case TexEnvs => TexEnvBlockCounted(params, TexEnvTargets[i], index);
      case Programs => ProgramBlockCounted(params, ProgramTargets[i], index);
      case TextureTargetBlocks =>
        TextureBlockCounted(params, TextureTargets[i].0, TextureTargets[i].1, index);
    }
  }

  lemma BlocksCountedNext(params: seq<Param>, g: Group, k: nat, index: nat)
    requires k < TargetCount(g)
    requires Counted(Blocks(params, g, k, index), index)
    ensures Counted(Blocks(params, g, k + 1, index), index)
  {
    var prev := Blocks(params, g, k, index);
    if prev.failure.None? {
      BlocksNext(params, g, k, index);
      TargetBlockCounted(params, g, k, prev.index);
      ThenCounted(prev, TargetBlock(params, g, k, prev.index), index);
    }
  }

  lemma {:induction false} BlocksCounted(params: seq<Param>, g: Group, n: nat, index: nat)
    requires n <= TargetCount(g)
    ensures Counted(Blocks(params, g, n, index), index)
    decreases n
  {
    if n == 0 {
      assert LoopVars([]) == [] == LoopVarRange(index, index);
    } else {
      BlocksCounted(params, g, n - 1, index);
      BlocksCountedNext(params, g, n - 1, index);
    }
  }

  lemma MaterialParamsCounted(params: seq<Param>, index: nat)
    ensures Counted(MaterialParams(params, index), index)
  {
    BlocksCounted(params, MaterialFaces, TargetCount(MaterialFaces), index);
    WrappedCounted([], Blocks(params, MaterialFaces, TargetCount(MaterialFaces), index), [Blank], index);
  }

  lemma LightParamsCounted(params: seq<Param>, index: nat)
    ensures Counted(LightParams(params, index), index)
  {
    DumpAtomsCounted(params, glGetLight, ["    GL_LIGHT0 + index"], index);
    WrappedCounted([DeclZero("GLint", "max_lights"), CallByRef("__glGetIntegerv", ["GL_MAX_LIGHTS"], "max_lights"),
                    ForCount("index", "max_lights"), DeclInit("GLenum", "light", "GL_LIGHT0 + index"),
                    If(IsEnabled("light")), DeclNameBuffer, FormatName("GL_LIGHT", "index"),
                    BeginMember(NameBuffer), BeginObject],
                   DumpAtoms(params, glGetLight, ["    GL_LIGHT0 + index"], index),
                   [EndObject, EndMember, CloseBlock, CloseBlock, Blank], index);
  }

  lemma VertexAttribsCounted(params: seq<Param>, index: nat)
    ensures Counted(VertexAttribs(params, index), index)
  {
    DumpAtomsCounted(params, glGetVertexAttrib, ["index"], index);
    WrappedCounted([DeclZero("GLint", "max_vertex_attribs"),
                    CallByRef("__glGetIntegerv", ["GL_MAX_VERTEX_ATTRIBS"], "max_vertex_attribs"),
                    ForCount("index", "max_vertex_attribs"), DeclNameBuffer,
                    FormatName("GL_VERTEX_ATTRIB_ARRAY", "index"), BeginMember(NameBuffer), BeginObject],
                   DumpAtoms(params, glGetVertexAttrib, ["index"], index),
                   [EndObject, EndMember, CloseBlock, Blank], index);
  }

  lemma TextureParametersCounted(params: seq<Param>, index: nat)
    ensures Counted(TextureParameters(params, index), index)
  {
    BlocksCounted(params, TextureTargetBlocks, TargetCount(TextureTargetBlocks), index);
    TextureFrameNoLoops();
    WrappedCounted(TexturePrologue, Blocks(params, TextureTargetBlocks, TargetCount(TextureTargetBlocks), index),
                   TextureEpilogue, index);
  }

  /** The unit loop is a `for` over `unit`, not an array loop. */
  lemma TextureFrameNoLoops()
    ensures forall k :: 0 <= k < |TexturePrologue| ==> !TexturePrologue[k].ForIndex?
    ensures forall k :: 0 <= k < |TextureEpilogue| ==> !TextureEpilogue[k].ForIndex?
  {
  }

  lemma PartCounted(params: seq<Param>, k: nat, index: nat)
    requires k < PartCount
    ensures Counted(Part(params, k, index), index)
  {
    if k == 0 {
      DumpAtomsCounted(params, glGet, [], index);
    } else if k == 1 {
      MaterialParamsCounted(params, index);
    } else if k == 2 {
      LightParamsCounted(params, index);
    } else if k == 3 {
      VertexAttribsCounted(params, index);
    } else if k == 4 {
      BlocksCounted(params, TexEnvs, TargetCount(TexEnvs), index);
    } else if k == 5 {
      BlocksCounted(params, Programs, TargetCount(Programs), index);
    } else {
      TextureParametersCounted(params, index);
    }
  }

  lemma {:induction false} PartsCounted(params: seq<Param>, n: nat, index: nat)
    requires n <= PartCount
    ensures Counted(Parts(params, n, index), index)
    decreases n
  {
    if n == 0 {
      assert LoopVars([]) == [] == LoopVarRange(index, index);
    } else {
      PartsCounted(params, n - 1, index);
      PartsCountedNext(params, n - 1, index);
    }
  }

  lemma PartsCountedNext(params: seq<Param>, k: nat, index: nat)
    requires k < PartCount
    requires Counted(Parts(params, k, index), index)
    ensures Counted(Parts(params, k + 1, index), index)
  {
    var prev := Parts(params, k, index);
    if prev.failure.None? {
      PartsNext(params, k, index);
      PartCounted(params, k, prev.index);
      ThenCounted(prev, Part(params, k, prev.index), index);
    }
  }

  /** Every array loop dumpParameters prints, also in a run that raised,
      is indexed by a variable `__i<n>` drawn from the writer's counter in
      order, so no two of them share a name. */
  lemma DumpParametersLoopNames(params: seq<Param>, index: nat)
    ensures var e := DumpParameters(params, index);
      && index <= e.index
      && LoopVars(e.stmts) == LoopVarRange(index, e.index)
      && forall a, b :: 0 <= a < b < |LoopVars(e.stmts)| ==> LoopVars(e.stmts)[a] != LoopVars(e.stmts)[b]
  {
    DumpParametersCounted(params, index);
    CountedDistinct(DumpParameters(params, index), index);
  }

  lemma DumpParametersCounted(params: seq<Param>, index: nat)
    ensures Counted(DumpParameters(params, index), index)
  {
    PartsCounted(params, PartCount, index);
    WrappedCounted([OpenBlock, BeginMember(Quoted("parameters")), BeginObject], Parts(params, PartCount, index),
                   [EndObject, EndMember, CloseBlock, Blank], index);
  }

  /** The loops of a counted run have pairwise distinct index names. */
  lemma CountedDistinct(e: Emission, index: nat)
    requires Counted(e, index)
    ensures forall a, b :: 0 <= a < b < |LoopVars(e.stmts)| ==> LoopVars(e.stmts)[a] != LoopVars(e.stmts)[b]
  {
    LoopVarRangeDistinct(index, e.index);
  }
}
