/** JsonWriter: the type visitor that prints the statements writing a
    value through the generated program's `json` writer. */
module JsonWriter {
  import opened Results
  import opened Text
  import opened GlTypes
  import opened GeneratedCode

  /** The literal formats `visit_literal` writes as a number; the check
      spells the unsigned format 'Uint'. */
  const NumberFormats: seq<string> := ["SInt", "Uint", "Float", "Double"]

  /** `visit`: what writing `instance` of type `t` prints, with the class
      counter at `index` on entry.  The writer has no `visit_const`. */
  function Write(t: Type, instance: string, index: nat): (r: Emission)
    ensures index <= r.index
    ensures r.failure.None? ==> |r.stmts| > 0
    ensures r.failure.Some? ==> r.failure.value == NotImplemented || r.failure.value == AssertionFailed
    decreases t
  {
    match t
    case Literal(_, format) =>
      if format == "Bool" then Emission([WriteBool(instance)], index, None)
      else if format in NumberFormats then Emission([WriteNumber(instance)], index, None)
      else Emission([], index, Some(NotImplemented))
    case String(_, size) =>
      if size.None? then Emission([WriteString(instance)], index, None)
      else Emission([], index, Some(AssertionFailed))
    case Enum(expr) =>
      if expr == "GLenum" then Emission([DumpEnum(instance)], index, None)
      else Emission([WriteNumber(instance)], index, None)
    case Bitmask(_) => Emission([], index, Some(NotImplemented))
    case Alias(_, inner) => Write(inner, instance, index)
    case Opaque(_) => Emission([WriteAddress(instance)], index, None)
    case Array(elem, length) =>
      var v := LoopVar(index);
      Wrap([BeginArray, ForIndex(v, length)], Write(elem, instance + "[" + v + "]", index + 1),
           [CloseBlock, EndArray])
    case Const(_) => Emission([], index, Some(NotImplemented))
  }

  /** A statement that writes one JSON value. */
  predicate WritesValue(x: Stmt) {
    x.WriteBool? || x.WriteNumber? || x.WriteString? || x.DumpEnum? || x.WriteAddress?
  }

  function ValueCount(s: seq<Stmt>): nat
    decreases |s|
  {
    if s == [] then 0 else (if WritesValue(s[0]) then 1 else 0) + ValueCount(s[1..])
  }

  lemma {:induction false} ValueCountConcat(a: seq<Stmt>, b: seq<Stmt>)
    ensures ValueCount(a + b) == ValueCount(a) + ValueCount(b)
    decreases |a|
  {
    if a == [] {
      assert a + b == b;
    } else {
      assert (a + b)[0] == a[0] && (a + b)[1..] == a[1..] + b;
      ValueCountConcat(a[1..], b);
    }
  }

  /** The number of array dimensions the value has. */
  function Dims(t: Type): nat {
    match t
    case Alias(_, inner) => Dims(inner)
    case Array(elem, _) => 1 + Dims(elem)
    case _ => 0
  }

  /** The types the writer handles, defined by the kind of each layer. */
  predicate Writable(t: Type) {
    match t
    case Literal(_, format) => format == "Bool" || format == "SInt" || format == "Uint"
                               || format == "Float" || format == "Double"
    case String(_, size) => size.None?
    case Enum(_) => true
    case Bitmask(_) => false
    case Alias(_, inner) => Writable(inner)
    case Opaque(_) => true
    case Array(elem, _) => Writable(elem)
    case Const(_) => false
  }

  /** The writer succeeds exactly on the writable types; it then writes one
      value statement inside one loop per array dimension and draws one
      counter value per dimension. */
  lemma {:induction false} WriteSucceedsIffWritable(t: Type, instance: string, index: nat)
    ensures var e := Write(t, instance, index);
      && (e.failure.None? <==> Writable(t))
      && (e.failure.None? ==> e.index == index + Dims(t) && ValueCount(e.stmts) == 1
                              && |e.stmts| == 1 + 4 * Dims(t))
    decreases t
  {
    match t {
      case Alias(_, inner) => WriteSucceedsIffWritable(inner, instance, index);
      case Array(elem, length) =>
        var v := LoopVar(index);
        var inner := Write(elem, instance + "[" + v + "]", index + 1);
        WriteSucceedsIffWritable(elem, instance + "[" + v + "]", index + 1);
        if inner.failure.None? {
          ValueCountConcat([BeginArray, ForIndex(v, length)], inner.stmts);
          ValueCountConcat([BeginArray, ForIndex(v, length)] + inner.stmts, [CloseBlock, EndArray]);
        }
      case _ =>
    }
  }

  /** Every array loop takes the next counter value as its index name,
      also in a run that raised part-way. */
  lemma {:induction false} WriteCounted(t: Type, instance: string, index: nat)
    ensures Counted(Write(t, instance, index), index)
    decreases t
  {
    match t {
      case Alias(_, inner) => WriteCounted(inner, instance, index);
      case Array(elem, length) =>
        WriteCounted(elem, instance + "[" + LoopVar(index) + "]", index + 1);
        ArrayCounted(elem, length, instance, index);
      case _ =>
        assert LoopVarRange(index, index) == [];
    }
  }

  /** The array step of WriteCounted: the loop's own name comes first. */
  lemma ArrayCounted(elem: Type, length: string, instance: string, index: nat)
    requires Counted(Write(elem, instance + "[" + LoopVar(index) + "]", index + 1), index + 1)
    ensures Counted(Write(Array(elem, length), instance, index), index)
  {
    var v := LoopVar(index);
    LoopCounted(v, length, Write(elem, instance + "[" + v + "]", index + 1), index);
  }

  /** An array loop named by the counter value `index` around a run counted
      from the next value. */
  lemma LoopCounted(v: string, length: string, inner: Emission, index: nat)
    requires v == LoopVar(index) && Counted(inner, index + 1)
    ensures Counted(Wrap([BeginArray, ForIndex(v, length)], inner, [CloseBlock, EndArray]), index)
  {
    var pre := [BeginArray, ForIndex(v, length)];
    var post := if inner.failure.None? then [CloseBlock, EndArray] else [];
    assert LoopVars(pre) == [v] by {
      assert pre == [BeginArray] + [ForIndex(v, length)];
      LoopVarsConcat([BeginArray], [ForIndex(v, length)]);
    }
    assert LoopVars(post) == [] by {
      if post != [] {
        assert post == [CloseBlock] + [EndArray];
        LoopVarsConcat([CloseBlock], [EndArray]);
      }
    }
    LoopVarsConcat(pre, inner.stmts);
    LoopVarsConcat(pre + inner.stmts, post);
    LoopVarRangeCons(index, inner.index);
  }

  /** A successful write closes every loop and array it opens, and prints
      no `if`, no member and no texture unit switch. */
  lemma {:induction false} WriteWellFormed(t: Type, instance: string, index: nat)
    requires Write(t, instance, index).failure.None?
    ensures var s := Write(t, instance, index).stmts;
      Balanced(s) && AllQuiet(s) && Sound(s, 0) && Members(s) == []
    decreases t
  {
    match t {
      case Alias(_, inner) => WriteWellFormed(inner, instance, index);
      case Array(elem, length) =>
        var inner := Write(elem, instance + "[" + LoopVar(index) + "]", index + 1).stmts;
        WriteWellFormed(elem, instance + "[" + LoopVar(index) + "]", index + 1);
        ArrayBalanced(elem, length, instance, index);
        ArrayQuiet(elem, length, instance, index);
        SoundQuiet(Write(t, instance, index).stmts);
        QuietMembers(Write(t, instance, index).stmts);
      case _ =>
        SoundPlain(Write(t, instance, index).stmts);
        PlainNest(Write(t, instance, index).stmts, []);
        PlainMembers(Write(t, instance, index).stmts);
    }
  }

  /** `beginArray` and the loop's `{` are closed by `}` and `endArray`,
      innermost first. */
  lemma ArrayBalanced(elem: Type, length: string, instance: string, index: nat)
    requires Write(Array(elem, length), instance, index).failure.None?
    requires Balanced(Write(elem, instance + "[" + LoopVar(index) + "]", index + 1).stmts)
    ensures Balanced(Write(Array(elem, length), instance, index).stmts)
  {
    var v := LoopVar(index);
    LoopBalanced(v, length, Write(elem, instance + "[" + v + "]", index + 1).stmts);
  }

  lemma LoopBalanced(v: string, length: string, inner: seq<Stmt>)
    requires Balanced(inner)
    ensures Balanced([BeginArray, ForIndex(v, length)] + inner + [CloseBlock, EndArray])
  {
    assert Step([], ForIndex(v, length)) == Some([Block]) by {
      assert [] + [Block] == [Block];
    }
    assert Step([], BeginArray) == Some([Arr]) by {
      assert [] + [Arr] == [Arr];
    }
    Bracket(ForIndex(v, length), inner, CloseBlock, Block);
    Bracket(BeginArray, [ForIndex(v, length)] + inner + [CloseBlock], EndArray, Arr);
    assert [BeginArray, ForIndex(v, length)] + inner + [CloseBlock, EndArray]
      == [BeginArray] + ([ForIndex(v, length)] + inner + [CloseBlock]) + [EndArray];
  }

  lemma ArrayQuiet(elem: Type, length: string, instance: string, index: nat)
    requires Write(Array(elem, length), instance, index).failure.None?
    requires AllQuiet(Write(elem, instance + "[" + LoopVar(index) + "]", index + 1).stmts)
    ensures AllQuiet(Write(Array(elem, length), instance, index).stmts)
  {
    var v := LoopVar(index);
    var inner := Write(elem, instance + "[" + v + "]", index + 1);
    var pre := [BeginArray, ForIndex(v, length)];
    var post := [CloseBlock, EndArray];
    QuietConcat(pre, inner.stmts);
    QuietConcat(pre + inner.stmts, post);
  }

  /** The format check spells 'Uint': the unsigned literal is not written,
      while the signed one is. */
  lemma UnsignedLiteralNotWritten(instance: string, index: nat)
    ensures Write(UInt, instance, index).failure == Some(NotImplemented)
    ensures Write(Int, instance, index) == Emission([WriteNumber(instance)], index, None)
  {
    assert "UInt" !in NumberFormats;
    assert "SInt" in NumberFormats;
  }

  /** The GL types of the parameter table are all written. */
  lemma StandardTypesWritable(t: Type)
    requires t in [B, I, E, F, D, S, P]
    ensures Writable(t)
  {
  }

  /** `visit`, printing into the run and advancing the class counter. */
  method Visit(g: Generator, t: Type, instance: string) returns (failure: Option<Failure>)
    modifies g
    ensures var e := Write(t, instance, old(g.index));
      g.out == old(g.out) + e.stmts && g.index == e.index && failure == e.failure
    decreases t
  {
    match t {
      case Literal(_, format) =>
        if format == "Bool" {
          g.Emit([WriteBool(instance)]);
          failure := None;
        } else if format in NumberFormats {
          g.Emit([WriteNumber(instance)]);
          failure := None;
        } else {
          failure := Some(NotImplemented);
        }
      case String(_, size) =>
        if size.Some? {
          return Some(AssertionFailed);
        }
        g.Emit([WriteString(instance)]);
        failure := None;
      case Enum(expr) =>
        if expr == "GLenum" {
          g.Emit([DumpEnum(instance)]);
        } else {
          g.Emit([WriteNumber(instance)]);
        }
        failure := None;
      case Bitmask(_) =>
        failure := Some(NotImplemented);
      case Alias(_, inner) =>
        failure := Visit(g, inner, instance);
      case Opaque(_) =>
        g.Emit([WriteAddress(instance)]);
        failure := None;
      case Array(elem, length) =>
        var v := LoopVar(g.index);
        g.index := g.index + 1;
        g.Emit([BeginArray, ForIndex(v, length)]);
        failure := Visit(g, elem, instance + "[" + v + "]");
        if failure.None? {
          g.Emit([CloseBlock, EndArray]);
        }
      case Const(_) =>
        failure := Some(NotImplemented);
    }
  }
}
