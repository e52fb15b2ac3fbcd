/** The code the generator prints, one statement per `print`, and the
    structural facts about a printed sequence that the generator keeps. */
module GeneratedCode {
  import opened Results
  import opened Text

  /** The Python exceptions that abort a generation run. */
  datatype Failure =
    | NotImplemented   // NotImplementedError
    | AssertionFailed  // AssertionError
    | TypeError        // a visitor method called without its `args`
    | IndexError       // `args[-1]` of an empty argument list

  /** The name passed to `json.beginMember`: a string literal, or the
      `name` buffer filled by `snprintf`. */
  datatype Key = Quoted(text: string) | NameBuffer

  /** The condition of a generated `if`. */
  datatype Cond =
    | GlError                                  // glGetError() != GL_NO_ERROR
    | IsEnabled(target: string)                // glIsEnabled(target)
    | IsEnabledOr(target: string, texture: string)  // glIsEnabled(target) || texture

  /** One printed line of generated C++. */
  datatype Stmt =
    | DeclZero(ty: string, name: string)                                // ty name = 0;
    | DeclInit(ty: string, name: string, init: string)                  // ty name = init;
    | DeclUninit(ty: string, name: string)                              // ty name;
    | DeclCall(ty: string, name: string, fn: string, args: seq<string>) // ty name = fn(args);
    | DeclCastCall(ty: string, name: string, fn: string, args: seq<string>) // ty name = (ty)fn(args);
    | DeclBuffer(ty: string, name: string, length: string)              // ty name[length];
    | ZeroBuffer(name: string, length: string)                          // memset(name, 0, length * sizeof *name);
    | DeclPointer(name: string)                                         // GLvoid *name;
    | CallByRef(fn: string, args: seq<string>, name: string)            // fn(args, &name);
    | CallFill(fn: string, args: seq<string>, name: string)             // fn(args, name);
    | AssignZero(name: string)                                          // name = 0;
    | DeclMax(name: string, a: string, b: string)                       // GLint name = std::max(a, b);
    | DeclNameBuffer                                                    // char name[32];
    | FormatName(prefix: string, index: string)                         // snprintf(name, sizeof name, "<prefix>%i", index);
    | ActiveTexture(unit: string)                                       // glActiveTexture(unit);
    | BeginMember(key: Key)
    | EndMember
    | BeginObject
    | EndObject
    | BeginArray
    | EndArray
    | WriteBool(value: string)
    | WriteNumber(value: string)
    | WriteString(value: string)                                        // json.writeString((const char *)value);
    | DumpEnum(value: string)                                           // dumpEnum(json, value);
    | WriteAddress(value: string)                                       // json.writeNumber((size_t)value);
    | If(cond: Cond)                                                    // if (cond) {
    | Else                                                              // } else {
    | OpenBlock                                                         // {
    | CloseBlock                                                        // }
    | ForIndex(counter: string, bound: string)                          // for (unsigned counter = 0; counter < bound; ++counter) {
    | ForCount(counter: string, bound: string)                          // for (GLint counter = 0; counter < bound; ++counter) {
    | Comment(text: string)                                             // // text
    | Blank

  /** A statement that neither opens nor closes anything, is no member
      call, no array loop and no error check. */
  predicate Plain(x: Stmt) {
    !(x.If? || x.Else? || x.OpenBlock? || x.CloseBlock? || x.ForIndex? || x.ForCount?
      || x.BeginObject? || x.EndObject? || x.BeginArray? || x.EndArray?
      || x.BeginMember? || x.EndMember?)
  }

  predicate AllPlain(s: seq<Stmt>) {
    forall k :: 0 <= k < |s| ==> Plain(s[k])
  }

  // ---------------------------------------------------------------------
  // Nesting: C blocks and JSON containers share one stack of open frames.

  datatype Frame = Block | Obj | Arr

  function Pop(st: seq<Frame>, f: Frame): Option<seq<Frame>> {
    if |st| > 0 && st[|st| - 1] == f then Some(st[..|st| - 1]) else None
  }

  /** The frame stack after one statement, or None if it closes something
      that is not the innermost open frame. */
  function Step(st: seq<Frame>, x: Stmt): Option<seq<Frame>> {
    match x
    case If(_) => Some(st + [Block])
    case OpenBlock => Some(st + [Block])
    case ForIndex(_, _) => Some(st + [Block])
    case ForCount(_, _) => Some(st + [Block])
    case Else => if |st| > 0 && st[|st| - 1] == Block then Some(st) else None
    case CloseBlock => Pop(st, Block)
    case BeginObject => Some(st + [Obj])
    case EndObject => Pop(st, Obj)
    case BeginArray => Some(st + [Arr])
    case EndArray => Pop(st, Arr)
    case _ => Some(st)
  }

  function Nest(s: seq<Stmt>, st: seq<Frame>): Option<seq<Frame>>
    decreases |s|
  {
    if s == [] then Some(st)
    else match Step(st, s[0])
      case None => None
      case Some(next) => Nest(s[1..], next)
  }

  /** Every `{`, JSON object and JSON array that `s` opens is closed by `s`,
      innermost first, and `s` closes nothing it did not open. */
  predicate Balanced(s: seq<Stmt>) {
    Nest(s, []) == Some([])
  }

  lemma {:induction false} NestConcat(a: seq<Stmt>, b: seq<Stmt>, st: seq<Frame>)
    ensures Nest(a + b, st) == if Nest(a, st).None? then None else Nest(b, Nest(a, st).value)
    decreases |a|
  {
    if a == [] {
      assert a + b == b;
    } else {
      assert (a + b)[0] == a[0] && (a + b)[1..] == a[1..] + b;
      match Step(st, a[0]) {
        case None =>
        case Some(next) => NestConcat(a[1..], b, next);
      }
    }
  }

  /** The stack after one statement and then a stretch. */
  lemma NestCons(x: Stmt, s: seq<Stmt>, st: seq<Frame>)
    ensures Nest([x] + s, st) == if Step(st, x).None? then None else Nest(s, Step(st, x).value)
  {
    assert ([x] + s)[0] == x && ([x] + s)[1..] == s;
  }

  lemma StepShift(p: seq<Frame>, x: Stmt, base: seq<Frame>)
    requires Step(p, x).Some?
    ensures Step(base + p, x) == Some(base + Step(p, x).value)
  {
    var bp := base + p;
    if |p| > 0 {
      assert bp[|bp| - 1] == p[|p| - 1];
      assert bp[..|bp| - 1] == base + p[..|p| - 1];
    }
    match x {
      case If(_) => assert bp + [Block] == base + (p + [Block]);
      case OpenBlock => assert bp + [Block] == base + (p + [Block]);
      case ForIndex(_, _) => assert bp + [Block] == base + (p + [Block]);
      case ForCount(_, _) => assert bp + [Block] == base + (p + [Block]);
      case BeginObject => assert bp + [Obj] == base + (p + [Obj]);
      case BeginArray => assert bp + [Arr] == base + (p + [Arr]);
      case _ =>
    }
  }

  /** A balanced stretch leaves whatever frames were open below it alone. */
  lemma {:induction false} NestShift(s: seq<Stmt>, p: seq<Frame>, q: seq<Frame>, base: seq<Frame>)
    requires Nest(s, p) == Some(q)
    ensures Nest(s, base + p) == Some(base + q)
    decreases |s|
  {
    if s != [] {
      var next := Step(p, s[0]).value;
      StepShift(p, s[0], base);
      NestShift(s[1..], next, q, base);
    }
  }

  lemma BalancedConcat(a: seq<Stmt>, b: seq<Stmt>)
    requires Balanced(a) && Balanced(b)
    ensures Balanced(a + b)
  {
    NestConcat(a, b, []);
  }

  /** `pre` opens the frames `fs`, `post` closes exactly them. */
  lemma Enclosed(pre: seq<Stmt>, body: seq<Stmt>, post: seq<Stmt>, fs: seq<Frame>)
    requires Nest(pre, []) == Some(fs) && Nest(post, fs) == Some([])
    requires Balanced(body)
    ensures Balanced(pre + body + post)
  {
    NestConcat(pre, body, []);
    NestShift(body, [], [], fs);
    assert fs + [] == fs;
    NestConcat(pre + body, post, []);
  }

  /** How each opener and closer moves an empty or one-frame stack. */
  lemma Brackets()
    ensures Step([], OpenBlock) == Some([Block]) && Step([], BeginObject) == Some([Obj])
    ensures forall c :: Step([], If(c)) == Some([Block])
    ensures forall i, b :: Step([], ForCount(i, b)) == Some([Block])
    ensures Step([Block], CloseBlock) == Some([]) && Step([Obj], EndObject) == Some([])
  {
    assert [] + [Block] == [Block] && [] + [Obj] == [Obj];
  }

  /** A balanced stretch between an opener and its closer is balanced. */
  lemma Bracket(open: Stmt, body: seq<Stmt>, close: Stmt, f: Frame)
    requires Step([], open) == Some([f]) && Step([f], close) == Some([])
    requires Balanced(body)
    ensures Balanced([open] + body + [close])
  {
    NestCons(open, [], []);
    NestCons(close, [], [f]);
    Enclosed([open], body, [close], [f]);
  }

  lemma {:induction false} PlainNest(s: seq<Stmt>, st: seq<Frame>)
    requires AllPlain(s)
    ensures Nest(s, st) == Some(st)
    decreases |s|
  {
    if s != [] {
      assert Plain(s[0]);
      PlainNest(s[1..], st);
    }
  }

  // ---------------------------------------------------------------------
  // Error checks: the branch taken when glGetError() reports an error.

  /** Every error check is immediately followed by its `else`: the error
      branch of the generated code is empty and writes nothing. */
  predicate GuardsEmpty(s: seq<Stmt>) {
    forall k :: 0 <= k < |s| && s[k] == If(GlError) ==> k + 1 < |s| && s[k + 1] == Else
  }

  lemma GuardsConcat(a: seq<Stmt>, b: seq<Stmt>)
    requires GuardsEmpty(a) && GuardsEmpty(b)
    ensures GuardsEmpty(a + b)
  {
    var ab := a + b;
    forall k | 0 <= k < |ab| && ab[k] == If(GlError)
      ensures k + 1 < |ab| && ab[k + 1] == Else
    {
      if k < |a| {
        assert a[k] == If(GlError);
      } else {
        assert b[k - |a|] == If(GlError);
      }
    }
  }

  predicate WellFormed(s: seq<Stmt>) {
    Balanced(s) && GuardsEmpty(s)
  }

  lemma WellFormedConcat(a: seq<Stmt>, b: seq<Stmt>)
    requires WellFormed(a) && WellFormed(b)
    ensures WellFormed(a + b)
  {
    BalancedConcat(a, b);
    GuardsConcat(a, b);
  }

  lemma PlainWellFormed(s: seq<Stmt>)
    requires AllPlain(s)
    ensures WellFormed(s)
  {
    PlainNest(s, []);
  }

  // ---------------------------------------------------------------------
  // Members: json.beginMember calls minus json.endMember calls.

  function Surplus(s: seq<Stmt>): int
    decreases |s|
  {
    if s == [] then 0
    else (if s[0].BeginMember? then 1 else if s[0].EndMember? then -1 else 0) + Surplus(s[1..])
  }

  lemma {:induction false} SurplusConcat(a: seq<Stmt>, b: seq<Stmt>)
    ensures Surplus(a + b) == Surplus(a) + Surplus(b)
    decreases |a|
  {
    if a == [] {
      assert a + b == b;
    } else {
      assert (a + b)[0] == a[0] && (a + b)[1..] == a[1..] + b;
      SurplusConcat(a[1..], b);
    }
  }

  lemma {:induction false} PlainSurplus(s: seq<Stmt>)
    requires AllPlain(s)
    ensures Surplus(s) == 0
    decreases |s|
  {
    if s != [] {
      assert Plain(s[0]);
      PlainSurplus(s[1..]);
    }
  }

  /** The keys of the members begun in `s`, in order. */
  function Members(s: seq<Stmt>): seq<Key>
    decreases |s|
  {
    if s == [] then []
    else (if s[0].BeginMember? then [s[0].key] else []) + Members(s[1..])
  }

  lemma MembersOne(x: Stmt)
    ensures Members([x]) == if x.BeginMember? then [x.key] else []
  {
    assert [x][1..] == [];
  }

  lemma {:induction false} MembersConcat(a: seq<Stmt>, b: seq<Stmt>)
    ensures Members(a + b) == Members(a) + Members(b)
    decreases |a|
  {
    if a == [] {
      assert a + b == b;
    } else {
      assert (a + b)[0] == a[0] && (a + b)[1..] == a[1..] + b;
      MembersConcat(a[1..], b);
    }
  }

  /** A statement that is no `if`, no member call and no texture unit
      switch: what value retrieval and value writing print. */
  predicate Quiet(x: Stmt) {
    !x.If? && !x.BeginMember? && !x.EndMember? && !x.ActiveTexture?
  }

  predicate AllQuiet(s: seq<Stmt>) {
    forall k :: 0 <= k < |s| ==> Quiet(s[k])
  }

  lemma QuietConcat(a: seq<Stmt>, b: seq<Stmt>)
    requires AllQuiet(a) && AllQuiet(b)
    ensures AllQuiet(a + b)
  {
    var ab := a + b;
    forall k | 0 <= k < |ab|
      ensures Quiet(ab[k])
    {
      if k >= |a| {
        assert ab[k] == b[k - |a|];
      }
    }
  }

  lemma {:induction false} QuietMembers(s: seq<Stmt>)
    requires AllQuiet(s)
    ensures Surplus(s) == 0 && Members(s) == [] && GuardsEmpty(s)
    decreases |s|
  {
    if s != [] {
      assert Quiet(s[0]);
      QuietMembers(s[1..]);
    }
  }

  lemma {:induction false} PlainMembers(s: seq<Stmt>)
    requires AllPlain(s)
    ensures Members(s) == []
    decreases |s|
  {
    if s != [] {
      assert Plain(s[0]);
      PlainMembers(s[1..]);
    }
  }

  // ---------------------------------------------------------------------
  // The facts every printed piece of the dump keeps.

  /** Well formed, with `m` more members begun than ended. */
  predicate Sound(s: seq<Stmt>, m: int) {
    WellFormed(s) && Surplus(s) == m
  }

  lemma SoundConcat(a: seq<Stmt>, b: seq<Stmt>, m: int, n: int)
    requires Sound(a, m) && Sound(b, n)
    ensures Sound(a + b, m + n)
  {
    WellFormedConcat(a, b);
    SurplusConcat(a, b);
  }

  lemma SoundPlain(s: seq<Stmt>)
    requires AllPlain(s)
    ensures Sound(s, 0)
  {
    PlainWellFormed(s);
    PlainSurplus(s);
  }

  lemma SoundQuiet(s: seq<Stmt>)
    requires Balanced(s) && AllQuiet(s)
    ensures Sound(s, 0)
  {
    QuietMembers(s);
  }

  lemma SoundMember(k: Key)
    ensures Sound([BeginMember(k)], 1) && Sound([EndMember], -1)
  {
    NestCons(BeginMember(k), [], []);
    NestCons(EndMember, [], []);
  }

  /** An opener, a sound stretch and the opener's closer. */
  lemma SoundEnclose(open: Stmt, body: seq<Stmt>, close: Stmt, f: Frame, m: int)
    requires Step([], open) == Some([f]) && Step([f], close) == Some([])
    requires open != If(GlError)
    requires Sound(body, m)
    ensures Sound([open] + body + [close], m)
  {
    Bracket(open, body, close, f);
    assert GuardsEmpty([open]);
    assert GuardsEmpty([close]);
    GuardsConcat([open], body);
    GuardsConcat([open] + body, [close]);
    assert Surplus([open]) == 0;
    assert Surplus([close]) == 0;
    SurplusConcat([open], body);
    SurplusConcat([open] + body, [close]);
  }

  /** An error check with an empty error branch, then `body` in the
      `else`. */
  lemma SoundGuard(body: seq<Stmt>, m: int)
    requires Sound(body, m)
    ensures Sound([If(GlError), Else] + body + [CloseBlock], m)
  {
    GuardBalanced(body);
    assert GuardsEmpty([If(GlError), Else]);
    assert GuardsEmpty([CloseBlock]);
    GuardsConcat([If(GlError), Else], body);
    GuardsConcat([If(GlError), Else] + body, [CloseBlock]);
    assert Surplus([If(GlError), Else]) == 0 by {
      assert [If(GlError), Else][1..] == [Else];
    }
    SurplusConcat([If(GlError), Else], body);
    SurplusConcat([If(GlError), Else] + body, [CloseBlock]);
  }

  lemma GuardBalanced(body: seq<Stmt>)
    requires Balanced(body)
    ensures Balanced([If(GlError), Else] + body + [CloseBlock])
  {
    NestCons(If(GlError), [Else], []);
    assert Step([], If(GlError)) == Some([Block]) by {
      assert [] + [Block] == [Block];
    }
    NestCons(Else, [], [Block]);
    assert [If(GlError)] + [Else] == [If(GlError), Else];
    NestCons(CloseBlock, [], [Block]);
    Enclosed([If(GlError), Else], body, [CloseBlock], [Block]);
  }

  /** A stretch with no array loop draws no loop index. */
  lemma {:induction false} NoLoops(s: seq<Stmt>)
    requires forall k :: 0 <= k < |s| ==> !s[k].ForIndex?
    ensures LoopVars(s) == []
    decreases |s|
  {
    if s != [] {
      NoLoops(s[1..]);
    }
  }

  // ---------------------------------------------------------------------
  // Array loop indices, named `__i<n>` from the writer's counter.

  /** The name `'__i%u' % n`. */
  function LoopVar(n: nat): string {
    "__i" + Decimal(n)
  }

  lemma LoopVarInjective(a: nat, b: nat)
    requires LoopVar(a) == LoopVar(b)
    ensures a == b
  {
    assert Decimal(a) == LoopVar(a)[3..];
    assert Decimal(b) == LoopVar(b)[3..];
    DecimalInjective(a, b);
  }

  /** The names drawn from the counter while it went from `i` to `j`. */
  function LoopVarRange(i: nat, j: nat): seq<string>
    requires i <= j
  {
    seq(j - i, k requires 0 <= k < j - i => LoopVar(i + k))
  }

  lemma LoopVarRangeConcat(i: nat, j: nat, k: nat)
    requires i <= j <= k
    ensures LoopVarRange(i, j) + LoopVarRange(j, k) == LoopVarRange(i, k)
  {
  }

  /** The first name of a range, then the rest. */
  lemma LoopVarRangeCons(i: nat, j: nat)
    requires i < j
    ensures [LoopVar(i)] + LoopVarRange(i + 1, j) == LoopVarRange(i, j)
  {
    assert LoopVarRange(i, i + 1) == [LoopVar(i)];
    LoopVarRangeConcat(i, i + 1, j);
  }

  /** Names drawn from a counter are pairwise distinct. */
  lemma LoopVarRangeDistinct(i: nat, j: nat)
    requires i <= j
    ensures forall a, b :: 0 <= a < b < j - i ==> LoopVarRange(i, j)[a] != LoopVarRange(i, j)[b]
  {
    forall a, b | 0 <= a < b < j - i
      ensures LoopVarRange(i, j)[a] != LoopVarRange(i, j)[b]
    {
      if LoopVar(i + a) == LoopVar(i + b) {
        LoopVarInjective(i + a, i + b);
      }
    }
  }

  /** The index names of the array loops in `s`, in order. */
  function LoopVars(s: seq<Stmt>): seq<string>
    decreases |s|
  {
    if s == [] then []
    else (if s[0].ForIndex? then [s[0].counter] else []) + LoopVars(s[1..])
  }

  lemma {:induction false} LoopVarsConcat(a: seq<Stmt>, b: seq<Stmt>)
    ensures LoopVars(a + b) == LoopVars(a) + LoopVars(b)
    decreases |a|
  {
    if a == [] {
      assert a + b == b;
    } else {
      assert (a + b)[0] == a[0] && (a + b)[1..] == a[1..] + b;
      LoopVarsConcat(a[1..], b);
    }
  }

  lemma {:induction false} PlainLoopVars(s: seq<Stmt>)
    requires AllPlain(s)
    ensures LoopVars(s) == []
    decreases |s|
  {
    if s != [] {
      assert Plain(s[0]);
      PlainLoopVars(s[1..]);
    }
  }

  // ---------------------------------------------------------------------
  // What a generation step prints, where the counter ends, and whether it
  // raised.  On a failure, `stmts` is what was printed before the raise.

  datatype Emission = Emission(stmts: seq<Stmt>, index: nat, failure: Option<Failure>)

  /** Nothing printed, counter unchanged. */
  function Nothing(index: nat): Emission {
    Emission([], index, None)
  }

  /** `a` followed by `b`, where `b` started from the counter `a` left. */
  function Then(a: Emission, b: Emission): Emission {
    Emission(a.stmts + b.stmts, b.index, b.failure)
  }

  /** `pre`, then `e`, then `post` if `e` did not raise. */
  function Wrap(pre: seq<Stmt>, e: Emission, post: seq<Stmt>): Emission {
    Emission(pre + e.stmts + (if e.failure.None? then post else []), e.index, e.failure)
  }

  /** Printing `a` and then `b` after `base` prints `Then(a, b)`. */
  lemma ThenOut(base: seq<Stmt>, a: Emission, b: Emission, out: seq<Stmt>)
    requires out == base + a.stmts + b.stmts
    ensures out == base + Then(a, b).stmts
  {
  }

  /** Printing `pre`, `e` and, if `e` did not raise, `post` after `base`
      prints `Wrap(pre, e, post)`. */
  lemma WrapOut(base: seq<Stmt>, pre: seq<Stmt>, e: Emission, post: seq<Stmt>, out: seq<Stmt>)
    requires out == base + pre + e.stmts + (if e.failure.None? then post else [])
    ensures out == base + Wrap(pre, e, post).stmts
  {
  }

  /** The counter only advanced, and every array loop printed took the next
      counter value as its index name (true also of a run that raised). */
  predicate Counted(e: Emission, from: nat) {
    from <= e.index && LoopVars(e.stmts) == LoopVarRange(from, e.index)
  }

  lemma ThenCounted(a: Emission, b: Emission, from: nat)
    requires Counted(a, from) && Counted(b, a.index)
    ensures Counted(Then(a, b), from)
  {
    LoopVarsConcat(a.stmts, b.stmts);
    LoopVarRangeConcat(from, a.index, b.index);
  }

  lemma WrapCounted(pre: seq<Stmt>, e: Emission, post: seq<Stmt>, from: nat)
    requires Counted(e, from) && LoopVars(pre) == [] && LoopVars(post) == []
    ensures Counted(Wrap(pre, e, post), from)
  {
    var tail := if e.failure.None? then post else [];
    LoopVarsConcat(pre, e.stmts);
    LoopVarsConcat(pre + e.stmts, tail);
    assert LoopVars(tail) == [] by {
      if e.failure.Some? {
        assert tail == [];
      }
    }
  }

  // ---------------------------------------------------------------------
  // The run: standard output and the writer's class-level counter.

  /** The state a generation run changes: the lines printed so far and
      `JsonWriter.__index`. */
  class Generator {
    var out: seq<Stmt>
    var index: nat

    constructor ()
      ensures out == [] && index == 0
    {
      out := [];
      index := 0;
    }

    /** Consecutive `print` statements. */
    method Emit(s: seq<Stmt>)
      modifies this`out
      ensures out == old(out) + s
    {
      out := out + s;
    }
  }
}
