/** StateGetter: the type visitor that prints the declarations and the one
    glGet* call that fetch a parameter into a temporary variable. */
module StateGetter {
  import opened Results
  import opened Text
  import opened GlTypes
  import opened GeneratedCode
  import opened GetInflector

  /** What a visit prints, and the variable that then holds the value. */
  datatype Retrieval = Retrieval(stmts: seq<Stmt>, handle: string)

  function StmtsOf(p: Result<Retrieval, Failure>): seq<Stmt> {
    if p.Ok? then p.value.stmts else []
  }

  function HandleOf(p: Result<Retrieval, Failure>): Result<string, Failure> {
    match p
    case Ok(v) => Ok(v.handle)
    case Err(e) => Err(e)
  }

  /** `temp_name`: the parameter name without its `GL_` prefix, in lower case. */
  function TempName(args: seq<string>): (r: string)
    requires |args| > 0
    ensures var p := args[|args| - 1];
      |r| == (if |p| >= 3 then |p| - 3 else 0)
      && forall k :: 0 <= k < |r| ==> r[k] == LowerChar(p[k + 3])
    ensures forall k :: 0 <= k < |r| ==> !('A' <= r[k] <= 'Z')
  {
    Lower(DropThree(args[|args| - 1]))
  }

  /** A row names the parameter: it has a known type and the name matches. */
  predicate Matches(row: Param, pname: string) {
    row.declared.Some? && row.name == pname
  }

  /** The position of the first row that names `pname`, whatever families
      the row belongs to. */
  function Lookup(params: seq<Param>, pname: string): (r: Option<nat>)
    ensures r.Some? ==> (r.value < |params| && Matches(params[r.value], pname)
      && forall j :: 0 <= j < r.value ==> !Matches(params[j], pname))
    ensures r.None? ==> forall j :: 0 <= j < |params| ==> !Matches(params[j], pname)
    decreases |params|
  {
    if params == [] then None
    else if Matches(params[0], pname) then Some(0)
    else match Lookup(params[1..], pname)
      case None => None
      case Some(k) => Some(k + 1)
  }

  /** The type used at the call site: an array of `count` elements unless
      the count is the number 1. */
  function EffectiveType(row: Param): Type
    requires row.declared.Some?
  {
    if row.count != Num(1) then Array(row.declared.value, CountText(row.count)) else row.declared.value
  }

  /** The type whose inflection names the query a visit prints. */
  function QueryType(t: Type): Type {
    match t
    case Const(inner) => QueryType(inner)
    case Enum(_) => GLint
    case Bitmask(_) => GLint
    case Array(elem, _) => elem
    case _ => t
  }

  predicate IsQuery(x: Stmt) {
    x.DeclCall? || x.DeclCastCall? || x.CallByRef? || x.CallFill?
  }

  /** The variable a statement declares, if it declares one. */
  function DeclaredName(x: Stmt): Option<string> {
    match x
    case DeclZero(_, name) => Some(name)
    case DeclCall(_, name, _, _) => Some(name)
    case DeclCastCall(_, name, _, _) => Some(name)
    case DeclBuffer(_, name, _) => Some(name)
    case DeclPointer(name) => Some(name)
    case _ => None
  }

  /** How many of the statements call a query function. */
  function QueryCount(s: seq<Stmt>): nat
    decreases |s|
  {
    if s == [] then 0 else (if IsQuery(s[0]) then 1 else 0) + QueryCount(s[1..])
  }

  /** A sequence whose only query is its last statement has one query. */
  lemma {:induction false} QueryCountLast(s: seq<Stmt>)
    requires |s| >= 1 && IsQuery(s[|s| - 1])
    requires forall k :: 0 <= k < |s| - 1 ==> !IsQuery(s[k])
    ensures QueryCount(s) == 1
    decreases |s|
  {
    if |s| > 1 {
      QueryCountLast(s[1..]);
    }
  }

  /** The shape of a successful visit: declarations of the temporary, then
      exactly one query call, last, with the caller's arguments, naming
      `query` plus `suffix`, through a pointer exactly when `query` ends in
      `v`. */
  predicate Shaped(p: Retrieval, args: seq<string>, query: string, suffix: string)
    requires |args| > 0
  {
    var s := p.stmts;
    && AllPlain(s) && AllQuiet(s) && 1 <= |s|
    && p.handle == TempName(args)
    && DeclaredName(s[0]) == Some(p.handle)
    && QueryCount(s) == 1 && IsQuery(s[|s| - 1])
    && s[|s| - 1].fn == query + suffix && s[|s| - 1].args == args
    && ((s[|s| - 1].CallByRef? || s[|s| - 1].CallFill?) <==> EndsWithV(query))
  }

  /** A query family: an inflector and the suffix appended to every name. */
  datatype StateGetter = StateGetter(inflector: Inflector, suffix: string) {

    /** `visit_scalar`: a zero-initialised local filled through its address
        when the name ends in `v`, otherwise one assignment from the call. */
    function ScalarPlan(t: Type, args: seq<string>): (r: Result<Retrieval, Failure>)
      requires |args| > 0
      ensures r.Ok? <==> inflector.ReducedType(t).Ok?
      ensures r.Err? ==> r.error == NotImplemented
      ensures r.Ok? ==> |r.value.stmts| > 0 && DeclaredName(r.value.stmts[0]) == Some(r.value.handle)
                        && r.value.handle == TempName(args)
    {
      match inflector.ReducedType(t)
      case Err(e) => Err(e)
      case Ok(elem) =>
        var name := inflector.Inflect(t).value;
        var temp := TempName(args);
        if EndsWithV(name) then
          Ok(Retrieval([DeclZero(Expr(elem), temp), CallByRef(name + suffix, args, temp)], temp))
        else
          Ok(Retrieval([DeclCall(Expr(elem), temp, name + suffix, args)], temp))
    }

    /** `visit_string`: one call returning the string, cast to its type; a
        name ending in `v` fails the assertion. */
    function StringPlan(t: Type, args: seq<string>): (r: Result<Retrieval, Failure>)
      requires |args| > 0
      ensures r.Ok? <==> inflector.Inflect(t).Ok? && !EndsWithV(inflector.Inflect(t).value)
      ensures r == Err(AssertionFailed) <==> inflector.Inflect(t).Ok? && EndsWithV(inflector.Inflect(t).value)
      ensures r.Ok? ==> |r.value.stmts| > 0 && DeclaredName(r.value.stmts[0]) == Some(r.value.handle)
                        && r.value.handle == TempName(args)
    {
      match inflector.Inflect(t)
      case Err(e) => Err(e)
      case Ok(name) =>
        var temp := TempName(args);
        if EndsWithV(name) then Err(AssertionFailed)
        else Ok(Retrieval([DeclCastCall(Expr(t), temp, name + suffix, args)], temp))
    }

    /** `visit_array`: a buffer of `length` reduced elements, zeroed, then one
        call filling it.  The length-"1" branch calls `self.visit(array.type)`
        without `args`: the visitor's own methods then raise TypeError, the
        inherited `visit_literal` raises NotImplementedError. */
    function ArrayPlan(elem: Type, length: string, args: seq<string>): (r: Result<Retrieval, Failure>)
      requires |args| > 0
      ensures r.Ok? <==> length != "1" && inflector.Inflect(elem).Ok? && EndsWithV(inflector.Inflect(elem).value)
      ensures r == Err(AssertionFailed) <==>
        length != "1" && inflector.Inflect(elem).Ok? && !EndsWithV(inflector.Inflect(elem).value)
      ensures r.Ok? ==> |r.value.stmts| > 0 && DeclaredName(r.value.stmts[0]) == Some(r.value.handle)
                        && r.value.handle == TempName(args)
    {
      if length == "1" then Err(if elem.Literal? then NotImplemented else TypeError)
      else match inflector.ReducedType(elem)
        case Err(e) => Err(e)
        case Ok(u) =>
          var name := inflector.Inflect(elem).value;
          var temp := TempName(args);
          if !EndsWithV(name) then Err(AssertionFailed)
          else Ok(Retrieval([DeclBuffer(Expr(u), temp, length), ZeroBuffer(temp, length),
                             CallFill(name + suffix, args, temp)], temp))
    }

    /** `visit_opaque`: one pointer local filled through its address. */
    function OpaquePlan(t: Type, args: seq<string>): (r: Result<Retrieval, Failure>)
      requires |args| > 0
      ensures r.Ok? <==> inflector.Inflect(t).Ok? && EndsWithV(inflector.Inflect(t).value)
      ensures r == Err(AssertionFailed) <==> inflector.Inflect(t).Ok? && !EndsWithV(inflector.Inflect(t).value)
      ensures r.Ok? ==> |r.value.stmts| > 0 && DeclaredName(r.value.stmts[0]) == Some(r.value.handle)
                        && r.value.handle == TempName(args)
    {
      match inflector.Inflect(t)
      case Err(e) => Err(e)
      case Ok(name) =>
        var temp := TempName(args);
        if !EndsWithV(name) then Err(AssertionFailed)
        else Ok(Retrieval([DeclPointer(temp), CallByRef(name + suffix, args, temp)], temp))
    }

    /** `visit`: dispatch on the descriptor.  The visitor defines no
        `visit_literal`, so a bare literal raises NotImplementedError. */
    function Plan(t: Type, args: seq<string>): (r: Result<Retrieval, Failure>)
      requires |args| > 0
      ensures r.Ok? ==> r.value.handle == TempName(args)
      ensures r.Err? ==> r.error == NotImplemented || r.error == AssertionFailed || r.error == TypeError
    {
      match t
      case Const(inner) => Plan(inner, args)
      case Literal(_, _) => Err(NotImplemented)
      case Alias(_, _) => ScalarPlan(t, args)
      case Enum(_) => ScalarPlan(GLint, args)
      case Bitmask(_) => ScalarPlan(GLint, args)
      case String(_, _) => StringPlan(t, args)
      case Array(elem, length) => ArrayPlan(elem, length, args)
      case Opaque(_) => OpaquePlan(t, args)
    }

    /** `__call__`: look the last argument up and visit its effective type. */
    function Get(params: seq<Param>, args: seq<string>): (r: Result<(Type, Retrieval), Failure>)
      ensures r == Err(IndexError) <==> |args| == 0
      ensures r.Ok? ==> |args| > 0 && r.value.1.handle == TempName(args)
    {
      if |args| == 0 then Err(IndexError)
      else match Lookup(params, args[|args| - 1])
        case None => Err(NotImplemented)
        case Some(k) =>
          var t := EffectiveType(params[k]);
          match Plan(t, args)
          case Err(e) => Err(e)
          case Ok(r) => Ok((t, r))
    }

    /** Every successful visit prints declarations of its temporary and
        exactly one query call, last, with the caller's arguments: the
        family's name for the query type plus the suffix, in the
        through-a-pointer form exactly when that name ends in `v`. */
    lemma {:induction false} PlanQueriesOnce(t: Type, args: seq<string>)
      requires |args| > 0
      requires Plan(t, args).Ok?
      ensures inflector.Inflect(QueryType(t)).Ok?
      ensures Shaped(Plan(t, args).value, args, inflector.Inflect(QueryType(t)).value, suffix)
    {
      match t {
        case Const(inner) => PlanQueriesOnce(inner, args);
        case Literal(_, _) =>
        case Alias(_, _) => ScalarPlanShaped(t, args);
        case Enum(_) => ScalarPlanShaped(GLint, args);
        case Bitmask(_) => ScalarPlanShaped(GLint, args);
        case String(_, _) => StringPlanShaped(t, args);
        case Array(elem, length) => ArrayPlanShaped(elem, length, args);
        case Opaque(_) => OpaquePlanShaped(t, args);
      }
    }

    lemma ScalarPlanShaped(t: Type, args: seq<string>)
      requires |args| > 0
      requires ScalarPlan(t, args).Ok?
      ensures inflector.Inflect(t).Ok?
      ensures Shaped(ScalarPlan(t, args).value, args, inflector.Inflect(t).value, suffix)
    {
      QueryCountLast(ScalarPlan(t, args).value.stmts);
    }

    lemma StringPlanShaped(t: Type, args: seq<string>)
      requires |args| > 0
      requires StringPlan(t, args).Ok?
      ensures inflector.Inflect(t).Ok?
      ensures Shaped(StringPlan(t, args).value, args, inflector.Inflect(t).value, suffix)
    {
      QueryCountLast(StringPlan(t, args).value.stmts);
    }

    lemma ArrayPlanShaped(elem: Type, length: string, args: seq<string>)
      requires |args| > 0
      requires ArrayPlan(elem, length, args).Ok?
      ensures inflector.Inflect(elem).Ok?
      ensures Shaped(ArrayPlan(elem, length, args).value, args, inflector.Inflect(elem).value, suffix)
    {
      QueryCountLast(ArrayPlan(elem, length, args).value.stmts);
    }

    lemma OpaquePlanShaped(t: Type, args: seq<string>)
      requires |args| > 0
      requires OpaquePlan(t, args).Ok?
      ensures inflector.Inflect(t).Ok?
      ensures Shaped(OpaquePlan(t, args).value, args, inflector.Inflect(t).value, suffix)
    {
      QueryCountLast(OpaquePlan(t, args).value.stmts);
    }

    /** What `__call__` returns: the effective type of the first row with that
        name, which is an array of `count` elements unless the count is 1. */
    lemma GetUsesEffectiveType(params: seq<Param>, args: seq<string>)
      requires Get(params, args).Ok?
      ensures |args| > 0 && Lookup(params, args[|args| - 1]).Some?
      ensures var row := params[Lookup(params, args[|args| - 1]).value];
        var t := Get(params, args).value.0;
        && row.declared.Some? && row.name == args[|args| - 1]
        && (row.count != Num(1) ==> t == Array(row.declared.value, CountText(row.count)))
        && (row.count == Num(1) ==> t == row.declared.value)
        && Get(params, args).value.1 == Plan(t, args).value
    {
    }

    /** A name that no typed row carries is a lookup miss. */
    lemma GetMissesUnknownNames(params: seq<Param>, args: seq<string>)
      requires |args| > 0
      requires forall j :: 0 <= j < |params| ==> !Matches(params[j], args[|args| - 1])
      ensures Get(params, args) == Err(NotImplemented)
    {
    }

    /** The length-1 branch of `visit_array` always raises: TypeError from
        every visit method the getter defines, NotImplementedError from the
        inherited `visit_literal`. */
    lemma LengthOneArrayRaises(elem: Type, args: seq<string>)
      requires |args| > 0
      ensures Plan(Array(elem, "1"), args).Err?
      ensures Plan(Array(elem, "1"), args).error == TypeError <==> !elem.Literal?
      ensures Plan(Array(elem, "1"), args).error == NotImplemented <==> elem.Literal?
    {
    }
  }

  /** A numeric count other than 1 never spells "1", so rows with numeric
      counts never reach the length-1 branch. */
  lemma NumericCountAvoidsLengthOne(row: Param)
    requires row.declared.Some? && row.count.Num? && row.count != Num(1)
    ensures EffectiveType(row).Array? && EffectiveType(row).length != "1"
  {
  }

  /** A getter whose inflector carries no suffix of its own. */
  function MakeStateGetter(radical: string, inflections: map<Type, string>, suffix: string): StateGetter {
    StateGetter(Inflector(radical, inflections, ""), suffix)
  }

  const glGet := MakeStateGetter("glGet",
    map[B := "Booleanv", I := "Integerv", F := "Floatv", D := "Doublev", S := "String", P := "Pointerv"], "")
  const glGetMaterial := MakeStateGetter("glGetMaterial", map[I := "iv", F := "fv"], "")
  const glGetLight := MakeStateGetter("glGetLight", map[I := "iv", F := "fv"], "")
  const glGetVertexAttrib := MakeStateGetter("glGetVertexAttrib",
    map[I := "iv", F := "fv", D := "dv", P := "Pointerv"], "")
  const glGetTexParameter := MakeStateGetter("glGetTexParameter", map[I := "iv", F := "fv"], "")
  const glGetTexEnv := MakeStateGetter("glGetTexEnv", map[I := "iv", F := "fv"], "")
  const glGetTexLevelParameter := MakeStateGetter("glGetTexLevelParameter", map[I := "iv", F := "fv"], "")
  const glGetShader := MakeStateGetter("glGetShaderiv", map[I := "iv"], "")
  const glGetProgram := MakeStateGetter("glGetProgram", map[I := "iv"], "")
  const glGetProgramARB := MakeStateGetter("glGetProgram", map[I := "iv", F := "fv", S := "Stringv"], "ARB")

  /** A scalar the family reduces to `u`, under a name ending in `v`: a
      zeroed local of the reduced type, then one call passing its address. */
  lemma SupportedScalarPlan(getter: StateGetter, t: Type, u: Type, args: seq<string>, name: string)
    requires |args| > 0 && t.Alias?
    requires getter.inflector.ReducedType(t) == Ok(u) && getter.inflector.Inflect(t) == Ok(name) && EndsWithV(name)
    ensures getter.Plan(t, args) == Ok(Retrieval(
      [DeclZero(Expr(u), TempName(args)), CallByRef(name + getter.suffix, args, TempName(args))], TempName(args)))
  {
  }

  /** A scalar the family reduces to `u`, under a name not ending in `v`:
      one local of the reduced type initialised by the call. */
  lemma DirectScalarPlan(getter: StateGetter, t: Type, u: Type, args: seq<string>, name: string)
    requires |args| > 0 && t.Alias?
    requires getter.inflector.ReducedType(t) == Ok(u) && getter.inflector.Inflect(t) == Ok(name) && !EndsWithV(name)
    ensures getter.Plan(t, args) == Ok(Retrieval(
      [DeclCall(Expr(u), TempName(args), name + getter.suffix, args)], TempName(args)))
  {
  }

  /** An array whose element type the family reduces to `u`: a buffer of
      `length` reduced elements, zeroed whole, then one filling call. */
  lemma SupportedArrayPlan(getter: StateGetter, elem: Type, u: Type, length: string, args: seq<string>, name: string)
    requires |args| > 0 && length != "1"
    requires getter.inflector.ReducedType(elem) == Ok(u) && getter.inflector.Inflect(elem) == Ok(name) && EndsWithV(name)
    ensures getter.Plan(Array(elem, length), args) == Ok(Retrieval(
      [DeclBuffer(Expr(u), TempName(args), length), ZeroBuffer(TempName(args), length),
       CallFill(name + getter.suffix, args, TempName(args))], TempName(args)))
  {
  }

  /** glGet has its own entry for GLboolean and for GLfloat. */
  lemma GlGetInflections()
    ensures glGet.inflector.ReducedType(B) == Ok(B) && glGet.inflector.Inflect(B) == Ok("glGetBooleanv")
    ensures glGet.inflector.ReducedType(F) == Ok(F) && glGet.inflector.Inflect(F) == Ok("glGetFloatv")
  {
    var inf := glGet.inflector;
    assert inf.inflections[B] == "Booleanv" && inf.inflections[F] == "Floatv";
    assert "glGet" + "Booleanv" + "" == "glGetBooleanv";
    assert "glGet" + "Floatv" + "" == "glGetFloatv";
  }

  /** A boolean parameter of count 1 through glGet: one zeroed GLboolean and
      one glGetBooleanv call through its address. */
  lemma BooleanThroughGlGet(args: seq<string>)
    requires |args| > 0
    ensures glGet.Plan(B, args) == Ok(Retrieval(
      [DeclZero("GLboolean", TempName(args)), CallByRef("glGetBooleanv", args, TempName(args))],
      TempName(args)))
  {
    GlGetInflections();
    assert EndsWithV("glGetBooleanv");
    assert Expr(B) == "GLboolean" by { assert B == Alias("GLboolean", Bool); }
    assert glGet.suffix == "" && "glGetBooleanv" + "" == "glGetBooleanv";
    SupportedScalarPlan(glGet, B, B, args, "glGetBooleanv");
  }

  /** A boolean through glGetMaterial, which has no GLboolean entry: the
      local is a GLint, filled by glGetMaterialiv. */
  lemma BooleanThroughGlGetMaterial(args: seq<string>)
    requires |args| > 0
    ensures glGetMaterial.Plan(B, args) == Ok(Retrieval(
      [DeclZero("GLint", TempName(args)), CallByRef("glGetMaterialiv", args, TempName(args))],
      TempName(args)))
  {
    MaterialBooleanInflection();
    assert EndsWithV("glGetMaterialiv");
    assert Expr(I) == "GLint" by { assert I == Alias("GLint", Int); }
    assert glGetMaterial.suffix == "" && "glGetMaterialiv" + "" == "glGetMaterialiv";
    SupportedScalarPlan(glGetMaterial, B, I, args, "glGetMaterialiv");
  }

  /** glGetMaterial has no GLboolean entry: a boolean falls back to GLint. */
  lemma MaterialBooleanInflection()
    ensures glGetMaterial.inflector.ReducedType(B) == Ok(I)
    ensures glGetMaterial.inflector.Inflect(B) == Ok("glGetMaterialiv")
  {
    var inf := glGetMaterial.inflector;
    assert B !in inf.inflections by { assert GLboolean.expr != GLint.expr && GLboolean.expr != GLfloat.expr; }
    assert Reductions[B] == I && I in inf.inflections;
    assert inf.inflections[I] == "iv" && "glGetMaterial" + "iv" + "" == "glGetMaterialiv";
  }

  /** Sixteen floats through glGet: a zeroed buffer of 16 GLfloat filled by
      one glGetFloatv call. */
  lemma SixteenFloatsThroughGlGet(args: seq<string>)
    requires |args| > 0
    ensures glGet.Plan(Array(F, "16"), args) == Ok(Retrieval(
      [DeclBuffer("GLfloat", TempName(args), "16"), ZeroBuffer(TempName(args), "16"),
       CallFill("glGetFloatv", args, TempName(args))],
      TempName(args)))
  {
    GlGetInflections();
    assert EndsWithV("glGetFloatv");
    assert Expr(F) == "GLfloat" by { assert F == Alias("GLfloat", Float); }
    assert glGet.suffix == "" && "glGetFloatv" + "" == "glGetFloatv";
    SupportedArrayPlan(glGet, F, F, "16", args, "glGetFloatv");
  }

  // -----------------------------------------------------------------------
  // The visitor's methods, printing into a generation run.

  /** `visit_scalar`. */
  method VisitScalar(g: Generator, getter: StateGetter, t: Type, args: seq<string>)
    returns (r: Result<string, Failure>)
    requires |args| > 0
    modifies g`out
    ensures r == HandleOf(getter.ScalarPlan(t, args))
    ensures g.out == old(g.out) + StmtsOf(getter.ScalarPlan(t, args))
  {
    var temp := TempName(args);
    var elem := getter.inflector.ReducedType(t);
    if elem.Err? {
      return Err(elem.error);
    }
    var inflection := getter.inflector.Inflect(t).value;
    if EndsWithV(inflection) {
      g.Emit([DeclZero(Expr(elem.value), temp), CallByRef(inflection + getter.suffix, args, temp)]);
    } else {
      g.Emit([DeclCall(Expr(elem.value), temp, inflection + getter.suffix, args)]);
    }
    r := Ok(temp);
  }

  /** `visit_string`. */
  method VisitString(g: Generator, getter: StateGetter, t: Type, args: seq<string>)
    returns (r: Result<string, Failure>)
    requires |args| > 0
    modifies g`out
    ensures r == HandleOf(getter.StringPlan(t, args))
    ensures g.out == old(g.out) + StmtsOf(getter.StringPlan(t, args))
  {
    var temp := TempName(args);
    var inflection := getter.inflector.Inflect(t);
    if inflection.Err? {
      return Err(inflection.error);
    }
    if EndsWithV(inflection.value) {
      return Err(AssertionFailed);
    }
    g.Emit([DeclCastCall(Expr(t), temp, inflection.value + getter.suffix, args)]);
    r := Ok(temp);
  }

  /** `visit_array`. */
  method VisitArray(g: Generator, getter: StateGetter, elem: Type, length: string, args: seq<string>)
    returns (r: Result<string, Failure>)
    requires |args| > 0
    modifies g`out
    ensures r == HandleOf(getter.ArrayPlan(elem, length, args))
    ensures g.out == old(g.out) + StmtsOf(getter.ArrayPlan(elem, length, args))
  {
    var temp := TempName(args);
    if length == "1" {
      return Err(if elem.Literal? then NotImplemented else TypeError);
    }
    var elemType := getter.inflector.ReducedType(elem);
    if elemType.Err? {
      return Err(elemType.error);
    }
    var inflection := getter.inflector.Inflect(elem).value;
    if !EndsWithV(inflection) {
      return Err(AssertionFailed);
    }
    g.Emit([DeclBuffer(Expr(elemType.value), temp, length), ZeroBuffer(temp, length),
            CallFill(inflection + getter.suffix, args, temp)]);
    r := Ok(temp);
  }

  /** `visit_opaque`. */
  method VisitOpaque(g: Generator, getter: StateGetter, t: Type, args: seq<string>)
    returns (r: Result<string, Failure>)
    requires |args| > 0
    modifies g`out
    ensures r == HandleOf(getter.OpaquePlan(t, args))
    ensures g.out == old(g.out) + StmtsOf(getter.OpaquePlan(t, args))
  {
    var temp := TempName(args);
    var inflection := getter.inflector.Inflect(t);
    if inflection.Err? {
      return Err(inflection.error);
    }
    if !EndsWithV(inflection.value) {
      return Err(AssertionFailed);
    }
    g.Emit([DeclPointer(temp), CallByRef(inflection.value + getter.suffix, args, temp)]);
    r := Ok(temp);
  }

  /** `visit`, with the one-line `visit_const`, `visit_alias`, `visit_enum`
      and `visit_bitmask` in its arms. */
  method Visit(g: Generator, getter: StateGetter, t: Type, args: seq<string>)
    returns (r: Result<string, Failure>)
    requires |args| > 0
    modifies g`out
    ensures r == HandleOf(getter.Plan(t, args))
    ensures g.out == old(g.out) + StmtsOf(getter.Plan(t, args))
    decreases t
  {
    match t {
      case Const(inner) => r := Visit(g, getter, inner, args);
      case Literal(_, _) => r := Err(NotImplemented);
      case Alias(_, _) => r := VisitScalar(g, getter, t, args);
      case Enum(_) => r := VisitScalar(g, getter, GLint, args);
      case Bitmask(_) => r := VisitScalar(g, getter, GLint, args);
      case String(_, _) => r := VisitString(g, getter, t, args);
      case Array(elem, length) => r := VisitArray(g, getter, elem, length, args);
      case Opaque(_) => r := VisitOpaque(g, getter, t, args);
    }
  }

  /** `__call__`: scan the table for the first typed row named by the last
      argument, then visit its effective type. */
  method Call(g: Generator, getter: StateGetter, params: seq<Param>, args: seq<string>)
    returns (r: Result<(Type, string), Failure>)
    modifies g`out
    ensures var p := getter.Get(params, args);
      r == (match p case Ok(v) => Ok((v.0, v.1.handle)) case Err(e) => Err(e))
      && g.out == old(g.out) + (if p.Ok? then p.value.1.stmts else [])
  {
    if |args| == 0 {
      return Err(IndexError);
    }
    var pname := args[|args| - 1];
    var i := 0;
    while i < |params|
      invariant 0 <= i <= |params|
      invariant forall j :: 0 <= j < i ==> !Matches(params[j], pname)
      invariant g.out == old(g.out)
    {
      var row := params[i];
      if row.declared.Some? && row.name == pname {
        var t := row.declared.value;
        if row.count != Num(1) {
          t := Array(t, CountText(row.count));
        }
        assert Lookup(params, pname) == Some(i);
        var v := Visit(g, getter, t, args);
        match v {
          case Ok(handle) => r := Ok((t, handle));
          case Err(e) => r := Err(e);
        }
        return;
      }
      i := i + 1;
    }
    r := Err(NotImplemented);
  }
}
