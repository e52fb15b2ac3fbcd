/** GetInflector: picks the name of the glGet* variant that fetches a type,
    falling back along a fixed reduction chain when a family has no entry
    for the type itself. */
module GetInflector {
  import opened Results
  import opened GlTypes
  import opened GeneratedCode

  /** `reduced_types`: the shared fallback edges B -> I, E -> I, I -> F. */
  const Reductions: map<Type, Type> := map[B := I, E := I, I := F]

  /** Hops left before the chain ends; every edge lowers it. */
  function Rank(t: Type): nat {
    if t == B || t == E then 2 else if t == I then 1 else 0
  }

  /** The types `reduced_type` tries, in order: `t` and then its fallbacks. */
  function Chain(t: Type): (c: seq<Type>)
    ensures 1 <= |c| <= Rank(t) + 1 && c[0] == t
    decreases Rank(t)
  {
    if t in Reductions then [t] + Chain(Reductions[t]) else [t]
  }

  /** One query family: `radical + inflections[type] + suffix`. */
  datatype Inflector = Inflector(radical: string, inflections: map<Type, string>, suffix: string) {

    /** `reduced_type`: `t` itself if the family supports it, otherwise the
        reduction of its fallback; NotImplementedError at the end of the chain. */
    function ReducedType(t: Type): (r: Result<Type, Failure>)
      ensures r.Ok? ==> r.value in inflections
      ensures r.Err? ==> r.error == NotImplemented && t !in inflections
      decreases Rank(t)
    {
      if t in inflections then Ok(t)
      else if t in Reductions then ReducedType(Reductions[t])
      else Err(NotImplemented)
    }

    /** `inflection`: the suffix the family uses for `t`. */
    function Inflection(t: Type): (r: Result<string, Failure>)
      ensures r.Ok? <==> ReducedType(t).Ok?
      ensures r.Ok? ==> r.value in inflections.Values
    {
      match ReducedType(t)
      case Err(e) => Err(e)
      case Ok(u) => Ok(inflections[u])
    }

    /** `inflect`: the full name of the query function for `t`. */
    function Inflect(t: Type): (r: Result<string, Failure>)
      ensures r.Ok? <==> ReducedType(t).Ok?
      ensures r.Ok? ==> r.value == radical + inflections[ReducedType(t).value] + suffix
    {
      match Inflection(t)
      case Err(e) => Err(e)
      case Ok(s) => Ok(radical + s + suffix)
    }

    /** `reduced_type` returns the first type of the chain (at most three
        types: B -> I -> F) the family supports, so reducing twice changes
        nothing, and it fails exactly when the family supports none of them. */
    lemma {:induction false} ReducedTypeIsFirstSupported(t: Type)
      ensures |Chain(t)| <= 3
      ensures ReducedType(t).Err? <==> forall k :: 0 <= k < |Chain(t)| ==> Chain(t)[k] !in inflections
      ensures ReducedType(t).Ok? ==>
        exists k :: 0 <= k < |Chain(t)| && Chain(t)[k] == ReducedType(t).value
          && forall j :: 0 <= j < k ==> Chain(t)[j] !in inflections
      ensures ReducedType(t).Ok? ==> ReducedType(ReducedType(t).value) == ReducedType(t)
      decreases Rank(t)
    {
      if t in inflections {
        assert Chain(t)[0] == t;
      } else if t in Reductions {
        var u := Reductions[t];
        ReducedTypeIsFirstSupported(u);
        assert Chain(t) == [t] + Chain(u);
        if ReducedType(u).Ok? {
          var k :| 0 <= k < |Chain(u)| && Chain(u)[k] == ReducedType(u).value
            && forall j :: 0 <= j < k ==> Chain(u)[j] !in inflections;
          assert Chain(t)[k + 1] == ReducedType(t).value;
          assert forall j :: 0 <= j < k + 1 ==> Chain(t)[j] !in inflections by {
            forall j | 0 <= j < k + 1 ensures Chain(t)[j] !in inflections {
              if j > 0 { assert Chain(t)[j] == Chain(u)[j - 1]; }
            }
          }
        } else {
          forall k | 0 <= k < |Chain(t)| ensures Chain(t)[k] !in inflections {
            if k > 0 { assert Chain(t)[k] == Chain(u)[k - 1]; }
          }
        }
      } else {
        assert Chain(t) == [t];
      }
    }
  }

  /** A family that only knows floats fetches a boolean as a float, after
      two hops of the chain. */
  lemma BooleanFallsBackToFloat(radical: string, name: string)
    ensures Inflector(radical, map[F := name], "").Inflect(B) == Ok(radical + name)
  {
    var inf := Inflector(radical, map[F := name], "");
    assert GLboolean.expr != GLfloat.expr && GLint.expr != GLfloat.expr;
    assert B !in inf.inflections && I !in inf.inflections && F in inf.inflections;
    assert Reductions[B] == I && Reductions[I] == F;
    assert inf.ReducedType(B) == inf.ReducedType(I) == inf.ReducedType(F) == Ok(F);
    assert radical + name + "" == radical + name;
  }
}
