/** The writer's side of the call details and of enter events, and the
    proofs that `Trace::Parser` reads them back. */
module TraceWriter {
  import opened Results
  import opened TraceFormat
  import opened TraceDecode

  /** One call detail a writer emits: an argument with its index, or the
      return value. */
  datatype Detail = Arg(index: nat, value: Value) | Ret(value: Value)

  predicate DetailEncodable(d: Detail) {
    Encodable(d.value) && (d.Arg? ==> d.index < U32)
  }

  function EncodeDetail(d: Detail): seq<Byte>
    requires DetailEncodable(d)
  {
    match d
    case Arg(i, v) => [CallArg] + EncodeUint(i) + Encode(v)
    case Ret(v) => [CallRet] + Encode(v)
  }

  /** The details in order, then the end marker. */
  function EncodeDetails(ds: seq<Detail>): seq<Byte>
    requires forall k :: 0 <= k < |ds| ==> DetailEncodable(ds[k])
  {
    if ds == [] then [CallEnd] else EncodeDetail(ds[0]) + EncodeDetails(ds[1..])
  }

  /** What one detail does to a call. */
  function Step(cs: CallState, d: Detail): CallState {
    match d
    case Arg(i, v) => cs.(args := Put(cs.args, i, v))
    case Ret(v) => cs.(ret := v)
  }

  /** What the details, in order, do to a call. */
  function Apply(cs: CallState, ds: seq<Detail>): CallState
    decreases |ds|
  {
    if ds == [] then cs else Apply(Step(cs, ds[0]), ds[1..])
  }

  /** `parse_arg` reads back a written index and value and stores the
      value in that slot. */
  lemma ArgAtRoundTrip(i: nat, v: Value, data: seq<Byte>, c: Cursor, args: seq<Value>)
    requires i < U32 && Encodable(v)
    requires HoldsAt(data, c.pos, EncodeUint(i) + Encode(v))
    ensures ArgAt(data, c, args) == Parsed(Put(args, i, v), c.(pos := c.pos + |EncodeUint(i) + Encode(v)|))
  {
    HoldsSplit(data, c.pos, EncodeUint(i), Encode(v));
    DecodeEncodeUint(i, data, c.pos);
    var mid := c.pos + |EncodeUint(i)|;
    ValueRoundTrip(v, data, c.(pos := mid));
    ArgAtReads(data, c, args, i, mid, v, c.(pos := c.pos + |EncodeUint(i) + Encode(v)|));
    SmallIndex(i);
  }

  lemma SmallIndex(i: nat)
    requires i < U32
    ensures i % U32 == i
  {
  }

  /** `parse_arg` is an index and then a value. */
  lemma ArgAtReads(data: seq<Byte>, c: Cursor, args: seq<Value>, i: nat, mid: nat, v: Value, e: Cursor)
    requires c.pos <= |data|
    requires DecodeUint(data, c.pos) == Read(i, mid)
    requires ValueAt(data, c.(pos := mid)) == Parsed(v, e)
    ensures ArgAt(data, c, args) == Parsed(Put(args, i % U32, v), e)
  {
  
  }

  /** `parse_call_details` reads one written detail and goes on with the
      call it changed. */
  lemma DetailRoundTrip(d: Detail, data: seq<Byte>, c: Cursor, cs: CallState)
    requires DetailEncodable(d)
    requires HoldsAt(data, c.pos, EncodeDetail(d))
    ensures c.pos < |data|
    ensures DetailAt(data, c, cs) == Parsed(Some(Step(cs, d)), c.(pos := c.pos + |EncodeDetail(d)|))
  {
    var e := EncodeDetail(d);
    assert data[c.pos] == e[0];
    assert e == [e[0]] + e[1..];
    HoldsSplit(data, c.pos, [e[0]], e[1..]);
    var p := c.pos + 1;
    match d
    case Arg(i, v) =>
      assert e[1..] == EncodeUint(i) + Encode(v);
      ArgAtRoundTrip(i, v, data, c.(pos := p), cs.args);
    case Ret(v) =>
      assert e[1..] == Encode(v);
      ValueRoundTrip(v, data, c.(pos := p));
  }

  /** `parse_call_details` reads back written details up to the end marker,
      stops right after it, touches no table, and leaves the call as the
      details in order make it. */
  lemma {:induction false} DetailsRoundTrip(ds: seq<Detail>, data: seq<Byte>, c: Cursor, cs: CallState)
    requires forall k :: 0 <= k < |ds| ==> DetailEncodable(ds[k])
    requires HoldsAt(data, c.pos, EncodeDetails(ds))
    ensures DetailsAt(data, c, cs) == Parsed((true, Apply(cs, ds)), c.(pos := c.pos + |EncodeDetails(ds)|))
    decreases |ds|
  {
    if ds == [] {
      EndMarker(data, c, cs);
      DetailsEnd(data, c, cs, c.(pos := c.pos + 1));
    } else {
      var d := c.(pos := c.pos + |EncodeDetail(ds[0])|);
      DetailsTailHolds(ds, data, c.pos);
      DetailsRoundTrip(ds[1..], data, d, Step(cs, ds[0]));
      DetailsCons(ds, data, c, cs);
    }
  }

  /** The details after the first are written right after it. */
  lemma DetailsTailHolds(ds: seq<Detail>, data: seq<Byte>, pos: nat)
    requires ds != [] && forall k :: 0 <= k < |ds| ==> DetailEncodable(ds[k])
    requires HoldsAt(data, pos, EncodeDetails(ds))
    ensures HoldsAt(data, pos + |EncodeDetail(ds[0])|, EncodeDetails(ds[1..]))
  {
    HoldsSplit(data, pos, EncodeDetail(ds[0]), EncodeDetails(ds[1..]));
  }

  /** The first written detail, then the rest read back: all of them read
      back. */
  lemma DetailsCons(ds: seq<Detail>, data: seq<Byte>, c: Cursor, cs: CallState)
    requires ds != [] && forall k :: 0 <= k < |ds| ==> DetailEncodable(ds[k])
    requires HoldsAt(data, c.pos, EncodeDetails(ds))
    requires var d := c.(pos := c.pos + |EncodeDetail(ds[0])|);
      DetailsAt(data, d, Step(cs, ds[0]))
      == Parsed((true, Apply(Step(cs, ds[0]), ds[1..])), d.(pos := d.pos + |EncodeDetails(ds[1..])|))
    ensures DetailsAt(data, c, cs) == Parsed((true, Apply(cs, ds)), c.(pos := c.pos + |EncodeDetails(ds)|))
  {
    var e, tail := EncodeDetail(ds[0]), EncodeDetails(ds[1..]);
    HoldsSplit(data, c.pos, e, tail);
    DetailRoundTrip(ds[0], data, c, cs);
    DetailsNext(data, c, cs, Step(cs, ds[0]), c.(pos := c.pos + |e|));
  }

  /** The written end marker reads back as the end of the details. */
  lemma EndMarker(data: seq<Byte>, c: Cursor, cs: CallState)
    requires HoldsAt(data, c.pos, [CallEnd])
    ensures c.pos < |data| && DetailAt(data, c, cs) == Parsed(None, c.(pos := c.pos + 1))
  {
    assert data[c.pos] == CallEnd;
  }

  /** An enter event for a function whose signature is already known
      reads its id and the details: the call gets that signature and the
      details' arguments and return value, and no table changes. */
  lemma EnterRoundTrip(id: nat, ds: seq<Detail>, data: seq<Byte>, c: Cursor)
    requires id < |c.functions| && c.functions[id].Some?
    requires forall k :: 0 <= k < |ds| ==> DetailEncodable(ds[k])
    requires HoldsAt(data, c.pos, EncodeUint(id) + EncodeDetails(ds))
    ensures var sig := c.functions[id].value;
      EnterAt(data, c)
      == Parsed((sig, true, Apply(NewCall(sig), ds)), c.(pos := c.pos + |EncodeUint(id) + EncodeDetails(ds)|))
  {
    HoldsSplit(data, c.pos, EncodeUint(id), EncodeDetails(ds));
    EnterParts(id, ds, data, c);
  }

  /** The id and the details, each found where the other ends. */
  lemma EnterParts(id: nat, ds: seq<Detail>, data: seq<Byte>, c: Cursor)
    requires id < |c.functions| && c.functions[id].Some?
    requires forall k :: 0 <= k < |ds| ==> DetailEncodable(ds[k])
    requires HoldsAt(data, c.pos, EncodeUint(id))
    requires HoldsAt(data, c.pos + |EncodeUint(id)|, EncodeDetails(ds))
    ensures var sig := c.functions[id].value;
      EnterAt(data, c)
      == Parsed((sig, true, Apply(NewCall(sig), ds)), c.(pos := c.pos + |EncodeUint(id)| + |EncodeDetails(ds)|))
  {
    DecodeEncodeUint(id, data, c.pos);
    var sig := c.functions[id].value;
    var d := c.(pos := c.pos + |EncodeUint(id)|);
    DetailsRoundTrip(ds, data, d, NewCall(sig));
    KnownEnter(data, c, id, d, Apply(NewCall(sig), ds), d.(pos := d.pos + |EncodeDetails(ds)|));
  }

  /** A known id, then details that end at the marker: the call gets the
      stored signature. */
  lemma KnownEnter(data: seq<Byte>, c: Cursor, id: nat, d: Cursor, cs: CallState, e: Cursor)
    requires c.pos <= |data| && id < |c.functions| && c.functions[id].Some?
    requires DecodeUint(data, c.pos) == Read(id, d.pos) && d == c.(pos := d.pos)
    requires DetailsAt(data, d, NewCall(c.functions[id].value)) == Parsed((true, cs), e)
    ensures EnterAt(data, c) == Parsed((c.functions[id].value, true, cs), e)
  {
    KnownSignature(data, c);
    EnterAtSplit(data, c, c.functions[id].value, d);
  }
}
