/** What `Trace::Parser` reads from a trace, as functions of the stream's
    bytes and a cursor: the position reached and the signature tables the
    parser grows on the way. */
module TraceDecode {
  import opened Results
  import opened TraceFormat

  /** A value read from the stream and the position after it. */
  datatype Read<T> = Read(value: T, next: nat)

  function Min(a: nat, b: nat): nat {
    if a < b then a else b
  }

  function Zeros(n: nat): (z: seq<Byte>)
    ensures |z| == n && forall k :: 0 <= k < n ==> z[k] == 0
  {
    seq(n, _ => 0)
  }

  /** `gzgetc`: the next byte, or -1 at the end of the stream. */
  function ByteAt(data: seq<Byte>, pos: nat): int {
    if pos < |data| then data[pos] else -1
  }

  // -----------------------------------------------------------------------
  // read_uint: base-128 digits, least significant first, the high bit of
  // each byte set when another byte follows (the layout of unsigned
  // LEB128).  The end of the stream ends the number.

  function DecodeUint(data: seq<Byte>, pos: nat): (r: Read<nat>)
    requires pos <= |data|
    ensures pos <= r.next <= |data|
    ensures r.next == pos <==> pos == |data|
    decreases |data| - pos
  {
    if pos == |data| then Read(0, pos)
    else if data[pos] < 0x80 then Read(data[pos], pos + 1)
    else
      var rest := DecodeUint(data, pos + 1);
      Read(data[pos] - 0x80 + 0x80 * rest.value, rest.next)
  }

  /** The writer's side: seven bits at a time, low digits first. */
  function EncodeUint(v: nat): (s: seq<Byte>)
    ensures 1 <= |s|
    ensures s[|s| - 1] < 0x80
    ensures forall k :: 0 <= k < |s| - 1 ==> 0x80 <= s[k]
    decreases v
  {
    if v < 0x80 then [v] else [v % 0x80 + 0x80] + EncodeUint(v / 0x80)
  }

  /** `data` holds `s` from `pos` on. */
  predicate HoldsAt(data: seq<Byte>, pos: nat, s: seq<Byte>) {
    pos + |s| <= |data| && data[pos..pos + |s|] == s
  }

  lemma HoldsSplit(data: seq<Byte>, pos: nat, a: seq<Byte>, b: seq<Byte>)
    requires HoldsAt(data, pos, a + b)
    ensures HoldsAt(data, pos, a) && HoldsAt(data, pos + |a|, b)
  {
    assert data[pos..pos + |a|] == (a + b)[..|a|];
    assert data[pos + |a|..pos + |a| + |b|] == (a + b)[|a|..];
  }

  /** Decoding an encoded number gives the number back and stops right
      after its last byte, whatever follows. */
  lemma {:induction false} DecodeEncodeUint(v: nat, data: seq<Byte>, pos: nat)
    requires HoldsAt(data, pos, EncodeUint(v))
    ensures DecodeUint(data, pos) == Read(v, pos + |EncodeUint(v)|)
    decreases v
  {
    assert data[pos] == EncodeUint(v)[0];
    if v >= 0x80 {
      HoldsSplit(data, pos, [v % 0x80 + 0x80], EncodeUint(v / 0x80));
      DecodeEncodeUint(v / 0x80, data, pos + 1);
    }
  }

  // -----------------------------------------------------------------------
  // gzread

  /** `gzread` into a fresh buffer of `len` bytes, asking for `len`
      converted to an `unsigned`: the bytes that remain, up to that many.
      A short read leaves the rest of the buffer as allocated, taken to be
      zero here. */
  function Chunk(data: seq<Byte>, pos: nat, len: nat): (r: Read<seq<Byte>>)
    requires pos <= |data|
    ensures |r.value| == len
    ensures r.next == pos + Min(len % U32, |data| - pos)
    ensures r.value[..r.next - pos] == data[pos..r.next]
    ensures forall k :: r.next - pos <= k < len ==> r.value[k] == 0
  {
    var end := if len % U32 <= |data| - pos then pos + len % U32 else |data|;
    var got := data[pos..end];
    assert (got + Zeros(len - |got|))[..|got|] == got;
    Read(got + Zeros(len - |got|), end)
  }

  // -----------------------------------------------------------------------
  // read_string

  /** A length, then that many bytes; a zero length reads nothing more. */
  function StringAt(data: seq<Byte>, pos: nat): (r: Read<seq<Byte>>)
    requires pos <= |data|
    ensures pos <= r.next <= |data|
    ensures |r.value| == DecodeUint(data, pos).value
    ensures DecodeUint(data, pos).value == 0 ==> r == Read([], DecodeUint(data, pos).next)
    ensures r.value == [] ==> r.next == DecodeUint(data, pos).next
  {
    var len := DecodeUint(data, pos);
    if len.value == 0 then Read([], len.next) else Chunk(data, len.next, len.value)
  }

  function EncodeString(s: seq<Byte>): seq<Byte> {
    EncodeUint(|s|) + s
  }

  /** Bytes fewer than 2^32 read back as written. */
  lemma ChunkRoundTrip(s: seq<Byte>, data: seq<Byte>, pos: nat)
    requires |s| < U32
    requires HoldsAt(data, pos, s)
    ensures Chunk(data, pos, |s|) == Read(s, pos + |s|)
  {
    var r := Chunk(data, pos, |s|);
    assert r.value == r.value[..|s|] == data[pos..pos + |s|] == s;
  }

  /** A string shorter than 2^32 bytes reads back as written. */
  lemma StringRoundTrip(s: seq<Byte>, data: seq<Byte>, pos: nat)
    requires |s| < U32
    requires HoldsAt(data, pos, EncodeString(s))
    ensures StringAt(data, pos) == Read(s, pos + |EncodeString(s)|)
  {
    HoldsSplit(data, pos, EncodeUint(|s|), s);
    DecodeEncodeUint(|s|, data, pos);
    if s != [] {
      ChunkRoundTrip(s, data, pos + |EncodeUint(|s|)|);
    }
  }

  /** `n` strings in a row (the argument or member names of a signature). */
  function NamesAt(data: seq<Byte>, pos: nat, n: nat): (r: Read<seq<seq<Byte>>>)
    requires pos <= |data|
    ensures |r.value| == n
    ensures pos <= r.next <= |data|
    decreases n
  {
    if n == 0 then Read([], pos)
    else
      var prev := NamesAt(data, pos, n - 1);
      var s := StringAt(data, prev.next);
      Read(prev.value + [s.value], s.next)
  }

  /** `n` bitmask flags in a row, each a name and its value. */
  function FlagsAt(data: seq<Byte>, pos: nat, n: nat): (r: Read<seq<Flag>>)
    requires pos <= |data|
    ensures |r.value| == n
    ensures pos <= r.next <= |data|
    decreases n
  {
    if n == 0 then Read([], pos)
    else
      var prev := FlagsAt(data, pos, n - 1);
      var name := StringAt(data, prev.next);
      var value := DecodeUint(data, name.next);
      Read(prev.value + [Flag(name.value, value.value)], value.next)
  }

  // -----------------------------------------------------------------------
  // lookup: the signature tables, indexed by id, grown on a miss

  /** `lookup(map, index)`: an id past the end grows the table to just
      hold it, with empty (null) new slots, and finds nothing; an id
      inside it finds its slot and changes nothing. */
  function LookupIn<T>(slots: seq<Option<T>>, index: nat): (r: (Option<T>, seq<Option<T>>))
    ensures index < |r.1|
    ensures index < |slots| ==> r.0 == slots[index] && r.1 == slots
    ensures index >= |slots| ==>
      r.0.None? && |r.1| == index + 1 && r.1[..|slots|] == slots
      && forall k :: |slots| <= k < |r.1| ==> r.1[k].None?
  {
    if index >= |slots| then (None, slots + seq(index + 1 - |slots|, _ => None))
    else (slots[index], slots)
  }

  /** A second lookup of the same id finds what the first found and
      grows nothing. */
  lemma LookupAgain<T>(slots: seq<Option<T>>, index: nat)
    ensures var first := LookupIn(slots, index);
      LookupIn(first.1, index) == (first.0, first.1)
  {
    var first := LookupIn(slots, index);
    if index >= |slots| {
      assert first.1[index].None?;
    }
  }

  /** Where the parser stands: the stream position and the four signature
      tables (`functions`, `enums`, `structs`, `bitmasks`). */
  datatype Cursor = Cursor(pos: nat,
                           functions: seq<Option<FunctionSig>>,
                           enums: seq<Option<EnumSig>>,
                           structs: seq<Option<StructSig>>,
                           bitmasks: seq<Option<seq<Flag>>>)

  /** `d` is `c` read further: the position moved forward, not past the
      end, and no table shrank. */
  predicate Advanced(data: seq<Byte>, c: Cursor, d: Cursor) {
    c.pos <= d.pos <= |data|
    && |c.functions| <= |d.functions| && |c.enums| <= |d.enums|
    && |c.structs| <= |d.structs| && |c.bitmasks| <= |d.bitmasks|
  }

  /** What a parse produced and where the parser stands after it, or the
      condition on which the parser exits. */
  datatype Parsed<T> = Parsed(value: T, cur: Cursor) | Exit(fatal: Fatal)

  /** A signature's name and its count-prefixed list of names (the layout
      `parse_enter` and `parse_struct` share). */
  function SigBodyAt(data: seq<Byte>, pos: nat): (r: Read<(seq<Byte>, seq<seq<Byte>>)>)
    requires pos <= |data|
    ensures pos <= r.next <= |data|
    ensures |r.value.1| == DecodeUint(data, StringAt(data, pos).next).value % U32
  {
    var name := StringAt(data, pos);
    var size := DecodeUint(data, name.next);
    var names := NamesAt(data, size.next, size.value % U32);
    Read((name.value, names.value), names.next)
  }

  // -----------------------------------------------------------------------
  // parse_value and its sub-parsers

  /** `parse_sint`: the negation of the number that follows. */
  function SIntAt(data: seq<Byte>, pos: nat): (r: Read<Value>)
    requires pos <= |data|
    ensures r.value.SInt? && r.value.i <= 0 && -r.value.i == DecodeUint(data, pos).value
    ensures pos <= r.next <= |data| && (r.next == pos <==> pos == |data|)
  {
    var u := DecodeUint(data, pos);
    Read(SInt(-(u.value as int)), u.next)
  }

  /** `parse_uint`: the number that follows. */
  function UIntAt(data: seq<Byte>, pos: nat): (r: Read<Value>)
    requires pos <= |data|
    ensures r.value == UInt(DecodeUint(data, pos).value)
    ensures pos <= r.next <= |data| && (r.next == pos <==> pos == |data|)
  {
    var u := DecodeUint(data, pos);
    Read(UInt(u.value), u.next)
  }

  /** `parse_float` (`width` 4) and `parse_double` (`width` 8): the raw
      bytes of the number. */
  function FloatAt(data: seq<Byte>, pos: nat, width: nat): (r: Read<Value>)
    requires pos <= |data|
    ensures r.value.Float? && |r.value.raw| == width
    ensures pos <= r.next <= |data| && r.next - pos <= width
    ensures width < U32 && pos + width <= |data| ==> r.value.raw == data[pos..pos + width]
  {
    var b := Chunk(data, pos, width);
    Read(Float(b.value), b.next)
  }

  /** `parse_string`: the string that follows. */
  function StringValueAt(data: seq<Byte>, pos: nat): (r: Read<Value>)
    requires pos <= |data|
    ensures r.value.String? && pos <= r.next <= |data|
    ensures r.value.s == [] ==> r.next == DecodeUint(data, pos).next
  {
    var s := StringAt(data, pos);
    Read(String(s.value), s.next)
  }

  /** `parse_blob`: a size, then that many bytes. */
  function BlobAt(data: seq<Byte>, pos: nat): (r: Read<Value>)
    requires pos <= |data|
    ensures r.value.Blob? && |r.value.bytes| == DecodeUint(data, pos).value
    ensures DecodeUint(data, pos).next <= r.next <= |data|
  {
    var size := DecodeUint(data, pos);
    var b := Chunk(data, size.next, size.value);
    Read(Blob(b.value), b.next)
  }

  /** `parse_opaque`: an address, read as an unsigned number. */
  function OpaqueAt(data: seq<Byte>, pos: nat): (r: Read<Value>)
    requires pos <= |data|
    ensures r.value == Pointer(DecodeUint(data, pos).value)
    ensures pos <= r.next <= |data| && (r.next == pos <==> pos == |data|)
  {
    var u := DecodeUint(data, pos);
    Read(Pointer(u.value), u.next)
  }

  /** The sub-parser of a tag that touches no table, or `None` when the tag
      has no such sub-parser. */
  function ScalarAt(data: seq<Byte>, tag: Byte, pos: nat): (r: Option<Read<Value>>)
    requires pos <= |data|
    ensures r.Some? ==> pos <= r.value.next <= |data|
    ensures tag == TypeNull || tag == TypeFalse || tag == TypeTrue ==> r.Some? && r.value.next == pos
    ensures Compound(tag) ==> r.None?
  {
    if tag == TypeNull then Some(Read(Null, pos))
    else if tag == TypeFalse then Some(Read(Bool(false), pos))
    else if tag == TypeTrue then Some(Read(Bool(true), pos))
    else if tag == TypeSInt then Some(SIntAt(data, pos))
    else if tag == TypeUInt then Some(UIntAt(data, pos))
    else if tag == TypeFloat then Some(FloatAt(data, pos, 4))
    else if tag == TypeDouble then Some(FloatAt(data, pos, 8))
    else if tag == TypeString then Some(StringValueAt(data, pos))
    else if tag == TypeBlob then Some(BlobAt(data, pos))
    else if tag == TypeOpaque then Some(OpaqueAt(data, pos))
    else None
  }

  /** The tags whose sub-parsers read signature tables or nested values. */
  predicate Compound(tag: Byte) {
    tag == TypeEnum || tag == TypeBitmask || tag == TypeArray || tag == TypeStruct
  }

  /** `parse_value`: a tag byte, then what its sub-parser reads; the end of
      the stream gives the null value and an unknown tag exits. */
  function ValueAt(data: seq<Byte>, c: Cursor): (r: Parsed<Value>)
    requires c.pos <= |data|
    ensures r.Parsed? ==> Advanced(data, c, r.cur)
    ensures r.Parsed? && r.cur.pos == c.pos ==> c.pos == |data| && r.value == Absent
    decreases |data| - c.pos, 1, 0
  {
    if c.pos == |data| then Parsed(Absent, c)
    else
      var tag := data[c.pos];
      var d := c.(pos := c.pos + 1);
      if tag == TypeEnum then EnumAt(data, d)
      else if tag == TypeBitmask then BitmaskAt(data, d)
      else if tag == TypeArray then ArrayAt(data, d)
      else if tag == TypeStruct then StructAt(data, d)
      else match ScalarAt(data, tag, d.pos)
        case None => Exit(UnknownType(tag))
        case Some(r) => Parsed(r.value, d.(pos := r.next))
  }

  /** A tag that is not compound is read by `ScalarAt`. */
  lemma ValueAtScalar(data: seq<Byte>, c: Cursor)
    requires c.pos < |data| && !Compound(data[c.pos])
    ensures var tag := data[c.pos]; var d := c.(pos := c.pos + 1);
      ValueAt(data, c) == match ScalarAt(data, tag, d.pos)
        case None => Exit(UnknownType(tag))
        case Some(r) => Parsed(r.value, d.(pos := r.next))
  {
  }

  /** `parse_enum`: an id; a new id is followed by the name and the value
      of its signature, stored under the id once the value is read. */
  function EnumAt(data: seq<Byte>, c: Cursor): (r: Parsed<Value>)
    requires c.pos <= |data|
    ensures r.Parsed? ==> Advanced(data, c, r.cur) && r.value.Enum?
    ensures r.Parsed? ==> var id := DecodeUint(data, c.pos).value;
      id < |r.cur.enums| && r.cur.enums[id] == Some(r.value.esig)
    decreases |data| - c.pos, 3, 0
  {
    var id := DecodeUint(data, c.pos);
    var l := LookupIn(c.enums, id.value);
    if l.0.Some? then Parsed(Enum(l.0.value), c.(pos := id.next, enums := l.1))
    else
      var name := StringAt(data, id.next);
      match ValueAt(data, c.(pos := name.next, enums := l.1))
      case Exit(f) => Exit(f)
      case Parsed(v, d) =>
        var sig := EnumSig(name.value, v);
        Parsed(Enum(sig), d.(enums := d.enums[id.value := Some(sig)]))
  }

  /** `parse_bitmask`: an id; a new id is followed by its flags, stored
      under it; then the value's bits. */
  function BitmaskAt(data: seq<Byte>, c: Cursor): (r: Parsed<Value>)
    requires c.pos <= |data|
    ensures r.Parsed? && Advanced(data, c, r.cur) && r.value.Bitmask?
    ensures var id := DecodeUint(data, c.pos).value;
      id < |r.cur.bitmasks| && r.cur.bitmasks[id] == Some(r.value.bsig)
  {
    var id := DecodeUint(data, c.pos);
    var l := LookupIn(c.bitmasks, id.value);
    var sig: (seq<Flag>, Cursor) :=
      if l.0.Some? then (l.0.value, c.(pos := id.next, bitmasks := l.1))
      else
        var size := DecodeUint(data, id.next);
        var flags := FlagsAt(data, size.next, size.value);
        (flags.value, c.(pos := flags.next, bitmasks := l.1[id.value := Some(flags.value)]));
    var bits := DecodeUint(data, sig.1.pos);
    Parsed(Bitmask(sig.0, bits.value), sig.1.(pos := bits.next))
  }

  /** `parse_array`: a length, then that many values. */
  function ArrayAt(data: seq<Byte>, c: Cursor): (r: Parsed<Value>)
    requires c.pos <= |data|
    ensures r.Parsed? ==>
      Advanced(data, c, r.cur) && r.value.Array? && |r.value.elems| == DecodeUint(data, c.pos).value
    decreases |data| - c.pos, 3, 0
  {
    var len := DecodeUint(data, c.pos);
    match ValuesAt(data, c.(pos := len.next), len.value)
    case Exit(f) => Exit(f)
    case Parsed(vs, d) => Parsed(Array(vs), d)
  }

  /** `n` values in a row, each read by `parse_value`. */
  function ValuesAt(data: seq<Byte>, c: Cursor, n: nat): (r: Parsed<seq<Value>>)
    requires c.pos <= |data|
    ensures r.Parsed? ==> Advanced(data, c, r.cur) && |r.value| == n
    decreases |data| - c.pos, 2, n
  {
    if n == 0 then Parsed([], c)
    else
      match ValuesAt(data, c, n - 1)
      case Exit(f) => Exit(f)
      case Parsed(vs, d) =>
        match ValueAt(data, d)
        case Exit(f) => Exit(f)
        case Parsed(v, e) => Parsed(vs + [v], e)
  }

  /** Once a value exits, reading more values exits the same way. */
  lemma {:induction false} ValuesExit(data: seq<Byte>, c: Cursor, m: nat, n: nat)
    requires c.pos <= |data| && m <= n
    requires ValuesAt(data, c, m).Exit?
    ensures ValuesAt(data, c, n) == ValuesAt(data, c, m)
    decreases n
  {
    if m < n {
      ValuesExit(data, c, m, n - 1);
    }
  }

  /** The signature `parse_struct` uses: found under its id, or read and
      stored there. */
  function StructSigAt(data: seq<Byte>, c: Cursor): (r: (StructSig, Cursor))
    requires c.pos <= |data|
    ensures Advanced(data, c, r.1)
    ensures var id := DecodeUint(data, c.pos).value;
      id < |r.1.structs| && r.1.structs[id] == Some(r.0)
  {
    var id := DecodeUint(data, c.pos);
    var l := LookupIn(c.structs, id.value);
    if l.0.Some? then (l.0.value, c.(pos := id.next, structs := l.1))
    else
      var body := SigBodyAt(data, id.next);
      var sig := StructSig(body.value.0, body.value.1);
      (sig, c.(pos := body.next, structs := l.1[id.value := Some(sig)]))
  }

  /** `parse_struct`: the signature, then one value per member name. */
  function StructAt(data: seq<Byte>, c: Cursor): (r: Parsed<Value>)
    requires c.pos <= |data|
    ensures r.Parsed? ==>
      Advanced(data, c, r.cur) && r.value.Struct? && |r.value.members| == |r.value.ssig.memberNames|
    decreases |data| - c.pos, 3, 0
  {
    var sig := StructSigAt(data, c);
    match ValuesAt(data, sig.1, |sig.0.memberNames|)
    case Exit(f) => Exit(f)
    case Parsed(vs, d) => Parsed(Struct(sig.0, vs), d)
  }

  // -----------------------------------------------------------------------
  // Calls

  /** The parts of a call the details fill in: its argument slots and its
      return value. */
  datatype CallState = CallState(args: seq<Value>, ret: Value)

  /** A new `Call` for `sig`: one empty slot per argument name, no return
      value. */
  function NewCall(sig: FunctionSig): (cs: CallState)
    ensures |cs.args| == |sig.argNames| && cs.ret == Absent
    ensures forall k :: 0 <= k < |cs.args| ==> cs.args[k] == Absent
  {
    CallState(seq(|sig.argNames|, _ => Absent), Absent)
  }

  /** `parse_arg`'s store: the slots grow to hold `index` when they are
      too few, the new ones empty, and slot `index` takes `v`. */
  function Put(args: seq<Value>, index: nat, v: Value): (r: seq<Value>)
    ensures |r| == if index < |args| then |args| else index + 1
    ensures r[index] == v
    ensures forall k :: 0 <= k < |r| && k != index ==> r[k] == if k < |args| then args[k] else Absent
  {
    var grown := if index < |args| then args else args + seq(index + 1 - |args|, _ => Absent);
    grown[index := v]
  }

  /** `parse_arg`: an argument index (an `unsigned`), then its value. */
  function ArgAt(data: seq<Byte>, c: Cursor, args: seq<Value>): (r: Parsed<seq<Value>>)
    requires c.pos <= |data|
    ensures r.Parsed? ==> Advanced(data, c, r.cur)
  {
    var index := DecodeUint(data, c.pos);
    match ValueAt(data, c.(pos := index.next))
    case Exit(f) => Exit(f)
    case Parsed(v, d) => Parsed(Put(args, index.value % U32, v), d)
  }

  /** A parsed argument covers the `unsigned` index read and every old
      slot, and leaves the old slots other than that index as they were. */
  lemma ArgAtKeepsOtherSlots(data: seq<Byte>, c: Cursor, args: seq<Value>)
    requires c.pos <= |data|
    ensures var r := ArgAt(data, c, args);
      r.Parsed? ==> var i := DecodeUint(data, c.pos).value % U32;
        && |args| <= |r.value| && i < |r.value|
        && forall k :: 0 <= k < |args| && k != i ==> r.value[k] == args[k]
  {
  }

  /** One pass of `parse_call_details`' loop after a byte was read: the
      end marker gives `None`, an argument or a return value gives the call
      it changed, an unknown detail exits. */
  function DetailAt(data: seq<Byte>, c: Cursor, cs: CallState): (r: Parsed<Option<CallState>>)
    requires c.pos < |data|
    ensures r.Parsed? ==> Advanced(data, c, r.cur) && c.pos < r.cur.pos
  {
    var tag := data[c.pos];
    var d := c.(pos := c.pos + 1);
    if tag == CallEnd then Parsed(None, d)
    else if tag == CallArg then
      match ArgAt(data, d, cs.args)
      case Exit(f) => Exit(f)
      case Parsed(args, e) => Parsed(Some(cs.(args := args)), e)
    else if tag == CallRet then
      match ValueAt(data, d)
      case Exit(f) => Exit(f)
      case Parsed(v, e) => Parsed(Some(cs.(ret := v)), e)
    else Exit(UnknownDetail(tag))
  }

  /** `parse_call_details`: details until the end marker (`true`) or the
      end of the stream (`false`). */
  function DetailsAt(data: seq<Byte>, c: Cursor, cs: CallState): (r: Parsed<(bool, CallState)>)
    requires c.pos <= |data|
    ensures r.Parsed? ==> Advanced(data, c, r.cur)
    ensures r.Parsed? && !r.value.0 ==> r.cur.pos == |data|
    decreases |data| - c.pos
  {
    if c.pos == |data| then Parsed((false, cs), c)
    else
      match DetailAt(data, c, cs)
      case Exit(f) => Exit(f)
      case Parsed(None, d) => Parsed((true, cs), d)
      case Parsed(Some(next), d) => DetailsAt(data, d, next)
  }

  /** The end marker ends the details. */
  lemma DetailsEnd(data: seq<Byte>, c: Cursor, cs: CallState, d: Cursor)
    requires c.pos < |data| && DetailAt(data, c, cs) == Parsed(None, d)
    ensures DetailsAt(data, c, cs) == Parsed((true, cs), d)
  {
  }

  /** An argument or a return value is followed by the rest of the
      details, read into the call it changed. */
  lemma DetailsNext(data: seq<Byte>, c: Cursor, cs: CallState, next: CallState, d: Cursor)
    requires c.pos < |data| && DetailAt(data, c, cs) == Parsed(Some(next), d)
    ensures DetailsAt(data, c, cs) == DetailsAt(data, d, next)
  {
  }

  /** The signature `parse_enter` uses: found under its id, or read and
      stored there. */
  function FunctionSigAt(data: seq<Byte>, c: Cursor): (r: (FunctionSig, Cursor))
    requires c.pos <= |data|
    ensures Advanced(data, c, r.1)
    ensures r.1.enums == c.enums && r.1.structs == c.structs && r.1.bitmasks == c.bitmasks
    ensures var id := DecodeUint(data, c.pos).value;
      id < |r.1.functions| && r.1.functions[id] == Some(r.0)
  {
    var id := DecodeUint(data, c.pos);
    var l := LookupIn(c.functions, id.value);
    if l.0.Some? then (l.0.value, c.(pos := id.next, functions := l.1))
    else
      var body := SigBodyAt(data, id.next);
      var sig := FunctionSig(body.value.0, body.value.1);
      (sig, c.(pos := body.next, functions := l.1[id.value := Some(sig)]))
  }

  /** A signature already in the table is reused: only its id is read. */
  lemma KnownSignature(data: seq<Byte>, c: Cursor)
    requires c.pos <= |data|
    requires var id := DecodeUint(data, c.pos).value; id < |c.functions| && c.functions[id].Some?
    ensures var id := DecodeUint(data, c.pos);
      FunctionSigAt(data, c) == (c.functions[id.value].value, c.(pos := id.next))
  {
  }

  /** `parse_enter` after its id: the signature, then the details of the
      new call. */
  function EnterAt(data: seq<Byte>, c: Cursor): (r: Parsed<(FunctionSig, bool, CallState)>)
    requires c.pos <= |data|
    ensures r.Parsed? ==> Advanced(data, c, r.cur)
    ensures r.Parsed? ==> r.value.0 == FunctionSigAt(data, c).0
  {
    var sig := FunctionSigAt(data, c);
    match DetailsAt(data, sig.1, NewCall(sig.0))
    case Exit(f) => Exit(f)
    case Parsed(details, d) => Parsed((sig.0, details.0, details.1), d)
  }

  /** `parse_enter` after its id, once the signature is known. */
  lemma EnterAtSplit(data: seq<Byte>, c: Cursor, sig: FunctionSig, d: Cursor)
    requires c.pos <= |data| && FunctionSigAt(data, c) == (sig, d)
    ensures d.pos <= |data|
    ensures EnterAt(data, c) == match DetailsAt(data, d, NewCall(sig))
      case Exit(f) => Exit(f)
      case Parsed(details, e) => Parsed((sig, details.0, details.1), e)
  {
  }

  /** `parse_struct` after its signature: one value per member name. */
  lemma StructAtSplit(data: seq<Byte>, c: Cursor, sig: StructSig, d: Cursor)
    requires c.pos <= |data| && StructSigAt(data, c) == (sig, d)
    ensures d.pos <= |data|
    ensures StructAt(data, c) == match ValuesAt(data, d, |sig.memberNames|)
      case Exit(f) => Exit(f)
      case Parsed(vs, e) => Parsed(Struct(sig, vs), e)
  {
  }

  /** The position of the first pending call numbered `no`, if any. */
  function FirstWith(nos: seq<nat>, no: nat): (r: Option<nat>)
    ensures r.Some? ==>
      r.value < |nos| && nos[r.value] == no && forall j :: 0 <= j < r.value ==> nos[j] != no
    ensures r.None? <==> no !in nos
    decreases |nos|
  {
    if nos == [] then None
    else if nos[0] == no then Some(0)
    else match FirstWith(nos[1..], no)
      case None => None
      case Some(k) => Some(k + 1)
  }

  // -----------------------------------------------------------------------
  // The writer's side of the value grammar

  /** The values a writer emits without a signature table (all but enums,
      bitmasks, structs and the null pointer); a signed integer is written
      as the magnitude of a number that is not positive. */
  predicate Encodable(v: Value)
    decreases v
  {
    match v
    case Null => true
    case Bool(_) => true
    case SInt(i) => i <= 0
    case UInt(_) => true
    case Float(raw) => |raw| == 4 || |raw| == 8
    case String(s) => |s| < U32
    case Blob(b) => |b| < U32
    case Array(vs) => forall k :: 0 <= k < |vs| ==> Encodable(vs[k])
    case Pointer(_) => true
    case _ => false
  }

  function Encode(v: Value): seq<Byte>
    requires Encodable(v)
    decreases v, 1, 0
  {
    match v
    case Null => [TypeNull]
    case Bool(b) => [if b then TypeTrue else TypeFalse]
    case SInt(i) => [TypeSInt] + EncodeUint(-i)
    case UInt(u) => [TypeUInt] + EncodeUint(u)
    case Float(raw) => [if |raw| == 4 then TypeFloat else TypeDouble] + raw
    case String(s) => [TypeString] + EncodeString(s)
    case Blob(b) => [TypeBlob] + EncodeString(b)
    case Array(vs) => [TypeArray] + EncodeUint(|vs|) + EncodeAll(vs, |vs|)
    case Pointer(a) => [TypeOpaque] + EncodeUint(a)
  }

  /** The first `n` values of `vs`, one after another. */
  function EncodeAll(vs: seq<Value>, n: nat): seq<Byte>
    requires n <= |vs| && forall k :: 0 <= k < |vs| ==> Encodable(vs[k])
    decreases vs, 0, n
  {
    if n == 0 then [] else EncodeAll(vs, n - 1) + Encode(vs[n - 1])
  }

  /** `parse_value` reads back what the writer wrote, and stops right
      after it, whatever follows; no table is touched. */
  lemma {:induction false} ValueRoundTrip(v: Value, data: seq<Byte>, c: Cursor)
    requires Encodable(v)
    requires HoldsAt(data, c.pos, Encode(v))
    ensures ValueAt(data, c) == Parsed(v, c.(pos := c.pos + |Encode(v)|))
    decreases v, 1, 1
  {
    var e := Encode(v);
    assert data[c.pos] == e[0];
    assert e == [e[0]] + e[1..];
    HoldsSplit(data, c.pos, [e[0]], e[1..]);
    if v.Array? {
      ArrayRoundTrip(v, data, c);
    } else {
      ScalarRoundTrip(v, data, c);
    }
  }

  lemma ScalarRoundTrip(v: Value, data: seq<Byte>, c: Cursor)
    requires Encodable(v) && !v.Array?
    requires HoldsAt(data, c.pos, Encode(v))
    requires HoldsAt(data, c.pos + 1, Encode(v)[1..])
    ensures ValueAt(data, c) == Parsed(v, c.(pos := c.pos + |Encode(v)|))
  {
    assert data[c.pos] == Encode(v)[0];
    ValueAtScalar(data, c);
    ScalarRoundTripAt(v, data, c.pos + 1);
    assert ScalarReadsBack(v, data, c.pos + 1);
  }

  /** What `ScalarAt` reads back, for a value that is not an array. */
  predicate ScalarReadsBack(v: Value, data: seq<Byte>, p: nat)
    requires Encodable(v) && p <= |data|
  {
    ScalarAt(data, Encode(v)[0], p) == Some(Read(v, p - 1 + |Encode(v)|))
  }

  lemma ScalarRoundTripAt(v: Value, data: seq<Byte>, p: nat)
    requires Encodable(v) && !v.Array? && p <= |data|
    requires HoldsAt(data, p, Encode(v)[1..])
    ensures ScalarReadsBack(v, data, p)
  {
    match v
    case Null =>
    case Bool(_) =>
    case SInt(i) => SIntRoundTrip(v, data, p);
    case UInt(u) => UIntRoundTrip(v, data, p);
    case Pointer(a) => PointerRoundTrip(v, data, p);
    case Float(raw) => FloatRoundTrip(v, data, p);
    case String(s) => StringValueRoundTrip(v, data, p);
    case Blob(b) => BlobRoundTrip(v, data, p);
  }

  lemma SIntRoundTrip(v: Value, data: seq<Byte>, p: nat)
    requires v.SInt? && Encodable(v) && p <= |data|
    requires HoldsAt(data, p, Encode(v)[1..])
    ensures ScalarReadsBack(v, data, p)
  {
    assert Encode(v)[1..] == EncodeUint(-v.i);
    DecodeEncodeUint(-v.i, data, p);
  }

  lemma UIntRoundTrip(v: Value, data: seq<Byte>, p: nat)
    requires v.UInt? && p <= |data|
    requires HoldsAt(data, p, Encode(v)[1..])
    ensures ScalarReadsBack(v, data, p)
  {
    assert Encode(v)[1..] == EncodeUint(v.u);
    DecodeEncodeUint(v.u, data, p);
  }

  lemma PointerRoundTrip(v: Value, data: seq<Byte>, p: nat)
    requires v.Pointer? && p <= |data|
    requires HoldsAt(data, p, Encode(v)[1..])
    ensures ScalarReadsBack(v, data, p)
  {
    assert Encode(v)[1..] == EncodeUint(v.addr);
    DecodeEncodeUint(v.addr, data, p);
  }

  lemma FloatRoundTrip(v: Value, data: seq<Byte>, p: nat)
    requires v.Float? && Encodable(v) && p <= |data|
    requires HoldsAt(data, p, Encode(v)[1..])
    ensures ScalarReadsBack(v, data, p)
  {
    assert Encode(v)[1..] == v.raw;
    ChunkRoundTrip(v.raw, data, p);
  }

  lemma StringValueRoundTrip(v: Value, data: seq<Byte>, p: nat)
    requires v.String? && Encodable(v) && p <= |data|
    requires HoldsAt(data, p, Encode(v)[1..])
    ensures ScalarReadsBack(v, data, p)
  {
    assert Encode(v)[1..] == EncodeString(v.s);
    StringRoundTrip(v.s, data, p);
  }

  lemma BlobRoundTrip(v: Value, data: seq<Byte>, p: nat)
    requires v.Blob? && Encodable(v) && p <= |data|
    requires HoldsAt(data, p, Encode(v)[1..])
    ensures ScalarReadsBack(v, data, p)
  {
    assert Encode(v)[1..] == EncodeString(v.bytes);
    BlobAtRoundTrip(v.bytes, data, p);
  }

  lemma BlobAtRoundTrip(b: seq<Byte>, data: seq<Byte>, p: nat)
    requires |b| < U32
    requires HoldsAt(data, p, EncodeString(b))
    ensures BlobAt(data, p) == Read(Blob(b), p + |EncodeString(b)|)
  {
    HoldsSplit(data, p, EncodeUint(|b|), b);
    DecodeEncodeUint(|b|, data, p);
    ChunkRoundTrip(b, data, p + |EncodeUint(|b|)|);
  }

  lemma {:induction false} ArrayRoundTrip(v: Value, data: seq<Byte>, c: Cursor)
    requires Encodable(v) && v.Array?
    requires HoldsAt(data, c.pos, Encode(v))
    requires HoldsAt(data, c.pos + 1, Encode(v)[1..])
    ensures ValueAt(data, c) == Parsed(v, c.(pos := c.pos + |Encode(v)|))
    decreases v, 1, 0
  {
    assert data[c.pos] == TypeArray;
    ArrayAtRoundTrip(v, data, c.(pos := c.pos + 1));
  }

  lemma {:induction false} ArrayAtRoundTrip(v: Value, data: seq<Byte>, d: Cursor)
    requires Encodable(v) && v.Array?
    requires HoldsAt(data, d.pos, Encode(v)[1..])
    ensures ArrayAt(data, d) == Parsed(v, d.(pos := d.pos - 1 + |Encode(v)|))
    decreases v, 0, |v.elems| + 1
  {
    var vs := v.elems;
    ArrayEncoding(v, data, d.pos);
    DecodeEncodeUint(|vs|, data, d.pos);
    var mid := d.pos + |EncodeUint(|vs|)|;
    ValuesRoundTrip(v, data, d.(pos := mid), |vs|);
    assert vs[..|vs|] == vs;
    ArrayAtReads(data, d, |vs|, mid, vs, d.(pos := d.pos - 1 + |Encode(v)|));
  }

  /** An array is written as its length and then its values. */
  lemma ArrayEncoding(v: Value, data: seq<Byte>, p: nat)
    requires Encodable(v) && v.Array?
    requires HoldsAt(data, p, Encode(v)[1..])
    ensures var n := EncodeUint(|v.elems|);
      && HoldsAt(data, p, n) && HoldsAt(data, p + |n|, EncodeAll(v.elems, |v.elems|))
      && |Encode(v)| == 1 + |n| + |EncodeAll(v.elems, |v.elems|)|
  {
    var vs := v.elems;
    assert Encode(v)[1..] == EncodeUint(|vs|) + EncodeAll(vs, |vs|);
    HoldsSplit(data, p, EncodeUint(|vs|), EncodeAll(vs, |vs|));
  }

  /** `parse_array` is its length and then its values. */
  lemma ArrayAtReads(data: seq<Byte>, d: Cursor, n: nat, mid: nat, vs: seq<Value>, e: Cursor)
    requires d.pos <= |data|
    requires DecodeUint(data, d.pos) == Read(n, mid)
    requires ValuesAt(data, d.(pos := mid), n) == Parsed(vs, e)
    ensures ArrayAt(data, d) == Parsed(Array(vs), e)
  {
  }

  lemma {:induction false} ValuesRoundTrip(a: Value, data: seq<Byte>, c: Cursor, n: nat)
    requires a.Array? && Encodable(a) && n <= |a.elems|
    requires HoldsAt(data, c.pos, EncodeAll(a.elems, n))
    ensures ValuesAt(data, c, n) == Parsed(a.elems[..n], c.(pos := c.pos + |EncodeAll(a.elems, n)|))
    decreases a, 0, n, 1
  {
    if n > 0 {
      var vs := a.elems;
      var front, last := EncodeAll(vs, n - 1), Encode(vs[n - 1]);
      HoldsSplit(data, c.pos, front, last);
      ValuesRoundTrip(a, data, c, n - 1);
      ValuesCons(data, c, n, vs[..n - 1], vs[n - 1], front, last);
      assert vs[..n - 1] + [vs[n - 1]] == vs[..n];
    }
  }

  /** The first `n - 1` values read back from `front`, then the value
      written as `last` right after it. */
  lemma ValuesCons(data: seq<Byte>, c: Cursor, n: nat, vs: seq<Value>, v: Value,
                   front: seq<Byte>, last: seq<Byte>)
    requires c.pos <= |data| && 0 < n && Encodable(v) && last == Encode(v)
    requires HoldsAt(data, c.pos + |front|, last)
    requires ValuesAt(data, c, n - 1) == Parsed(vs, c.(pos := c.pos + |front|))
    ensures ValuesAt(data, c, n) == Parsed(vs + [v], c.(pos := c.pos + |front| + |last|))
    decreases v, 2
  {
    var d := c.(pos := c.pos + |front|);
    ValueRoundTrip(v, data, d);
    ValuesNext(data, c, n, vs, d, v, d.(pos := d.pos + |last|));
  }

  /** One more value after `n - 1` of them. */
  lemma ValuesNext(data: seq<Byte>, c: Cursor, n: nat, vs: seq<Value>, d: Cursor, v: Value, e: Cursor)
    requires c.pos <= |data| && 0 < n
    requires ValuesAt(data, c, n - 1) == Parsed(vs, d)
    requires ValueAt(data, d) == Parsed(v, e)
    ensures ValuesAt(data, c, n) == Parsed(vs + [v], e)
  {
  }
}
