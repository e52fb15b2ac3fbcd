/** `Trace::Parser`: the stream it reads, the signature tables it grows,
    the calls it keeps pending, and the parse routines, each proved to read
    what the matching TraceDecode function says. */
module TraceParser {
  import opened Results
  import opened TraceFormat
  import opened TraceDecode

  /** The decompressed trace file: its bytes and the read position. */
  class Stream {
    const data: seq<Byte>
    var pos: nat

    constructor (data: seq<Byte>)
      ensures this.data == data && pos == 0
    {
      this.data := data;
      pos := 0;
    }

    /** `gzgetc`: the next byte, or -1 at the end. */
    method GetC() returns (c: int)
      requires pos <= |data|
      modifies this
      ensures c == ByteAt(data, old(pos))
      ensures pos == if old(pos) < |data| then old(pos) + 1 else old(pos)
    {
      if pos == |data| {
        return -1;
      }
      c := data[pos];
      pos := pos + 1;
    }

    /** `gzread` into a fresh buffer of `len` bytes, asking for `len` as an
        `unsigned`. */
    method ReadBuffer(len: nat) returns (buf: seq<Byte>)
      requires pos <= |data|
      modifies this
      ensures Read(buf, pos) == Chunk(data, old(pos), len)
    {
      var count := len % U32;
      var end := if count <= |data| - pos then pos + count else |data|;
      buf := data[pos..end] + Zeros(len - (end - pos));
      pos := end;
    }
  }

  /** One of the parser's signature vectors (`functions`, `enums`,
      `structs`, `bitmasks`); an empty slot is a null pointer. */
  class Table<T> {
    var slots: seq<Option<T>>

    constructor ()
      ensures slots == []
    {
      slots := [];
    }

    /** `lookup(map, index)`. */
    method Lookup(index: nat) returns (found: Option<T>)
      modifies this
      ensures (found, slots) == LookupIn(old(slots), index)
    {
      if index >= |slots| {
        slots := slots + seq(index + 1 - |slots|, _ => None);
        return None;
      }
      found := slots[index];
    }

    /** `map[index] = sig`. */
    method Store(index: nat, sig: T)
      requires index < |slots|
      modifies this
      ensures slots == old(slots)[index := Some(sig)]
    {
      slots := slots[index := Some(sig)];
    }
  }

  /** A call being decoded: its signature and number are fixed when it is
      created, its argument slots and return value filled in by the call
      details. */
  class Call {
    const sig: FunctionSig
    const no: nat
    var args: seq<Value>
    var ret: Value

    /** `new Call(sig)` numbered `no`. */
    constructor (sig: FunctionSig, no: nat)
      ensures this.sig == sig && this.no == no
      ensures State() == NewCall(sig)
    {
      this.sig := sig;
      this.no := no;
      args := seq(|sig.argNames|, _ => Absent);
      ret := Absent;
    }

    function State(): CallState
      reads this
    {
      CallState(args, ret)
    }
  }

  /** The call numbers of the pending calls, in order. */
  function Numbers(calls: seq<Call>): (nos: seq<nat>)
    ensures |nos| == |calls| && forall k :: 0 <= k < |calls| ==> nos[k] == calls[k].no
  {
    seq(|calls|, k requires 0 <= k < |calls| => calls[k].no)
  }

  /** `p` was the outcome of a parse routine that returned `r` and left the
      parser at `now`; after an exit the state does not matter. */
  predicate Yields<T(==)>(p: Parsed<T>, r: Result<T, Fatal>, now: Cursor) {
    match p
    case Exit(f) => r == Err(f)
    case Parsed(x, d) => r == Ok(x) && now == d
  }

  function Pow2(n: nat): (p: nat)
    ensures p >= 1
  {
    if n == 0 then 1 else 2 * Pow2(n - 1)
  }

  lemma Pow2Plus7(n: nat)
    ensures Pow2(n + 7) == 0x80 * Pow2(n)
  {
    assert Pow2(n + 7) == 2 * Pow2(n + 6) == 4 * Pow2(n + 5) == 8 * Pow2(n + 4);
    assert Pow2(n + 4) == 2 * Pow2(n + 3) == 4 * Pow2(n + 2) == 8 * Pow2(n + 1) == 16 * Pow2(n);
  }

  /** One more continuation digit keeps the decoded total: the digit `low`
      below `rest`, at weight `p`, with `p7` the weight of `rest`. */
  lemma DigitStep(value: int, p: int, low: int, rest: int, p7: int)
    requires p7 == 0x80 * p
    ensures value + p * (low + 0x80 * rest) == (value + p * low) + p7 * rest
  {
  }

  /** One byte of `read_uint`'s loop: a digit below `0x80` ends the
      number, a larger one adds its low seven bits at weight `2^shift` and
      leaves the rest to the following bytes at weight `2^(shift + 7)`. */
  lemma ReadUintStep(data: seq<Byte>, start: nat, pos: nat, value: nat, shift: nat, b: int, digit: nat)
    requires start <= pos < |data| && b == data[pos]
    requires digit == value + Pow2(shift) * (b % 0x80)
    requires var rest := DecodeUint(data, pos);
      DecodeUint(data, start) == Read(value + Pow2(shift) * rest.value, rest.next)
    ensures if b < 0x80 then DecodeUint(data, start) == Read(digit, pos + 1)
      else var rest := DecodeUint(data, pos + 1);
        DecodeUint(data, start) == Read(digit + Pow2(shift + 7) * rest.value, rest.next)
  {
    if b < 0x80 {
      assert DecodeUint(data, pos) == Read(b, pos + 1);
      assert b % 0x80 == b;
    } else {
      var rest := DecodeUint(data, pos + 1);
      assert DecodeUint(data, pos) == Read(b - 0x80 + 0x80 * rest.value, rest.next);
      assert b % 0x80 == b - 0x80;
      Pow2Plus7(shift);
      DigitStep(value, Pow2(shift), b - 0x80, rest.value, Pow2(shift + 7));
    }
  }

  class Parser {
    const file: Stream
    const functions: Table<FunctionSig>
    const enums: Table<EnumSig>
    const structs: Table<StructSig>
    const bitmasks: Table<seq<Flag>>
    /** `next_call_no`, an `unsigned`. */
    var nextCallNo: nat
    /** The calls entered and not yet left. */
    var calls: seq<Call>

    ghost predicate Valid()
      reads this, file
    {
      file.pos <= |file.data| && nextCallNo < U32
    }

    /** The position and the four tables. */
    function Cur(): Cursor
      reads file, functions, enums, structs, bitmasks
    {
      Cursor(file.pos, functions.slots, enums.slots, structs.slots, bitmasks.slots)
    }

    /** A parser over `data`, at its start, with empty tables and no
        pending call. */
    constructor (data: seq<Byte>)
      ensures Valid() && file.data == data
      ensures Cur() == Cursor(0, [], [], [], []) && nextCallNo == 0 && calls == []
    {
      file := new Stream(data);
      functions := new Table();
      enums := new Table();
      structs := new Table();
      bitmasks := new Table();
      nextCallNo := 0;
      calls := [];
    }

    // ---------------------------------------------------------------------
    // Reading numbers and strings

    /** `read_uint`. */
    method ReadUint() returns (value: nat)
      requires file.pos <= |file.data|
      modifies file
      ensures Read(value, file.pos) == DecodeUint(file.data, old(file.pos))
    {
      ghost var start := file.pos;
      value := 0;
      var shift: nat := 0;
      var more := true;
      while more
        invariant start <= file.pos <= |file.data|
        invariant more ==> var rest := DecodeUint(file.data, file.pos);
          DecodeUint(file.data, start) == Read(value + Pow2(shift) * rest.value, rest.next)
        invariant !more ==> DecodeUint(file.data, start) == Read(value, file.pos)
        decreases |file.data| - file.pos
      {
        var c := file.GetC();
        if c == -1 {
          break;
        }
        // `value |= (c & 0x7f) << shift`: the new digit lies above every
        // bit set so far, so the or is a sum.
        var digit := value + Pow2(shift) * (c % 0x80);
        ReadUintStep(file.data, start, file.pos - 1, value, shift, c, digit);
        value, shift, more := digit, shift + 7, c >= 0x80;
      }
    }

    /** `read_string`. */
    method ReadString() returns (s: seq<Byte>)
      requires file.pos <= |file.data|
      modifies file
      ensures Read(s, file.pos) == StringAt(file.data, old(file.pos))
    {
      var len := ReadUint();
      if len == 0 {
        return [];
      }
      s := file.ReadBuffer(len);
    }

    /** A signature's name, its count (an `unsigned`) and that many names,
        as `parse_enter` and `parse_struct` read them. */
    method ReadSigBody() returns (name: seq<Byte>, names: seq<seq<Byte>>)
      requires file.pos <= |file.data|
      modifies file
      ensures Read((name, names), file.pos) == SigBodyAt(file.data, old(file.pos))
    {
      name := ReadString();
      var size := ReadUint();
      size := size % U32;
      ghost var from := file.pos;
      names := [];
      for i := 0 to size
        invariant Read(names, file.pos) == NamesAt(file.data, from, i)
      {
        var s := ReadString();
        names := names + [s];
      }
    }

    // ---------------------------------------------------------------------
    // Events and call details

    /** `parse_enter`: the call is numbered with `next_call_no`, which
        wraps as an `unsigned`, and is kept pending only when its details
        reach the end marker. */
    method ParseEnter() returns (failure: Option<Fatal>)
      requires Valid()
      modifies this, file, functions, enums, structs, bitmasks
      ensures Valid()
      ensures match EnterAt(file.data, old(Cur()))
        case Exit(f) => failure == Some(f)
        case Parsed(x, d) =>
          && failure.None? && Cur() == d
          && nextCallNo == (old(nextCallNo) + 1) % U32
          && if x.1 then
               && |calls| == |old(calls)| + 1 && calls[..|old(calls)|] == old(calls)
               && fresh(calls[|old(calls)|]) && calls[|old(calls)|].no == old(nextCallNo)
               && calls[|old(calls)|].sig == x.0 && calls[|old(calls)|].State() == x.2
             else calls == old(calls)
    {
      ghost var c0 := Cur();
      var sig := FunctionSignature();
      EnterAtSplit(file.data, c0, sig, Cur());
      var call := new Call(sig, nextCallNo);
      nextCallNo := (nextCallNo + 1) % U32;
      var complete := ParseCallDetails(call);
      if complete.Err? {
        return Some(complete.error);
      }
      if complete.value {
        calls := calls + [call];
      }
      failure := None;
    }

    /** The signature lookup at the head of `parse_enter`. */
    method FunctionSignature() returns (sig: FunctionSig)
      requires file.pos <= |file.data|
      modifies file, functions
      ensures (sig, Cur()) == FunctionSigAt(file.data, old(Cur()))
    {
      var id := ReadUint();
      var found := functions.Lookup(id);
      if found.Some? {
        return found.value;
      }
      var name, names := ReadSigBody();
      sig := FunctionSig(name, names);
      functions.Store(id, sig);
    }

    /** `parse_leave`: the first pending call with the number read (an
        `unsigned`) leaves the pending list; it is returned when its
        details reach the end marker.  No such call: nothing more is
        read. */
    method ParseLeave() returns (r: Result<Option<Call>, Fatal>)
      requires Valid()
      modifies this, file, enums, structs, bitmasks, calls
      ensures Valid()
      ensures var no := DecodeUint(file.data, old(file.pos));
        match FirstWith(Numbers(old(calls)), no.value % U32)
        case None =>
          && r == Ok(None) && calls == old(calls) && Cur() == old(Cur()).(pos := no.next)
          && forall x :: x in old(calls) ==> x.State() == old(x.State())
        case Some(at) =>
          var call := old(calls)[at];
          && calls == old(calls)[..at] + old(calls)[at + 1..]
          && (forall x :: x in old(calls) && x != call ==> x.State() == old(x.State()))
          && match DetailsAt(file.data, old(Cur()).(pos := no.next), old(call.State()))
             case Exit(f) => r == Err(f)
             case Parsed(x, d) => Cur() == d && call.State() == x.1 && r == Ok(if x.0 then Some(call) else None)
      ensures nextCallNo == old(nextCallNo)
    {
      var callNo := ReadUint();
      callNo := callNo % U32;
      var i := 0;
      while i < |calls| && calls[i].no != callNo
        invariant i <= |calls|
        invariant forall j :: 0 <= j < i ==> calls[j].no != callNo
      {
        i := i + 1;
      }
      ghost var nos := Numbers(calls);
      if i == |calls| {
        assert callNo !in nos;
        return Ok(None);
      }
      assert FirstWith(nos, callNo) == Some(i);
      var call := calls[i];
      calls := calls[..i] + calls[i + 1..];
      var complete := ParseCallDetails(call);
      if complete.Err? {
        return Err(complete.error);
      }
      r := Ok(if complete.value then Some(call) else None);
    }

    /** `parse_call_details`: argument and return-value details until the
        end marker (`true`) or the end of the stream (`false`); an unknown
        detail exits. */
    method ParseCallDetails(call: Call) returns (r: Result<bool, Fatal>)
      requires Valid()
      modifies file, enums, structs, bitmasks, call
      ensures Valid()
      ensures match DetailsAt(file.data, old(Cur()), old(call.State()))
        case Exit(f) => r == Err(f)
        case Parsed(x, d) => r == Ok(x.0) && Cur() == d && call.State() == x.1
    {
      ghost var c0, s0 := Cur(), call.State();
      while true
        invariant Valid()
        invariant DetailsAt(file.data, c0, s0) == DetailsAt(file.data, Cur(), call.State())
        decreases |file.data| - file.pos
      {
        var c := file.GetC();
        if c == -1 {
          return Ok(false);
        }
        if c == CallEnd {
          return Ok(true);
        } else if c == CallArg {
          var failure := ParseArg(call);
          if failure.Some? {
            return Err(failure.value);
          }
        } else if c == CallRet {
          var v := ParseValue();
          if v.Err? {
            return Err(v.error);
          }
          call.ret := v.value;
        } else {
          return Err(UnknownDetail(c));
        }
      }
    }

    /** `parse_arg`: the index is an `unsigned`; the argument slots grow
        to hold it. */
    method ParseArg(call: Call) returns (failure: Option<Fatal>)
      requires Valid()
      modifies file, enums, structs, bitmasks, call
      ensures Valid()
      ensures match ArgAt(file.data, old(Cur()), old(call.args))
        case Exit(f) => failure == Some(f)
        case Parsed(args, d) => failure.None? && Cur() == d && call.args == args && call.ret == old(call.ret)
    {
      var index := ReadUint();
      index := index % U32;
      var v := ParseValue();
      if v.Err? {
        return Some(v.error);
      }
      if index >= |call.args| {
        call.args := call.args + seq(index + 1 - |call.args|, _ => Absent);
      }
      call.args := call.args[index := v.value];
      failure := None;
    }

    // ---------------------------------------------------------------------
    // parse_value and its sub-parsers

    /** `parse_value`: exits on an unknown tag, gives `Absent` at the end of
        the stream. */
    method ParseValue() returns (v: Result<Value, Fatal>)
      requires Valid()
      modifies file, enums, structs, bitmasks
      ensures Valid()
      ensures Yields(ValueAt(file.data, old(Cur())), v, Cur())
      decreases |file.data| - file.pos, 1, 0
    {
      ghost var c0 := Cur();
      var c := file.GetC();
      if c == -1 {
        return Ok(Absent);
      }
      var tag: Byte := c;
      if tag == TypeEnum {
        v := ParseEnum();
      } else if tag == TypeBitmask {
        var b := ParseBitmask();
        v := Ok(b);
      } else if tag == TypeArray {
        v := ParseArray();
      } else if tag == TypeStruct {
        v := ParseStruct();
      } else {
        ValueAtScalar(file.data, c0);
        var x: Value;
        if tag == TypeNull {
          x := Null;
        } else if tag == TypeFalse {
          x := Bool(false);
        } else if tag == TypeTrue {
          x := Bool(true);
        } else if tag == TypeSInt {
          x := ParseSInt();
        } else if tag == TypeUInt {
          x := ParseUInt();
        } else if tag == TypeFloat {
          x := ParseFloat(4);
        } else if tag == TypeDouble {
          x := ParseFloat(8);
        } else if tag == TypeString {
          x := ParseString();
        } else if tag == TypeBlob {
          x := ParseBlob();
        } else if tag == TypeOpaque {
          x := ParseOpaque();
        } else {
          return Err(UnknownType(tag));
        }
        v := Ok(x);
      }
    }

    /** `parse_sint`. */
    method ParseSInt() returns (v: Value)
      requires file.pos <= |file.data|
      modifies file
      ensures Read(v, file.pos) == SIntAt(file.data, old(file.pos))
    {
      var u := ReadUint();
      v := SInt(-(u as int));
    }

    /** `parse_uint`. */
    method ParseUInt() returns (v: Value)
      requires file.pos <= |file.data|
      modifies file
      ensures Read(v, file.pos) == UIntAt(file.data, old(file.pos))
    {
      var u := ReadUint();
      v := UInt(u);
    }

    /** `parse_float` (`width` 4) and `parse_double` (`width` 8). */
    method ParseFloat(width: nat) returns (v: Value)
      requires file.pos <= |file.data|
      modifies file
      ensures Read(v, file.pos) == FloatAt(file.data, old(file.pos), width)
    {
      var raw := file.ReadBuffer(width);
      v := Float(raw);
    }

    /** `parse_string`. */
    method ParseString() returns (v: Value)
      requires file.pos <= |file.data|
      modifies file
      ensures Read(v, file.pos) == StringValueAt(file.data, old(file.pos))
    {
      var s := ReadString();
      v := String(s);
    }

    /** `parse_blob`: nothing is read after a zero size. */
    method ParseBlob() returns (v: Value)
      requires file.pos <= |file.data|
      modifies file
      ensures Read(v, file.pos) == BlobAt(file.data, old(file.pos))
    {
      var size := ReadUint();
      var buf := Zeros(size);
      if size != 0 {
        buf := file.ReadBuffer(size);
      }
      v := Blob(buf);
    }

    /** `parse_opaque`. */
    method ParseOpaque() returns (v: Value)
      requires file.pos <= |file.data|
      modifies file
      ensures Read(v, file.pos) == OpaqueAt(file.data, old(file.pos))
    {
      var addr := ReadUint();
      v := Pointer(addr);
    }

    /** `parse_enum`: the signature's value is read before the signature is
        stored. */
    method ParseEnum() returns (v: Result<Value, Fatal>)
      requires Valid()
      modifies file, enums, structs, bitmasks
      ensures Valid()
      ensures Yields(EnumAt(file.data, old(Cur())), v, Cur())
      decreases |file.data| - file.pos, 3, 0
    {
      var id := ReadUint();
      var sig := enums.Lookup(id);
      if sig.None? {
        var name := ReadString();
        var value := ParseValue();
        if value.Err? {
          return Err(value.error);
        }
        var s := EnumSig(name, value.value);
        enums.Store(id, s);
        sig := Some(s);
      }
      v := Ok(Enum(sig.value));
    }

    /** `parse_bitmask`: never exits. */
    method ParseBitmask() returns (v: Value)
      requires Valid()
      modifies file, bitmasks
      ensures Valid()
      ensures Parsed(v, Cur()) == BitmaskAt(file.data, old(Cur()))
    {
      var sig := BitmaskSignature();
      var bits := ReadUint();
      v := Bitmask(sig, bits);
    }

    /** The signature lookup at the head of `parse_bitmask`: a count (a
        `size_t`), then that many flags, each a name and a value. */
    method BitmaskSignature() returns (sig: seq<Flag>)
      requires file.pos <= |file.data|
      modifies file, bitmasks
      ensures var id := DecodeUint(file.data, old(file.pos));
        var l := LookupIn(old(bitmasks.slots), id.value);
        if l.0.Some? then sig == l.0.value && file.pos == id.next && bitmasks.slots == l.1
        else var size := DecodeUint(file.data, id.next);
          Read(sig, file.pos) == FlagsAt(file.data, size.next, size.value)
          && bitmasks.slots == l.1[id.value := Some(sig)]
    {
      var id := ReadUint();
      var found := bitmasks.Lookup(id);
      if found.Some? {
        return found.value;
      }
      var size := ReadUint();
      ghost var from, slots := file.pos, bitmasks.slots;
      sig := [];
      for i := 0 to size
        invariant Read(sig, file.pos) == FlagsAt(file.data, from, i)
        invariant bitmasks.slots == slots
      {
        var name := ReadString();
        var value := ReadUint();
        sig := sig + [Flag(name, value)];
      }
      bitmasks.Store(id, sig);
    }

    /** `parse_array`. */
    method ParseArray() returns (v: Result<Value, Fatal>)
      requires Valid()
      modifies file, enums, structs, bitmasks
      ensures Valid()
      ensures Yields(ArrayAt(file.data, old(Cur())), v, Cur())
      decreases |file.data| - file.pos, 3, 0
    {
      var len := ReadUint();
      ghost var c1 := Cur();
      var values: seq<Value> := [];
      for i := 0 to len
        invariant Valid()
        invariant ValuesAt(file.data, c1, i) == Parsed(values, Cur())
      {
        var x := ParseValue();
        if x.Err? {
          ValuesExit(file.data, c1, i + 1, len);
          return Err(x.error);
        }
        values := values + [x.value];
      }
      v := Ok(Array(values));
    }

    /** `parse_struct`: one value per member name of the signature. */
    method ParseStruct() returns (v: Result<Value, Fatal>)
      requires Valid()
      modifies file, enums, structs, bitmasks
      ensures Valid()
      ensures Yields(StructAt(file.data, old(Cur())), v, Cur())
      decreases |file.data| - file.pos, 3, 0
    {
      ghost var c0 := Cur();
      var sig := StructSignature();
      ghost var c1 := Cur();
      StructAtSplit(file.data, c0, sig, c1);
      var members: seq<Value> := [];
      for i := 0 to |sig.memberNames|
        invariant Valid()
        invariant ValuesAt(file.data, c1, i) == Parsed(members, Cur())
      {
        var x := ParseValue();
        if x.Err? {
          ValuesExit(file.data, c1, i + 1, |sig.memberNames|);
          return Err(x.error);
        }
        members := members + [x.value];
      }
      v := Ok(Struct(sig, members));
    }

    /** The signature lookup at the head of `parse_struct`. */
    method StructSignature() returns (sig: StructSig)
      requires file.pos <= |file.data|
      modifies file, structs
      ensures (sig, Cur()) == StructSigAt(file.data, old(Cur()))
    {
      var id := ReadUint();
      var found := structs.Lookup(id);
      if found.Some? {
        return found.value;
      }
      var name, names := ReadSigBody();
      sig := StructSig(name, names);
      structs.Store(id, sig);
    }
  }
}
