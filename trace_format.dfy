/** The binary trace format read by `Trace::Parser`: bytes, the tag bytes
    that introduce events, call details and values, and the values and
    signatures a trace decodes to. */
module TraceFormat {

  /** One byte of the (already decompressed) trace stream. */
  type Byte = b: int | 0 <= b < 256

  /** Counts, indices and call numbers held in a C++ `unsigned` wrap at
      2^32. */
  const U32: nat := 0x1_0000_0000

  // Event tags, in the order the trace format declares them.
  const EventEnter: Byte := 0
  const EventLeave: Byte := 1

  // Call-detail tags.
  const CallEnd: Byte := 0
  const CallArg: Byte := 1
  const CallRet: Byte := 2

  // Value tags.
  const TypeNull: Byte := 0
  const TypeFalse: Byte := 1
  const TypeTrue: Byte := 2
  const TypeSInt: Byte := 3
  const TypeUInt: Byte := 4
  const TypeFloat: Byte := 5
  const TypeDouble: Byte := 6
  const TypeString: Byte := 7
  const TypeBlob: Byte := 8
  const TypeEnum: Byte := 9
  const TypeBitmask: Byte := 10
  const TypeArray: Byte := 11
  const TypeStruct: Byte := 12
  const TypeOpaque: Byte := 13

  /** A decoded value.  `Absent` is the null `Value *` that a read at the
      end of the stream yields (and that fills argument slots never
      written); `Float` keeps the raw bytes of a float or a double. */
  datatype Value =
    | Absent
    | Null
    | Bool(b: bool)
    | SInt(i: int)
    | UInt(u: nat)
    | Float(raw: seq<Byte>)
    | String(s: seq<Byte>)
    | Enum(esig: EnumSig)
    | Bitmask(bsig: seq<Flag>, bits: nat)
    | Array(elems: seq<Value>)
    | Struct(ssig: StructSig, members: seq<Value>)
    | Blob(bytes: seq<Byte>)
    | Pointer(addr: nat)

  datatype EnumSig = EnumSig(name: seq<Byte>, value: Value)

  datatype Flag = Flag(name: seq<Byte>, value: nat)

  datatype StructSig = StructSig(name: seq<Byte>, memberNames: seq<seq<Byte>>)

  datatype FunctionSig = FunctionSig(name: seq<Byte>, argNames: seq<seq<Byte>>)

  /** The conditions under which the parser calls `exit(1)`. */
  datatype Fatal = UnknownDetail(detail: Byte) | UnknownType(tag: Byte)
}
