/**
 * The primitive coder the typed messages are written against (`IEncoder` /
 * `IDecoder`). Its byte layout is not part of this model: an encoder is the
 * sequence of tagged primitive tokens written so far, and a decoder is a
 * cursor over such a sequence. Reading a primitive of the wrong kind, or past
 * the end, fails.
 */
module Codec {
  import opened Wrappers

  type Byte = bv8

  /** An IEEE-754 single-precision value, carried as its bit pattern and never interpreted. */
  type Float32 = bv32

  type Int16 = x: int | -0x8000 <= x < 0x8000
  type Int32 = x: int | -0x8000_0000 <= x < 0x8000_0000
  type Int64 = x: int | -0x8000_0000_0000_0000 <= x < 0x8000_0000_0000_0000
  type UInt16 = x: int | 0 <= x < 0x1_0000
  type UInt32 = x: int | 0 <= x < 0x1_0000_0000
  type UInt64 = x: int | 0 <= x < 0x1_0000_0000_0000_0000

  const Int32Max: Int32 := 0x7FFF_FFFF

  /** The kinds of primitive the coder writes, one per `Encode` overload of the encoder. */
  datatype Kind = ShortKind | IntKind | LongKind | UShortKind | UIntKind | ULongKind
                | FloatKind | StringKind | BytesKind

  datatype Token =
    | ShortToken(shortValue: Int16)
    | IntToken(intValue: Int32)
    | LongToken(longValue: Int64)
    | UShortToken(ushortValue: UInt16)
    | UIntToken(uintValue: UInt32)
    | ULongToken(ulongValue: UInt64)
    | FloatToken(floatValue: Float32)
    | StringToken(stringValue: string)
    | BytesToken(bytesValue: seq<Byte>)
  {
    function Kind(): Kind {
      match this
      case ShortToken(_) => ShortKind
      case IntToken(_) => IntKind
      case LongToken(_) => LongKind
      case UShortToken(_) => UShortKind
      case UIntToken(_) => UIntKind
      case ULongToken(_) => ULongKind
      case FloatToken(_) => FloatKind
      case StringToken(_) => StringKind
      case BytesToken(_) => BytesKind
    }
  }

  /** What an encoder has written so far; writing a primitive appends its token. */
  type Encoder = seq<Token>

  /** A decoder: the tokens it reads and the position of the next one. */
  datatype Decoder = Decoder(tokens: seq<Token>, position: nat)

  /** Reads the next primitive, which must be of kind `k`. */
  function Get(d: Decoder, k: Kind): (r: Option<(Token, Decoder)>)
    ensures r.Some? <==> d.position < |d.tokens| && d.tokens[d.position].Kind() == k
    ensures r.Some? ==> r.value.0 == d.tokens[d.position] && r.value.1 == Decoder(d.tokens, d.position + 1)
  {
    if d.position < |d.tokens| && d.tokens[d.position].Kind() == k then
      Some((d.tokens[d.position], Decoder(d.tokens, d.position + 1)))
    else
      None
  }

  function GetShort(d: Decoder): Option<(Int16, Decoder)> {
    match Get(d, ShortKind)
    case Some((t, rest)) => Some((t.shortValue, rest))
    case None => None
  }

  function GetInt(d: Decoder): Option<(Int32, Decoder)> {
    match Get(d, IntKind)
    case Some((t, rest)) => Some((t.intValue, rest))
    case None => None
  }

  function GetLong(d: Decoder): Option<(Int64, Decoder)> {
    match Get(d, LongKind)
    case Some((t, rest)) => Some((t.longValue, rest))
    case None => None
  }

  function GetUShort(d: Decoder): Option<(UInt16, Decoder)> {
    match Get(d, UShortKind)
    case Some((t, rest)) => Some((t.ushortValue, rest))
    case None => None
  }

  function GetUInt(d: Decoder): Option<(UInt32, Decoder)> {
    match Get(d, UIntKind)
    case Some((t, rest)) => Some((t.uintValue, rest))
    case None => None
  }

  function GetULong(d: Decoder): Option<(UInt64, Decoder)> {
    match Get(d, ULongKind)
    case Some((t, rest)) => Some((t.ulongValue, rest))
    case None => None
  }

  function GetFloat(d: Decoder): Option<(Float32, Decoder)> {
    match Get(d, FloatKind)
    case Some((t, rest)) => Some((t.floatValue, rest))
    case None => None
  }

  function GetString(d: Decoder): Option<(string, Decoder)> {
    match Get(d, StringKind)
    case Some((t, rest)) => Some((t.stringValue, rest))
    case None => None
  }

  function GetBytes(d: Decoder): Option<(seq<Byte>, Decoder)> {
    match Get(d, BytesKind)
    case Some((t, rest)) => Some((t.bytesValue, rest))
    case None => None
  }
}
