/**
 * The `ICodable` types exercised by the coder tests: `LoginRequest`,
 * `MatchRequest`, `ConnectGameInstanceResponse`, `Value` and its nested
 * `SubValue`/`SubSubValue`. Each `Decode` reads the primitives its `Encode`
 * wrote, in the same order. A nested codable is written inline (the
 * encoder's own layout for nesting is not part of this model).
 */
module Codables {
  import opened Wrappers
  import opened Codec

  // LoginRequest

  datatype LoginRequest = LoginRequest(accessToken: string, username: string)

  function EncodeLoginRequest(m: LoginRequest, e: Encoder): Encoder {
    e + [StringToken(m.accessToken), StringToken(m.username)]
  }

  /** Reads two strings: the access token, then the user name. */
  function DecodeLoginRequest(d: Decoder): (r: Option<(LoginRequest, Decoder)>)
    ensures r.Some? <==> d.position + 1 < |d.tokens|
                         && d.tokens[d.position].StringToken? && d.tokens[d.position + 1].StringToken?
    ensures r.Some? ==> r.value.1 == Decoder(d.tokens, d.position + 2)
  {
    var accessToken :- GetString(d);
    var username :- GetString(accessToken.1);
    Some((LoginRequest(accessToken.0, username.0), username.1))
  }

  lemma LoginRequestRoundTrip(m: LoginRequest, e: Encoder, rest: seq<Token>)
    ensures var s := EncodeLoginRequest(m, e) + rest;
            DecodeLoginRequest(Decoder(s, |e|)) == Some((m, Decoder(s, |e| + 2)))
  {
  }

  // MatchRequest: no payload

  datatype MatchRequest = MatchRequest

  function EncodeMatchRequest(m: MatchRequest, e: Encoder): Encoder {
    e
  }

  function DecodeMatchRequest(d: Decoder): Option<(MatchRequest, Decoder)> {
    Some((MatchRequest, d))
  }

  /** Nothing is written and nothing is read. */
  lemma MatchRequestRoundTrip(m: MatchRequest, e: Encoder, rest: seq<Token>)
    ensures EncodeMatchRequest(m, e) == e
    ensures DecodeMatchRequest(Decoder(e + rest, |e|)) == Some((m, Decoder(e + rest, |e|)))
  {
  }

  // ConnectGameInstanceResponse

  datatype ConnectGameInstanceResponse = ConnectGameInstanceResponse(token: string, ip: string, port: Int16)

  function EncodeConnectGameInstanceResponse(m: ConnectGameInstanceResponse, e: Encoder): Encoder {
    e + [StringToken(m.token), StringToken(m.ip), ShortToken(m.port)]
  }

  /** Reads the token and the address as strings, then the port as a short. */
  function DecodeConnectGameInstanceResponse(d: Decoder): (r: Option<(ConnectGameInstanceResponse, Decoder)>)
    ensures r.Some? <==> d.position + 2 < |d.tokens|
                         && d.tokens[d.position].StringToken? && d.tokens[d.position + 1].StringToken?
                         && d.tokens[d.position + 2].ShortToken?
    ensures r.Some? ==> r.value.1 == Decoder(d.tokens, d.position + 3)
  {
    var token :- GetString(d);
    var ip :- GetString(token.1);
    var port :- GetShort(ip.1);
    Some((ConnectGameInstanceResponse(token.0, ip.0, port.0), port.1))
  }

  lemma ConnectGameInstanceResponseRoundTrip(m: ConnectGameInstanceResponse, e: Encoder, rest: seq<Token>)
    ensures var s := EncodeConnectGameInstanceResponse(m, e) + rest;
            DecodeConnectGameInstanceResponse(Decoder(s, |e|)) == Some((m, Decoder(s, |e| + 3)))
  {
  }

  // Value, SubValue, SubSubValue

  /** `empty` is a string reference that a fresh object leaves null. */
  datatype SubSubValue = SubSubValue(empty: Option<string>)

  datatype SubValue = SubValue(name: string, age: Int32, height: Float32, weight: Float32,
                               subSubValue: SubSubValue)

  datatype Value = Value(intVal: Int32, shortVal: Int16, longVal: Int64, uintVal: UInt32,
                         ushortVal: UInt16, ulongVal: UInt64, stringVal: string,
                         bytesVal: seq<Byte>, subValue: SubValue)

  const NewSubSubValue := SubSubValue(None)

  /** A fresh `SubValue`: "Meu nome", 30, 1.95f (0x3FF9999A) and 110f (0x42DC0000). */
  const NewSubValue := SubValue("Meu nome", 30, 0x3FF9_999A, 0x42DC_0000, NewSubSubValue)

  /** UTF-8 of an ASCII character: the one byte with the character's code. */
  function AsciiByte(c: char): Byte
    requires c as int < 128
  {
    (c as int) as Byte
  }

  /** UTF-8 of a string whose characters are all ASCII: one byte per character. */
  function AsciiBytes(s: string): (r: seq<Byte>)
    requires forall i :: 0 <= i < |s| ==> s[i] as int < 128
    ensures |r| == |s|
    ensures forall i :: 0 <= i < |s| ==> r[i] == AsciiByte(s[i])
  {
    seq(|s|, i requires 0 <= i < |s| => AsciiByte(s[i]))
  }

  /** A fresh `Value` with the field initialisers of the test class. */
  function NewValue(): Value {
    Value(1, 2, 3, 4, 5, 6, "Minha string preferida",
          AsciiBytes("Minha string preferida em bytes"), NewSubValue)
  }

  /** `SubValue.Equals`: name, age, height and weight agree (the nested object is not compared). */
  predicate SubValueEquals(a: SubValue, b: SubValue) {
    a.name == b.name && a.age == b.age && a.height == b.height && a.weight == b.weight
  }

  /** `subSubValue` is not written. */
  function EncodeSubValue(v: SubValue, e: Encoder): Encoder {
    e + [StringToken(v.name), IntToken(v.age), FloatToken(v.height), FloatToken(v.weight)]
  }

  /** `Decode<SubValue>()`: a fresh `SubValue` whose four written fields are read back. */
  function DecodeSubValue(d: Decoder): (r: Option<(SubValue, Decoder)>)
    ensures r.Some? ==> r.value.0.subSubValue == NewSubSubValue
                        && r.value.1 == Decoder(d.tokens, d.position + 4)
  {
    var name :- GetString(d);
    var age :- GetInt(name.1);
    var height :- GetFloat(age.1);
    var weight :- GetFloat(height.1);
    Some((NewSubValue.(name := name.0, age := age.0, height := height.0, weight := weight.0), weight.1))
  }

  function EncodeValue(v: Value, e: Encoder): Encoder {
    var fields := e + [IntToken(v.intVal), ShortToken(v.shortVal), LongToken(v.longVal),
                       UIntToken(v.uintVal), UShortToken(v.ushortVal), ULongToken(v.ulongVal),
                       StringToken(v.stringVal), BytesToken(v.bytesVal)];
    EncodeSubValue(v.subValue, fields)
  }

  function DecodeValue(d: Decoder): (r: Option<(Value, Decoder)>)
    ensures r.Some? ==> r.value.1 == Decoder(d.tokens, d.position + 12)
  {
    var intVal :- GetInt(d);
    var shortVal :- GetShort(intVal.1);
    var longVal :- GetLong(shortVal.1);
    var uintVal :- GetUInt(longVal.1);
    var ushortVal :- GetUShort(uintVal.1);
    var ulongVal :- GetULong(ushortVal.1);
    var stringVal :- GetString(ulongVal.1);
    var bytesVal :- GetBytes(stringVal.1);
    var subValue :- DecodeSubValue(bytesVal.1);
    Some((Value(intVal.0, shortVal.0, longVal.0, uintVal.0, ushortVal.0, ulongVal.0,
                stringVal.0, bytesVal.0, subValue.0), subValue.1))
  }

  lemma SubValueRoundTrip(v: SubValue, e: Encoder, rest: seq<Token>)
    ensures var s := EncodeSubValue(v, e) + rest;
            DecodeSubValue(Decoder(s, |e|)) == Some((v.(subSubValue := NewSubSubValue), Decoder(s, |e| + 4)))
  {
  }

  /** `DecodeValue` from the results of its nine reads. */
  lemma DecodeValueSteps(s: seq<Token>, p: nat, v: Value)
    requires GetInt(Decoder(s, p)) == Some((v.intVal, Decoder(s, p + 1)))
    requires GetShort(Decoder(s, p + 1)) == Some((v.shortVal, Decoder(s, p + 2)))
    requires GetLong(Decoder(s, p + 2)) == Some((v.longVal, Decoder(s, p + 3)))
    requires GetUInt(Decoder(s, p + 3)) == Some((v.uintVal, Decoder(s, p + 4)))
    requires GetUShort(Decoder(s, p + 4)) == Some((v.ushortVal, Decoder(s, p + 5)))
    requires GetULong(Decoder(s, p + 5)) == Some((v.ulongVal, Decoder(s, p + 6)))
    requires GetString(Decoder(s, p + 6)) == Some((v.stringVal, Decoder(s, p + 7)))
    requires GetBytes(Decoder(s, p + 7)) == Some((v.bytesVal, Decoder(s, p + 8)))
    requires DecodeSubValue(Decoder(s, p + 8)) == Some((v.subValue, Decoder(s, p + 12)))
    ensures DecodeValue(Decoder(s, p)) == Some((v, Decoder(s, p + 12)))
  {
  }

  /**
   * Every field written comes back; the nested `subSubValue`, which is not
   * written, comes back as a fresh one.
   */
  lemma ValueRoundTrip(v: Value, e: Encoder, rest: seq<Token>)
    ensures var s := EncodeValue(v, e) + rest;
            DecodeValue(Decoder(s, |e|))
              == Some((v.(subValue := v.subValue.(subSubValue := NewSubSubValue)), Decoder(s, |e| + 12)))
  {
    var p := |e|;
    var scalars := [IntToken(v.intVal), ShortToken(v.shortVal), LongToken(v.longVal),
                    UIntToken(v.uintVal), UShortToken(v.ushortVal), ULongToken(v.ulongVal),
                    StringToken(v.stringVal), BytesToken(v.bytesVal)];
    var fields := e + scalars;
    var s := EncodeValue(v, e) + rest;
    assert s == EncodeSubValue(v.subValue, fields) + rest;
    TokensFollow(s, e, scalars);
    ScalarsRead(s, p, scalars);
    SubValueRoundTrip(v.subValue, fields, rest);
    DecodeValueSteps(s, p, v.(subValue := v.subValue.(subSubValue := NewSubSubValue)));
  }

  /** The tokens written after `e` sit right after it in anything that starts with both. */
  lemma TokensFollow(s: seq<Token>, e: Encoder, t: seq<Token>)
    requires |e| + |t| <= |s| && s[..|e| + |t|] == e + t
    ensures forall i :: 0 <= i < |t| ==> s[|e| + i] == t[i]
  {
    forall i | 0 <= i < |t| ensures s[|e| + i] == t[i] {
      assert s[|e| + i] == s[..|e| + |t|][|e| + i];
    }
  }

  /** Each of the eight scalar tokens at `p` reads back as itself. */
  lemma ScalarsRead(s: seq<Token>, p: nat, scalars: seq<Token>)
    requires |scalars| == 8 && p + 8 <= |s|
    requires forall i :: 0 <= i < 8 ==> s[p + i] == scalars[i]
    requires scalars[0].IntToken? && scalars[1].ShortToken? && scalars[2].LongToken?
    requires scalars[3].UIntToken? && scalars[4].UShortToken? && scalars[5].ULongToken?
    requires scalars[6].StringToken? && scalars[7].BytesToken?
    ensures GetInt(Decoder(s, p)) == Some((scalars[0].intValue, Decoder(s, p + 1)))
    ensures GetShort(Decoder(s, p + 1)) == Some((scalars[1].shortValue, Decoder(s, p + 2)))
    ensures GetLong(Decoder(s, p + 2)) == Some((scalars[2].longValue, Decoder(s, p + 3)))
    ensures GetUInt(Decoder(s, p + 3)) == Some((scalars[3].uintValue, Decoder(s, p + 4)))
    ensures GetUShort(Decoder(s, p + 4)) == Some((scalars[4].ushortValue, Decoder(s, p + 5)))
    ensures GetULong(Decoder(s, p + 5)) == Some((scalars[5].ulongValue, Decoder(s, p + 6)))
    ensures GetString(Decoder(s, p + 6)) == Some((scalars[6].stringValue, Decoder(s, p + 7)))
    ensures GetBytes(Decoder(s, p + 7)) == Some((scalars[7].bytesValue, Decoder(s, p + 8)))
  {
    SignedRead(s, p, scalars[0], scalars[1], scalars[2]);
    UnsignedRead(s, p + 3, scalars[3], scalars[4], scalars[5]);
    assert s[p + 6] == scalars[6] && s[p + 7] == scalars[7];
  }

  /** An int, a short and a long token in a row read back as themselves. */
  lemma SignedRead(s: seq<Token>, p: nat, a: Token, b: Token, c: Token)
    requires p + 3 <= |s| && s[p] == a && s[p + 1] == b && s[p + 2] == c
    requires a.IntToken? && b.ShortToken? && c.LongToken?
    ensures GetInt(Decoder(s, p)) == Some((a.intValue, Decoder(s, p + 1)))
    ensures GetShort(Decoder(s, p + 1)) == Some((b.shortValue, Decoder(s, p + 2)))
    ensures GetLong(Decoder(s, p + 2)) == Some((c.longValue, Decoder(s, p + 3)))
  {
  }

  /** A uint, a ushort and a ulong token in a row read back as themselves. */
  lemma UnsignedRead(s: seq<Token>, p: nat, a: Token, b: Token, c: Token)
    requires p + 3 <= |s| && s[p] == a && s[p + 1] == b && s[p + 2] == c
    requires a.UIntToken? && b.UShortToken? && c.ULongToken?
    ensures GetUInt(Decoder(s, p)) == Some((a.uintValue, Decoder(s, p + 1)))
    ensures GetUShort(Decoder(s, p + 1)) == Some((b.ushortValue, Decoder(s, p + 2)))
    ensures GetULong(Decoder(s, p + 2)) == Some((c.ulongValue, Decoder(s, p + 3)))
  {
  }

  /**
   * The assertions of the encoder/decoder test, for any value whose nested
   * `subSubValue` is a fresh one, as it is in a fresh `Value`: the decoded
   * value equals the original, `SubValue.Equals` holds of the nested values,
   * and both `subSubValue.empty` fields are null.
   */
  lemma FreshNestedValueRoundTrip(v: Value)
    requires v.subValue.subSubValue == NewSubSubValue
    ensures var r := DecodeValue(Decoder(EncodeValue(v, []), 0));
            && r.Some? && r.value.0 == v
            && SubValueEquals(r.value.0.subValue, v.subValue)
            && r.value.0.subValue.subSubValue.empty == v.subValue.subSubValue.empty == None
  {
    ValueRoundTrip(v, [], []);
    assert EncodeValue(v, []) + [] == EncodeValue(v, []);
  }

  /** The encoder/decoder test on its own fixture: the fresh `Value` comes back equal. */
  lemma FixtureValueRoundTrip()
    ensures var r := DecodeValue(Decoder(EncodeValue(NewValue(), []), 0));
            && r.Some? && r.value.0 == NewValue()
            && SubValueEquals(r.value.0.subValue, NewValue().subValue)
            && r.value.0.subValue.subSubValue.empty == None
  {
    FreshNestedValueRoundTrip(NewValue());
  }
}
