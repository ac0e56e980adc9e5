/**
 The part of the Protocol Buffers wire format that the gRPC framing relies on: base-128
 varints, field tags, length-delimited values and the skipping of unknown fields.
 Lengths and varints are mathematical integers; the 64-bit limit of a varint is explicit.
 */
module Protowire {
  import opened Bytes

  datatype WireError = Truncated | Overflow | FieldNumber | EndGroup | Reserved | RecursionDepth

  datatype Varint = Varint(v: nat, n: nat) | BadVarint(why: WireError)

  /** One more than the largest value that may still follow the byte at position k. */
  function VarintLimit(k: nat): nat
    requires k <= 9
    decreases 9 - k
  {
    if k == 9 then 2 else 128 * VarintLimit(k + 1)
  }

  /** Reads a varint whose first byte stands at position k of at most ten. */
  function ConsumeVarintAt(b: seq<byte>, k: nat): (r: Varint)
    requires k <= 9
    ensures r.Varint? ==> 1 <= r.n <= |b| && r.n <= 10 - k && r.v < VarintLimit(k)
    decreases 9 - k
  {
    if b == [] then BadVarint(Truncated)
    else if k == 9 then (if b[0] < 2 then Varint(b[0], 1) else BadVarint(Overflow))
    else if b[0] < 128 then
      LimitPositive(k + 1);
      Varint(b[0], 1)
    else
      match ConsumeVarintAt(b[1..], k + 1)
      case BadVarint(e) => BadVarint(e)
      case Varint(v, n) => Varint(b[0] - 128 + 128 * v, n + 1)
  }

  lemma LimitPositive(k: nat)
    requires k <= 9
    ensures VarintLimit(k) >= 2
    decreases 9 - k
  {
    if k < 9 { LimitPositive(k + 1); }
  }

  function ConsumeVarint(b: seq<byte>): Varint {
    ConsumeVarintAt(b, 0)
  }

  function EncodeVarint(v: nat): (r: seq<byte>)
    ensures |r| >= 1
  {
    if v < 128 then [v] else [v % 128 + 128] + EncodeVarint(v / 128)
  }

  /** An encoded varint is read back whole, whatever follows it. */
  lemma {:induction false} VarintRoundTripAt(v: nat, k: nat, rest: seq<byte>)
    requires k <= 9 && v < VarintLimit(k)
    ensures ConsumeVarintAt(EncodeVarint(v) + rest, k) == Varint(v, |EncodeVarint(v)|)
    decreases 9 - k
  {
    var s := EncodeVarint(v) + rest;
    if v >= 128 {
      VarintRoundTripAt(v / 128, k + 1, rest);
      assert s[1..] == EncodeVarint(v / 128) + rest;
      assert s[0] == v % 128 + 128;
    }
  }

  datatype Tag = Tag(number: nat, wireType: nat, n: nat) | BadTag(why: WireError)

  const MAX_FIELD_NUMBER := 0x7fff_ffff

  function ConsumeTag(b: seq<byte>): (r: Tag)
    ensures r.Tag? ==> 1 <= r.n <= |b| && 1 <= r.number <= MAX_FIELD_NUMBER && r.wireType < 8
  {
    match ConsumeVarint(b)
    case BadVarint(e) => BadTag(e)
    case Varint(v, n) =>
      if v / 8 > MAX_FIELD_NUMBER || v / 8 < 1 then BadTag(FieldNumber) else Tag(v / 8, v % 8, n)
  }

  const VARINT := 0
  const FIXED64 := 1
  const BYTES := 2
  const START_GROUP := 3
  const END_GROUP := 4
  const FIXED32 := 5

  /** A length-delimited value occupies b[start..n]. */
  datatype Delimited = Delimited(start: nat, n: nat) | BadDelimited(why: WireError)

  function ConsumeBytes(b: seq<byte>): (r: Delimited)
    ensures r.Delimited? ==> 1 <= r.start <= r.n <= |b|
  {
    match ConsumeVarint(b)
    case BadVarint(e) => BadDelimited(e)
    case Varint(m, n) => if m > |b| - n then BadDelimited(Truncated) else Delimited(n, n + m)
  }

  datatype Skip = Skip(n: nat) | BadSkip(why: WireError)

  const RECURSION_LIMIT := 10000

  /** The length of a field value of the given type, or why there is none. */
  function SkipField(number: nat, wireType: nat, b: seq<byte>, depth: int): (r: Skip)
    ensures r.Skip? ==> r.n <= |b|
    decreases |b|, 1
  {
    if wireType == VARINT then
      match ConsumeVarint(b) case BadVarint(e) => BadSkip(e) case Varint(_, n) => Skip(n)
    else if wireType == FIXED32 then if |b| < 4 then BadSkip(Truncated) else Skip(4)
    else if wireType == FIXED64 then if |b| < 8 then BadSkip(Truncated) else Skip(8)
    else if wireType == BYTES then
      match ConsumeBytes(b) case BadDelimited(e) => BadSkip(e) case Delimited(_, n) => Skip(n)
    else if wireType == START_GROUP then
      if depth < 0 then BadSkip(RecursionDepth) else SkipGroup(number, b, depth)
    else if wireType == END_GROUP then BadSkip(EndGroup)
    else BadSkip(Reserved)
  }

  /** The length of a group body up to and including its matching end tag. */
  function SkipGroup(number: nat, b: seq<byte>, depth: int): (r: Skip)
    ensures r.Skip? ==> r.n <= |b|
    decreases |b|, 0
  {
    match ConsumeTag(b)
    case BadTag(e) => BadSkip(e)
    case Tag(number2, wireType2, n) =>
      if wireType2 == END_GROUP then
        if number2 != number then BadSkip(EndGroup) else Skip(n)
      else
        match SkipInGroup(number, number2, wireType2, b[n..], depth)
        case BadSkip(e) => BadSkip(e)
        case Skip(m) => Skip(n + m)
  }

  /** The length of one field value in a group and the rest of the group. */
  function SkipInGroup(number: nat, field: nat, wireType: nat, b: seq<byte>, depth: int): (r: Skip)
    ensures r.Skip? ==> r.n <= |b|
    decreases |b|, 2
  {
    match SkipField(field, wireType, b, depth - 1)
    case BadSkip(e) => BadSkip(e)
    case Skip(m) =>
      match SkipGroup(number, b[m..], depth)
      case BadSkip(e) => BadSkip(e)
      case Skip(k) => Skip(m + k)
  }
}
