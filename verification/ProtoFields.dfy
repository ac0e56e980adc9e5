/**
 Protocol Buffers messages laid out as the sequences of fields that they are, with the numbers of the
 format written out, and what the readers of the wire make of them.
 */
module ProtoFields {
  import opened Bytes
  import opened Protowire
  import opened GrpcStream

  // ---------- varints ----------

  /** Groups of seven bits, the lowest first. */
  function Base128(b: seq<byte>): nat {
    if b == [] then 0 else b[0] as nat % 128 + 128 * Base128(b[1..])
  }

  /** The bytes of a varint: the high bit says whether another one follows. */
  ghost predicate IsVarint(b: seq<byte>, v: nat) {
    && b != [] && Base128(b) == v
    && forall i :: 0 <= i < |b| ==> (b[i] >= 128 <==> i < |b| - 1)
  }

  lemma {:induction false} EncodedVarint(v: nat)
    ensures IsVarint(EncodeVarint(v), v)
  {
    var b := EncodeVarint(v);
    if v >= 128 {
      EncodedVarint(v / 128);
      assert b[1..] == EncodeVarint(v / 128);
    } else {
      assert b[1..] == [];
    }
  }

  lemma LimitIsTwoTo64()
    ensures VarintLimit(0) == 0x1_0000_0000_0000_0000
  {
    assert VarintLimit(9) == 2;
    assert VarintLimit(8) == 256 && VarintLimit(7) == 32768;
    assert VarintLimit(6) == 128 * 32768 && VarintLimit(5) == 128 * VarintLimit(6);
    assert VarintLimit(4) == 128 * VarintLimit(5) && VarintLimit(3) == 128 * VarintLimit(4);
    assert VarintLimit(2) == 128 * VarintLimit(3) && VarintLimit(1) == 128 * VarintLimit(2);
  }

  lemma VarintIsRead(v: nat, rest: seq<byte>)
    requires v < 0x1_0000_0000_0000_0000
    ensures ConsumeVarint(EncodeVarint(v) + rest) == Varint(v, |EncodeVarint(v)|)
  {
    LimitIsTwoTo64();
    VarintRoundTripAt(v, 0, rest);
  }

  // ---------- fields ----------

  datatype Value =
    | Number(v: nat)                  // wire type 0
    | Eight(bytes: seq<byte>)         // wire type 1
    | Delimited(data: seq<byte>)      // wire type 2
    | Group(fields: seq<Piece>)       // wire types 3 and 4
    | Four(bytes: seq<byte>)          // wire type 5

  datatype Piece = Piece(number: nat, value: Value)

  function WireType(v: Value): nat {
    match v case Number(_) => 0 case Eight(_) => 1 case Delimited(_) => 2 case Group(_) => 3 case Four(_) => 5
  }

  function LayTag(number: nat, wireType: nat): seq<byte> {
    EncodeVarint(8 * number + wireType)
  }

  function LayValue(number: nat, v: Value): seq<byte>
    decreases v, 1
  {
    match v
    case Number(n) => EncodeVarint(n)
    case Eight(bytes) => bytes
    case Delimited(data) => EncodeVarint(|data|) + data
    case Group(fields) => LayFrom(v, 0) + LayTag(number, 4)
    case Four(bytes) => bytes
  }

  function Lay(p: Piece): seq<byte>
    decreases p.value, 2
  {
    LayTag(p.number, WireType(p.value)) + LayValue(p.number, p.value)
  }

  /** The fields of a group, or of a message, from the k-th on. */
  function LayFrom(g: Value, k: nat): seq<byte>
    requires g.Group? && k <= |g.fields|
    decreases g, 0, |g.fields| - k
  {
    if k == |g.fields| then [] else Lay(g.fields[k]) + LayFrom(g, k + 1)
  }

  /** Field numbers, lengths and the nesting of groups are within what readers accept. */
  predicate Sound(p: Piece, depth: int)
    decreases p.value, 1
  {
    && 1 <= p.number <= 0x7fff_ffff
    && match p.value
       case Number(n) => n < 0x1_0000_0000_0000_0000
       case Eight(bytes) => |bytes| == 8
       case Delimited(data) => |data| < 0x1_0000_0000_0000_0000
       case Group(_) => depth >= 0 && AllSound(p.value, 0, depth - 1)
       case Four(bytes) => |bytes| == 4
  }

  predicate AllSound(g: Value, k: nat, depth: int)
    requires g.Group? && k <= |g.fields|
    decreases g, 0, |g.fields| - k
  {
    k < |g.fields| ==> Sound(g.fields[k], depth) && AllSound(g, k + 1, depth)
  }

  lemma TagIsMadeOf(number: nat, wireType: nat)
    requires wireType < 8
    ensures (8 * number + wireType) / 8 == number && (8 * number + wireType) % 8 == wireType
  {
  }

  lemma TagIsRead(number: nat, wireType: nat, rest: seq<byte>)
    requires 1 <= number <= 0x7fff_ffff && wireType < 8
    ensures ConsumeTag(LayTag(number, wireType) + rest) == Tag(number, wireType, |LayTag(number, wireType)|)
  {
    TagIsMadeOf(number, wireType);
    VarintIsRead(8 * number + wireType, rest);
  }

  lemma DelimitedIsRead(data: seq<byte>, rest: seq<byte>)
    requires |data| < 0x1_0000_0000_0000_0000
    ensures var n := |EncodeVarint(|data|)|;
            ConsumeBytes(EncodeVarint(|data|) + data + rest) == Protowire.Delimited(n, n + |data|)
  {
    VarintIsRead(|data|, data + rest);
    assert EncodeVarint(|data|) + data + rest == EncodeVarint(|data|) + (data + rest);
  }

  ghost predicate ValueSkipped(p: Piece, rest: seq<byte>, depth: int) {
    SkipField(p.number, WireType(p.value), LayValue(p.number, p.value) + rest, depth)
      == Skip(|LayValue(p.number, p.value)|)
  }

  ghost predicate GroupSkipped(number: nat, g: Value, k: nat, rest: seq<byte>, depth: int) {
    g.Group? && k <= |g.fields| ==>
      SkipGroup(number, LayFrom(g, k) + (LayTag(number, 4) + rest), depth)
        == Skip(|LayFrom(g, k)| + |LayTag(number, 4)|)
  }

  lemma PlainValueIsSkipped(p: Piece, rest: seq<byte>, depth: int)
    requires Sound(p, depth) && !p.value.Group?
    ensures ValueSkipped(p, rest, depth)
  {
    match p.value
    case Number(n) => VarintIsRead(n, rest);
    case Eight(bytes) =>
    case Four(bytes) =>
    case Delimited(data) => DelimitedIsRead(data, rest);
  }

  lemma GroupValueIsSkipped(p: Piece, rest: seq<byte>, depth: int)
    requires Sound(p, depth) && p.value.Group? && GroupSkipped(p.number, p.value, 0, rest, depth)
    ensures ValueSkipped(p, rest, depth)
  {
    assert LayFrom(p.value, 0) + LayTag(p.number, 4) + rest == LayFrom(p.value, 0) + (LayTag(p.number, 4) + rest);
  }

  lemma FieldInGroup(number: nat, p: Piece, value: seq<byte>, depth: int, m: nat, more: seq<byte>, n: nat)
    requires m <= |value| && value[m..] == more
    requires SkipField(p.number, WireType(p.value), value, depth - 1) == Skip(m)
    requires SkipGroup(number, more, depth) == Skip(n)
    ensures SkipInGroup(number, p.number, WireType(p.value), value, depth) == Skip(m + n)
  {
  }

  lemma TagInGroup(number: nat, b: seq<byte>, depth: int, tag: Tag, m: nat)
    requires tag.Tag? && ConsumeTag(b) == tag && tag.wireType != 4
    requires SkipInGroup(number, tag.number, tag.wireType, b[tag.n..], depth) == Skip(m)
    ensures SkipGroup(number, b, depth) == Skip(tag.n + m)
  {
  }

  lemma GroupEnds(number: nat, g: Value, rest: seq<byte>, depth: int)
    requires 1 <= number <= 0x7fff_ffff && g.Group?
    ensures GroupSkipped(number, g, |g.fields|, rest, depth)
  {
    var end := LayTag(number, 4) + rest;
    assert LayFrom(g, |g.fields|) + end == end;
    TagIsRead(number, 4, rest);
  }

  /** One field of a group is skipped, then the rest of it. */
  lemma FieldThenRest(number: nat, g: Value, k: nat, rest: seq<byte>, depth: int)
    requires g.Group? && k < |g.fields| && 1 <= g.fields[k].number <= 0x7fff_ffff
    requires ValueSkipped(g.fields[k], LayFrom(g, k + 1) + (LayTag(number, 4) + rest), depth - 1)
    requires GroupSkipped(number, g, k + 1, rest, depth)
    ensures GroupSkipped(number, g, k, rest, depth)
  {
    var p, fields, end := g.fields[k], LayFrom(g, k + 1), LayTag(number, 4) + rest;
    var tag, value := LayTag(p.number, WireType(p.value)), LayValue(p.number, p.value);
    var b := tag + (value + (fields + end));
    assert LayFrom(g, k) + end == b;
    TagIsRead(p.number, WireType(p.value), value + (fields + end));
    assert b[|tag|..] == value + (fields + end);
    FieldInGroup(number, p, value + (fields + end), depth, |value|, fields + end, |fields| + |LayTag(number, 4)|);
    TagInGroup(number, b, depth, Tag(p.number, WireType(p.value), |tag|), |value| + |fields| + |LayTag(number, 4)|);
  }

  /** Any field value is skipped whole, whatever follows. */
  lemma {:induction false} ValueIsSkipped(p: Piece, rest: seq<byte>, depth: int)
    requires Sound(p, depth)
    ensures ValueSkipped(p, rest, depth)
    decreases p.value, 1
  {
    if p.value.Group? {
      GroupIsSkipped(p.number, p.value, 0, rest, depth);
      GroupValueIsSkipped(p, rest, depth);
    } else {
      PlainValueIsSkipped(p, rest, depth);
    }
  }

  /** So is the rest of a group, up to its own end and not that of a group inside it. */
  lemma {:induction false} GroupIsSkipped(number: nat, g: Value, k: nat, rest: seq<byte>, depth: int)
    requires g.Group? && k <= |g.fields| && AllSound(g, k, depth - 1) && 1 <= number <= 0x7fff_ffff
    ensures GroupSkipped(number, g, k, rest, depth)
    decreases g, 0, |g.fields| - k
  {
    if k == |g.fields| {
      GroupEnds(number, g, rest, depth);
    } else {
      ValueIsSkipped(g.fields[k], LayFrom(g, k + 1) + (LayTag(number, 4) + rest), depth - 1);
      GroupIsSkipped(number, g, k + 1, rest, depth);
      FieldThenRest(number, g, k, rest, depth);
    }
  }

  // ---------- the payload of a message ----------

  /** A field that carries payload. */
  predicate Carries(p: Piece) {
    p.number == 1 && p.value.Delimited?
  }

  /** One field in front of anything is read as what it is. */
  lemma FieldIsRead(p: Piece, rest: seq<byte>)
    requires Sound(p, 10000)
    ensures Lay(p) != []
    ensures var n := |Lay(p)|;
            if Carries(p) then
              && n >= |p.value.data| && ReadField(Lay(p) + rest) == Data(n - |p.value.data|, n)
              && Lay(p)[n - |p.value.data|..] == p.value.data
            else ReadField(Lay(p) + rest) == Unknown(n)
  {
    var tag, value := LayTag(p.number, WireType(p.value)), LayValue(p.number, p.value);
    var m := Lay(p) + rest;
    assert m == tag + (value + rest);
    TagIsRead(p.number, WireType(p.value), value + rest);
    assert m[|tag|..] == value + rest;
    if Carries(p) {
      DelimitedIsRead(p.value.data, rest);
    } else {
      ValueIsSkipped(p, rest, 10000);
    }
  }

  /** The value of the last payload field from the k-th field on, if there is one. */
  function LastFrom(g: Value, k: nat, last: seq<byte>): seq<byte>
    requires g.Group? && k <= |g.fields|
    decreases |g.fields| - k
  {
    if k == |g.fields| then last
    else LastFrom(g, k + 1, if Carries(g.fields[k]) then g.fields[k].value.data else last)
  }

  /** Parsing goes on behind a field, with its value if it carries payload. */
  lemma ParsedOne(p: Piece, rest: seq<byte>, last: seq<byte>)
    requires Sound(p, 10000)
    ensures ParseMessage(Protobuf(), Lay(p) + rest, last)
         == ParseMessage(Protobuf(), rest, if Carries(p) then p.value.data else last)
  {
    var m, n := Lay(p) + rest, |Lay(p)|;
    FieldIsRead(p, rest);
    assert m[n..] == rest && m != [];
    if Carries(p) { assert m[n - |p.value.data|..n] == Lay(p)[n - |p.value.data|..]; }
  }

  lemma {:induction false} ParsedFrom(g: Value, k: nat, last: seq<byte>)
    requires g.Group? && k <= |g.fields| && AllSound(g, k, 10000)
    ensures ParseMessage(Protobuf(), LayFrom(g, k), last) == Payload(LastFrom(g, k, last))
    decreases |g.fields| - k
  {
    if k < |g.fields| {
      ParsedOne(g.fields[k], LayFrom(g, k + 1), last);
      ParsedFrom(g, k + 1, if Carries(g.fields[k]) then g.fields[k].value.data else last);
    }
  }

  /** Field i carries payload, and none behind it does. */
  predicate IsLast(fields: seq<Piece>, i: nat) {
    && i < |fields| && Carries(fields[i])
    && forall j :: i < j < |fields| ==> !Carries(fields[j])
  }

  /** What LastFrom means: nothing behind the field it takes its value from carries payload. */
  lemma {:induction false} LastIsLast(g: Value, k: nat, last: seq<byte>)
    requires g.Group? && k <= |g.fields|
    ensures (forall i :: k <= i < |g.fields| ==> !Carries(g.fields[i])) ==> LastFrom(g, k, last) == last
    ensures forall i :: k <= i < |g.fields| && IsLast(g.fields, i) ==> LastFrom(g, k, last) == g.fields[i].value.data
    decreases |g.fields| - k
  {
    if k < |g.fields| { LastIsLast(g, k + 1, if Carries(g.fields[k]) then g.fields[k].value.data else last); }
  }

  /**
   A message made of any fields, with field 1 among them or not: its payload is the value of the
   last length-delimited field 1, and nothing if there is none.
   */
  lemma MessageOfFields(fields: seq<Piece>)
    requires forall i :: 0 <= i < |fields| ==> Sound(fields[i], 10000)
    ensures var m := LayFrom(Group(fields), 0);
            && ((forall i :: 0 <= i < |fields| ==> !Carries(fields[i])) ==>
                  ParseMessage(Protobuf(), m, []) == Payload([]))
            && (forall i :: 0 <= i < |fields| && IsLast(fields, i) ==>
                  ParseMessage(Protobuf(), m, []) == Payload(fields[i].value.data))
  {
    AllAreSound(Group(fields), 0);
    ParsedFrom(Group(fields), 0, []);
    LastIsLast(Group(fields), 0, []);
  }

  lemma {:induction false} AllAreSound(g: Value, k: nat)
    requires g.Group? && k <= |g.fields| && forall i :: 0 <= i < |g.fields| ==> Sound(g.fields[i], 10000)
    ensures AllSound(g, k, 10000)
    decreases |g.fields| - k
  {
    if k < |g.fields| { AllAreSound(g, k + 1); }
  }

  // ---------- messages that are refused ----------

  /** A length that goes past the end of the message spoils it, in field 1 and in any other. */
  lemma ShortFieldIsRefused(number: nat, length: nat, data: seq<byte>)
    requires 1 <= number <= 0x7fff_ffff && |data| < length < 0x1_0000_0000_0000_0000
    ensures ParseMessage(Protobuf(), LayTag(number, 2) + (EncodeVarint(length) + data), [])
         == Rejected(InvalidField(Truncated))
  {
    var b := EncodeVarint(length) + data;
    var m := LayTag(number, 2) + b;
    TagIsRead(number, 2, b);
    VarintIsRead(length, data);
    assert m[|LayTag(number, 2)|..] == b && m != [];
    assert ConsumeBytes(b) == BadDelimited(Truncated);
    assert ReadField(m) == NoField(InvalidField(Truncated));
  }

  /** So does a field number that is zero or too large. */
  lemma BadNumberIsRefused(number: nat, wireType: nat, rest: seq<byte>)
    requires (number == 0 || 0x7fff_ffff < number < 0x1000_0000_0000_0000) && wireType < 8
    ensures ParseMessage(Protobuf(), LayTag(number, wireType) + rest, []) == Rejected(InvalidTag(FieldNumber))
  {
    var m := LayTag(number, wireType) + rest;
    TagIsMadeOf(number, wireType);
    VarintIsRead(8 * number + wireType, rest);
    assert ConsumeTag(m) == BadTag(FieldNumber) && m != [];
    assert ReadField(m) == NoField(InvalidTag(FieldNumber));
  }

  /** So does the end of a group that has not begun, and a wire type that does not exist. */
  lemma BadTypeIsRefused(number: nat, wireType: nat, rest: seq<byte>)
    requires 1 <= number <= 0x7fff_ffff && wireType in {4, 6, 7}
    ensures ParseMessage(Protobuf(), LayTag(number, wireType) + rest, [])
         == Rejected(InvalidField(if wireType == 4 then EndGroup else Reserved))
  {
    TagIsRead(number, wireType, rest);
    assert LayTag(number, wireType) + rest != [];
  }

  /** The beginnings of n groups, one inside the other. */
  function Starts(number: nat, n: nat): seq<byte> {
    if n == 0 then [] else LayTag(number, 3) + Starts(number, n - 1)
  }

  lemma {:induction false} DeepGroupIsRefused(number: nat, n: nat, rest: seq<byte>, depth: int)
    requires 1 <= number <= 0x7fff_ffff && n > depth
    ensures SkipField(number, 3, Starts(number, n) + rest, depth) == BadSkip(RecursionDepth)
    decreases n
  {
    if depth >= 0 {
      var tag, more := LayTag(number, 3), Starts(number, n - 1) + rest;
      var b := tag + more;
      assert Starts(number, n) + rest == b;
      TagIsRead(number, 3, more);
      assert b[|tag|..] == more;
      DeepGroupIsRefused(number, n - 1, rest, depth - 1);
      assert SkipInGroup(number, number, 3, more, depth) == BadSkip(RecursionDepth);
      assert SkipGroup(number, b, depth) == BadSkip(RecursionDepth);
    }
  }

  /** Groups nested more than 10001 deep spoil the message; Sound admits that depth. */
  lemma TooDeepIsRefused(number: nat, n: nat, rest: seq<byte>)
    requires 1 <= number <= 0x7fff_ffff && n > 10001
    ensures ParseMessage(Protobuf(), Starts(number, n) + rest, []) == Rejected(InvalidField(RecursionDepth))
  {
    var tag, more := LayTag(number, 3), Starts(number, n - 1) + rest;
    var m := tag + more;
    assert Starts(number, n) + rest == m;
    TagIsRead(number, 3, more);
    assert m[|tag|..] == more && m != [];
    DeepGroupIsRefused(number, n - 1, rest, 10000);
    assert ReadField(m) == NoField(InvalidField(RecursionDepth));
  }
}
