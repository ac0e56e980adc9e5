/** The URL-safe base64 encoding without padding, section 5 of RFC 4648. */
module Base64Url {
  import opened Bytes

  type sextet = v: nat | v < 64

  function Digit(v: sextet): (c: char)
    ensures Value(c) == Some(v)
  {
    if v < 26 then 'A' + v as char
    else if v < 52 then 'a' + (v - 26) as char
    else if v < 62 then '0' + (v - 52) as char
    else if v == 62 then '-' else '_'
  }

  function Value(c: char): Option<sextet> {
    if 'A' <= c <= 'Z' then Some((c - 'A') as nat)
    else if 'a' <= c <= 'z' then Some((c - 'a') as nat + 26)
    else if '0' <= c <= '9' then Some((c - '0') as nat + 52)
    else if c == '-' then Some(62)
    else if c == '_' then Some(63)
    else None
  }

  /** Three bytes make four sextets; what is left over is filled up with zero bits. */
  function Split(b: seq<byte>): (v: seq<sextet>)
    ensures |v| == (4 * |b| + 2) / 3
  {
    if |b| == 0 then []
    else if |b| == 1 then [b[0] / 4, b[0] % 4 * 16]
    else if |b| == 2 then [b[0] / 4, b[0] % 4 * 16 + b[1] / 16, b[1] % 16 * 4]
    else [b[0] / 4, b[0] % 4 * 16 + b[1] / 16, b[1] % 16 * 4 + b[2] / 64, b[2] % 64] + Split(b[3..])
  }

  function Digits(v: seq<sextet>): (s: string)
    ensures |s| == |v|
  {
    if v == [] then "" else [Digit(v[0])] + Digits(v[1..])
  }

  function Encode(b: seq<byte>): (s: string)
    ensures |s| == (4 * |b| + 2) / 3
  {
    Digits(Split(b))
  }

  function Values(s: string): Option<seq<sextet>> {
    if s == "" then Some([])
    else
      match (Value(s[0]), Values(s[1..]))
      case (Some(v), Some(vs)) => Some([v] + vs)
      case _ => None
  }

  function First(v: sextet, w: sextet): byte {
    v as int * 4 + w / 16
  }

  function Second(v: sextet, w: sextet): byte {
    v as int % 16 * 16 + w / 4
  }

  function Third(v: sextet, w: sextet): byte {
    v as int % 4 * 64 + w
  }

  /** Four sextets make three bytes; the bits left over at the end are ignored. */
  function Assemble(v: seq<sextet>): Option<seq<byte>> {
    if |v| == 0 then Some([])
    else if |v| == 1 then None
    else if |v| == 2 then Some([First(v[0], v[1])])
    else if |v| == 3 then Some([First(v[0], v[1]), Second(v[1], v[2])])
    else
      match Assemble(v[4..])
      case Some(rest) => Some([First(v[0], v[1]), Second(v[1], v[2]), Third(v[2], v[3])] + rest)
      case None => None
  }

  function Decode(s: string): Option<seq<byte>> {
    match Values(s)
    case Some(v) => Assemble(v)
    case None => None
  }

  lemma {:induction false} DigitsRoundTrip(v: seq<sextet>)
    ensures Values(Digits(v)) == Some(v)
  {
    if v != [] {
      DigitsRoundTrip(v[1..]);
      assert Digits(v)[1..] == Digits(v[1..]);
      assert v == [v[0]] + v[1..];
    }
  }

  /** Regrouping three bytes into four sextets and back. */
  lemma Regrouped(a: byte, b: byte, c: byte)
    ensures First(a / 4, a % 4 * 16 + b / 16) == a
    ensures Second(a % 4 * 16 + b / 16, b % 16 * 4 + c / 64) == b
    ensures Third(b % 16 * 4 + c / 64, c % 64) == c
  {
  }

  lemma SmallRoundTrip(a: byte, b: byte)
    ensures First(a / 4, a % 4 * 16) == a && Second(a % 4 * 16 + b / 16, b % 16 * 4) == b
    ensures First(a / 4, a % 4 * 16 + b / 16) == a
  {
    Regrouped(a, 0, 0);
    Regrouped(a, b, 0);
  }

  lemma {:induction false} SplitRoundTrip(b: seq<byte>)
    ensures Assemble(Split(b)) == Some(b)
  {
    if |b| == 1 {
      SmallRoundTrip(b[0], 0);
      assert b == [b[0]];
    } else if |b| == 2 {
      SmallRoundTrip(b[0], b[1]);
      assert b == [b[0], b[1]];
    } else if |b| >= 3 {
      SplitRoundTrip(b[3..]);
      Regrouped(b[0], b[1], b[2]);
      assert Split(b)[4..] == Split(b[3..]);
      assert b == [b[0], b[1], b[2]] + b[3..];
    }
  }

  /** Decoding undoes encoding, for every string of bytes. */
  lemma RoundTrip(b: seq<byte>)
    ensures Decode(Encode(b)) == Some(b)
  {
    DigitsRoundTrip(Split(b));
    SplitRoundTrip(b);
  }

  // ---------- the encoding digit by digit ----------

  /** The alphabet: upper case, lower case, decimal digits, each in its order, and two more. */
  lemma Alphabet(v: sextet)
    ensures Digit(0) == 'A' && Digit(26) == 'a' && Digit(52) == '0' && Digit(62) == '-' && Digit(63) == '_'
    ensures v < 61 && v != 25 && v != 51 ==> Digit(v + 1) as int == Digit(v) as int + 1
  {
  }

  /** Bytes, and six-bit values, as the digits of one number behind those read before. */
  function Number256(b: seq<byte>, before: nat): nat {
    if b == [] then before else Number256(b[1..], 256 * before + b[0] as nat)
  }

  function Number64(v: seq<sextet>, before: nat): nat {
    if v == [] then before else Number64(v[1..], 64 * before + v[0] as nat)
  }

  /** A number of n bytes with zero bits behind it, up to the next multiple of six. */
  function Filled(n: nat, number: nat): nat {
    if n % 3 == 0 then number else if n % 3 == 1 then 16 * number else 4 * number
  }

  lemma FourDigits(a: byte, b: byte, c: byte, before: nat)
    ensures 64 * (64 * (64 * (64 * before + a / 4) + (a % 4 * 16 + b / 16)) + (b % 16 * 4 + c / 64)) + c % 64
         == 256 * (256 * (256 * before + a as nat) + b as nat) + c as nat
  {
  }

  lemma ReadOne(v: seq<sextet>, before: nat)
    requires v != []
    ensures Number64(v, before) == Number64(v[1..], 64 * before + v[0] as nat)
  {
  }

  lemma ReadFour(v: seq<sextet>, before: nat)
    requires |v| >= 4
    ensures Number64(v, before) == Number64(v[4..], 64 * (64 * (64 * (64 * before + v[0]) + v[1]) + v[2]) + v[3])
  {
    var v1, v2, v3 := v[1..], v[2..], v[3..];
    assert v1[1..] == v2 && v2[1..] == v3 && v3[1..] == v[4..];
    assert Number64(v, before) == Number64(v1, 64 * before + v[0]);
    assert v1[0] == v[1] && v2[0] == v[2] && v3[0] == v[3];
    ReadOne(v1, 64 * before + v[0]);
    ReadOne(v2, 64 * (64 * before + v[0]) + v[1]);
    ReadOne(v3, 64 * (64 * (64 * before + v[0]) + v[1]) + v[2]);
  }

  lemma ReadByte(b: seq<byte>, before: nat)
    requires b != []
    ensures Number256(b, before) == Number256(b[1..], 256 * before + b[0] as nat)
  {
  }

  lemma ReadThree(b: seq<byte>, before: nat)
    requires |b| >= 3
    ensures Number256(b, before) == Number256(b[3..], AfterThree(b, before))
  {
    assert b[1..][1..] == b[2..] && b[2..][1..] == b[3..];
    assert b[1..][0] == b[1] && b[2..][0] == b[2];
    ReadByte(b[1..], 256 * before + b[0] as nat);
    ReadByte(b[2..], 256 * (256 * before + b[0] as nat) + b[1] as nat);
  }

  lemma LastGroup(b: seq<byte>, before: nat)
    requires |b| == 1 || |b| == 2
    ensures Number64(Split(b), before) == Filled(|b|, Number256(b, before))
  {
    var v := Split(b);
    var first := 64 * before + v[0] as nat;
    assert v[1..][0] == v[1];
    ReadOne(v, before);
    ReadOne(v[1..], first);
    ReadByte(b, before);
    if |b| == 2 {
      var v2 := v[2..];
      assert v[1..][1..] == v2 && v2[0] == v[2] && b[1..][0] == b[1];
      ReadOne(v2, 64 * first + v[1] as nat);
      ReadByte(b[1..], 256 * before + b[0] as nat);
    }
  }

  function AfterThree(b: seq<byte>, before: nat): nat
    requires |b| >= 3
  {
    256 * (256 * (256 * before + b[0] as nat) + b[1] as nat) + b[2] as nat
  }

  lemma FirstGroup(b: seq<byte>, before: nat)
    requires |b| >= 3
    ensures Number64(Split(b), before) == Number64(Split(b[3..]), AfterThree(b, before))
  {
    FourDigits(b[0], b[1], b[2], before);
    ReadFour(Split(b), before);
    assert Split(b)[4..] == Split(b[3..]);
  }

  /**
   Read as one number, the six-bit values are the bytes, with zero bits behind them up to the next
   multiple of six.
   */
  lemma {:induction false} SplitKeepsNumber(b: seq<byte>, before: nat)
    ensures Number64(Split(b), before) == Filled(|b|, Number256(b, before))
    decreases |b|
  {
    if |b| == 1 || |b| == 2 {
      LastGroup(b, before);
    } else if |b| >= 3 {
      FirstGroup(b, before);
      ReadThree(b, before);
      assert Filled(|b|, Number256(b, before)) == Filled(|b[3..]|, Number256(b, before));
      SplitKeepsNumber(b[3..], AfterThree(b, before));
    }
  }

  /** The bits that fill up the last six-bit value are zero. */
  lemma {:induction false} FillerIsZero(b: seq<byte>)
    ensures |b| % 3 == 1 ==> Split(b)[|Split(b)| - 1] % 16 == 0
    ensures |b| % 3 == 2 ==> Split(b)[|Split(b)| - 1] % 4 == 0
    decreases |b|
  {
    if |b| >= 3 { FillerIsZero(b[3..]); }
  }
}
