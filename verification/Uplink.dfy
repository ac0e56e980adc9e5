/**
 The parts of a request that depend on random choices: payloads cut into header or cookie fields,
 and padding of a wanted encoded length. A random choice is an arbitrary value in its range.
 */
module Uplinks {
  import opened Bytes
  import Base64Url

  datatype Range = Range(from: int, to: int)

  // ---------- ranges ----------

  /** A choice from a range, made by an unsigned 32-bit random number. */
  function Pick(r: Range, raw: nat): (v: int)
    requires raw < 0x1_0000_0000
    ensures v == r.from || r.from <= v <= r.to
    ensures r.from <= r.to ==> r.from <= v <= r.to
  {
    if r.to <= r.from then r.from else r.from + raw % (r.to - r.from + 1)
  }

  lemma SmallRemainder(x: nat, n: nat)
    requires x < n
    ensures x % n == x
  {
    var q := x / n;
    assert x == q * n + x % n;
    assert q >= 1 ==> q * n >= n;
    assert q == 0;
  }

  /** Every value of a 32-bit range can be chosen, so no bound below is better than the range allows. */
  lemma PickIsOnto(r: Range, v: int)
    requires -0x8000_0000 <= r.from <= v <= r.to < 0x8000_0000
    ensures exists raw: nat :: raw < 0x1_0000_0000 && Pick(r, raw) == v
  {
    var raw: nat := v - r.from;
    SmallRemainder(raw, r.to - r.from + 1);
    assert Pick(r, raw) == v;
  }

  datatype Place = Header | Cookie | Body

  /** The chunk size that a connection uses, from the configured one. */
  function ChunkSize(place: Place, configured: Range, maxEachPost: Range): (r: Range)
    ensures 64 <= r.from <= r.to
    ensures 64 <= configured.from <= configured.to ==> r == configured
    ensures configured.to == 0 && place == Cookie ==> r == Range(2048, 3072)
    ensures configured.to == 0 && place == Header ==> r == Range(3000, 4000)
    ensures configured.to == 0 && place == Body && 64 <= maxEachPost.from <= maxEachPost.to ==> r == maxEachPost
    ensures configured.to != 0 ==>
              && (r.from == configured.from || (configured.from < 64 && r.from == 64))
              && (r.to == configured.to || (configured.to < r.from && r.to == r.from))
  {
    var c :=
      if configured.to == 0 then
        match place case Cookie => Range(2048, 3072) case Header => Range(3000, 4000) case Body => maxEachPost
      else configured;
    var from := if c.from < 64 then 64 else c.from;
    Range(from, if c.to < from then from else c.to)
  }

  // ---------- chunks ----------

  datatype Field = Field(index: nat, value: string)

  function Join(fields: seq<Field>): string {
    if fields == [] then "" else Join(fields[..|fields| - 1]) + fields[|fields| - 1].value
  }

  lemma JoinSnoc(fields: seq<Field>, f: Field)
    ensures Join(fields + [f]) == Join(fields) + f.value
  {
    assert (fields + [f])[..|fields|] == fields;
  }

  /** The fields are numbered from zero, none is empty or too long, and only the last may be short. */
  predicate WellCut(fields: seq<Field>, r: Range) {
    && (forall i :: 0 <= i < |fields| ==> fields[i].index == i && 0 < |fields[i].value| <= r.to)
    && (forall i :: 0 <= i < |fields| - 1 ==> r.from <= |fields[i].value|)
  }

  lemma {:induction false} ChunkCount(fields: seq<Field>, from: nat)
    requires from > 0 && forall i :: 0 <= i < |fields| ==> from <= |fields[i].value|
    ensures |fields| * from <= |Join(fields)|
  {
    if fields != [] {
      ChunkCount(fields[..|fields| - 1], from);
    }
  }

  /** As few fields as the smallest chunk allows. */
  predicate Few(count: nat, from: nat, length: nat) {
    count == 0 || (count - 1) * from < length
  }

  lemma CutIsFew(fields: seq<Field>, r: Range)
    requires WellCut(fields, r) && r.from > 0
    ensures Few(|fields|, r.from, |Join(fields)|)
  {
    if fields != [] {
      ChunkCount(fields[..|fields| - 1], r.from);
    }
  }

  /** Cutting one more field off the front of what is left. */
  lemma CutOneMore(fields: seq<Field>, r: Range, left: string, n: nat)
    requires WellCut(fields, r) && 0 < n <= |left| && n <= r.to
    requires forall k :: 0 <= k < |fields| ==> r.from <= |fields[k].value|
    ensures var after := fields + [Field(|fields|, left[..n])];
            WellCut(after, r) && Join(after) + left[n..] == Join(fields) + left
  {
    JoinSnoc(fields, Field(|fields|, left[..n]));
    assert left == left[..n] + left[n..];
  }

  /**
   Cuts the encoded payload into fields, each of a size chosen at random. `used` says whether the
   payload travels in the fields at all.
   */
  method EncodeUplink(payload: seq<byte>, place: Place, r: Range) returns (used: bool, fields: seq<Field>)
    requires 1 <= r.from <= r.to
    ensures used == (place != Body) && (!used ==> fields == [])
    ensures used ==> Join(fields) == Base64Url.Encode(payload)
    ensures WellCut(fields, r) && Few(|fields|, r.from, (4 * |payload| + 2) / 3)
  {
    fields := [];
    if place == Body { return false, []; }
    used := true;
    var encoded := Base64Url.Encode(payload);
    ghost var full := encoded;
    assert Join([]) + encoded == full;
    var i := 0;
    while |encoded| > 0
      invariant i == |fields| && WellCut(fields, r)
      invariant Join(fields) + encoded == full
      invariant |encoded| > 0 ==> forall k :: 0 <= k < |fields| ==> r.from <= |fields[k].value|
      decreases |encoded|
    {
      var raw: int := *;
      var chunk := Pick(r, raw % 0x1_0000_0000);
      if chunk <= 0 { chunk := |encoded|; }
      var n := chunk;
      if n > |encoded| { n := |encoded|; }
      CutOneMore(fields, r, encoded, n);
      fields := fields + [Field(i, encoded[..n])];
      encoded := encoded[n..];
      i := i + 1;
    }
    assert Join(fields) + "" == Join(fields);
    CutIsFew(fields, r);
  }

  /** Whoever joins the fields and decodes them has the payload. */
  method UplinkRoundTrip(payload: seq<byte>, place: Place, r: Range) returns (decoded: Option<seq<byte>>)
    requires 1 <= r.from <= r.to && place != Body
    ensures decoded == Some(payload)
  {
    var used, fields := EncodeUplink(payload, place, r);
    Base64Url.RoundTrip(payload);
    decoded := Base64Url.Decode(Join(fields));
  }

  /** The receiver's view of numbered fields, which may have been stored in any order. */
  function Collect(stored: map<nat, string>, n: nat): string {
    if n == 0 then "" else Collect(stored, n - 1) + if n - 1 in stored then stored[n - 1] else ""
  }

  lemma {:induction false} CollectJoins(stored: map<nat, string>, fields: seq<Field>)
    requires forall i :: 0 <= i < |fields| ==> i in stored && stored[i] == fields[i].value
    ensures Collect(stored, |fields|) == Join(fields)
  {
    if fields != [] {
      CollectJoins(stored, fields[..|fields| - 1]);
    }
  }

  // ---------- padding ----------

  const TABLE := "0123456789ABCDEFGHIJKLMNOPQRSTUVWXYZabcdefghijklmnopqrstuvwxyz"

  /** The lengths of the Huffman codes of letters and digits, Appendix B of RFC 7541. */
  function CodeLength(c: char): (bits: nat)
    ensures 5 <= bits <= 8
  {
    if c in {'0', '1', '2', 'a', 'c', 'e', 'i', 'o', 's', 't'} then 5
    else if '3' <= c <= '9' || c in {'A', 'b', 'd', 'f', 'g', 'h', 'l', 'm', 'n', 'p', 'r', 'u'} then 6
    else if ('B' <= c <= 'Y' && c != 'X') || c in {'j', 'k', 'q', 'v', 'w', 'x', 'y', 'z'} then 7
    else 8
  }

  function Bits(s: string): nat {
    if s == "" then 0 else Bits(s[..|s| - 1]) + CodeLength(s[|s| - 1])
  }

  /** The encoded length, section 5.2 of RFC 7541: whole octets. */
  function HuffmanLength(s: string): nat {
    (Bits(s) + 7) / 8
  }

  lemma BitsSnoc(s: string, c: char)
    ensures Bits(s + [c]) == Bits(s) + CodeLength(c)
  {
    assert (s + [c])[..|s|] == s;
  }

  lemma {:induction false} BitsBounds(s: string)
    ensures 5 * |s| <= Bits(s) <= 8 * |s|
  {
    if s != "" { BitsBounds(s[..|s| - 1]); }
  }

  /** The code lengths of digits, of capitals, and of small letters, as Appendix B of RFC 7541 has them. */
  lemma DigitCodes(c: char)
    requires '0' <= c <= '9'
    ensures CodeLength(c) == if c <= '2' then 5 else 6
  {
  }

  lemma CapitalCodes(c: char)
    requires 'A' <= c <= 'Z'
    ensures CodeLength(c) == if c == 'A' then 6 else if c == 'X' || c == 'Z' then 8 else 7
  {
  }

  lemma SmallCodes(c: char)
    requires 'a' <= c <= 'z'
    ensures CodeLength(c) == 5 <==> c == 'a' || c == 'c' || c == 'e' || c == 'i' || c == 'o' || c == 's' || c == 't'
    ensures CodeLength(c) == 7 <==> c == 'j' || c == 'k' || c == 'q' || 'v' <= c
    ensures CodeLength(c) != 8
  {
  }

  lemma LongestCode()
    ensures CodeLength('X') == 8
  {
  }

  /** The encoded length of the fixed padding is its length: the code of X has eight bits. */
  lemma {:induction false} RepeatedX(s: string)
    requires forall i :: 0 <= i < |s| ==> s[i] == 'X'
    ensures Bits(s) == 8 * |s|
  {
    if s != "" {
      RepeatedX(s[..|s| - 1]);
      LongestCode();
    }
  }

  lemma OneMoreSymbol(out: string, c: char, length: nat)
    requires HuffmanLength(out) < length
    ensures HuffmanLength(out + [c]) <= length && Bits(out + [c]) > Bits(out)
    ensures (out + [c])[..|out|] == out && Bits(out) <= 8 * (length - 1)
  {
    BitsSnoc(out, c);
  }

  /** One letter or digit, a fixed one if there is no random byte. */
  method Symbol() returns (c: char)
    ensures c in TABLE
  {
    var raw: int, failed: bool := *, *;
    c := if failed then TABLE[33] else TABLE[raw % 256 % |TABLE|];
  }

  /** Letters and digits at random, until the encoded length is reached. */
  method Tokens(length: nat) returns (out: string)
    requires length > 0
    ensures HuffmanLength(out) == length
    ensures out != "" && Bits(out[..|out| - 1]) <= 8 * (length - 1)
    ensures forall i :: 0 <= i < |out| ==> out[i] in TABLE
  {
    out := "";
    while HuffmanLength(out) < length
      invariant HuffmanLength(out) <= length
      invariant out == "" || Bits(out[..|out| - 1]) <= 8 * (length - 1)
      invariant forall i :: 0 <= i < |out| ==> out[i] in TABLE
      decreases 8 * length - Bits(out)
    {
      var c := Symbol();
      OneMoreSymbol(out, c, length);
      out := out + [c];
    }
  }

  /** The number of symbols that an encoded length stands for. */
  lemma SymbolCount(out: string, length: nat)
    requires length > 0 && HuffmanLength(out) == length && out != "" && Bits(out[..|out| - 1]) <= 8 * (length - 1)
    ensures length <= |out| <= 2 * length && 5 * (|out| - 1) <= 8 * (length - 1)
  {
    BitsBounds(out);
    BitsBounds(out[..|out| - 1]);
  }

  /**
   Both kinds of padding have exactly the wanted encoded length, and fit into the space that is set
   aside for them, whatever is chosen at random.
   */
  method GeneratePadding(tokenish: bool, length: int) returns (out: string)
    ensures length <= 0 ==> out == ""
    ensures length > 0 ==> HuffmanLength(out) == length && length <= |out| <= 2 * length
    ensures length > 0 ==> 5 * (|out| - 1) <= 8 * (length - 1)
    ensures !tokenish && length > 0 ==> |out| == length && forall i :: 0 <= i < |out| ==> out[i] == 'X'
    ensures forall i :: 0 <= i < |out| ==> out[i] in "0123456789ABCDEFGHIJKLMNOPQRSTUVWXYZabcdefghijklmnopqrstuvwxyz"
  {
    if length <= 0 { return ""; }
    if !tokenish {
      out := seq(length, _ => 'X');
      RepeatedX(out);
      BitsBounds(out[..|out| - 1]);
      SymbolCount(out, length);
      return;
    }
    out := Tokens(length);
    SymbolCount(out, length);
  }
}
