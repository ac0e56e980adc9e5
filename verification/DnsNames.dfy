/**
 The names of HTTPS queries and records. A service on another port than the default is asked for
 with a prefix, section 9.1 of RFC 9460: "_8443._https.example.com". Names are ASCII here.
 */
module DnsNames {
  import opened Bytes

  const SEPARATOR := "._https."

  // ---------- strings ----------

  function TrimDot(s: string): string {
    if s != "" && s[|s| - 1] == '.' then s[..|s| - 1] else s
  }

  function TrimUnderscore(s: string): string {
    if s != "" && s[0] == '_' then s[1..] else s
  }

  function Fold(c: char): char {
    if 'A' <= c <= 'Z' then c - 'A' + 'a' else c
  }

  predicate EqualFold(a: string, b: string) {
    |a| == |b| && forall i :: 0 <= i < |a| ==> Fold(a[i]) == Fold(b[i])
  }

  predicate OccursAt(s: string, i: nat) {
    i + |SEPARATOR| <= |s| && s[i..i + |SEPARATOR|] == SEPARATOR
  }

  /** The first occurrence of the separator, if there is one. */
  function Find(s: string, from: nat := 0): (r: Option<nat>)
    requires from <= |s|
    ensures r.Some? ==> r.value + |SEPARATOR| <= |s|
    decreases |s| - from
  {
    if OccursAt(s, from) then Some(from)
    else if from == |s| then None
    else Find(s, from + 1)
  }

  lemma {:induction false} FindIsFirst(s: string, from: nat)
    requires from <= |s|
    ensures Find(s, from).Some? ==>
              var i := Find(s, from).value; from <= i && OccursAt(s, i) && forall j :: from <= j < i ==> !OccursAt(s, j)
    ensures Find(s, from) == None ==> forall j :: from <= j ==> !OccursAt(s, j)
    decreases |s| - from
  {
    if !OccursAt(s, from) && from < |s| { FindIsFirst(s, from + 1); }
  }

  datatype Parts = Parts(prefix: string, name: string)

  /** A name with a port prefix, taken apart at the first separator. */
  function Cut(s: string): Option<Parts> {
    if s == "" || s[0] != '_' then None
    else
      match Find(s)
      case Some(i) => Some(Parts(s[..i], s[i + |SEPARATOR|..]))
      case None => None
  }

  // ---------- rewriting ----------

  predicate Matches(query: string, server: string) {
    var q, s := TrimDot(query), TrimDot(server);
    || EqualFold(q, s)
    || (Cut(q).Some? && EqualFold(Cut(q).value.name, s))
  }

  /** The query for the other name, with the same port prefix. */
  function RewriteQuery(query: string, fromServer: string, toServer: string): string {
    var q, f, t := TrimDot(query), TrimDot(fromServer), TrimDot(toServer);
    if Cut(q).Some? && EqualFold(Cut(q).value.name, f) then Cut(q).value.prefix + SEPARATOR + t + "."
    else if EqualFold(q, f) then t + "."
    else q + "."
  }

  /** The owner name of an answer. */
  function RewriteOwner(owner: string, fromServer: string, toServer: string): string {
    var o, f, t := TrimDot(owner), TrimDot(fromServer), TrimDot(toServer);
    if EqualFold(o, f) then t + "."
    else if Cut(o).Some? && EqualFold(Cut(o).value.name, f) then Cut(o).value.prefix + SEPARATOR + t + "."
    else owner
  }

  function RewriteTarget(target: string, fromServer: string, toServer: string): string {
    if EqualFold(TrimDot(target), TrimDot(fromServer)) then TrimDot(toServer) + "." else target
  }

  // ---------- the separator ----------

  lemma FoundAt(s: string, i: nat)
    requires OccursAt(s, i) && forall j :: 0 <= j < i ==> !OccursAt(s, j)
    ensures Find(s) == Some(i)
  {
    FindIsFirst(s, 0);
    if Find(s).Some? { assert OccursAt(s, Find(s).value); }
  }

  lemma CutShape(s: string)
    requires Cut(s).Some?
    ensures var p := Cut(s).value;
            s == p.prefix + SEPARATOR + p.name && p.prefix != "" && p.prefix[0] == '_'
  {
    FindIsFirst(s, 0);
    var i := Find(s).value;
    assert s[i] == s[i..i + |SEPARATOR|][0];
    assert s == s[..i] + s[i..i + |SEPARATOR|] + s[i + |SEPARATOR|..];
  }

  /** What stands behind the separator does not matter for where it is found. */
  lemma CutAgain(s: string, other: string)
    requires Cut(s).Some?
    ensures Cut(Cut(s).value.prefix + SEPARATOR + other) == Some(Parts(Cut(s).value.prefix, other))
  {
    CutShape(s);
    FindIsFirst(s, 0);
    var prefix := Cut(s).value.prefix;
    var t := prefix + SEPARATOR + other;
    var i := |prefix|;
    assert t[i..i + |SEPARATOR|] == SEPARATOR && OccursAt(t, i);
    forall j | 0 <= j < i ensures !OccursAt(t, j) {
      if OccursAt(t, j) {
        assert s[j..j + |SEPARATOR|] == t[j..j + |SEPARATOR|];
        assert OccursAt(s, j);
      }
    }
    FoundAt(t, i);
    assert t[..i] == prefix && t[i + |SEPARATOR|..] == other;
  }

  lemma TrimDotAdded(s: string)
    ensures TrimDot(s + ".") == s
  {
    assert (s + ".")[..|s|] == s;
  }

  lemma PrefixedIsLonger(prefix: string, name: string)
    ensures |prefix + SEPARATOR + name| > |name|
  {
  }

  // ---------- redirection and its inverse ----------

  /** The redirected query asks for the other name, under the same port. */
  lemma RedirectedMatches(query: string, fromServer: string, toServer: string)
    requires Matches(query, fromServer)
    ensures Matches(RewriteQuery(query, fromServer, toServer), toServer)
    ensures Cut(TrimDot(query)).Some? && EqualFold(Cut(TrimDot(query)).value.name, TrimDot(fromServer)) ==>
              Cut(TrimDot(RewriteQuery(query, fromServer, toServer))) ==
                Some(Parts(Cut(TrimDot(query)).value.prefix, TrimDot(toServer)))
  {
    var q, f, t := TrimDot(query), TrimDot(fromServer), TrimDot(toServer);
    if Cut(q).Some? && EqualFold(Cut(q).value.name, f) {
      CutAgain(q, t);
      TrimDotAdded(Cut(q).value.prefix + SEPARATOR + t);
    } else {
      TrimDotAdded(t);
    }
  }

  /**
   An answer that carries the redirected name gets the original one back, up to case and the final
   dot, for every name that is redirected, with or without a port prefix.
   */
  lemma RedirectionIsInverted(query: string, fromServer: string, toServer: string)
    requires Matches(query, fromServer)
    ensures EqualFold(TrimDot(RewriteOwner(RewriteQuery(query, fromServer, toServer), toServer, fromServer)),
              TrimDot(query))
  {
    var q, f, t := TrimDot(query), TrimDot(fromServer), TrimDot(toServer);
    if Cut(q).Some? && EqualFold(Cut(q).value.name, f) {
      var prefix := Cut(q).value.prefix;
      CutShape(q);
      CutAgain(q, t);
      TrimDotAdded(prefix + SEPARATOR + t);
      PrefixedIsLonger(prefix, t);
      TrimDotAdded(prefix + SEPARATOR + f);
    } else {
      TrimDotAdded(t);
      TrimDotAdded(f);
    }
  }

  /** Owner names that do not belong to the other server are left as they are, and only those. */
  lemma OtherNamesStay(owner: string, fromServer: string, toServer: string)
    ensures !Matches(owner, fromServer) ==> RewriteOwner(owner, fromServer, toServer) == owner
    ensures Matches(owner, fromServer) ==> Matches(RewriteOwner(owner, fromServer, toServer), toServer)
  {
    var o, f, t := TrimDot(owner), TrimDot(fromServer), TrimDot(toServer);
    if EqualFold(o, f) {
      TrimDotAdded(t);
    } else if Cut(o).Some? && EqualFold(Cut(o).value.name, f) {
      CutAgain(o, t);
      TrimDotAdded(Cut(o).value.prefix + SEPARATOR + t);
    }
  }

  // ---------- ports ----------

  predicate IsDigit(c: char) {
    '0' <= c <= '9'
  }

  function Decimal(n: nat): (s: string)
    ensures s != "" && forall i :: 0 <= i < |s| ==> IsDigit(s[i])
  {
    if n < 10 then ['0' + n as char] else Decimal(n / 10) + ['0' + (n % 10) as char]
  }

  /** The value of a string of digits. */
  function Digits(s: string): Option<nat> {
    if s == "" then None
    else if !IsDigit(s[|s| - 1]) then None
    else
      var d := (s[|s| - 1] - '0') as nat;
      if |s| == 1 then Some(d)
      else match Digits(s[..|s| - 1]) case Some(n) => Some(10 * n + d) case None => None
  }

  /** Digits with an optional sign. */
  function Integer(s: string): Option<int> {
    var signed := s != "" && (s[0] == '-' || s[0] == '+');
    match Digits(if signed then s[1..] else s)
    case Some(n) => Some(if signed && s[0] == '-' then -(n as int) else n as int)
    case None => None
  }

  /** The port that a name asks for. */
  function ServicePort(query: string): (r: Option<nat>)
    ensures r.Some? ==> 1 <= r.value <= 65535
  {
    match Cut(TrimDot(query))
    case None => None
    case Some(parts) =>
      match Integer(TrimUnderscore(parts.prefix))
      case Some(n) => if n <= 0 || n > 65535 then None else Some(n as nat)
      case None => None
  }

  lemma {:induction false} DigitsOfDecimal(n: nat)
    ensures Digits(Decimal(n)) == Some(n)
  {
    if n >= 10 {
      DigitsOfDecimal(n / 10);
      assert Decimal(n)[..|Decimal(n)| - 1] == Decimal(n / 10);
    }
  }

  /** A name without dots in its prefix is cut where the separator was put. */
  lemma CutFresh(prefix: string, name: string)
    requires prefix != "" && prefix[0] == '_' && forall i :: 0 <= i < |prefix| ==> prefix[i] != '.'
    ensures Cut(prefix + SEPARATOR + name) == Some(Parts(prefix, name))
  {
    var s := prefix + SEPARATOR + name;
    var i := |prefix|;
    assert s[i..i + |SEPARATOR|] == SEPARATOR && OccursAt(s, i);
    forall j | 0 <= j < i ensures !OccursAt(s, j) {
      assert s[j] == prefix[j] != '.';
      if j + |SEPARATOR| <= |s| { assert s[j..j + |SEPARATOR|][0] == s[j]; }
    }
    FoundAt(s, i);
    assert s[..i] == prefix && s[i + |SEPARATOR|..] == name;
  }

  lemma IntegerOfDecimal(n: nat)
    ensures Integer(Decimal(n)) == Some(n)
  {
    DigitsOfDecimal(n);
    assert IsDigit(Decimal(n)[0]);
  }

  /** Every port is read back from the name that asks for it, redirected or not. */
  lemma PortIsRead(port: nat, name: string)
    requires 1 <= port <= 65535
    ensures ServicePort("_" + Decimal(port) + SEPARATOR + name + ".") == Some(port)
  {
    var prefix := "_" + Decimal(port);
    var trimmed := prefix + SEPARATOR + name;
    CutFresh(prefix, name);
    TrimDotAdded(trimmed);
    assert TrimUnderscore(prefix) == Decimal(port);
    IntegerOfDecimal(port);
  }

  // ---------- the results as strings ----------

  /** The first place where a name is cut. */
  predicate SeparatorAt(s: string, i: nat) {
    i + 8 <= |s| && s[i..i + 8] == "._https."
  }

  ghost predicate FirstCut(s: string, i: nat) {
    SeparatorAt(s, i) && forall j: nat :: j < i ==> !SeparatorAt(s, j)
  }

  lemma SeparatorOccurs(s: string, i: nat)
    ensures SeparatorAt(s, i) <==> OccursAt(s, i)
  {
  }

  lemma CutAtFirst(s: string, i: nat)
    requires s != "" && s[0] == '_' && FirstCut(s, i)
    ensures Cut(s) == Some(Parts(s[..i], s[i + 8..]))
  {
    forall j: nat | j <= i ensures SeparatorAt(s, j) <==> OccursAt(s, j) { SeparatorOccurs(s, j); }
    FoundAt(s, i);
  }

  lemma CutIsFirst(s: string)
    ensures Cut(s).Some? ==>
              && s != "" && s[0] == '_'
              && exists i: nat :: FirstCut(s, i) && Cut(s).value == Parts(s[..i], s[i + 8..])
  {
    if Cut(s).Some? {
      FindIsFirst(s, 0);
      var i := Find(s).value;
      forall j: nat | j <= i ensures SeparatorAt(s, j) <==> OccursAt(s, j) { SeparatorOccurs(s, j); }
      assert FirstCut(s, i);
    }
  }

  /** One final dot is taken off a name, and only that. */
  lemma TrimmedDot(s: string)
    ensures TrimDot(s + ".") == s
    ensures s == "" || s[|s| - 1] != '.' ==> TrimDot(s) == s
  {
    TrimDotAdded(s);
  }

  /** Letters are compared without their case, and everything else as it is. */
  lemma Folded(c: char)
    ensures forall k :: 0 <= k < 26 && c == "ABCDEFGHIJKLMNOPQRSTUVWXYZ"[k] ==>
              Fold(c) == "abcdefghijklmnopqrstuvwxyz"[k]
    ensures !('A' <= c <= 'Z') ==> Fold(c) == c
  {
  }

  predicate SameLetter(c: char, d: char) {
    c == d || ('A' <= c <= 'Z' && d == c - 'A' + 'a') || ('A' <= d <= 'Z' && c == d - 'A' + 'a')
  }

  /** Two names are taken for the same exactly if they are but for the case of letters. */
  lemma SameButForCase(a: string, b: string)
    ensures EqualFold(a, b) <==> |a| == |b| && forall i :: 0 <= i < |a| ==> SameLetter(a[i], b[i])
  {
    if |a| == |b| {
      forall i | 0 <= i < |a| ensures Fold(a[i]) == Fold(b[i]) <==> SameLetter(a[i], b[i]) {
      }
    }
  }

  /**
   A name under a port prefix, as a query or as an owner: the other name stands in the place of the
   server's, behind the same prefix and with a final dot.
   */
  lemma PrefixedIsRewritten(name: string, fromServer: string, toServer: string, i: nat)
    requires var n := TrimDot(name);
             n != "" && n[0] == '_' && FirstCut(n, i) && EqualFold(n[i + 8..], TrimDot(fromServer))
    ensures RewriteQuery(name, fromServer, toServer) == TrimDot(name)[..i] + "._https." + TrimDot(toServer) + "."
    ensures RewriteOwner(name, fromServer, toServer) == TrimDot(name)[..i] + "._https." + TrimDot(toServer) + "."
    ensures RewriteTarget(name, fromServer, toServer) == name
  {
    CutAtFirst(TrimDot(name), i);
  }

  /** The name of the server itself: the other name, with a final dot. */
  lemma PlainIsRewritten(name: string, fromServer: string, toServer: string)
    requires EqualFold(TrimDot(name), TrimDot(fromServer))
    ensures RewriteQuery(name, fromServer, toServer) == TrimDot(toServer) + "."
    ensures RewriteOwner(name, fromServer, toServer) == TrimDot(toServer) + "."
    ensures RewriteTarget(name, fromServer, toServer) == TrimDot(toServer) + "."
  {
    if Cut(TrimDot(name)).Some? { CutShape(TrimDot(name)); }
  }

  /** Any other name: left as it is, but for the final dot of a query. */
  lemma OtherIsKept(name: string, fromServer: string, toServer: string)
    requires !EqualFold(TrimDot(name), TrimDot(fromServer))
    requires forall i: nat :: FirstCut(TrimDot(name), i) && TrimDot(name)[0] == '_' ==>
               !EqualFold(TrimDot(name)[i + 8..], TrimDot(fromServer))
    ensures RewriteQuery(name, fromServer, toServer) == TrimDot(name) + "."
    ensures RewriteOwner(name, fromServer, toServer) == name
    ensures RewriteTarget(name, fromServer, toServer) == name
  {
    CutIsFirst(TrimDot(name));
  }

  // ---------- which names ask for a port ----------

  function Nulls(k: nat): string {
    if k == 0 then "" else "0" + Nulls(k - 1)
  }

  lemma {:induction false} NullsMove(k: nat)
    ensures Nulls(k) + "0" == "0" + Nulls(k)
  {
    if k > 0 {
      NullsMove(k - 1);
      assert "0" + Nulls(k - 1) + "0" == "0" + (Nulls(k - 1) + "0");
    }
  }

  lemma DecimalGoesOn(n: nat, d: nat)
    requires n > 0 && d < 10
    ensures Decimal(10 * n + d) == Decimal(n) + ['0' + d as char]
  {
  }

  /** What is read as n is the decimal form of n, behind any number of zeros. */
  lemma {:induction false} DigitsAreDecimal(s: string) returns (k: nat)
    requires Digits(s).Some?
    ensures s == Nulls(k) + Decimal(Digits(s).value)
  {
    var last := |s| - 1;
    var d := (s[last] - '0') as nat;
    assert ['0' + d as char] == [s[last]] && s == s[..last] + [s[last]];
    if last == 0 {
      k := 0;
    } else {
      k := DigitsAreDecimal(s[..last]);
      var n := Digits(s[..last]).value;
      if n > 0 {
        DecimalGoesOn(n, d);
        assert Nulls(k) + Decimal(n) + [s[last]] == Nulls(k) + (Decimal(n) + [s[last]]);
      } else {
        NullsMove(k);
        assert Nulls(k + 1) == "0" + Nulls(k);
        assert Nulls(k) + "0" + [s[last]] == Nulls(k + 1) + Decimal(d);
        k := k + 1;
      }
    }
  }

  lemma DigitsGoOn(s: string, c: char)
    requires Digits(s).Some? && IsDigit(c)
    ensures Digits(s + [c]) == Some(10 * Digits(s).value + (c - '0') as nat)
  {
    assert (s + [c])[..|s|] == s;
  }

  lemma {:induction false} NullsAreZero(k: nat)
    requires k > 0
    ensures Digits(Nulls(k)) == Some(0)
  {
    if k == 1 {
      assert Nulls(1) == "0";
    } else {
      NullsAreZero(k - 1);
      NullsMove(k - 1);
      DigitsGoOn(Nulls(k - 1), '0');
    }
  }

  lemma {:induction false} DecimalIsRead(k: nat, n: nat)
    ensures Digits(Nulls(k) + Decimal(n)) == Some(n)
    decreases n
  {
    if n < 10 {
      if k > 0 { NullsAreZero(k); DigitsGoOn(Nulls(k), '0' + n as char); }
    } else {
      DecimalIsRead(k, n / 10);
      DigitsGoOn(Nulls(k) + Decimal(n / 10), '0' + (n % 10) as char);
      assert Nulls(k) + Decimal(n) == Nulls(k) + Decimal(n / 10) + ['0' + (n % 10) as char];
    }
  }

  /** The label of a port: an underscore, perhaps a plus, and the decimal number, perhaps behind zeros. */
  ghost predicate IsPortLabel(text: string, port: nat) {
    exists k :: text == "_" + (Nulls(k) + Decimal(port)) || text == "_+" + (Nulls(k) + Decimal(port))
  }

  lemma {:induction false} DecimalStartsWithDigit(n: nat)
    ensures IsDigit(Decimal(n)[0])
    decreases n
  {
    if n >= 10 { DecimalStartsWithDigit(n / 10); }
  }

  lemma StartsWithDigit(k: nat, n: nat)
    ensures |Nulls(k) + Decimal(n)| > 0 && IsDigit((Nulls(k) + Decimal(n))[0])
  {
    DecimalStartsWithDigit(n);
    assert k == 0 ==> Nulls(k) + Decimal(n) == Decimal(n);
  }

  lemma SignIsOptional(s: string)
    requires s != "" && IsDigit(s[0])
    ensures Integer(s) == Digits(s) && Integer("+" + s) == Digits(s)
  {
    assert ("+" + s)[1..] == s;
  }

  lemma LabelIsRead(text: string, port: nat)
    requires IsPortLabel(text, port)
    ensures Integer(TrimUnderscore(text)) == Some(port)
  {
    var k :| text == "_" + (Nulls(k) + Decimal(port)) || text == "_+" + (Nulls(k) + Decimal(port));
    OneLabelIsRead(text, Nulls(k) + Decimal(port), port) by {
      DecimalIsRead(k, port);
      StartsWithDigit(k, port);
    }
  }

  lemma OneLabelIsRead(text: string, s: string, port: nat)
    requires text == "_" + s || text == "_+" + s
    requires s != "" && IsDigit(s[0]) && Digits(s) == Some(port)
    ensures Integer(TrimUnderscore(text)) == Some(port)
  {
    SignIsOptional(s);
    assert text[1..] == s || text[1..] == "+" + s;
  }

  /** The digits of a number that may have a sign; one above zero has no minus. */
  lemma DigitsOfInteger(s: string, n: nat) returns (digits: string)
    requires Integer(s) == Some(n) && n > 0
    ensures Digits(digits) == Some(n) && (s == digits || s == "+" + digits)
  {
    var signed := s != "" && (s[0] == '-' || s[0] == '+');
    digits := if signed then s[1..] else s;
    assert signed ==> s == [s[0]] + digits;
  }

  lemma ReadIsLabel(text: string, port: nat)
    requires text != "" && text[0] == '_' && Integer(TrimUnderscore(text)) == Some(port) && port > 0
    ensures IsPortLabel(text, port)
  {
    var digits := DigitsOfInteger(TrimUnderscore(text), port);
    assert text == "_" + text[1..];
    assert "_" + ("+" + digits) == "_+" + digits;
    var k := DigitsAreDecimal(digits);
  }

  /**
   A name asks for a port exactly if its part before the first "._https." is the label of that port,
   and the port is one that exists; every other name asks for none.
   */
  lemma PortIsAskedFor(query: string, port: nat)
    ensures ServicePort(query) == Some(port) <==>
              && 1 <= port <= 65535
              && exists i: nat :: FirstCut(TrimDot(query), i) && IsPortLabel(TrimDot(query)[..i], port)
  {
    var q := TrimDot(query);
    CutIsFirst(q);
    if ServicePort(query) == Some(port) {
      var i: nat :| FirstCut(q, i) && Cut(q).value == Parts(q[..i], q[i + 8..]);
      assert q[..i] != "" && q[..i][0] == '_' by { CutShape(q); }
      ReadIsLabel(q[..i], port);
    } else if i: nat :| 1 <= port <= 65535 && FirstCut(q, i) && IsPortLabel(q[..i], port) {
      assert q[..i][0] == '_' == q[0];
      CutAtFirst(q, i);
      LabelIsRead(q[..i], port);
    }
  }
}
