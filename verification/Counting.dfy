/** Counting the elements of a sequence that satisfy a predicate. */
module Counting {
  function Bit(b: bool): nat {
    if b then 1 else 0
  }

  function Count<T>(s: seq<T>, p: T -> bool): nat {
    if s == [] then 0 else Bit(p(s[0])) + Count(s[1..], p)
  }

  /** How often x occurs, which is how often it has been appended. */
  function Occurrences<T(==)>(s: seq<T>, x: T): nat {
    if s == [] then 0 else Occurrences(s[..|s| - 1], x) + Bit(s[|s| - 1] == x)
  }

  lemma OccurrencesSnoc<T>(s: seq<T>, y: T, x: T)
    ensures Occurrences(s + [y], x) == Occurrences(s, x) + Bit(y == x)
  {
    assert (s + [y])[..|s|] == s;
  }

  lemma {:induction false} CountSnoc<T>(s: seq<T>, x: T, p: T -> bool)
    ensures Count(s + [x], p) == Count(s, p) + Bit(p(x))
  {
    if s != [] {
      assert (s + [x])[1..] == s[1..] + [x];
      CountSnoc(s[1..], x, p);
    }
  }

  lemma {:induction false} CountUpdate<T>(s: seq<T>, i: nat, x: T, p: T -> bool)
    requires i < |s|
    ensures Count(s[i := x], p) == Count(s, p) - Bit(p(s[i])) + Bit(p(x))
    ensures Bit(p(s[i])) <= Count(s, p)
  {
    if i == 0 {
      assert s[0 := x][1..] == s[1..];
    } else {
      assert s[i := x][1..] == s[1..][i - 1 := x];
      CountUpdate(s[1..], i - 1, x, p);
    }
  }

  lemma {:induction false} CountPositive<T>(s: seq<T>, p: T -> bool)
    ensures Count(s, p) > 0 <==> exists i :: 0 <= i < |s| && p(s[i])
  {
    if s != [] {
      CountPositive(s[1..], p);
      if Count(s[1..], p) > 0 {
        var i :| 0 <= i < |s[1..]| && p(s[1..][i]);
        assert p(s[i + 1]);
      }
      if i :| 0 <= i < |s| && p(s[i]) && i > 0 {
        assert s[i] == s[1..][i - 1];
      }
    }
  }

  lemma {:induction false} CountTwo<T>(s: seq<T>, i: nat, j: nat, p: T -> bool)
    requires i < j < |s| && p(s[i]) && p(s[j])
    ensures Count(s, p) >= 2
  {
    if i == 0 {
      assert p(s[1..][j - 1]);
      CountPositive(s[1..], p);
    } else {
      CountTwo(s[1..], i - 1, j - 1, p);
    }
  }
}
