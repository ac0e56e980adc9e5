/**
 HTTPS records and their service parameters, which are changed in place: a record's parameters are
 the first `len` elements of an array, and filtering them writes over the same array.
 */
module DnsRecords {
  import opened Bytes
  import opened DnsNames

  datatype Param =
    | Ipv4Hint(hint4: seq<byte>) | Ipv6Hint(hint6: seq<byte>)
    | Alpn(ids: seq<string>) | Port(port: nat) | Ech(config: seq<byte>)
    | OtherParam(key: nat, value: seq<byte>)

  predicate IsHint(p: Param) {
    p.Ipv4Hint? || p.Ipv6Hint?
  }

  // ---------- filtering ----------

  function WithoutHints(ps: seq<Param>): (r: seq<Param>)
    ensures |r| <= |ps|
  {
    if ps == [] then []
    else
      var last := ps[|ps| - 1];
      WithoutHints(ps[..|ps| - 1]) + if IsHint(last) then [] else [last]
  }

  lemma WithoutHintsSnoc(ps: seq<Param>, p: Param)
    ensures WithoutHints(ps + [p]) == WithoutHints(ps) + if IsHint(p) then [] else [p]
  {
    assert (ps + [p])[..|ps|] == ps;
  }

  /** Every parameter that is not a hint is kept, behind exactly those kept before it. */
  lemma {:induction false} FilterKeeps(ps: seq<Param>, k: nat)
    requires k < |ps| && !ps[k].Ipv4Hint? && !ps[k].Ipv6Hint?
    ensures |WithoutHints(ps[..k])| < |WithoutHints(ps)| && WithoutHints(ps)[|WithoutHints(ps[..k])|] == ps[k]
  {
    var n := |ps| - 1;
    if k < n {
      FilterKeeps(ps[..n], k);
      assert ps[..n][..k] == ps[..k];
    }
  }

  /** Nothing else is kept. */
  lemma {:induction false} FilterAddsNothing(ps: seq<Param>)
    ensures forall i :: 0 <= i < |WithoutHints(ps)| ==>
              !WithoutHints(ps)[i].Ipv4Hint? && !WithoutHints(ps)[i].Ipv6Hint? && WithoutHints(ps)[i] in ps
  {
    if ps != [] { FilterAddsNothing(ps[..|ps| - 1]); }
  }

  lemma {:induction false} FilterTwice(ps: seq<Param>)
    ensures WithoutHints(WithoutHints(ps)) == WithoutHints(ps)
  {
    if ps != [] {
      var n := |ps| - 1;
      FilterTwice(ps[..n]);
      if IsHint(ps[n]) {
        assert WithoutHints(ps) == WithoutHints(ps[..n]);
      } else {
        WithoutHintsSnoc(WithoutHints(ps[..n]), ps[n]);
      }
    }
  }

  // ---------- replacing ----------

  predicate SameKind(p: Param, q: Param) {
    (p.Ech? && q.Ech?) || (p.Port? && q.Port?)
  }

  /** The first parameter of the kind of p. */
  function FirstOf(ps: seq<Param>, p: Param, from: nat := 0): (r: Option<nat>)
    requires from <= |ps|
    ensures r.Some? ==>
              && from <= r.value < |ps| && SameKind(ps[r.value], p)
              && forall j :: from <= j < r.value ==> !SameKind(ps[j], p)
    ensures r == None ==> forall j :: from <= j < |ps| ==> !SameKind(ps[j], p)
    decreases |ps| - from
  {
    if from == |ps| then None else if SameKind(ps[from], p) then Some(from) else FirstOf(ps, p, from + 1)
  }

  /** The parameters with p in the place of the first one of its kind, or at the end. */
  function With(ps: seq<Param>, p: Param): seq<Param> {
    match FirstOf(ps, p)
    case Some(i) => ps[i := p]
    case None => ps + [p]
  }

  /** Whoever reads the parameters finds the new one, and all others as they were. */
  lemma WithIsFound(ps: seq<Param>, p: Param)
    requires p.Ech? || p.Port?
    ensures FirstOf(With(ps, p), p).Some? && With(ps, p)[FirstOf(With(ps, p), p).value] == p
    ensures With(With(ps, p), p) == With(ps, p)
    ensures forall k :: 0 <= k < |ps| && !SameKind(ps[k], p) ==> With(ps, p)[k] == ps[k]
  {
    var r := With(ps, p);
    var i := match FirstOf(ps, p) case Some(i) => i case None => |ps|;
    assert r[i] == p && SameKind(r[i], p);
    assert forall j :: 0 <= j < i ==> !SameKind(r[j], p);
    assert FirstOf(r, p).Some? && FirstOf(r, p).value == i;
    assert r[i := p] == r;
  }

  /** Moves what is kept of the first n elements to the front of the array, and says how much that is. */
  method FilterInPlace(a: array<Param>, n: nat) returns (kept: nat)
    requires n <= a.Length
    modifies a
    ensures kept <= n && a[..kept] == WithoutHints(old(a[..n]))
  {
    ghost var before := a[..n];
    kept := 0;
    for i := 0 to n
      invariant kept <= i
      invariant a[..kept] == WithoutHints(before[..i])
      invariant forall j :: i <= j < n ==> a[j] == before[j]
    {
      var p := a[i];
      assert before[..i + 1] == before[..i] + [p];
      WithoutHintsSnoc(before[..i], p);
      if !IsHint(p) {
        a[kept] := p;
        assert a[..kept + 1] == a[..kept] + [p];
        kept := kept + 1;
      }
    }
    assert before[..n] == before;
  }

  // ---------- records ----------

  class HttpsRecord {
    var name: string
    var target: string
    var value: array<Param>
    var len: nat

    ghost predicate Valid()
      reads this
    {
      len <= value.Length
    }

    ghost function Params(): seq<Param>
      reads this, value
      requires Valid()
    {
      value[..len]
    }

    constructor (name: string, target: string)
      ensures Valid() && this.name == name && this.target == target && Params() == [] && fresh(value)
    {
      this.name, this.target, len := name, target, 0;
      value := new Param[0];
    }

    /** Removes the address hints, in place and in order. */
    method FilterIPHints()
      requires Valid()
      modifies `len, value
      ensures Valid() && Params() == WithoutHints(old(Params()))
    {
      len := FilterInPlace(value, len);
    }

    /** Puts one more parameter behind the others, in the array's spare room or in a larger array. */
    method Append(p: Param)
      requires Valid()
      modifies `value, `len, value
      ensures Valid() && (value == old(value) || fresh(value))
      ensures Params() == old(Params()) + [p]
    {
      if len < value.Length {
        value[len] := p;
      } else {
        var larger := new Param[2 * len + 1](
                        i requires 0 <= i reads this, value => if i < value.Length then value[i] else p);
        value := larger;
      }
      len := len + 1;
    }

    /** Replaces the first parameter of the kind of p, or adds p. */
    method Update(p: Param)
      requires Valid() && (p.Ech? || p.Port?)
      modifies `value, `len, value
      ensures Valid() && (value == old(value) || fresh(value))
      ensures Params() == With(old(Params()), p)
    {
      for i := 0 to len
        invariant len == old(len) && value == old(value) && value[..] == old(value[..])
        invariant len <= value.Length
        invariant forall j :: 0 <= j < i ==> !SameKind(value[j], p)
      {
        if SameKind(value[i], p) {
          assert FirstOf(Params(), p) == Some(i) by { assert SameKind(Params()[i], p); }
          value[i] := p;
          assert Params() == old(Params())[i := p];
          return;
        }
      }
      Append(p);
    }

    method Inject(config: seq<byte>, port: Option<nat>)
      requires Valid()
      modifies `value, `len, value
      ensures Valid() && (value == old(value) || fresh(value))
      ensures Params() == Injected(old(Params()), config, port)
    {
      Update(Ech(config));
      if port.Some? { Update(Port(port.value)); }
    }

    /** The names that the rewriting makes of the given ones. */
    ghost predicate HasNames(oldName: string, oldTarget: string, fromServer: string, toServer: string)
      reads `name, `target
    {
      name == RewriteOwner(oldName, fromServer, toServer) && target == RewriteTarget(oldTarget, fromServer, toServer)
    }

    method RewriteNames(fromServer: string, toServer: string)
      modifies this`name, this`target
      ensures HasNames(old(name), old(target), fromServer, toServer)
    {
      var f, t := TrimDot(fromServer), TrimDot(toServer);
      var hdr := TrimDot(name);
      if EqualFold(hdr, f) {
        name := t + ".";
      } else {
        match Cut(hdr) {
          case Some(parts) => if EqualFold(parts.name, f) { name := parts.prefix + SEPARATOR + t + "."; }
          case None =>
        }
      }
      if EqualFold(TrimDot(target), f) { target := t + "."; }
    }
  }

  /** No record occurs twice in an answer section. */
  ghost predicate Distinct(records: seq<HttpsRecord>) {
    forall i, j :: 0 <= i < j < |records| ==> records[i] != records[j]
  }

  /** Its records do not share storage, as in a copied response. */
  ghost predicate Separate(records: seq<HttpsRecord>)
    reads records
  {
    forall i, j :: 0 <= i < j < |records| ==> records[i].value != records[j].value
  }

  ghost predicate AllValid(records: seq<HttpsRecord>)
    reads records
  {
    forall i :: 0 <= i < |records| ==> records[i].Valid()
  }

  /** Gives every HTTPS record of a redirected response its original names. */
  method RewriteAnswerNames(records: seq<HttpsRecord>, fromServer: string, toServer: string)
    requires Distinct(records)
    modifies records`name, records`target
    ensures forall i :: 0 <= i < |records| ==>
              records[i].HasNames(old(records[i].name), old(records[i].target), fromServer, toServer)
  {
    ghost var names := seq(|records|, i requires 0 <= i < |records| reads records =>
      RewriteOwner(records[i].name, fromServer, toServer));
    ghost var targets := seq(|records|, i requires 0 <= i < |records| reads records =>
      RewriteTarget(records[i].target, fromServer, toServer));
    for k := 0 to |records|
      invariant forall i :: 0 <= i < k ==> records[i].name == names[i] && records[i].target == targets[i]
      invariant forall i :: k <= i < |records| ==>
                  records[i].name == old(records[i].name) && records[i].target == old(records[i].target)
    {
      assert forall i :: 0 <= i < |records| && i != k ==> records[i] != records[k];
      records[k].RewriteNames(fromServer, toServer);
    }
  }

  /** Removes the address hints of every HTTPS record. */
  method FilterAnswers(records: seq<HttpsRecord>)
    requires Distinct(records) && Separate(records) && AllValid(records)
    modifies records`len
    modifies set r | r in records :: r.value
    ensures AllValid(records)
    ensures forall i :: 0 <= i < |records| ==> records[i].Params() == WithoutHints(old(records[i].Params()))
  {
    for k := 0 to |records|
      invariant AllValid(records)
      invariant forall i :: 0 <= i < k ==> records[i].Params() == WithoutHints(old(records[i].Params()))
      invariant forall i :: k <= i < |records| ==> records[i].Params() == old(records[i].Params())
    {
      records[k].FilterIPHints();
    }
  }

  /**
   The response to a query that was redirected to the ECH name. RedirectionIsInverted says what this
   means for a record that carries the name that was asked for.
   */
  method FinishRedirected(server: string, echServer: string, records: seq<HttpsRecord>)
    requires Distinct(records) && Separate(records) && AllValid(records)
    modifies records, set r | r in records :: r.value
    ensures AllValid(records)
    ensures forall i :: 0 <= i < |records| ==> records[i].Params() == WithoutHints(old(records[i].Params()))
    ensures forall i :: 0 <= i < |records| ==>
              records[i].HasNames(old(records[i].name), old(records[i].target), echServer, server)
  {
    RewriteAnswerNames(records, echServer, server);
    assert forall i :: 0 <= i < |records| ==> records[i].Params() == old(records[i].Params());
    FilterAnswers(records);
  }

  // ---------- a known configuration ----------

  /** Whoever looks for the configuration finds this one, and this port if the query asks for one. */
  ghost predicate Tells(ps: seq<Param>, config: seq<byte>, port: Option<nat>) {
    && (exists i :: FirstOf(ps, Ech(config)) == Some(i) && ps[i] == Ech(config))
    && (port.Some? ==> exists i :: FirstOf(ps, Port(port.value)) == Some(i) && ps[i] == Port(port.value))
  }

  function Injected(ps: seq<Param>, config: seq<byte>, port: Option<nat>): seq<Param> {
    match port
    case Some(p) => With(With(ps, Ech(config)), Port(p))
    case None => With(ps, Ech(config))
  }

  lemma FoundAt(ps: seq<Param>, p: Param, i: nat)
    requires i < |ps| && SameKind(ps[i], p) && forall j :: 0 <= j < i ==> !SameKind(ps[j], p)
    ensures FirstOf(ps, p) == Some(i)
  {
  }

  /** Putting in the port does not hide the configuration, and all other parameters stay. */
  lemma InjectedIsFound(ps: seq<Param>, config: seq<byte>, port: Option<nat>)
    ensures Tells(Injected(ps, config, port), config, port)
    ensures forall k :: 0 <= k < |ps| && !ps[k].Ech? && !ps[k].Port? ==> Injected(ps, config, port)[k] == ps[k]
    ensures |ps| <= |Injected(ps, config, port)| <= |ps| + 2
  {
    var e := With(ps, Ech(config));
    WithIsFound(ps, Ech(config));
    if port.Some? {
      WithIsFound(e, Port(port.value));
      FoundAt(With(e, Port(port.value)), Ech(config), FirstOf(e, Ech(config)).value);
    }
  }

  /** Puts the configuration, and the port if there is one, into every HTTPS record of a response. */
  method InjectAnswers(records: seq<HttpsRecord>, config: seq<byte>, port: Option<nat>)
    requires Distinct(records) && Separate(records) && AllValid(records)
    modifies records`value, records`len, set r | r in records :: r.value
    ensures AllValid(records)
    ensures forall i :: 0 <= i < |records| ==>
              records[i].Params() == Injected(old(records[i].Params()), config, port)
  {
    for k := 0 to |records|
      invariant AllValid(records) && Separate(records)
      invariant forall i :: 0 <= i < |records| ==> records[i].value == old(records[i].value) || fresh(records[i].value)
      invariant forall i :: k <= i < |records| ==> records[i].Params() == old(records[i].Params())
      invariant forall i :: 0 <= i < k ==> records[i].Params() == Injected(old(records[i].Params()), config, port)
    {
      records[k].Inject(config, port);
    }
  }

  /**
   The answer to a query when the configuration is already known: the response, whose HTTPS records
   tell it, or a record made for it if there is none.
   */
  method InjectEch(query: Option<string>, records: seq<HttpsRecord>, config: seq<byte>, alpn: seq<string>)
      returns (answer: seq<HttpsRecord>)
    requires Distinct(records) && Separate(records) && AllValid(records)
    modifies records`value, records`len, set r | r in records :: r.value
    ensures AllValid(answer) && (answer == [] <==> records == [] && query == None)
    ensures var port := if query.Some? then ServicePort(query.value) else None;
            forall i :: 0 <= i < |answer| ==> Tells(answer[i].Params(), config, port)
    ensures records != [] ==>
              && answer == records
              && forall i :: 0 <= i < |records| ==>
                   records[i].Params() ==
                     Injected(old(records[i].Params()), config, if query.Some? then ServicePort(query.value) else None)
    ensures records == [] && query.Some? ==>
              && |answer| == 1 && fresh(answer[0]) && answer[0].name == query.value
              && answer[0].target == (match Cut(query.value) case Some(parts) => parts.name case None => query.value)
              && answer[0].Params() == (match ServicePort(query.value) case Some(p) => [Port(p)] case None => [])
                                     + [Alpn(alpn), Ech(config)]
  {
    var port := if query.Some? then ServicePort(query.value) else None;
    if records != [] {
      InjectAnswers(records, config, port);
      forall i | 0 <= i < |records| ensures Tells(records[i].Params(), config, port) {
        InjectedIsFound(old(records[i].Params()), config, port);
      }
      return records;
    }
    if query == None { return []; }
    var r := NewRecord(query.value, config, alpn);
    answer := [r];
  }

  /** The record that answers a query to which there is no response. */
  method NewRecord(query: string, config: seq<byte>, alpn: seq<string>) returns (r: HttpsRecord)
    ensures fresh(r) && fresh(r.value) && r.Valid() && r.name == query
    ensures r.target == (match Cut(query) case Some(parts) => parts.name case None => query)
    ensures r.Params() ==
              (match ServicePort(query) case Some(p) => [Port(p)] case None => []) + [Alpn(alpn), Ech(config)]
    ensures Tells(r.Params(), config, ServicePort(query))
  {
    var target := match Cut(query) case Some(parts) => parts.name case None => query;
    r := new HttpsRecord(query, target);
    match ServicePort(query) {
      case Some(p) => r.Append(Port(p));
      case None =>
    }
    r.Append(Alpn(alpn));
    r.Append(Ech(config));
    FoundAt(r.Params(), Ech(config), |r.Params()| - 1);
    if ServicePort(query).Some? { FoundAt(r.Params(), Port(ServicePort(query).value), 0); }
  }
}
