/** What holds over whole runs of the upload path, and what a receiver makes of the requests. */
module UploadRuns {
  import opened Bytes
  import opened Counting
  import opened Runs
  import opened UploadModel

  lemma InitialIsGood(maxEach: int, configured: nat)
    ensures Inv(Initial(maxEach, configured))
  {
  }

  lemma RunKeepsInv(states: seq<State>, events: seq<Event>, i: nat)
    requires IsRun(states, events) && i < |states|
    ensures Inv(states[i])
  {
    var maxEach, configured :| states[0] == Initial(maxEach, configured);
    InitialIsGood(maxEach, configured);
    forall k | 0 <= k < i && Inv(states[k]) ensures Inv(states[k + 1]) {
      StepKeeps(states[k], events[k]);
    }
    Preserved(states, Inv, i);
  }

  // ---------- the batch ----------

  /** The batch never exceeds its limit, and what it has accepted is drained in order or still there. */
  lemma BatchIsConserved(states: seq<State>, events: seq<Event>, i: nat)
    requires IsRun(states, events) && i < |states|
    ensures var s := states[i];
            && |s.batch.data| <= s.batch.max
            && s.history.accepted == Payloads(s.posts) + Held(s.loop) + s.history.dropped + s.batch.data
            && (s.history.dropped != [] ==> s.loop.Stopped? && s.loop.why != Ended)
  {
    RunKeepsInv(states, events, i);
  }

  /** A loop that has met the end of the batch has sent everything the batch ever accepted. */
  lemma EndComesLast(states: seq<State>, events: seq<Event>, i: nat)
    requires IsRun(states, events) && i < |states| && states[i].loop == Stopped(Ended)
    ensures states[i].batch.closed && Payloads(states[i].posts) == states[i].history.accepted
  {
    RunKeepsInv(states, events, i);
  }

  /** Once closed, closed for good, and nothing more is accepted. */
  predicate Refuses(s: State, t: State) {
    s.batch.closed ==> t.batch.closed && t.history.accepted == s.history.accepted
  }

  lemma StepRefuses(s: State, ev: Event)
    requires Enabled(s, ev)
    ensures Refuses(s, Step(s, ev))
  {
  }

  lemma NothingAfterClose(states: seq<State>, events: seq<Event>, i: nat, j: nat)
    requires IsRun(states, events) && i <= j < |states| && states[i].batch.closed
    ensures states[j].batch.closed && states[j].history.accepted == states[i].history.accepted
  {
    forall k | i <= k < j ensures Refuses(states[k], states[k + 1]) {
      StepRefuses(states[k], events[k]);
    }
    Carried(states, Refuses, i, j);
  }

  /**
   What the writes reported, across all interruptions and replaced deadlines, is exactly what the
   batch accepted: each call's total stands for that prefix of its bytes and no others.
   */
  lemma WritesReportExactly(states: seq<State>, events: seq<Event>, i: nat)
    requires IsRun(states, events) && i < |states|
    ensures var s := states[i];
            && s.history.accepted == Reported(s.history.results) + Current(s.writer)
            && forall k :: 0 <= k < |s.history.results| ==>
                 var r := s.history.results[k]; r.total <= |r.p| && (r.e == None ==> r.total == |r.p|)
  {
    RunKeepsInv(states, events, i);
  }

  /** Neither the writer nor the loop sleeps through something it waits for. */
  lemma NoLostWakeup(states: seq<State>, events: seq<Event>, i: nat)
    requires IsRun(states, events) && i < |states|
    ensures var s := states[i];
            && (s.writer.Blocked? && (s.batch.closed || |s.batch.data| < s.batch.max) ==> Enabled(s, EvWriterWakes))
            && (s.loop.AwaitingData? && (s.batch.closed || s.batch.data != []) ==> Enabled(s, EvLoopWakes))
  {
    RunKeepsInv(states, events, i);
  }

  // ---------- the requests ----------

  /** Requests are numbered without gaps, bounded in size and in number, and carry a prefix of the bytes. */
  lemma PostsAreContiguous(states: seq<State>, events: seq<Event>, i: nat)
    requires IsRun(states, events) && i < |states|
    ensures var s := states[i];
            && (forall k :: 0 <= k < |s.posts| ==> s.posts[k].seq_ == k && 0 < |s.posts[k].payload| <= s.batch.max)
            && Payloads(s.posts) <= s.history.accepted
            && Count(s.posts, InFlight) <= s.used <= s.limit
            && (s.loop.Numbered? && s.used == s.limit ==> Count(s.posts, InFlight) == s.limit)
  {
    RunKeepsInv(states, events, i);
  }

  /** Requests are only added, and only while the loop has not stopped. */
  predicate GoesOn(s: State, t: State) {
    && |s.posts| <= |t.posts|
    && (forall k :: 0 <= k < |s.posts| ==>
          t.posts[k].payload == s.posts[k].payload && t.posts[k].seq_ == s.posts[k].seq_)
    && (s.loop.Stopped? ==> t.loop == s.loop && |t.posts| == |s.posts|)
  }

  lemma StepGoesOn(s: State, ev: Event)
    requires Enabled(s, ev)
    ensures GoesOn(s, Step(s, ev))
  {
  }

  /** Once the loop has stopped, for whatever reason, no request follows: nothing can skip a number. */
  lemma StoppedForGood(states: seq<State>, events: seq<Event>, i: nat, j: nat)
    requires IsRun(states, events) && i <= j < |states|
    ensures GoesOn(states[i], states[j])
  {
    forall k | i <= k < j ensures GoesOn(states[k], states[k + 1]) {
      StepGoesOn(states[k], events[k]);
    }
    Carried(states, GoesOn, i, j);
  }

  // ---------- reassembly ----------

  /** A receiver that puts numbered payloads back in order. */
  datatype Server = Server(next: nat, held: map<nat, seq<byte>>, out: seq<byte>)

  const NEW_SERVER := Server(0, map[], [])

  function Flush(s: Server): Server
    decreases |s.held|
  {
    if s.next in s.held then Flush(Server(s.next + 1, s.held - {s.next}, s.out + s.held[s.next])) else s
  }

  function Receive(s: Server, p: Post): Server {
    if p.seq_ < s.next then s else Flush(s.(held := s.held[p.seq_ := p.payload]))
  }

  /** The receiver after the requests have arrived in the given order. */
  function ReceiveAll(posts: seq<Post>, order: seq<nat>): Server
    requires forall i :: 0 <= i < |order| ==> order[i] < |posts|
  {
    if order == [] then NEW_SERVER
    else Receive(ReceiveAll(posts, order[..|order| - 1]), posts[order[|order| - 1]])
  }

  predicate Numbered(posts: seq<Post>) {
    forall k :: 0 <= k < |posts| ==> posts[k].seq_ == k
  }

  /** Everything held belongs to the posts, and is still to come. */
  ghost predicate Faithful(s: Server, posts: seq<Post>) {
    && s.next <= |posts| && s.out == Payloads(posts[..s.next])
    && forall k :: k in s.held ==> s.next <= k < |posts| && s.held[k] == posts[k].payload
  }

  lemma {:induction false} FlushIsFaithful(s: Server, posts: seq<Post>)
    requires Faithful(s, posts)
    ensures Faithful(Flush(s), posts) && Flush(s).next !in Flush(s).held
    ensures forall k: nat :: k < s.next || k in s.held ==> k < Flush(s).next || k in Flush(s).held
    decreases |s.held|
  {
    if s.next in s.held {
      var t := Server(s.next + 1, s.held - {s.next}, s.out + s.held[s.next]);
      assert posts[..s.next + 1][..s.next] == posts[..s.next];
      FlushIsFaithful(t, posts);
    }
  }

  lemma {:induction false} ReceivedIsFaithful(posts: seq<Post>, order: seq<nat>)
    requires Numbered(posts) && forall i :: 0 <= i < |order| ==> order[i] < |posts|
    ensures var s := ReceiveAll(posts, order);
            && Faithful(s, posts) && s.next !in s.held
            && forall i :: 0 <= i < |order| ==> order[i] < s.next || order[i] in s.held
  {
    if order != [] {
      var before := order[..|order| - 1];
      var k := order[|order| - 1];
      ReceivedIsFaithful(posts, before);
      var s := ReceiveAll(posts, before);
      if k >= s.next {
        FlushIsFaithful(s.(held := s.held[k := posts[k].payload]), posts);
      }
      assert forall i :: 0 <= i < |before| ==> before[i] == order[i];
    }
  }

  lemma {:induction false} PayloadsPrefix(posts: seq<Post>, n: nat)
    requires n <= |posts|
    ensures Payloads(posts[..n]) <= Payloads(posts)
  {
    if n < |posts| {
      assert posts[..|posts| - 1][..n] == posts[..n];
      PayloadsPrefix(posts[..|posts| - 1], n);
    } else {
      assert posts[..n] == posts;
    }
  }

  /** The receiver has a prefix of what was sent, and everything once each request has arrived. */
  lemma ReceiverHasPrefix(posts: seq<Post>, order: seq<nat>)
    requires Numbered(posts) && forall i :: 0 <= i < |order| ==> order[i] < |posts|
    ensures ReceiveAll(posts, order).out <= Payloads(posts)
    ensures (forall k :: 0 <= k < |posts| ==> k in order) ==> ReceiveAll(posts, order).out == Payloads(posts)
  {
    ReceivedIsFaithful(posts, order);
    var r := ReceiveAll(posts, order);
    PayloadsPrefix(posts, r.next);
    NextIsMissing(r, order);
    if r.next == |posts| { assert posts[..r.next] == posts; }
  }

  lemma NextIsMissing(r: Server, order: seq<nat>)
    requires r.next !in r.held && (forall i :: 0 <= i < |order| ==> order[i] < r.next || order[i] in r.held)
    ensures r.next !in order
  {
  }

  /**
   In whatever order requests arrive, with repetitions or not, a receiver that puts them in order has
   a prefix of the bytes that were accepted, and all that were sent once each has arrived.
   */
  lemma AnyOrderReassembles(states: seq<State>, events: seq<Event>, i: nat, order: seq<nat>)
    requires IsRun(states, events) && i < |states|
    requires forall k :: 0 <= k < |order| ==> order[k] < |states[i].posts|
    ensures ReceiveAll(states[i].posts, order).out <= states[i].history.accepted
    ensures (forall k :: 0 <= k < |states[i].posts| ==> k in order) ==>
              ReceiveAll(states[i].posts, order).out == Payloads(states[i].posts)
  {
    PostsAreContiguous(states, events, i);
    ReceiverHasPrefix(states[i].posts, order);
    PrefixOfPrefix(ReceiveAll(states[i].posts, order).out, Payloads(states[i].posts), states[i].history.accepted);
  }

  lemma PrefixOfPrefix(a: seq<byte>, b: seq<byte>, c: seq<byte>)
    requires a <= b <= c
    ensures a <= c
  {
  }
}
