/**
 The upload path of a packet-up connection as a state machine: one writer fills a bounded batch, one
 loop drains it into numbered POST requests of which a limited number is in flight, and every wait
 can end early. Steps are critical sections of the batch's mutex, channel operations, and choices of
 the network and of the timers. What a failed request does to the connection -- recording an error,
 closing the batch, cancelling the context -- may happen at any time.
 */
module UploadModel {
  import opened Bytes
  import opened Counting

  datatype Error = Eof | ClosedPipe | Canceled | DeadlineExceeded | Other(code: int)

  datatype Batch = Batch(
    data: seq<byte>, max: nat,
    closed: bool, closeErr: Option<Error>,
    notify: nat)               // generation of the notification channel

  /** A call of Write: the bytes it was given, and how many of them the batch has accepted. */
  datatype Writer =
    | Idle
    | Trying(p: seq<byte>, total: nat)
    | Blocked(p: seq<byte>, total: nat, seen: nat)

  datatype Reason = Ended | Cancelled | Failed

  datatype Loop =
    | Checking                               // about to look at the context and the batch
    | AwaitingData(seen: nat)
    | Delaying(payload: seq<byte>)
    | Numbered(seq_: nat, payload: seq<byte>)     // waiting for a free slot
    | StartingPost(seq_: nat, payload: seq<byte>)
    | Stopped(why: Reason)

  datatype Post = Post(seq_: nat, payload: seq<byte>, inFlight: bool)

  datatype Result = Result(p: seq<byte>, total: nat, e: Option<Error>)

  datatype History = History(accepted: seq<byte>, dropped: seq<byte>, results: seq<Result>)

  datatype State = State(
    batch: Batch,
    connErr: Option<Error>, ctxDone: bool,
    writer: Writer, loop: Loop,
    nextSeq: nat, used: nat, limit: nat,
    posts: seq<Post>,
    history: History)

  /** The batch limit of a connection whose range gave maxEach. */
  function BatchLimit(maxEach: int): (max: nat)
    ensures max >= 1 && (maxEach >= 1 ==> max == maxEach) && (maxEach <= 0 ==> max == 1_000_000)
  {
    if maxEach <= 0 then 1_000_000 else maxEach
  }

  function PostLimit(configured: nat): (limit: nat)
    ensures limit >= 1 && (configured > 0 ==> limit == configured) && (configured == 0 ==> limit == 30)
  {
    if configured == 0 then 30 else configured
  }

  function NewBatch(max: nat): Batch {
    Batch([], if max < 1 then 1 else max, false, None, 0)
  }

  function Initial(maxEach: int, configured: nat): State {
    State(NewBatch(BatchLimit(maxEach)), None, false, Idle, Checking, 0, 0, PostLimit(configured), [],
        History([], [], []))
  }

  // ---------- the batch ----------

  function Signalled(b: Batch): Batch {
    b.(notify := b.notify + 1)
  }

  /** The bytes that fit. */
  function Room(b: Batch, wanted: nat): nat {
    if |b.data| < b.max then Min(b.max - |b.data|, wanted) else 0
  }

  function Append(b: Batch, bytes: seq<byte>): Batch {
    Signalled(b.(data := b.data + bytes))
  }

  function DrainSize(b: Batch): nat {
    Min(b.max, |b.data|)
  }

  function Drained(b: Batch): Batch {
    Signalled(b.(data := b.data[DrainSize(b)..]))
  }

  function CloseBatch(b: Batch, e: Option<Error>): Batch {
    if b.closed then b else Signalled(b.(closed := true, closeErr := e))
  }

  // ---------- the writer ----------

  function Return(s: State, e: Option<Error>): State
    requires !s.writer.Idle?
  {
    s.(writer := Idle, history := s.history.(results := s.history.results + [Result(s.writer.p, s.writer.total, e)]))
  }

  function Begin(s: State, p: seq<byte>): State {
    var s := s.(writer := Trying(p, 0));
    if s.connErr.Some? then Return(s, s.connErr) else s
  }

  /** The batch takes the next bytes of the current write. */
  function AcceptBytes(s: State, bytes: seq<byte>): State
    requires s.writer.Trying?
  {
    s.(batch := Append(s.batch, bytes), writer := Trying(s.writer.p, s.writer.total + |bytes|),
       history := s.history.(accepted := s.history.accepted + bytes))
  }

  /** The bytes of the current write that fit. */
  function NextBytes(s: State): (bytes: seq<byte>)
    requires s.writer.Trying? && s.writer.total <= |s.writer.p|
    ensures s.writer.total + |bytes| <= |s.writer.p| && bytes == s.writer.p[s.writer.total..s.writer.total + |bytes|]
    ensures |s.batch.data| <= s.batch.max ==> |s.batch.data| + |bytes| <= s.batch.max
    ensures s.writer.total + |bytes| == |s.writer.p| || |s.batch.data| + |bytes| >= s.batch.max
  {
    s.writer.p[s.writer.total..s.writer.total + Room(s.batch, |s.writer.p| - s.writer.total)]
  }

  function CloseError(s: State): Error {
    if s.connErr.Some? then s.connErr.value else if s.batch.closeErr.Some? then s.batch.closeErr.value else ClosedPipe
  }

  function Block(s: State): State
    requires s.writer.Trying?
  {
    s.(writer := Blocked(s.writer.p, s.writer.total, s.batch.notify))
  }

  /** One turn of the write loop, under the mutex of the batch. */
  function Try(s: State): State
    requires s.writer.Trying? && s.writer.total <= |s.writer.p|
  {
    if s.writer.total == |s.writer.p| then Return(s, None)
    else if s.batch.closed then Return(s, Some(CloseError(s)))
    else if |s.batch.data| < s.batch.max then AcceptBytes(s, NextBytes(s))
    else Block(s)
  }

  /** The context of the write has ended; if it was cancelled only because the deadline was replaced, it goes on. */
  function Interrupted(s: State, replaced: bool, e: Error): State
    requires !s.writer.Idle?
  {
    if s.connErr.Some? then Return(s, s.connErr)
    else if replaced && e == Canceled && !s.ctxDone then s.(writer := Trying(s.writer.p, s.writer.total))
    else Return(s, Some(e))
  }

  // ---------- the loop ----------

  function Drain(s: State): State {
    if s.batch.data != [] then
      s.(batch := Drained(s.batch), loop := Delaying(s.batch.data[..DrainSize(s.batch)]))
    else if s.batch.closed then s.(loop := Stopped(Ended))
    else s.(loop := AwaitingData(s.batch.notify))
  }

  /** The loop ends with a payload in hand, which is never sent. */
  function Drop(s: State, payload: seq<byte>, why: Reason): State {
    s.(loop := Stopped(why), history := s.history.(dropped := payload))
  }

  function PostStarted(s: State, ok: bool): State
    requires s.loop.StartingPost?
  {
    if ok then s.(loop := Checking, posts := s.posts + [Post(s.loop.seq_, s.loop.payload, true)])
    else Drop(s, s.loop.payload, Failed)
  }

  function PostDone(s: State, k: nat): State
    requires k < |s.posts|
  {
    s.(posts := s.posts[k := s.posts[k].(inFlight := false)], used := if s.used > 0 then s.used - 1 else 0)
  }

  // ---------- events ----------

  datatype Event =
    | EvWrite(p: seq<byte>) | EvTry | EvWriterWakes | EvInterrupted(replaced: bool, e: Error)
    | EvDrain | EvLoopWakes | EvSeesCancel | EvDelayed | EvSlot | EvPostStarted(ok: bool) | EvPostDone(k: nat)
    | EvClose(cause: Option<Error>) | EvSetError(err: Error) | EvCancel

  predicate Enabled(s: State, ev: Event) {
    match ev
    case EvWrite(_) => s.writer == Idle
    case EvTry => s.writer.Trying? && s.writer.total <= |s.writer.p|
    case EvWriterWakes => s.writer.Blocked? && s.writer.seen != s.batch.notify
    case EvInterrupted(_, _) => !s.writer.Idle?
    case EvDrain => s.loop.Checking?
    case EvLoopWakes => s.loop.AwaitingData? && s.loop.seen != s.batch.notify
    case EvSeesCancel => s.ctxDone && (s.loop.Checking? || s.loop.Delaying? || s.loop.Numbered?)
    case EvDelayed => s.loop.Delaying?
    case EvSlot => s.loop.Numbered? && s.used < s.limit
    case EvPostStarted(_) => s.loop.StartingPost?
    case EvPostDone(k) => k < |s.posts| && s.posts[k].inFlight
    case EvClose(_) => true
    case EvSetError(_) => true
    case EvCancel => true
  }

  function Step(s: State, ev: Event): State
    requires Enabled(s, ev)
  {
    match ev
    case EvWrite(p) => Begin(s, p)
    case EvTry => Try(s)
    case EvWriterWakes => s.(writer := Trying(s.writer.p, s.writer.total))
    case EvInterrupted(replaced, e) => Interrupted(s, replaced, e)
    case EvDrain => Drain(s)
    case EvLoopWakes => Drain(s)
    case EvSeesCancel => Drop(s, if s.loop.Checking? then [] else s.loop.payload, Cancelled)
    case EvDelayed => s.(loop := Numbered(s.nextSeq, s.loop.payload), nextSeq := s.nextSeq + 1)
    case EvSlot => s.(loop := StartingPost(s.loop.seq_, s.loop.payload), used := s.used + 1)
    case EvPostStarted(ok) => PostStarted(s, ok)
    case EvPostDone(k) => PostDone(s, k)
    case EvClose(e) => s.(batch := CloseBatch(s.batch, e))
    case EvSetError(e) => s.(connErr := FirstError(s.connErr, e))
    case EvCancel => s.(ctxDone := true)
  }

  ghost predicate IsRun(states: seq<State>, events: seq<Event>) {
    && |states| == |events| + 1
    && (exists maxEach, configured :: states[0] == Initial(maxEach, configured))
    && forall i :: 0 <= i < |events| ==> Enabled(states[i], events[i]) && states[i + 1] == Step(states[i], events[i])
  }

  // ---------- what the bytes amount to ----------

  function Payloads(posts: seq<Post>): seq<byte> {
    if posts == [] then [] else Payloads(posts[..|posts| - 1]) + posts[|posts| - 1].payload
  }

  lemma PayloadsSnoc(posts: seq<Post>, p: Post)
    ensures Payloads(posts + [p]) == Payloads(posts) + p.payload
  {
    assert (posts + [p])[..|posts|] == posts;
  }

  lemma {:induction false} PayloadsUpdate(posts: seq<Post>, k: nat, p: Post)
    requires k < |posts| && p.payload == posts[k].payload
    ensures Payloads(posts[k := p]) == Payloads(posts)
  {
    var n := |posts| - 1;
    if k == n {
      assert posts[k := p][..n] == posts[..n];
    } else {
      assert posts[k := p][..n] == posts[..n][k := p];
      PayloadsUpdate(posts[..n], k, p);
    }
  }

  /** The payload that the loop has drained and not yet handed to a request. */
  function Held(l: Loop): seq<byte> {
    if l.Delaying? || l.Numbered? || l.StartingPost? then l.payload else []
  }

  function Reported(results: seq<Result>): seq<byte> {
    if results == [] then []
    else
      var r := results[|results| - 1];
      Reported(results[..|results| - 1]) + if r.total <= |r.p| then r.p[..r.total] else []
  }

  lemma ReportedSnoc(results: seq<Result>, r: Result)
    ensures Reported(results + [r]) == Reported(results) + if r.total <= |r.p| then r.p[..r.total] else []
  {
    assert (results + [r])[..|results|] == results;
  }

  /** The part of the current write that the batch has accepted. */
  function Current(w: Writer): seq<byte> {
    if !w.Idle? && w.total <= |w.p| then w.p[..w.total] else []
  }

  // ---------- invariants ----------

  predicate InFlight(p: Post) {
    p.inFlight
  }

  predicate Bounded(s: State) {
    && |s.batch.data| <= s.batch.max && s.batch.max >= 1
    && (!s.writer.Idle? ==> s.writer.total <= |s.writer.p|)
  }

  /** Nothing is lost or invented between the batch and the requests. */
  predicate Conserved(s: State) {
    && s.history.accepted == Payloads(s.posts) + Held(s.loop) + s.history.dropped + s.batch.data
    && (s.history.dropped != [] ==> s.loop.Stopped? && s.loop.why != Ended)
    && (s.loop == Stopped(Ended) ==> s.batch.closed && s.batch.data == [])
    && (s.loop.Delaying? || s.loop.Numbered? || s.loop.StartingPost? ==> 0 < |s.loop.payload| <= s.batch.max)
  }

  predicate WritesReported(s: State) {
    && s.history.accepted == Reported(s.history.results) + Current(s.writer)
    && forall k :: 0 <= k < |s.history.results| ==> Honest(s.history.results[k])
  }

  /** A write without an error has been accepted as a whole. */
  predicate Honest(r: Result) {
    r.total <= |r.p| && (r.e == None ==> r.total == |r.p|)
  }

  predicate Numbers(s: State) {
    && (forall k :: 0 <= k < |s.posts| ==> s.posts[k].seq_ == k && 0 < |s.posts[k].payload| <= s.batch.max)
    && (s.loop.Numbered? || s.loop.StartingPost? ==> s.loop.seq_ == |s.posts| && s.nextSeq == |s.posts| + 1)
    && (!s.loop.Numbered? && !s.loop.StartingPost? && !s.loop.Stopped? ==> s.nextSeq == |s.posts|)
  }

  predicate Slots(s: State) {
    s.used == Count(s.posts, InFlight) + Bit(s.loop.StartingPost?) + Bit(s.loop == Stopped(Failed)) <= s.limit
  }

  /** Somebody who waits for the current generation waits for something that has not happened. */
  predicate Wakeups(s: State) {
    && (s.writer.Blocked? ==> s.writer.seen <= s.batch.notify)
    && (s.writer.Blocked? && s.writer.seen == s.batch.notify ==> !s.batch.closed && |s.batch.data| >= s.batch.max)
    && (s.loop.AwaitingData? ==> s.loop.seen <= s.batch.notify)
    && (s.loop.AwaitingData? && s.loop.seen == s.batch.notify ==> !s.batch.closed && s.batch.data == [])
  }

  predicate Inv(s: State) {
    Bounded(s) && Conserved(s) && WritesReported(s) && Numbers(s) && Slots(s) && Wakeups(s)
  }

  // ---------- preservation ----------

  lemma ReturnKeeps(s: State, e: Option<Error>)
    requires Inv(s) && !s.writer.Idle? && (e == None ==> s.writer.total == |s.writer.p|)
    ensures Inv(Return(s, e))
  {
    ReportedSnoc(s.history.results, Result(s.writer.p, s.writer.total, e));
  }

  lemma BeginKeeps(s: State, p: seq<byte>)
    requires Inv(s) && s.writer.Idle?
    ensures Inv(Begin(s, p))
  {
    var s1 := s.(writer := Trying(p, 0));
    assert Current(s1.writer) == [];
    if s.connErr.Some? { ReturnKeeps(s1, s1.connErr); }
  }

  lemma AcceptConserves(s: State, bytes: seq<byte>)
    requires Conserved(s) && s.writer.Trying? && !s.batch.closed
    ensures Conserved(AcceptBytes(s, bytes))
  {
    Associative(Payloads(s.posts) + Held(s.loop) + s.history.dropped, s.batch.data, bytes);
  }

  lemma AcceptReports(s: State, bytes: seq<byte>)
    requires WritesReported(s) && s.writer.Trying? && s.writer.total + |bytes| <= |s.writer.p|
    requires bytes == s.writer.p[s.writer.total..s.writer.total + |bytes|]
    ensures WritesReported(AcceptBytes(s, bytes))
  {
    var p, total := s.writer.p, s.writer.total;
    assert p[..total + |bytes|] == p[..total] + bytes;
    Associative(Reported(s.history.results), p[..total], bytes);
  }

  lemma AcceptKeepsOrder(s: State, bytes: seq<byte>)
    requires Bounded(s) && Numbers(s) && Slots(s) && Wakeups(s) && s.writer.Trying? && !s.batch.closed
    requires s.writer.total + |bytes| <= |s.writer.p| && |s.batch.data| + |bytes| <= s.batch.max
    ensures var t := AcceptBytes(s, bytes); Bounded(t) && Numbers(t) && Slots(t) && Wakeups(t)
  {
  }

  lemma AppendKeeps(s: State, bytes: seq<byte>)
    requires Inv(s) && s.writer.Trying? && !s.batch.closed && |s.batch.data| + |bytes| <= s.batch.max
    requires s.writer.total + |bytes| <= |s.writer.p| && bytes == s.writer.p[s.writer.total..s.writer.total + |bytes|]
    ensures Inv(AcceptBytes(s, bytes))
  {
    AcceptConserves(s, bytes);
    AcceptReports(s, bytes);
    AcceptKeepsOrder(s, bytes);
  }

  lemma BlockKeeps(s: State)
    requires Inv(s) && s.writer.Trying? && !s.batch.closed && |s.batch.data| >= s.batch.max
    ensures Inv(Block(s))
  {
  }

  lemma TryKeeps(s: State)
    requires Inv(s) && Enabled(s, EvTry)
    ensures Inv(Try(s))
  {
    if s.writer.total == |s.writer.p| {
      ReturnKeeps(s, None);
    } else if s.batch.closed {
      ReturnKeeps(s, Some(CloseError(s)));
    } else if |s.batch.data| < s.batch.max {
      AppendKeeps(s, NextBytes(s));
    } else {
      BlockKeeps(s);
    }
  }

  lemma InterruptedKeeps(s: State, replaced: bool, e: Error)
    requires Inv(s) && !s.writer.Idle?
    ensures Inv(Interrupted(s, replaced, e))
  {
    if s.connErr.Some? {
      ReturnKeeps(s, s.connErr);
    } else if !(replaced && e == Canceled && !s.ctxDone) {
      ReturnKeeps(s, Some(e));
    }
  }

  /** A drain takes everything that is there. */
  lemma DrainSomeKeeps(s: State)
    requires Inv(s) && (s.loop.Checking? || s.loop.AwaitingData?) && s.batch.data != []
    ensures Inv(Drain(s))
  {
    var n, t := DrainSize(s.batch), Drain(s);
    assert s.batch.data == s.batch.data[..n] + s.batch.data[n..];
    assert Bounded(t) && Conserved(t);
    assert Numbers(t) && Slots(t) && Wakeups(t);
  }

  lemma DrainKeeps(s: State)
    requires Inv(s) && (s.loop.Checking? || s.loop.AwaitingData?)
    ensures Inv(Drain(s))
  {
    if s.batch.data != [] { DrainSomeKeeps(s); }
  }

  lemma SeesCancelKeeps(s: State)
    requires Inv(s) && Enabled(s, EvSeesCancel)
    ensures Inv(Step(s, EvSeesCancel))
  {
    var t := Step(s, EvSeesCancel);
    assert Conserved(t);
    assert Numbers(t) && Slots(t);
  }

  lemma DelayedKeeps(s: State)
    requires Inv(s) && Enabled(s, EvDelayed)
    ensures Inv(Step(s, EvDelayed))
  {
  }

  lemma SlotKeeps(s: State)
    requires Inv(s) && Enabled(s, EvSlot)
    ensures Inv(Step(s, EvSlot))
  {
  }

  lemma PostStartedKeeps(s: State, ok: bool)
    requires Inv(s) && s.loop.StartingPost?
    ensures Inv(PostStarted(s, ok))
  {
    if ok {
      var p := Post(s.loop.seq_, s.loop.payload, true);
      PayloadsSnoc(s.posts, p);
      CountSnoc(s.posts, p, InFlight);
    }
  }

  lemma PostDoneKeeps(s: State, k: nat)
    requires Inv(s) && Enabled(s, EvPostDone(k))
    ensures Inv(PostDone(s, k))
  {
    var p := s.posts[k].(inFlight := false);
    PayloadsUpdate(s.posts, k, p);
    CountUpdate(s.posts, k, p, InFlight);
  }

  lemma WriterStepKeeps(s: State, ev: Event)
    requires Inv(s) && Enabled(s, ev) && (ev.EvWrite? || ev.EvTry? || ev.EvWriterWakes? || ev.EvInterrupted?)
    ensures Inv(Step(s, ev))
  {
    match ev
    case EvWrite(p) => BeginKeeps(s, p);
    case EvTry => TryKeeps(s);
    case EvWriterWakes =>
    case EvInterrupted(replaced, e) => InterruptedKeeps(s, replaced, e);
  }

  predicate InLoop(ev: Event) {
    ev.EvDrain? || ev.EvLoopWakes? || ev.EvSeesCancel? || ev.EvDelayed? || ev.EvSlot? || ev.EvPostStarted?
  }

  lemma LoopStepKeeps(s: State, ev: Event)
    requires Inv(s) && Enabled(s, ev) && InLoop(ev)
    ensures Inv(Step(s, ev))
  {
    match ev
    case EvDrain => DrainKeeps(s);
    case EvLoopWakes => DrainKeeps(s);
    case EvSeesCancel => SeesCancelKeeps(s);
    case EvDelayed => DelayedKeeps(s);
    case EvSlot => SlotKeeps(s);
    case EvPostStarted(ok) => PostStartedKeeps(s, ok);
  }

  lemma StepKeeps(s: State, ev: Event)
    requires Inv(s) && Enabled(s, ev)
    ensures Inv(Step(s, ev))
  {
    if InLoop(ev) {
      LoopStepKeeps(s, ev);
    } else if ev.EvWrite? || ev.EvTry? || ev.EvWriterWakes? || ev.EvInterrupted? {
      WriterStepKeeps(s, ev);
    } else {
      match ev
      case EvPostDone(k) => PostDoneKeeps(s, k);
      case EvClose(_) =>
      case EvSetError(_) =>
      case EvCancel =>
    }
  }
}
