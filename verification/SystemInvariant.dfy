/** The inductive invariant of the whole pipeline, one predicate per concern, and
    the proof that every run keeps it. */
module SystemInvariant {
  import opened Collections
  import opened BatcherSpec
  import opened Pipeline
  import opened WorkerInvariant

  // ---- Histories ----

  function ItemsOf(ts: seq<Taken>): seq<Item> {
    if ts == [] then [] else ItemsOf(ts[..|ts| - 1]) + [ts[|ts| - 1].item]
  }

  /** The items worker `k` received, in the order the channel delivered them. */
  function ReceivedBy(ts: seq<Taken>, k: nat): seq<Item> {
    if ts == [] then []
    else ReceivedBy(ts[..|ts| - 1], k) + (if ts[|ts| - 1].worker == k then [ts[|ts| - 1].item] else [])
  }

  lemma ItemsSnoc(ts: seq<Taken>, t: Taken)
    ensures ItemsOf(ts + [t]) == ItemsOf(ts) + [t.item]
  {
    assert (ts + [t])[..|ts|] == ts;
  }

  lemma ReceivedSnoc(ts: seq<Taken>, t: Taken, k: nat)
    ensures ReceivedBy(ts + [t], k) == ReceivedBy(ts, k) + (if t.worker == k then [t.item] else [])
  {
    assert (ts + [t])[..|ts|] == ts;
  }

  function ProcessedSize(w: Worker): nat {
    |Flatten(w.finished)|
  }

  function IfAccepted(sub: Submission): nat { if sub.phase == Done(Accepted) then 1 else 0 }

  function IfSent(sub: Submission): nat { if sub.phase == Sent then 1 else 0 }

  function IfDuplicate(sub: Submission): nat { if sub.phase == Done(Duplicate) then 1 else 0 }

  function IfRejected(sub: Submission): nat { if sub.phase == Done(Rejected) then 1 else 0 }

  predicate HasSent(sub: Submission) {
    sub.phase == Sent || sub.phase == Done(Accepted)
  }

  // ---- The invariant ----

  ghost predicate WorkersOk(cfg: Config, now: int, workers: seq<Worker>) {
    && |workers| == cfg.workers
    && forall k :: 0 <= k < |workers| ==> WorkerOk(cfg, now, workers[k])
  }

  /** FIFO, and each worker received its share of what the channel delivered. */
  ghost predicate QueueOk(sent: seq<Item>, dequeued: seq<Taken>, channel: seq<Item>, workers: seq<Worker>) {
    && sent == ItemsOf(dequeued) + channel
    && (forall k :: 0 <= k < |workers| ==> workers[k].received == ReceivedBy(dequeued, k))
    && (forall j :: 0 <= j < |dequeued| ==> dequeued[j].worker < |workers|)
  }

  /** Exactly the submissions that have sent are in `sent`, each once. */
  ghost predicate SentOk(submits: seq<Submission>, sent: seq<Item>) {
    && (forall a :: 0 <= a < |sent| ==>
          && sent[a].submission < |submits|
          && submits[sent[a].submission].event == sent[a].event
          && HasSent(submits[sent[a].submission]))
    && (forall a, b :: 0 <= a < b < |sent| ==> sent[a].submission != sent[b].submission)
    && (forall i :: 0 <= i < |submits| && HasSent(submits[i]) ==> Item(submits[i].event, i) in sent)
  }

  /** The counters, against the Submit calls that have returned. */
  ghost predicate CountsOk(submits: seq<Submission>, sent: nat, received: nat, duplicated: nat, dropped: nat) {
    && received == SumBy(submits, IfAccepted)
    && duplicated == SumBy(submits, IfDuplicate)
    && dropped == SumBy(submits, IfRejected)
    && sent == received + SumBy(submits, IfSent)
  }

  ghost predicate ProcessedOk(workers: seq<Worker>, processed: nat) {
    processed == SumBy(workers, ProcessedSize)
  }

  ghost predicate SubmissionOk(sub: Submission, closed: bool, cancelled: bool, panicked: bool) {
    && (sub.phase == DupSeen || sub.phase == Done(Duplicate) <==> sub.verdict == Seen)
    && (sub.phase == Checking ==> sub.verdict == Unchecked)
    && (sub.phase == Dropping || sub.phase == Done(Rejected) ==> cancelled)
    && (sub.phase == Parked && !panicked ==> !closed)
  }

  ghost predicate SubmissionsOk(submits: seq<Submission>, closed: bool, cancelled: bool, panicked: bool) {
    forall i :: 0 <= i < |submits| ==> SubmissionOk(submits[i], closed, cancelled, panicked)
  }

  predicate Leaving(w: Worker) {
    w.pc.Stopping? || w.pc.Exited?
  }

  ghost predicate ExitOk(workers: seq<Worker>, drained: bool, cancelled: bool, returned: bool) {
    && (forall k :: 0 <= k < |workers| && Leaving(workers[k]) ==> drained || cancelled)
    && (returned ==> forall k :: 0 <= k < |workers| ==> workers[k].pc.Exited?)
  }

  ghost predicate ShutdownOk(closed: bool, cancelled: bool, panicked: bool, shutdown: Shutdown) {
    && (cancelled ==> closed)
    && (cancelled <==> shutdown.TimedOut?)
    && (!panicked ==> (closed <==> !shutdown.NotCalled?))
  }

  /** What the workers and the channel keep. */
  ghost predicate PoolInv(cfg: Config, s: State) {
    && WorkersOk(cfg, s.now, s.workers)
    && |s.channel| <= cfg.channelBuffer
    && QueueOk(s.sent, s.dequeued, s.channel, s.workers)
    && ProcessedOk(s.workers, s.eventsProcessed)
    && ExitOk(s.workers, s.closed && s.channel == [], s.cancelled, s.shutdown.Returned?)
    && ShutdownOk(s.closed, s.cancelled, s.panicked, s.shutdown)
  }

  /** What the Submit calls keep. */
  ghost predicate SubmitInv(s: State) {
    && SentOk(s.submits, s.sent)
    && CountsOk(s.submits, |s.sent|, s.eventsReceived, s.eventsDuplicated, s.eventsDropped)
    && SubmissionsOk(s.submits, s.closed, s.cancelled, s.panicked)
    && ShutdownOk(s.closed, s.cancelled, s.panicked, s.shutdown)
  }

  ghost predicate Inv(cfg: Config, s: State) {
    PoolInv(cfg, s) && SubmitInv(s)
  }

  // ---- Preservation: a worker acts ----

  lemma WorkerKeepsQueue(sent: seq<Item>, dequeued: seq<Taken>,
                         channel: seq<Item>, workers: seq<Worker>, k: nat, w: Worker)
    requires QueueOk(sent, dequeued, channel, workers)
    requires k < |workers| && w.received == workers[k].received
    ensures QueueOk(sent, dequeued, channel, workers[k := w])
  {
  }

  lemma ReceiveKeepsQueue(sent: seq<Item>, dequeued: seq<Taken>,
                          channel: seq<Item>, workers: seq<Worker>, k: nat, w: Worker)
    requires QueueOk(sent, dequeued, channel, workers)
    requires k < |workers| && channel != [] && w.received == workers[k].received + [channel[0]]
    ensures QueueOk(sent, dequeued + [Taken(channel[0], k)], channel[1..], workers[k := w])
  {
    var t := Taken(channel[0], k);
    ItemsSnoc(dequeued, t);
    assert channel == [t.item] + channel[1..];
    forall j | 0 <= j < |workers|
      ensures workers[k := w][j].received == ReceivedBy(dequeued + [t], j)
    {
      ReceivedSnoc(dequeued, t, j);
    }
  }

  lemma WorkerKeepsWorkers(cfg: Config, now: int, workers: seq<Worker>, k: nat, w: Worker)
    requires WorkersOk(cfg, now, workers) && k < |workers| && WorkerOk(cfg, now, w)
    ensures WorkersOk(cfg, now, workers[k := w])
  {
  }

  lemma LaterKeepsWorkers(cfg: Config, now: int, later: int, workers: seq<Worker>)
    requires WorkersOk(cfg, now, workers) && now <= later
    ensures WorkersOk(cfg, later, workers)
  {
    forall k | 0 <= k < |workers|
      ensures WorkerOk(cfg, later, workers[k])
    {
      LaterKeepsWorker(cfg, now, later, workers[k]);
    }
  }

  lemma WorkerKeepsExit(workers: seq<Worker>, k: nat, w: Worker, drained: bool, cancelled: bool, returned: bool)
    requires ExitOk(workers, drained, cancelled, returned) && k < |workers|
    requires Leaving(w) ==> drained || cancelled
    requires workers[k].pc.Exited? ==> w.pc.Exited?
    ensures ExitOk(workers[k := w], drained, cancelled, returned)
  {
  }

  lemma WorkerKeepsPool(cfg: Config, s: State, k: nat, w: Worker)
    requires PoolInv(cfg, s) && k < |s.workers|
    requires WorkerOk(cfg, s.now, w) && w.received == s.workers[k].received && w.finished == s.workers[k].finished
    requires Leaving(w) ==> (s.closed && s.channel == []) || s.cancelled
    requires s.workers[k].pc.Exited? ==> w.pc.Exited?
    ensures PoolInv(cfg, SetWorker(s, k, w))
  {
    hide WorkersOk, WorkerOk, QueueOk, ProcessedOk, ExitOk, ShutdownOk;
    WorkerKeepsWorkers(cfg, s.now, s.workers, k, w);
    WorkerKeepsQueue(s.sent, s.dequeued, s.channel, s.workers, k, w);
    LandKeepsProcessed(s.workers, k, w, s.eventsProcessed, 0);
    WorkerKeepsExit(s.workers, k, w, s.closed && s.channel == [], s.cancelled, s.shutdown.Returned?);
  }

  lemma ActKeepsLeaving(cfg: Config, now: int, w: Worker, a: Action)
    requires LockOk(cfg, w) && ActionEnabled(cfg, now, w, a)
    ensures Leaving(Act(cfg, now, w, a)) == Leaving(w)
    ensures w.pc.Exited? ==> Act(cfg, now, w, a).pc.Exited?
  {
  }

  lemma ActKeepsPool(cfg: Config, s: State, k: nat, a: Action)
    requires PoolInv(cfg, s) && Enabled(cfg, s, Do(k, a))
    ensures PoolInv(cfg, Apply(cfg, s, Do(k, a)))
  {
    hide SubmitEffect, SubmitEnabled, ControlEffect, ControlEnabled;
    assert WorkerOk(cfg, s.now, s.workers[k]);
    ActKeepsWorker(cfg, s.now, s.workers[k], a);
    ActKeepsLeaving(cfg, s.now, s.workers[k], a);
    WorkerKeepsPool(cfg, s, k, Act(cfg, s.now, s.workers[k], a));
  }

  lemma StopKeepsPool(cfg: Config, s: State, k: nat)
    requires PoolInv(cfg, s) && Enabled(cfg, s, StopSignal(k))
    ensures PoolInv(cfg, Apply(cfg, s, StopSignal(k)))
  {
    hide SubmitEffect, SubmitEnabled, ControlEffect, ControlEnabled;
    StopKeepsWorker(cfg, s.now, s.workers[k]);
    WorkerKeepsPool(cfg, s, k, s.workers[k].(pc := Stopping));
  }

  lemma LandKeepsProcessed(workers: seq<Worker>, k: nat, w: Worker, processed: nat, more: nat)
    requires ProcessedOk(workers, processed) && k < |workers|
    requires ProcessedSize(w) == ProcessedSize(workers[k]) + more
    ensures ProcessedOk(workers[k := w], processed + more)
  {
    SumByUpdate(workers, k, w, ProcessedSize);
  }

  lemma LandKeepsLeaving(cfg: Config, w: Worker)
    requires LockOk(cfg, w) && w.flight.Flight?
    ensures Leaving(Land(w)) == Leaving(w) && !w.pc.Exited?
  {
  }

  lemma CompleteKeepsPool(cfg: Config, s: State, k: nat)
    requires PoolInv(cfg, s) && Enabled(cfg, s, Complete(k))
    ensures PoolInv(cfg, Apply(cfg, s, Complete(k)))
  {
    hide SubmitEffect, SubmitEnabled, ControlEffect, ControlEnabled;
    var w := s.workers[k];
    var w' := Land(w);
    assert WorkerOk(cfg, s.now, w);
    hide WorkersOk, BatcherOk, HistoryOk, FanOutOk, QueueOk, ProcessedOk, ExitOk, ShutdownOk;
    LandKeepsWorker(cfg, s.now, w);
    LandKeepsLeaving(cfg, w);
    WorkerKeepsWorkers(cfg, s.now, s.workers, k, w');
    WorkerKeepsQueue(s.sent, s.dequeued, s.channel, s.workers, k, w');
    LandKeepsProcessed(s.workers, k, w', s.eventsProcessed, |w.flight.batch|);
    hide WorkerOk, LockOk, AllWritten;
    WorkerKeepsExit(s.workers, k, w', s.closed && s.channel == [], s.cancelled, s.shutdown.Returned?);
  }

  lemma DrainedIsWeaker(workers: seq<Worker>, drained: bool, cancelled: bool, returned: bool)
    requires ExitOk(workers, false, cancelled, returned)
    ensures ExitOk(workers, drained, cancelled, returned)
  {
  }

  lemma ReceiveKeepsPool(cfg: Config, s: State, k: nat)
    requires PoolInv(cfg, s) && Enabled(cfg, s, Receive(k))
    ensures PoolInv(cfg, Apply(cfg, s, Receive(k)))
  {
    hide SubmitEffect, SubmitEnabled, ControlEffect, ControlEnabled;
    var w := s.workers[k];
    var s' := Apply(cfg, s, Receive(k));
    var w' := w.(pc := Holding(s.channel[0]), received := w.received + [s.channel[0]]);
    ReceiveKeepsWorker(cfg, s.now, w, s.channel[0]);
    WorkerKeepsWorkers(cfg, s.now, s.workers, k, w');
    ReceiveKeepsQueue(s.sent, s.dequeued, s.channel, s.workers, k, w');
    LandKeepsProcessed(s.workers, k, w', s.eventsProcessed, 0);
    WorkerKeepsExit(s.workers, k, w', false, s.cancelled, s.shutdown.Returned?);
    hide WorkersOk, WorkerOk, QueueOk, ProcessedOk, ShutdownOk, LockOk, BatcherOk, HistoryOk, FanOutOk;
    DrainedIsWeaker(s'.workers, s'.closed && s'.channel == [], s.cancelled, s.shutdown.Returned?);
  }

  // ---- Preservation: a Submit call moves on ----

  /** Replacing one submission moves each tally by that submission alone. */
  lemma Recount(submits: seq<Submission>, sent: nat, received: nat,
                duplicated: nat, dropped: nat, i: nat, sub: Submission)
    requires CountsOk(submits, sent, received, duplicated, dropped) && i < |submits|
    ensures
      var was := submits[i];
      var received' := received - IfAccepted(was) + IfAccepted(sub);
      var duplicated' := duplicated - IfDuplicate(was) + IfDuplicate(sub);
      var dropped' := dropped - IfRejected(was) + IfRejected(sub);
      var sent' := sent - IfAccepted(was) - IfSent(was) + IfAccepted(sub) + IfSent(sub);
      && received' >= 0 && duplicated' >= 0 && dropped' >= 0 && sent' >= 0
      && CountsOk(submits[i := sub], sent', received', duplicated', dropped')
  {
    SumByUpdate(submits, i, sub, IfAccepted);
    SumByUpdate(submits, i, sub, IfDuplicate);
    SumByUpdate(submits, i, sub, IfRejected);
    SumByUpdate(submits, i, sub, IfSent);
  }

  lemma PhaseKeepsSent(submits: seq<Submission>, sent: seq<Item>, i: nat, sub: Submission)
    requires SentOk(submits, sent) && i < |submits|
    requires sub.event == submits[i].event && HasSent(sub) == HasSent(submits[i])
    ensures SentOk(submits[i := sub], sent)
  {
  }

  /** A submission that neither sends nor returns. */
  lemma OneKeepsSubmissions(submits: seq<Submission>, i: nat, sub: Submission,
                            closed: bool, cancelled: bool, panicked: bool)
    requires SubmissionsOk(submits, closed, cancelled, panicked) && i < |submits|
    requires SubmissionOk(sub, closed, cancelled, panicked)
    ensures SubmissionsOk(submits[i := sub], closed, cancelled, panicked)
  {
  }

  lemma PhaseKeepsInv(cfg: Config, s: State, i: nat, sub: Submission)
    requires SubmitInv(s) && i < |s.submits| && sub.event == s.submits[i].event
    requires !HasSent(sub) && !HasSent(s.submits[i]) && !sub.phase.Done? && !s.submits[i].phase.Done?
    requires SubmissionOk(sub, s.closed, s.cancelled, s.panicked)
    ensures SubmitInv(s.(submits := s.submits[i := sub]))
  {
    hide SentOk, CountsOk, SubmissionsOk, SubmissionOk, ShutdownOk;
    OneKeepsSubmissions(s.submits, i, sub, s.closed, s.cancelled, s.panicked);
    PhaseKeepsSent(s.submits, s.sent, i, sub);
    Recount(s.submits, |s.sent|, s.eventsReceived, s.eventsDuplicated, s.eventsDropped, i, sub);
  }

  /** A submission that returns: its outcome's counter, and no other, moves by one. */
  lemma CountKeepsInv(s: State, i: nat)
    requires SubmitInv(s) && i < |s.submits| && s.submits[i].phase in {Sent, DupSeen, Dropping}
    ensures SubmitInv(CountAndReturn(s, i))
  {
    var was := s.submits[i];
    var sub := was.(phase := Done(OutcomeOf(was.phase)));
    assert SubmissionOk(was, s.closed, s.cancelled, s.panicked);
    hide SentOk, CountsOk, SubmissionsOk, ShutdownOk;
    OneKeepsSubmissions(s.submits, i, sub, s.closed, s.cancelled, s.panicked);
    PhaseKeepsSent(s.submits, s.sent, i, sub);
    Recount(s.submits, |s.sent|, s.eventsReceived, s.eventsDuplicated, s.eventsDropped, i, sub);
  }

  lemma SendKeepsSent(submits: seq<Submission>, sent: seq<Item>, i: nat, sub: Submission)
    requires SentOk(submits, sent) && i < |submits| && !HasSent(submits[i])
    requires sub.event == submits[i].event && HasSent(sub)
    ensures SentOk(submits[i := sub], sent + [Item(sub.event, i)])
  {
    var item := Item(sub.event, i);
    var submits', sent' := submits[i := sub], sent + [item];
    forall j | 0 <= j < |submits'| && HasSent(submits'[j])
      ensures Item(submits'[j].event, j) in sent'
    {
      if j == i { assert sent'[|sent|] == item; }
    }
  }

  lemma SendKeepsInv(cfg: Config, s: State, i: nat)
    requires SubmitInv(s) && i < |s.submits|
    requires s.submits[i].phase in {Sending, Full, Parked}
    requires s.closed || |s.channel| < cfg.channelBuffer
    ensures SubmitInv(Send(s, i))
  {
    if !s.closed {
      var sub := s.submits[i].(phase := Sent);
      assert SubmissionOk(s.submits[i], s.closed, s.cancelled, s.panicked);
      hide SentOk, CountsOk, SubmissionsOk, ShutdownOk;
      OneKeepsSubmissions(s.submits, i, sub, s.closed, s.cancelled, s.panicked);
      SendKeepsSent(s.submits, s.sent, i, sub);
      Recount(s.submits, |s.sent|, s.eventsReceived, s.eventsDuplicated, s.eventsDropped, i, sub);
    }
  }

  lemma StartKeepsSent(submits: seq<Submission>, sent: seq<Item>, e: Event, phase: Phase)
    requires SentOk(submits, sent) && (phase == Sending || phase == Checking)
    ensures SentOk(submits + [Submission(e, phase, Unchecked, Never, Never)], sent)
  {
  }

  lemma StartKeepsCounts(submits: seq<Submission>, sent: nat, received: nat,
                         duplicated: nat, dropped: nat, sub: Submission)
    requires CountsOk(submits, sent, received, duplicated, dropped)
    requires sub.phase == Sending || sub.phase == Checking
    ensures CountsOk(submits + [sub], sent, received, duplicated, dropped)
  {
    SumBySnoc(submits, sub, IfAccepted);
    SumBySnoc(submits, sub, IfDuplicate);
    SumBySnoc(submits, sub, IfRejected);
    SumBySnoc(submits, sub, IfSent);
  }

  lemma StartKeepsInv(cfg: Config, s: State, e: Event)
    requires SubmitInv(s) && Enabled(cfg, s, SubmitStart(e))
    ensures SubmitInv(Apply(cfg, s, SubmitStart(e)))
  {
    hide SentOk, CountsOk, ShutdownOk, SubmitEffect, SubmitEnabled, WorkerEffect, WorkerEnabled;
    var phase := if cfg.deduplicator.NoDeduplicator? then Sending else Checking;
    StartKeepsSent(s.submits, s.sent, e, phase);
    StartKeepsCounts(s.submits, |s.sent|, s.eventsReceived, s.eventsDuplicated, s.eventsDropped,
                     Submission(e, phase, Unchecked, Never, Never));
  }

  ghost predicate Sends(cfg: Config, s: State, l: Label) {
    l.SlowSend? || (l.TrySend? && (s.closed || |s.channel| < cfg.channelBuffer))
  }

  lemma ApplySubmission(cfg: Config, s: State, l: Label)
    requires Enabled(cfg, s, l) && OnSubmission(l)
    ensures SubmitEnabled(cfg, s, l) && l.i < |s.submits|
    ensures Apply(cfg, s, l) == SubmitEffect(cfg, s, l).(step := s.step + 1)
  {
    hide SubmitEffect, WorkerEffect, ControlEffect, WorkerEnabled, ControlEnabled, CheckAllowed;
  }

  /** The fields SubmitInv looks at. */
  ghost predicate SameSubmits(s: State, s': State) {
    && s'.submits == s.submits && s'.sent == s.sent
    && s'.eventsReceived == s.eventsReceived && s'.eventsDuplicated == s.eventsDuplicated
    && s'.eventsDropped == s.eventsDropped
    && s'.closed == s.closed && s'.cancelled == s.cancelled
    && s'.panicked == s.panicked && s'.shutdown == s.shutdown
  }

  lemma SameKeepsSubmits(s: State, s': State)
    requires SubmitInv(s) && SameSubmits(s, s')
    ensures SubmitInv(s')
  {
    hide SentOk, CountsOk, SubmissionsOk, ShutdownOk;
  }

  lemma CheckKeepsInv(cfg: Config, s: State, i: nat, verdict: Verdict)
    requires SubmitInv(s) && Enabled(cfg, s, Check(i, verdict))
    ensures SubmitInv(SubmitEffect(cfg, s, Check(i, verdict)))
  {
    assert SubmissionOk(s.submits[i], s.closed, s.cancelled, s.panicked);
    hide SentOk, CountsOk, SubmissionsOk, ShutdownOk, Key;
    var sub := SubmitEffect(cfg, s, Check(i, verdict)).submits[i];
    PhaseKeepsInv(cfg, s, i, sub);
  }

  lemma MarkKeepsInv(cfg: Config, s: State, i: nat, ok: bool)
    requires SubmitInv(s) && Enabled(cfg, s, Mark(i, ok))
    ensures SubmitInv(SubmitEffect(cfg, s, Mark(i, ok)))
  {
    assert SubmissionOk(s.submits[i], s.closed, s.cancelled, s.panicked);
    hide SentOk, CountsOk, SubmissionsOk, ShutdownOk, Key, CheckAllowed;
    var s' := SubmitEffect(cfg, s, Mark(i, ok));
    PhaseKeepsInv(cfg, s, i, s'.submits[i]);
    SameKeepsSubmits(s.(submits := s.submits[i := s'.submits[i]]), s');
  }

  lemma SlowKeepsInv(cfg: Config, s: State, l: Label)
    requires SubmitInv(s) && Enabled(cfg, s, l)
    requires l.TrySend? || l.SlowSend? || l.SlowCancel? || l.SlowPark?
    ensures SubmitInv(SubmitEffect(cfg, s, l))
  {
    assert SubmissionOk(s.submits[l.i], s.closed, s.cancelled, s.panicked);
    hide SentOk, CountsOk, SubmissionsOk, ShutdownOk, CheckAllowed, SubmitInv;
    if Sends(cfg, s, l) {
      SendKeepsInv(cfg, s, l.i);
    } else {
      var phase := if l.TrySend? then Full else if l.SlowCancel? then Dropping else Parked;
      PhaseKeepsInv(cfg, s, l.i, s.submits[l.i].(phase := phase));
    }
  }

  lemma SubmissionKeepsInv(cfg: Config, s: State, l: Label)
    requires SubmitInv(s) && Enabled(cfg, s, l) && OnSubmission(l)
    ensures SubmitInv(Apply(cfg, s, l))
  {
    ApplySubmission(cfg, s, l);
    hide SubmitInv, Enabled, Apply, Effect, Send, SetPhase, CountAndReturn, CheckAllowed;
    match l {
      case Check(i, verdict) => CheckKeepsInv(cfg, s, i, verdict);
      case Mark(i, ok) => MarkKeepsInv(cfg, s, i, ok);
      case Count(i) => CountKeepsInv(s, i);
      case _ => SlowKeepsInv(cfg, s, l);
    }
    SameKeepsSubmits(SubmitEffect(cfg, s, l), Apply(cfg, s, l));
  }

  // ---- Preservation: the rest ----

  lemma CloseKeepsSubmits(cfg: Config, s: State)
    requires SubmitInv(s) && Enabled(cfg, s, Close)
    ensures SubmitInv(Apply(cfg, s, Close))
  {
    hide SubmitEffect, SubmitEnabled, WorkerEffect, WorkerEnabled;
    var s' := Apply(cfg, s, Close);
    forall i | 0 <= i < |s.submits|
      ensures SubmissionOk(s.submits[i], s'.closed, s'.cancelled, s'.panicked)
    {
      assert SubmissionOk(s.submits[i], s.closed, s.cancelled, s.panicked);
      assert InPhase(s, i, Parked) <==> s.submits[i].phase == Parked;
    }
  }

  lemma TickKeepsPool(cfg: Config, s: State, d: nat)
    requires PoolInv(cfg, s) && Enabled(cfg, s, Tick(d))
    ensures PoolInv(cfg, Apply(cfg, s, Tick(d)))
  {
    hide WorkersOk, QueueOk, ProcessedOk, ExitOk, ShutdownOk;
    hide SubmitEffect, SubmitEnabled, WorkerEffect, WorkerEnabled;
    LaterKeepsWorkers(cfg, s.now, s.now + d, s.workers);
  }

  lemma TimeoutKeepsSubmits(cfg: Config, s: State)
    requires SubmitInv(s) && Enabled(cfg, s, ShutdownTimeout)
    ensures SubmitInv(Apply(cfg, s, ShutdownTimeout))
  {
    hide SubmitEffect, SubmitEnabled, WorkerEffect, WorkerEnabled;
    forall i | 0 <= i < |s.submits|
      ensures SubmissionOk(s.submits[i], s.closed, true, s.panicked)
    {
      assert SubmissionOk(s.submits[i], s.closed, s.cancelled, s.panicked);
    }
  }

  lemma SendKeepsPool(cfg: Config, s: State, i: nat)
    requires PoolInv(cfg, s) && i < |s.submits| && (s.closed || |s.channel| < cfg.channelBuffer)
    ensures PoolInv(cfg, Send(s, i))
  {
    assert ItemsOf(s.dequeued) + s.channel + [Item(s.submits[i].event, i)]
        == ItemsOf(s.dequeued) + (s.channel + [Item(s.submits[i].event, i)]);
  }

  /** The fields PoolInv looks at. */
  ghost predicate SamePool(s: State, s': State) {
    && s'.workers == s.workers && s'.now == s.now
    && s'.channel == s.channel && s'.sent == s.sent && s'.dequeued == s.dequeued
    && s'.eventsProcessed == s.eventsProcessed
    && s'.closed == s.closed && s'.cancelled == s.cancelled
    && s'.panicked == s.panicked && s'.shutdown == s.shutdown
  }

  lemma SubmissionFrame(cfg: Config, s: State, l: Label)
    requires Enabled(cfg, s, l) && OnSubmission(l) && !Sends(cfg, s, l)
    ensures SamePool(s, Apply(cfg, s, l))
  {
    ApplySubmission(cfg, s, l);
    hide Apply, Enabled, SubmitEnabled, Effect, InPhase, Key;
    var s' := SubmitEffect(cfg, s, l);
    assert SamePool(s, s');
  }

  lemma OtherKeepsWorkers(cfg: Config, s: State, l: Label)
    requires Enabled(cfg, s, l) && !OnWorker(l)
    ensures Apply(cfg, s, l).workers == s.workers
  {
    hide WorkerEffect, WorkerEnabled, Key, OutcomeOf, CheckAllowed, AllExited;
  }

  lemma SubmissionKeepsPool(cfg: Config, s: State, l: Label)
    requires PoolInv(cfg, s) && Enabled(cfg, s, l) && OnSubmission(l)
    ensures PoolInv(cfg, Apply(cfg, s, l))
  {
    hide WorkerEffect, WorkerEnabled, ControlEffect, ControlEnabled;
    hide WorkersOk, QueueOk, ProcessedOk, ExitOk, ShutdownOk, CheckAllowed, Key;
    if Sends(cfg, s, l) {
      SendKeepsPool(cfg, s, l.i);
    } else {
      SubmissionFrame(cfg, s, l);
    }
  }

  /** PoolInv after a step that touches only the lifecycle flags. */
  lemma LifecycleKeepsPool(cfg: Config, s: State, s': State)
    requires PoolInv(cfg, s)
    requires s'.workers == s.workers && s'.now == s.now && s'.eventsProcessed == s.eventsProcessed
    requires s'.channel == s.channel && s'.sent == s.sent && s'.dequeued == s.dequeued
    requires s.closed ==> s'.closed
    requires s.cancelled ==> s'.cancelled
    requires s'.shutdown.Returned? ==> AllExited(s)
    requires ShutdownOk(s'.closed, s'.cancelled, s'.panicked, s'.shutdown)
    ensures PoolInv(cfg, s')
  {
    hide WorkersOk, QueueOk, ProcessedOk;
  }

  lemma ControlKeepsPool(cfg: Config, s: State, l: Label)
    requires PoolInv(cfg, s) && Enabled(cfg, s, l)
    requires l.Close? || l.ShutdownReturn? || l.ShutdownTimeout? || l.Cleanup? || l.CloseDedup? || l.SubmitStart?
    ensures PoolInv(cfg, Apply(cfg, s, l))
  {
    hide SubmitEffect, SubmitEnabled, WorkerEffect, WorkerEnabled;
    hide WorkersOk, QueueOk, ProcessedOk;
    var s' := Apply(cfg, s, l);
    assert ShutdownOk(s'.closed, s'.cancelled, s'.panicked, s'.shutdown);
    LifecycleKeepsPool(cfg, s, s');
  }

  lemma StepKeepsPool(cfg: Config, s: State, l: Label)
    requires PoolInv(cfg, s) && Enabled(cfg, s, l)
    ensures PoolInv(cfg, Apply(cfg, s, l))
  {
    hide PoolInv, Apply, Enabled;
    match l
    case Receive(k) => ReceiveKeepsPool(cfg, s, k);
    case StopSignal(k) => StopKeepsPool(cfg, s, k);
    case Do(k, a) => ActKeepsPool(cfg, s, k, a);
    case Complete(k) => CompleteKeepsPool(cfg, s, k);
    case Tick(d) => TickKeepsPool(cfg, s, d);
    case _ =>
      if OnSubmission(l) {
        SubmissionKeepsPool(cfg, s, l);
      } else {
        ControlKeepsPool(cfg, s, l);
      }
  }

  lemma OtherKeepsSubmits(cfg: Config, s: State, l: Label)
    requires SubmitInv(s) && Enabled(cfg, s, l)
    requires OnWorker(l) || l.ShutdownReturn? || l.Tick? || l.Cleanup? || l.CloseDedup?
    ensures SubmitInv(Apply(cfg, s, l))
  {
    hide SentOk, CountsOk, SubmissionsOk, SubmitEffect, SubmitEnabled, Act, ActionEnabled, Land, AllWritten;
  }

  lemma StepKeepsSubmits(cfg: Config, s: State, l: Label)
    requires SubmitInv(s) && Enabled(cfg, s, l)
    ensures SubmitInv(Apply(cfg, s, l))
  {
    hide SubmitInv, Apply, Enabled;
    match l
    case SubmitStart(e) => StartKeepsInv(cfg, s, e);
    case Close => CloseKeepsSubmits(cfg, s);
    case ShutdownTimeout => TimeoutKeepsSubmits(cfg, s);
    case _ =>
      if OnSubmission(l) {
        SubmissionKeepsInv(cfg, s, l);
      } else {
        OtherKeepsSubmits(cfg, s, l);
      }
  }

  lemma StepKeepsInv(cfg: Config, s: State, l: Label)
    requires Inv(cfg, s) && Enabled(cfg, s, l)
    ensures Inv(cfg, Apply(cfg, s, l))
  {
    StepKeepsPool(cfg, s, l);
    StepKeepsSubmits(cfg, s, l);
  }

  lemma NewWorkersOk(cfg: Config)
    ensures WorkersOk(cfg, 0, Init(cfg).workers)
    ensures ProcessedOk(Init(cfg).workers, 0)
  {
    NewWorkerOk(cfg);
    assert ProcessedSize(NewWorker(cfg)) == 0;
    SumByBound(Init(cfg).workers, ProcessedSize, 0);
  }

  lemma InitInv(cfg: Config)
    ensures Inv(cfg, Init(cfg))
  {
    NewWorkersOk(cfg);
    hide WorkersOk, ProcessedOk;
  }

  lemma RunKeepsWorkers(cfg: Config, ls: seq<Label>)
    requires Run(cfg, ls).Some?
    ensures WorkersOk(cfg, Run(cfg, ls).value.now, Run(cfg, ls).value.workers)
  {
    RunKeepsInv(cfg, ls);
    hide Run, SubmitInv, WorkersOk, QueueOk, ProcessedOk, ExitOk, ShutdownOk;
  }

  /** Every state of every run satisfies the invariant. */
  lemma {:induction false} RunKeepsInv(cfg: Config, ls: seq<Label>)
    requires Run(cfg, ls).Some?
    ensures Inv(cfg, Run(cfg, ls).value)
  {
    if ls == [] {
      InitInv(cfg);
    } else {
      var before := ls[..|ls| - 1];
      RunKeepsInv(cfg, before);
      StepKeepsInv(cfg, Run(cfg, before).value, ls[|ls| - 1]);
    }
  }
}
