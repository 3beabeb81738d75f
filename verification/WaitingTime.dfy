/** Where an accepted event can wait longer than the flush interval, in runs in which due
    timers are served on time. */
module WaitingTime {
  import opened Collections
  import opened BatcherSpec
  import opened Pipeline
  import opened WorkerInvariant
  import opened SystemInvariant
  import opened PipelineTheorems
  import opened FlushDeadline
  import opened ShutdownSafety

  function Interval(cfg: Config): int {
    if cfg.flushInterval < 0 then 0 else cfg.flushInterval
  }

  // ---- From the buffer to the plugins ----

  /** Buffered since `at`, behind an oldest event that was appended at `first`. */
  ghost predicate BufferedSince(w: Worker, x: Item, at: int, first: int) {
    && w.batcher.addedAt != [] && w.batcher.addedAt[0] == first
    && exists i :: 0 <= i < |w.batcher.events| && i < |w.batcher.addedAt|
                   && w.batcher.events[i] == x && w.batcher.addedAt[i] == at
  }

  ghost predicate FlushedFrom(w: Worker, x: Item) {
    x in InFlight(w) || x in Flatten(w.finished)
  }

  ghost predicate Tracked(w: Worker, x: Item, at: int, first: int) {
    BufferedSince(w, x, at, first) || FlushedFrom(w, x)
  }

  lemma StartKeepsTracked(cfg: Config, w: Worker, who: Lock, x: Item, at: int, first: int)
    requires Tracked(w, x, at, first) && w.flight.NoFlight?
    ensures Tracked(StartFlight(cfg, w, who), x, at, first)
  {
    hide Flatten;
  }

  lemma AppendKeepsTracked(cfg: Config, now: int, w: Worker, x: Item, at: int, first: int)
    requires Tracked(w, x, at, first) && TimerInv(w.batcher, now, cfg.flushInterval)
    requires ActionEnabled(cfg, now, w, Action.Append)
    ensures Tracked(Act(cfg, now, w, Action.Append), x, at, first)
  {
    hide Flatten;
    var w' := Act(cfg, now, w, Action.Append);
    if i :| 0 <= i < |w.batcher.events| && w.batcher.events[i] == x && w.batcher.addedAt[i] == at {
      assert w'.batcher.events[i] == x && w'.batcher.addedAt[i] == at;
    }
  }

  lemma ActKeepsTracked(cfg: Config, now: int, w: Worker, a: Action, x: Item, at: int, first: int)
    requires Tracked(w, x, at, first) && LockOk(cfg, w) && TimerInv(w.batcher, now, cfg.flushInterval)
    requires ActionEnabled(cfg, now, w, a)
    ensures Tracked(Act(cfg, now, w, a), x, at, first)
  {
    hide Flatten, StartFlight;
    match a
    case Append => AppendKeepsTracked(cfg, now, w, x, at, first);
    case SizeFlush => StartKeepsTracked(cfg, w, ByWorker, x, at, first);
    case FinalFlush => StartKeepsTracked(cfg, w, ByWorker, x, at, first);
    case RunCallback(t) => StartKeepsTracked(cfg, w.(batcher := Consume(w.batcher, t)), ByCallback, x, at, first);
    case _ =>
  }

  lemma LandKeepsTracked(w: Worker, x: Item, at: int, first: int)
    requires Tracked(w, x, at, first) && w.flight.Flight?
    ensures Tracked(Land(w), x, at, first)
  {
    FlattenSnoc(w.finished, w.flight.batch);
  }

  lemma SameTracked(w: Worker, w': Worker, x: Item, at: int, first: int)
    requires Tracked(w, x, at, first)
    requires w'.batcher == w.batcher && w'.flight == w.flight && w'.finished == w.finished
    ensures Tracked(w', x, at, first)
  {
    hide Flatten;
  }

  lemma WorkerStepKeepsTracked(cfg: Config, s: State, l: Label, k: nat, x: Item, at: int, first: int)
    requires WorkersOk(cfg, s.now, s.workers) && OnWorker(l) && WorkerEnabled(cfg, s, l)
    requires k < |s.workers| && Tracked(s.workers[k], x, at, first)
    ensures k < |WorkerEffect(cfg, s, l).workers| && Tracked(WorkerEffect(cfg, s, l).workers[k], x, at, first)
  {
    hide LockOk, HistoryOk, FanOutOk, BatchesInv, TimerInv, Act, ActionEnabled, Land, Tracked;
    assert WorkerOk(cfg, s.now, s.workers[k]);
    hide WorkersOk;
    var w' := WorkerEffect(cfg, s, l).workers[k];
    if l.k != k {
      assert w' == s.workers[k];
    } else if l.Do? {
      ActKeepsTracked(cfg, s.now, s.workers[k], l.action, x, at, first);
    } else if l.Complete? {
      LandKeepsTracked(s.workers[k], x, at, first);
    } else {
      SameTracked(s.workers[k], w', x, at, first);
    }
  }

  lemma StepKeepsTracked(cfg: Config, s: State, l: Label, k: nat, x: Item, at: int, first: int)
    requires WorkersOk(cfg, s.now, s.workers) && Enabled(cfg, s, l)
    requires k < |s.workers| && Tracked(s.workers[k], x, at, first)
    ensures k < |Apply(cfg, s, l).workers| && Tracked(Apply(cfg, s, l).workers[k], x, at, first)
  {
    hide WorkersOk, Tracked, SubmitEffect, SubmitEnabled, WorkerEffect, WorkerEnabled, ControlEffect, ControlEnabled;
    if OnWorker(l) {
      WorkerStepKeepsTracked(cfg, s, l, k, x, at, first);
    } else {
      OtherKeepsWorkers(cfg, s, l);
    }
  }

  lemma {:induction false} RunKeepsTracked(cfg: Config, ls: seq<Label>, more: seq<Label>,
                                           k: nat, x: Item, at: int, first: int)
    requires Run(cfg, ls).Some? && Run(cfg, ls + more).Some?
    requires k < |Run(cfg, ls).value.workers| && Tracked(Run(cfg, ls).value.workers[k], x, at, first)
    ensures k < |Run(cfg, ls + more).value.workers| && Tracked(Run(cfg, ls + more).value.workers[k], x, at, first)
  {
    hide *;
    if more == [] {
      assert ls + more == ls;
    } else {
      var n := |more| - 1;
      RunLastOf(cfg, ls, more);
      RunKeepsTracked(cfg, ls, more[..n], k, x, at, first);
      RunKeepsWorkers(cfg, ls + more[..n]);
      StepKeepsTracked(cfg, Run(cfg, ls + more[..n]).value, more[n], k, x, at, first);
    }
  }

  /** The promise the code keeps: however a timely run goes on, an event that was appended
      to a batcher longer ago than the interval has been handed to processBatch by that
      worker. It is being written or has been processed. */
  lemma AppendedIsFlushedWithinTheInterval(cfg: Config, ls: seq<Label>, more: seq<Label>, k: nat, i: nat)
    requires Run(cfg, ls).Some? && Run(cfg, ls + more).Some? && Timely(cfg, ls + more)
    requires k < |Run(cfg, ls).value.workers|
    requires i < |Run(cfg, ls).value.workers[k].batcher.events|
    requires i < |Run(cfg, ls).value.workers[k].batcher.addedAt|
    ensures
      var b := Run(cfg, ls).value.workers[k].batcher;
      var s' := Run(cfg, ls + more).value;
      && k < |s'.workers|
      && (s'.now - b.addedAt[i] > Interval(cfg) ==> FlushedFrom(s'.workers[k], b.events[i]))
  {
    var b := Run(cfg, ls).value.workers[k].batcher;
    var x, at, first := b.events[i], b.addedAt[i], b.addedAt[0];
    assert BufferedSince(Run(cfg, ls).value.workers[k], x, at, first);
    hide Run, Timely, FlushedFrom;
    RunKeepsTracked(cfg, ls, more, k, x, at, first);
    var w' := Run(cfg, ls + more).value.workers[k];
    if j :| 0 <= j < |w'.batcher.addedAt| && w'.batcher.addedAt[j] == at {
      BufferedNoLongerThanTheInterval(cfg, ls + more, k, j);
    }
  }

  // ---- Where an unprocessed event is ----

  ghost predicate Elsewhere(s: State, x: Item) {
    || x in s.channel
    || exists k :: 0 <= k < |s.workers| && (x in Held(s.workers[k]) || x in InFlight(s.workers[k]))
  }

  ghost predicate FreshlyBuffered(cfg: Config, s: State, x: Item) {
    exists k, i ::
      && 0 <= k < |s.workers| && 0 <= i < |s.workers[k].batcher.events| && i < |s.workers[k].batcher.addedAt|
      && s.workers[k].batcher.events[i] == x && s.now - s.workers[k].batcher.addedAt[i] <= Interval(cfg)
  }

  lemma BufferedIsNotElsewhere(cfg: Config, s: State, x: Item, k: nat)
    requires Inv(cfg, s) && k < |s.workers| && x in s.workers[k].batcher.events
    ensures !Elsewhere(s, x)
  {
    hide Inv, Held, InFlight;
    OnePlace(cfg, s, x, k);
  }

  /** Where an accepted event is in a timely run, until it has been processed: in a buffer,
      to which it was appended at most the interval ago, if and only if it is not in the
      channel, not held by a worker waiting for the mutex and not being written. */
  lemma UnprocessedIsBufferedIff(cfg: Config, ls: seq<Label>, x: Item)
    requires Run(cfg, ls).Some? && Timely(cfg, ls)
    requires x in Run(cfg, ls).value.sent && !IsProcessed(Run(cfg, ls).value, x)
    ensures FreshlyBuffered(cfg, Run(cfg, ls).value, x) <==> !Elsewhere(Run(cfg, ls).value, x)
  {
    RunKeepsInv(cfg, ls);
    var s := Run(cfg, ls).value;
    hide Run, Timely, IsProcessed, Inv, Elsewhere;
    if FreshlyBuffered(cfg, s, x) {
      var k, i :|
        && 0 <= k < |s.workers| && 0 <= i < |s.workers[k].batcher.events|
        && s.workers[k].batcher.events[i] == x;
      BufferedIsNotElsewhere(cfg, s, x, k);
    }
    if !Elsewhere(s, x) {
      hide FreshlyBuffered;
      var k := NotElsewhereIsBuffered(cfg, s, x);
      BufferedIsFresh(cfg, ls, x, k);
    }
  }

  lemma NotElsewhereIsBuffered(cfg: Config, s: State, x: Item) returns (k: nat)
    requires Inv(cfg, s) && x in s.sent && !IsProcessed(s, x) && !Elsewhere(s, x)
    ensures k < |s.workers| && x in s.workers[k].batcher.events
  {
    hide Inv, IsProcessed, Held, InFlight;
    SentIsSomewhere(cfg, s, x);
    k :| 0 <= k < |s.workers| && x in s.workers[k].batcher.events;
  }

  lemma BufferedIsFresh(cfg: Config, ls: seq<Label>, x: Item, k: nat)
    requires Run(cfg, ls).Some? && Timely(cfg, ls)
    requires k < |Run(cfg, ls).value.workers| && x in Run(cfg, ls).value.workers[k].batcher.events
    ensures FreshlyBuffered(cfg, Run(cfg, ls).value, x)
  {
    RunKeepsInv(cfg, ls);
    var s := Run(cfg, ls).value;
    hide Run, Timely, SubmitInv, QueueOk, ProcessedOk, ExitOk, ShutdownOk, LockOk, HistoryOk, FanOutOk;
    assert WorkerOk(cfg, s.now, s.workers[k]);
    hide PoolInv;
    var i :| 0 <= i < |s.workers[k].batcher.events| && s.workers[k].batcher.events[i] == x;
    BufferedNoLongerThanTheInterval(cfg, ls, k, i);
  }

  // ---- An event that waits past the interval ----

  /** The first event's batch is being written when the second event is accepted. */
  function BusyRun(e: Event): seq<Label> {
    [SubmitStart(e), TrySend(0), Receive(0), Do(0, Action.Append), Do(0, SizeFlush), Do(0, BeginWrite(0)),
     SubmitStart(e), TrySend(1)]
  }

  lemma {:induction false} NoTickIsTimely(cfg: Config, ls: seq<Label>)
    requires Run(cfg, ls).Some? && forall i :: 0 <= i < |ls| ==> !ls[i].Tick?
    ensures Timely(cfg, ls)
  {
    if ls != [] {
      NoTickIsTimely(cfg, ls[..|ls| - 1]);
    }
  }

  ghost predicate Small(cfg: Config, e: Event) {
    && cfg.workers == 1 && cfg.channelBuffer > 0 && cfg.batchSize <= 1
    && cfg.deduplicator.NoDeduplicator? && cfg.plugins != [] && cfg.plugins[0](e)
  }

  function Sub(e: Event, phase: Phase): Submission {
    Submission(e, phase, Unchecked, Never, Never)
  }

  /** The worker with the first event held, buffered, in flight. */
  function Busy(cfg: Config, e: Event, stage: nat): Worker {
    var w := NewWorker(cfg).(received := [Item(e, 0)]);
    if stage == 0 then w.(pc := Holding(Item(e, 0)))
    else if stage == 1 then
      w.(pc := Adding, lock := ByWorker,
         batcher := BatcherState([Item(e, 0)], [0], Some(0), map[0 := Armed(cfg.flushInterval)], 1, []))
    else
      w.(pc := Adding, lock := ByWorker,
         batcher := BatcherState([], [], None, map[], 1, [[Item(e, 0)]]),
         flight := Flight([Item(e, 0)], seq(|cfg.plugins|, _ => Idle)))
  }

  lemma BusyWorker(cfg: Config, e: Event)
    requires Small(cfg, e)
    ensures ActionEnabled(cfg, 0, Busy(cfg, e, 0), Action.Append)
    ensures Act(cfg, 0, Busy(cfg, e, 0), Action.Append) == Busy(cfg, e, 1)
    ensures ActionEnabled(cfg, 0, Busy(cfg, e, 1), SizeFlush)
    ensures Act(cfg, 0, Busy(cfg, e, 1), SizeFlush) == Busy(cfg, e, 2)
    ensures ActionEnabled(cfg, 0, Busy(cfg, e, 2), BeginWrite(0))
    ensures
      var w := Act(cfg, 0, Busy(cfg, e, 2), BeginWrite(0));
      && w.batcher == Busy(cfg, e, 2).batcher && w.flight.Flight? && w.flight.batch == [Item(e, 0)]
      && w.flight.writes != [] && w.flight.writes[0].Writing?
  {
    var x := Item(e, 0);
    assert [] + [x] == [x] && [] + [0] == [0] && [] + [[x]] == [[x]];
    assert map[][0 := Armed(0 + cfg.flushInterval)] == map[0 := Armed(cfg.flushInterval)];
    assert map[0 := Armed(cfg.flushInterval)] - {0} == map[];
    assert Slice(cfg.plugins[0], [x]) == [x] by {
      assert [x][..0] == [] && Slice(cfg.plugins[0], []) == [];
    }
  }

  lemma FirstReceived(cfg: Config, e: Event) returns (s: State)
    requires Small(cfg, e)
    ensures Run(cfg, BusyRun(e)[..3]) == Some(s)
    ensures s == Init(cfg).(submits := [Sub(e, Sent)], workers := [Busy(cfg, e, 0)],
                            sent := [Item(e, 0)], sentAt := [0], dequeued := [Taken(Item(e, 0), 0)], step := 3)
  {
    var ls := BusyRun(e);
    EventQueued(cfg, e);
    assert LosingRun(e)[..2] == ls[..2];
    assert ls[..2] + [Receive(0)] == ls[..3];
    hide *;
    ReceiveQueued(cfg, e);
    RunSnoc(cfg, ls[..2], Receive(0));
    s := Apply(cfg, QueuedState(cfg, e), Receive(0));
  }

  lemma ReceiveQueued(cfg: Config, e: Event)
    requires Small(cfg, e)
    ensures Enabled(cfg, QueuedState(cfg, e), Receive(0))
    ensures
      Apply(cfg, QueuedState(cfg, e), Receive(0))
      == Init(cfg).(submits := [Sub(e, Sent)], workers := [Busy(cfg, e, 0)],
                    sent := [Item(e, 0)], sentAt := [0], dequeued := [Taken(Item(e, 0), 0)], step := 3)
  {
    hide SubmitEffect, SubmitEnabled, ControlEffect, ControlEnabled, Act, ActionEnabled, Land, AllWritten;
    var s2 := QueuedState(cfg, e);
    var x, w := Item(e, 0), NewWorker(cfg);
    assert s2.workers == [w] && [w][0 := Busy(cfg, e, 0)] == [Busy(cfg, e, 0)];
    assert [] + [x] == [x] && [x][1..] == [] && [] + [Taken(x, 0)] == [Taken(x, 0)];
  }

  lemma ApplyDo(cfg: Config, s: State, a: Action)
    requires !s.panicked && |s.workers| == 1 && ActionEnabled(cfg, s.now, s.workers[0], a)
    ensures Enabled(cfg, s, Do(0, a))
    ensures Apply(cfg, s, Do(0, a)) == s.(workers := [Act(cfg, s.now, s.workers[0], a)], step := s.step + 1)
  {
    hide Act, ActionEnabled, SubmitEffect, SubmitEnabled, ControlEffect, ControlEnabled, Land, AllWritten;
    var w' := Act(cfg, s.now, s.workers[0], a);
    assert s.workers[0 := w'] == [w'];
  }

  lemma FirstInFlight(cfg: Config, e: Event) returns (s: State)
    requires Small(cfg, e)
    ensures Run(cfg, BusyRun(e)[..6]) == Some(s) && !s.panicked && !s.closed && s.now == 0
    ensures s.submits == [Sub(e, Sent)] && s.sent == [Item(e, 0)] && s.channel == [] && |s.workers| == 1
    ensures s.workers[0].batcher.timers == map[] && s.workers[0].flight.Flight?
    ensures s.workers[0].flight.writes != [] && s.workers[0].flight.writes[0].Writing?
  {
    var ls := BusyRun(e);
    assert ls[3] == Do(0, Action.Append) && ls[4] == Do(0, SizeFlush) && ls[5] == Do(0, BeginWrite(0));
    assert ls[..3] + [ls[3]] == ls[..4] && ls[..4] + [ls[4]] == ls[..5] && ls[..5] + [ls[5]] == ls[..6];
    assert Busy(cfg, e, 2).batcher.timers == map[];
    var s3 := FirstReceived(cfg, e);
    BusyWorker(cfg, e);
    hide Run, Act, ActionEnabled, Small, Busy, Enabled, Apply, BusyRun;
    ApplyDo(cfg, s3, Action.Append);
    RunSnoc(cfg, ls[..3], ls[3]);
    var s4 := Apply(cfg, s3, ls[3]);
    ApplyDo(cfg, s4, SizeFlush);
    RunSnoc(cfg, ls[..4], ls[4]);
    var s5 := Apply(cfg, s4, ls[4]);
    ApplyDo(cfg, s5, BeginWrite(0));
    RunSnoc(cfg, ls[..5], ls[5]);
    s := Apply(cfg, s5, ls[5]);
  }

  lemma SecondAccepted(cfg: Config, e: Event) returns (s: State)
    requires Small(cfg, e)
    ensures Run(cfg, BusyRun(e)) == Some(s) && !s.panicked && s.now == 0
    ensures s.sent == [Item(e, 0), Item(e, 1)] && s.channel == [Item(e, 1)] && |s.workers| == 1
    ensures s.workers[0].batcher.timers == map[] && s.workers[0].flight.Flight?
    ensures s.workers[0].flight.writes != [] && s.workers[0].flight.writes[0].Writing?
  {
    var ls := BusyRun(e);
    var s6 := FirstInFlight(cfg, e);
    hide Run, WorkerEffect, WorkerEnabled;
    var s7 := s6.(submits := [Sub(e, Sent), Sub(e, Sending)], step := s6.step + 1);
    assert Apply(cfg, s6, ls[6]) == s7;
    RunSnoc(cfg, ls[..6], ls[6]);
    assert ls[..6] + [ls[6]] == ls[..7];
    assert InPhase(s7, 1, Sending);
    s := Apply(cfg, s7, ls[7]);
    RunSnoc(cfg, ls[..7], ls[7]);
    assert ls[..7] + [ls[7]] == ls;
  }

  /** The documentation promises that no event waits longer than the flush interval. Even in
      a timely run one can wait as long as a write takes: the only worker is writing the
      first event's batch while the second one, accepted at time 0, is queued. */
  lemma AcceptedEventCanWaitForAnyTime(cfg: Config, e: Event, d: nat)
    requires Small(cfg, e)
    ensures Run(cfg, BusyRun(e)).Some? && Run(cfg, BusyRun(e)).value.now == 0
    ensures Item(e, 1) in Run(cfg, BusyRun(e)).value.sent
    ensures Run(cfg, BusyRun(e) + [Tick(d)]).Some? && Timely(cfg, BusyRun(e) + [Tick(d)])
    ensures
      var s := Run(cfg, BusyRun(e) + [Tick(d)]).value;
      && s.now == d && s.channel == [Item(e, 1)] && !IsProcessed(s, Item(e, 1))
      && |s.workers| == 1 && s.workers[0].flight.Flight?
      && s.workers[0].flight.writes != [] && s.workers[0].flight.writes[0].Writing?
  {
    var s := SecondAccepted(cfg, e);
    NoTickIsTimely(cfg, BusyRun(e));
    assert s.sent[1] == Item(e, 1);
    assert ServedStep(s, Tick(d));
    hide *;
    RunTick(cfg, BusyRun(e), d);
    QueuedIsNotProcessed(cfg, BusyRun(e) + [Tick(d)], Item(e, 1));
  }

  lemma QueuedIsNotProcessed(cfg: Config, ls: seq<Label>, x: Item)
    requires Run(cfg, ls).Some? && x in Run(cfg, ls).value.channel
    ensures !IsProcessed(Run(cfg, ls).value, x)
  {
    hide *;
    RunKeepsInv(cfg, ls);
    QueuedOnly(cfg, Run(cfg, ls).value, x);
  }

  lemma RunTick(cfg: Config, ls: seq<Label>, d: nat)
    requires Run(cfg, ls).Some? && !Run(cfg, ls).value.panicked
    requires Timely(cfg, ls) && ServedStep(Run(cfg, ls).value, Tick(d))
    ensures
      var s := Run(cfg, ls).value;
      Run(cfg, ls + [Tick(d)]) == Some(s.(now := s.now + d, step := s.step + 1))
    ensures Timely(cfg, ls + [Tick(d)])
  {
    hide *;
    ApplyTick(cfg, Run(cfg, ls).value, d);
    RunSnoc(cfg, ls, Tick(d));
    TimelySnoc(cfg, ls, Tick(d));
  }

  lemma TimelySnoc(cfg: Config, ls: seq<Label>, l: Label)
    requires Run(cfg, ls).Some? && Run(cfg, ls + [l]).Some?
    requires Timely(cfg, ls) && ServedStep(Run(cfg, ls).value, l)
    ensures Timely(cfg, ls + [l])
  {
    hide Run, ServedStep;
    assert (ls + [l])[..|ls|] == ls;
  }
}
