/** After Shutdown has closed the channel the pipeline drains: every step it can still
    take strictly decreases a measure, and while some worker has not exited there is one. */
module Drain {
  import opened Collections
  import opened BatcherSpec
  import opened Pipeline
  import opened WorkerInvariant
  import opened SystemInvariant
  import opened PipelineTheorems

  // ---- The measure ----

  function ArmedTimers<T>(b: BatcherState<T>): set<nat> {
    set t | t in b.timers && b.timers[t].Armed?
  }

  /** An armed timer can still fire and run, a launched callback can still run. */
  function TimerWork<T>(b: BatcherState<T>): nat {
    |b.timers| + |ArmedTimers(b)|
  }

  function WriteSteps(w: Write): nat {
    match w case Idle => 2 case Writing => 1 case Written => 0
  }

  function FlightWork(f: Flight): nat {
    if f.Flight? then 1 + SumBy(f.writes, WriteSteps) else 0
  }

  /** A buffered event may cost a whole flush through `plugins` plugins. */
  function EventWork(plugins: nat): nat { 2 * plugins + 2 }

  /** An event outside the buffer may also cost receiving it and arming a timer. */
  function ItemWork(plugins: nat): nat { 2 * plugins + 8 }

  function PcWork(plugins: nat, pc: Pc): nat {
    match pc
    case Exited => 0
    case Stopping => 1
    case Selecting => 2
    case Adding => 3
    case Holding(_) => ItemWork(plugins)
  }

  function Work(plugins: nat, w: Worker): nat {
    PcWork(plugins, w.pc) + |w.batcher.events| * EventWork(plugins) + FlightWork(w.flight) + TimerWork(w.batcher)
  }

  function WorkWith(plugins: nat): Worker -> nat {
    w => Work(plugins, w)
  }

  function SubmitSteps(sub: Submission): nat {
    match sub.phase
    case Checking => 6
    case Marking => 5
    case Sending => 4
    case Full => 3
    case Parked => 2
    case Sent => 1
    case DupSeen => 1
    case Dropping => 1
    case Done(_) => 0
  }

  function Measure(cfg: Config, s: State): nat {
    var plugins := |cfg.plugins|;
    |s.channel| * ItemWork(plugins)
    + SumBy(s.workers, WorkWith(plugins))
    + SumBy(s.submits, SubmitSteps)
    + (if s.panicked then 0 else 1)
    + (if s.shutdown.Waiting? then 1 else 0)
  }

  /** Steps the environment takes by itself: new calls, time, the deduplicator's upkeep. */
  predicate External(l: Label) {
    l.SubmitStart? || l.Tick? || l.Cleanup? || l.CloseDedup?
  }

  // ---- One worker ----

  lemma RemovedTimer<T>(b: BatcherState<T>, t: nat)
    requires t in b.timers
    ensures |b.timers - {t}| == |b.timers| - 1
    ensures ArmedTimers(b.(timers := b.timers - {t})) == ArmedTimers(b) - {t}
  {
    assert (b.timers - {t}).Keys == b.timers.Keys - {t};
    assert |b.timers.Keys| == |b.timers| && |(b.timers - {t}).Keys| == |b.timers - {t}|;
  }

  lemma FireCostsOne<T>(b: BatcherState<T>, t: nat)
    requires t in b.timers && b.timers[t].Armed?
    ensures TimerWork(Fire(b, t)) == TimerWork(b) - 1
  {
    assert ArmedTimers(Fire(b, t)) == ArmedTimers(b) - {t};
    assert Fire(b, t).timers.Keys == b.timers.Keys;
    assert |b.timers.Keys| == |b.timers| && |Fire(b, t).timers.Keys| == |Fire(b, t).timers|;
  }

  lemma ConsumeCostsOne<T>(b: BatcherState<T>, t: nat)
    requires t in b.timers && b.timers[t].Fired?
    ensures TimerWork(Consume(b, t)) == TimerWork(b) - 1
  {
    RemovedTimer(b, t);
    assert ArmedTimers(b) - {t} == ArmedTimers(b);
  }

  lemma FlushArmsNothing<T>(b: BatcherState<T>)
    ensures TimerWork(Flush(b)) <= TimerWork(b)
  {
    if b.events != [] {
      assert ArmedTimers(Flush(b)) == ArmedTimers(b.(timers := Flush(b).timers));
      if b.timer.Some? && b.timer.value in b.timers && b.timers[b.timer.value].Armed? {
        RemovedTimer(b, b.timer.value);
      } else {
        assert ArmedTimers(Flush(b)) == ArmedTimers(b);
      }
    }
  }

  lemma ArmCostsTwo<T>(b: BatcherState<T>, timer: Timer)
    requires b.nextTimer !in b.timers
    ensures TimerWork(b.(timers := b.timers[b.nextTimer := timer])) <= TimerWork(b) + 2
  {
    var b' := b.(timers := b.timers[b.nextTimer := timer]);
    assert b'.timers.Keys == b.timers.Keys + {b.nextTimer};
    assert |b.timers.Keys| == |b.timers| && |b'.timers.Keys| == |b'.timers|;
    assert ArmedTimers(b') <= ArmedTimers(b) + {b.nextTimer};
    SubsetSize(ArmedTimers(b'), ArmedTimers(b) + {b.nextTimer});
  }

  lemma {:induction false} SubsetSize(a: set<nat>, b: set<nat>)
    requires a <= b
    ensures |a| <= |b|
  {
    assert b == a + (b - a);
  }

  lemma SameTimers<T>(b: BatcherState<T>, b': BatcherState<T>)
    requires b'.timers == b.timers
    ensures TimerWork(b') == TimerWork(b)
  {
    assert ArmedTimers(b') == ArmedTimers(b);
  }

  lemma AppendArmsOne<T>(b: BatcherState<T>, e: T, now: int, maxWait: int)
    requires forall t :: t in b.timers ==> t < b.nextTimer
    ensures TimerWork(BatcherSpec.Append(b, e, now, maxWait)) <= TimerWork(b) + 2
  {
    var timer := Armed(now + maxWait);
    ArmCostsTwo(b, timer);
    hide TimerWork;
    var b' := BatcherSpec.Append(b, e, now, maxWait);
    SameTimers(b.(timers := b.timers[b.nextTimer := timer]), b'.(timers := b.timers[b.nextTimer := timer]));
    SameTimers(b, b'.(timers := b.timers));
  }

  lemma AtLeastOne(count: nat, cost: nat)
    requires count >= 1
    ensures count * cost >= cost
  {
  }

  lemma NewFlightWork(cfg: Config, w: Worker, who: Lock)
    ensures FlightWork(StartFlight(cfg, w, who).flight) <= 1 + |cfg.plugins| * 2
  {
    SumByBound(seq(|cfg.plugins|, _ => Idle), WriteSteps, 2);
  }

  lemma StartDecreases(cfg: Config, w: Worker, who: Lock)
    requires w.flight.NoFlight? && w.batcher.events != []
    ensures Work(|cfg.plugins|, StartFlight(cfg, w, who)) < Work(|cfg.plugins|, w)
  {
    FlushArmsNothing(w.batcher);
    NewFlightWork(cfg, w, who);
    AtLeastOne(|w.batcher.events|, EventWork(|cfg.plugins|));
    hide SumBy, TimerWork, PcWork;
  }

  lemma WriteDecreases(w: Worker, p: nat, next: Write, plugins: nat)
    requires w.flight.Flight? && p < |w.flight.writes| && WriteSteps(next) < WriteSteps(w.flight.writes[p])
    ensures FlightWork(w.flight.(writes := w.flight.writes[p := next])) < FlightWork(w.flight)
  {
    SumByUpdate(w.flight.writes, p, next, WriteSteps);
  }

  lemma ActDecreases(cfg: Config, now: int, w: Worker, a: Action)
    requires WorkerOk(cfg, now, w) && ActionEnabled(cfg, now, w, a)
    ensures Work(|cfg.plugins|, Act(cfg, now, w, a)) < Work(|cfg.plugins|, w)
  {
    hide HistoryOk, FanOutOk, SumBy;
    var n := |cfg.plugins|;
    match a
    case Append =>
      AppendArmsOne(w.batcher, w.pc.item, now, cfg.flushInterval);
      assert (|w.batcher.events| + 1) * EventWork(n) == |w.batcher.events| * EventWork(n) + EventWork(n);
    case AddReturn =>
    case SizeFlush => StartDecreases(cfg, w, ByWorker);
    case FinalFlush =>
      if w.batcher.events != [] {
        StartDecreases(cfg, w, ByWorker);
      }
    case FireTimer(t) => FireCostsOne(w.batcher, t);
    case RunCallback(t) =>
      ConsumeCostsOne(w.batcher, t);
      if w.batcher.events != [] {
        StartDecreases(cfg, w.(batcher := Consume(w.batcher, t)), ByCallback);
      }
    case BeginWrite(p) =>
      WriteDecreases(w, p, Writing, n);
      WriteDecreases(w, p, Written, n);
    case EndWrite(p, ok) => WriteDecreases(w, p, Written, n);
  }

  // ---- The whole system ----

  lemma SwapWorker(cfg: Config, s: State, k: nat, w: Worker)
    requires k < |s.workers|
    ensures Measure(cfg, SetWorker(s, k, w)) + Work(|cfg.plugins|, s.workers[k])
         == Measure(cfg, s) + Work(|cfg.plugins|, w)
  {
    hide SumBy, Work, ItemWork;
    SumByUpdate(s.workers, k, w, WorkWith(|cfg.plugins|));
  }

  lemma SwapSubmission(cfg: Config, s: State, i: nat, sub: Submission)
    requires i < |s.submits|
    ensures Measure(cfg, s.(submits := s.submits[i := sub])) + SubmitSteps(s.submits[i])
         == Measure(cfg, s) + SubmitSteps(sub)
  {
    hide SumBy, SubmitSteps, ItemWork;
    SumByUpdate(s.submits, i, sub, SubmitSteps);
  }

  /** The fields the measure looks at. */
  lemma MeasureFrame(cfg: Config, s: State, s': State)
    requires s'.channel == s.channel && s'.workers == s.workers && s'.submits == s.submits
    requires s'.panicked == s.panicked && s'.shutdown == s.shutdown
    ensures Measure(cfg, s') == Measure(cfg, s)
  {
    hide SumBy, ItemWork;
  }

  lemma TakeFromChannel(cfg: Config, s: State)
    requires s.channel != []
    ensures Measure(cfg, s.(channel := s.channel[1..])) == Measure(cfg, s) - ItemWork(|cfg.plugins|)
  {
    hide SumBy, ItemWork;
    var c := ItemWork(|cfg.plugins|);
    assert |s.channel| * c == (|s.channel| - 1) * c + c;
  }

  lemma DoDecreases(cfg: Config, s: State, k: nat, a: Action)
    requires PoolInv(cfg, s) && Enabled(cfg, s, Do(k, a))
    ensures Measure(cfg, Apply(cfg, s, Do(k, a))) < Measure(cfg, s)
  {
    hide QueueOk, ProcessedOk, ExitOk, ShutdownOk, SubmitEffect, SubmitEnabled, ControlEffect, ControlEnabled;
    hide Act, ActionEnabled, Measure, Work;
    assert WorkerOk(cfg, s.now, s.workers[k]);
    ActDecreases(cfg, s.now, s.workers[k], a);
    var w := Act(cfg, s.now, s.workers[k], a);
    SwapWorker(cfg, s, k, w);
    MeasureFrame(cfg, SetWorker(s, k, w), Apply(cfg, s, Do(k, a)));
  }

  lemma ReceiveDecreases(cfg: Config, s: State, k: nat)
    requires Enabled(cfg, s, Receive(k))
    ensures Measure(cfg, Apply(cfg, s, Receive(k))) < Measure(cfg, s)
  {
    hide SubmitEffect, SubmitEnabled, ControlEffect, ControlEnabled, Measure, TimerWork, FlightWork;
    var s' := Apply(cfg, s, Receive(k));
    var w' := s'.workers[k];
    SwapWorker(cfg, s, k, w');
    TakeFromChannel(cfg, SetWorker(s, k, w'));
    MeasureFrame(cfg, SetWorker(s, k, w').(channel := s.channel[1..]), s');
  }

  lemma LandDecreases(plugins: nat, w: Worker)
    requires AllWritten(w) && (w.lock.ByWorker? ==> w.pc.Adding? || w.pc.Stopping?)
    ensures Work(plugins, Land(w)) < Work(plugins, w)
  {
    hide SumBy, TimerWork;
  }

  lemma LeaveDecreases(cfg: Config, s: State, l: Label)
    requires PoolInv(cfg, s) && Enabled(cfg, s, l) && (l.StopSignal? || l.Complete?)
    ensures Measure(cfg, Apply(cfg, s, l)) < Measure(cfg, s)
  {
    hide QueueOk, ProcessedOk, ExitOk, ShutdownOk, SubmitEffect, SubmitEnabled, ControlEffect, ControlEnabled;
    hide Measure, BatcherOk, HistoryOk, FanOutOk, FlightWork, TimerWork;
    var s' := Apply(cfg, s, l);
    var w, w' := s.workers[l.k], s'.workers[l.k];
    assert WorkerOk(cfg, s.now, w);
    hide WorkersOk;
    if l.Complete? {
      LandDecreases(|cfg.plugins|, w);
    }
    SwapWorker(cfg, s, l.k, w');
    MeasureFrame(cfg, SetWorker(s, l.k, w'), s');
  }

  lemma WorkerDecreases(cfg: Config, s: State, l: Label)
    requires PoolInv(cfg, s) && Enabled(cfg, s, l) && OnWorker(l)
    ensures Measure(cfg, Apply(cfg, s, l)) < Measure(cfg, s)
  {
    hide PoolInv, Enabled, Apply, Measure;
    if l.Do? {
      DoDecreases(cfg, s, l.k, l.action);
    } else if l.Receive? {
      ReceiveDecreases(cfg, s, l.k);
    } else {
      LeaveDecreases(cfg, s, l);
    }
  }

  lemma PanicDecreases(cfg: Config, s: State)
    requires !s.panicked
    ensures Measure(cfg, s.(panicked := true)) < Measure(cfg, s)
  {
    hide SumBy, ItemWork;
  }

  lemma SubmitDecreases(cfg: Config, s: State, l: Label)
    requires SubmitInv(s) && Enabled(cfg, s, l) && OnSubmission(l) && s.closed
    ensures Measure(cfg, Apply(cfg, s, l)) < Measure(cfg, s)
  {
    ApplySubmission(cfg, s, l);
    assert SubmissionOk(s.submits[l.i], s.closed, s.cancelled, s.panicked);
    hide Enabled, Apply, SentOk, CountsOk, SubmissionsOk, SubmissionOk, ShutdownOk, Key, CheckAllowed, OutcomeOf;
    hide Measure, DedupSpec.Mark;
    var s' := SubmitEffect(cfg, s, l);
    if Sends(cfg, s, l) {
      PanicDecreases(cfg, s);
    } else {
      var sub := s'.submits[l.i];
      assert SubmitSteps(sub) < SubmitSteps(s.submits[l.i]);
      SwapSubmission(cfg, s, l.i, sub);
      MeasureFrame(cfg, s.(submits := s.submits[l.i := sub]), s');
    }
    MeasureFrame(cfg, s', Apply(cfg, s, l));
  }

  lemma ControlDecreases(cfg: Config, s: State, l: Label)
    requires Enabled(cfg, s, l) && s.closed && !OnSubmission(l) && !OnWorker(l) && !External(l)
    ensures Measure(cfg, Apply(cfg, s, l)) < Measure(cfg, s)
  {
    hide SumBy, SubmitEffect, SubmitEnabled, WorkerEffect, WorkerEnabled;
  }

  /** Draining terminates: once the channel is closed, every step of a Submit, a worker, a
      batcher, a plugin write, a timer callback or Shutdown strictly decreases the measure. */
  lemma DrainStepDecreases(cfg: Config, s: State, l: Label)
    requires Inv(cfg, s) && s.closed && Enabled(cfg, s, l) && !External(l)
    ensures Measure(cfg, Apply(cfg, s, l)) < Measure(cfg, s)
  {
    hide Measure, Enabled, Apply, PoolInv, SubmitInv;
    if OnSubmission(l) {
      SubmitDecreases(cfg, s, l);
    } else if OnWorker(l) {
      WorkerDecreases(cfg, s, l);
    } else {
      ControlDecreases(cfg, s, l);
    }
  }

  lemma ExternalKeepsMeasure(cfg: Config, s: State, l: Label)
    requires Enabled(cfg, s, l) && External(l) && !l.SubmitStart?
    ensures Measure(cfg, Apply(cfg, s, l)) == Measure(cfg, s)
  {
    hide SumBy, SubmitEffect, SubmitEnabled, WorkerEffect, WorkerEnabled;
  }

  lemma StaysClosed(cfg: Config, s: State, l: Label)
    requires Enabled(cfg, s, l) && s.closed
    ensures Apply(cfg, s, l).closed
  {
    hide Act, ActionEnabled, Land, OutcomeOf, Key, CheckAllowed, AllExited, AllWritten;
  }

  function InternalSteps(ls: seq<Label>): nat {
    SumBy(ls, IfInternal)
  }

  function IfInternal(l: Label): nat {
    if External(l) then 0 else 1
  }

  lemma DrainStep(cfg: Config, s: State, l: Label)
    requires Inv(cfg, s) && s.closed && Enabled(cfg, s, l) && !l.SubmitStart?
    ensures Apply(cfg, s, l).closed
    ensures IfInternal(l) + Measure(cfg, Apply(cfg, s, l)) <= Measure(cfg, s)
  {
    hide Inv, Measure, Enabled, Apply;
    StaysClosed(cfg, s, l);
    if External(l) {
      ExternalKeepsMeasure(cfg, s, l);
    } else {
      DrainStepDecreases(cfg, s, l);
    }
  }

  /** However a closed pipeline goes on, without new calls to Submit, it takes no more than
      Measure further steps. */
  lemma {:induction false} DrainIsBounded(cfg: Config, ls: seq<Label>, more: seq<Label>)
    requires Run(cfg, ls).Some? && Run(cfg, ls).value.closed && Run(cfg, ls + more).Some?
    requires forall i :: 0 <= i < |more| ==> !more[i].SubmitStart?
    ensures Run(cfg, ls + more).value.closed
    ensures InternalSteps(more) + Measure(cfg, Run(cfg, ls + more).value) <= Measure(cfg, Run(cfg, ls).value)
  {
    hide Measure, Enabled, Apply, Inv, SumBy, IfInternal;
    if more == [] {
      assert ls + more == ls;
      assert InternalSteps([]) == 0 by { NoInternalSteps(); }
    } else {
      var n := |more| - 1;
      assert (ls + more)[..|ls + more| - 1] == ls + more[..n];
      DrainIsBounded(cfg, ls, more[..n]);
      RunKeepsInv(cfg, ls + more[..n]);
      DrainStep(cfg, Run(cfg, ls + more[..n]).value, more[n]);
      assert more == more[..n] + [more[n]];
      SumBySnoc(more[..n], more[n], IfInternal);
    }
  }

  lemma NoInternalSteps()
    ensures InternalSteps([]) == 0
  {
  }

  // ---- Progress ----

  /** A worker that has not exited can take a step, by itself or through its batch; after a
      cancellation it need not receive for that. */
  lemma WorkerCanStep(cfg: Config, s: State, k: nat) returns (l: Label)
    requires PoolInv(cfg, s) && !s.panicked && s.closed
    requires k < |s.workers| && !s.workers[k].pc.Exited?
    ensures Enabled(cfg, s, l) && OnWorker(l) && (s.cancelled ==> !l.Receive?)
  {
    hide QueueOk, ProcessedOk, ExitOk, ShutdownOk, BatcherOk, HistoryOk;
    var w := s.workers[k];
    assert WorkerOk(cfg, s.now, w);
    hide WorkersOk;
    if w.flight.Flight? {
      if p: nat :| p < |w.flight.writes| && w.flight.writes[p].Idle? {
        l := Do(k, BeginWrite(p));
      } else if p: nat :| p < |w.flight.writes| && w.flight.writes[p].Writing? {
        l := Do(k, EndWrite(p, true));
      } else {
        l := Complete(k);
      }
    } else if w.pc.Adding? {
      l := if |w.batcher.events| < cfg.batchSize then Do(k, AddReturn) else Do(k, SizeFlush);
    } else if w.pc.Holding? {
      l := Do(k, Append);
    } else if w.pc.Stopping? {
      l := Do(k, FinalFlush);
    } else {
      l := if s.channel == [] || s.cancelled then StopSignal(k) else Receive(k);
    }
  }

  /** Where the drain ends: if the channel is closed and nothing but time can move, every
      worker has exited and Shutdown has returned; and if it was not cut short by the
      timeout, everything accepted has been processed. */
  lemma DrainEndsComplete(cfg: Config, ls: seq<Label>)
    requires Run(cfg, ls).Some? && Run(cfg, ls).value.closed && !Run(cfg, ls).value.panicked && Validated(cfg)
    requires forall l :: OnWorker(l) || l.ShutdownReturn? ==> !Enabled(cfg, Run(cfg, ls).value, l)
    ensures
      var s := Run(cfg, ls).value;
      && AllExited(s)
      && (s.shutdown.Returned? || s.shutdown.TimedOut?)
      && (s.shutdown.Returned? ==> s.channel == [] && UnionBy(s.workers, ProcessedSet) == multiset(s.sent))
  {
    RunKeepsInv(cfg, ls);
    var s := Run(cfg, ls).value;
    hide Run, SubmitInv, UnionBy;
    forall k | 0 <= k < |s.workers|
      ensures s.workers[k].pc.Exited?
    {
      if !s.workers[k].pc.Exited? {
        var l := WorkerCanStep(cfg, s, k);
        assert false;
      }
    }
    ReturnIsEnabled(cfg, s);
    if s.shutdown.Returned? {
      GracefulShutdownCompletes(cfg, ls);
    }
  }

  lemma ReturnIsEnabled(cfg: Config, s: State)
    requires PoolInv(cfg, s) && !s.panicked && s.closed && AllExited(s)
    ensures s.shutdown.Returned? || s.shutdown.TimedOut? || Enabled(cfg, s, ShutdownReturn)
  {
    hide WorkersOk, QueueOk, ProcessedOk, ExitOk;
  }
}
