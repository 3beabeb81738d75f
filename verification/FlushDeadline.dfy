/** How long an event stays buffered when due timers are served on time. */
module FlushDeadline {
  import opened Collections
  import opened BatcherSpec
  import opened Pipeline
  import opened WorkerInvariant
  import opened SystemInvariant

  /** Time may pass by `d` for worker `w`: no armed timer becomes overdue, and a launched
      callback is kept waiting only by a batch that is being written. */
  ghost predicate Served(w: Worker, now: int, d: nat) {
    && (forall t :: t in w.batcher.timers && w.batcher.timers[t].Armed? ==> now + d <= w.batcher.timers[t].deadline)
    && (w.flight.NoFlight? ==> forall t :: t in w.batcher.timers ==> w.batcher.timers[t].Armed?)
  }

  ghost predicate ServedStep(s: State, l: Label) {
    l.Tick? ==> forall k :: 0 <= k < |s.workers| ==> Served(s.workers[k], s.now, l.delay)
  }

  /** A run in which timers fire, and their callbacks take a free mutex, before time
      advances past them. Writes may take any time. */
  ghost predicate Timely(cfg: Config, ls: seq<Label>)
    requires Run(cfg, ls).Some?
  {
    ls == []
    || (Timely(cfg, ls[..|ls| - 1]) && ServedStep(Run(cfg, ls[..|ls| - 1]).value, ls[|ls| - 1]))
  }

  /** The oldest buffered event, and so every one, is no older than the interval. */
  ghost predicate Fresh(cfg: Config, now: int, w: Worker) {
    w.batcher.addedAt != [] ==>
      now <= w.batcher.addedAt[0] || now <= w.batcher.addedAt[0] + cfg.flushInterval
  }

  lemma ActKeepsFresh(cfg: Config, now: int, w: Worker, a: Action)
    requires TimerInv(w.batcher, now, cfg.flushInterval)
    requires Fresh(cfg, now, w) && ActionEnabled(cfg, now, w, a)
    ensures Fresh(cfg, now, Act(cfg, now, w, a))
  {
  }

  lemma TickKeepsFresh(cfg: Config, now: int, d: nat, w: Worker)
    requires TimerInv(w.batcher, now, cfg.flushInterval) && LockOk(cfg, w)
    requires Served(w, now, d)
    ensures Fresh(cfg, now + d, w)
  {
    if w.batcher.addedAt != [] {
      assert w.flight.NoFlight? && w.batcher.timer.value in w.batcher.timers;
    }
  }

  ghost predicate AllFresh(cfg: Config, s: State) {
    forall k :: 0 <= k < |s.workers| ==> Fresh(cfg, s.now, s.workers[k])
  }

  lemma OneKeepsAllFresh(cfg: Config, s: State, s': State, k: nat)
    requires AllFresh(cfg, s) && k < |s.workers| == |s'.workers|
    requires s'.workers == s.workers[k := s'.workers[k]] && s'.now == s.now
    requires Fresh(cfg, s.now, s'.workers[k])
    ensures AllFresh(cfg, s')
  {
    hide Fresh;
  }

  lemma WorkerStepKeepsFresh(cfg: Config, s: State, l: Label)
    requires WorkersOk(cfg, s.now, s.workers) && AllFresh(cfg, s)
    requires OnWorker(l) && WorkerEnabled(cfg, s, l)
    ensures AllFresh(cfg, WorkerEffect(cfg, s, l))
  {
    hide LockOk, HistoryOk, FanOutOk, BatchesInv, TimerInv, Act, ActionEnabled;
    assert WorkerOk(cfg, s.now, s.workers[l.k]) && Fresh(cfg, s.now, s.workers[l.k]);
    hide WorkersOk, AllFresh;
    if l.Do? {
      ActKeepsFresh(cfg, s.now, s.workers[l.k], l.action);
    }
    var s' := WorkerEffect(cfg, s, l);
    OneKeepsAllFresh(cfg, s, s', l.k);
  }

  lemma SubmitKeepsFresh(cfg: Config, s: State, l: Label)
    requires AllFresh(cfg, s) && OnSubmission(l) && Enabled(cfg, s, l)
    ensures AllFresh(cfg, Apply(cfg, s, l))
  {
    hide Fresh;
    if Sends(cfg, s, l) {
      ApplySubmission(cfg, s, l);
      hide Enabled, Apply;
    } else {
      SubmissionFrame(cfg, s, l);
      hide Apply, Enabled;
    }
  }

  lemma TickKeepsAllFresh(cfg: Config, s: State, d: nat)
    requires WorkersOk(cfg, s.now, s.workers)
    requires forall k :: 0 <= k < |s.workers| ==> Served(s.workers[k], s.now, d)
    ensures AllFresh(cfg, s.(now := s.now + d, step := s.step + 1))
  {
    forall k | 0 <= k < |s.workers|
      ensures Fresh(cfg, s.now + d, s.workers[k])
    {
      hide HistoryOk, FanOutOk, Served, LockOk, TimerInv;
      assert WorkerOk(cfg, s.now, s.workers[k]);
      TickKeepsFresh(cfg, s.now, d, s.workers[k]);
    }
  }

  lemma ControlKeepsFresh(cfg: Config, s: State, l: Label)
    requires AllFresh(cfg, s) && !OnSubmission(l) && !OnWorker(l) && !l.Tick? && Enabled(cfg, s, l)
    ensures AllFresh(cfg, Apply(cfg, s, l))
  {
    hide Fresh, SubmitEffect, WorkerEffect, SubmitEnabled, WorkerEnabled;
  }

  lemma StepKeepsFresh(cfg: Config, s: State, l: Label)
    requires WorkersOk(cfg, s.now, s.workers) && AllFresh(cfg, s)
    requires Enabled(cfg, s, l) && ServedStep(s, l)
    ensures AllFresh(cfg, Apply(cfg, s, l))
  {
    hide WorkersOk, Fresh, Served, SubmitEffect, SubmitEnabled, WorkerEffect, WorkerEnabled;
    if OnSubmission(l) {
      hide Apply, Enabled, AllFresh;
      SubmitKeepsFresh(cfg, s, l);
    } else if OnWorker(l) {
      WorkerStepKeepsFresh(cfg, s, l);
    } else if l.Tick? {
      TickKeepsAllFresh(cfg, s, l.delay);
    } else {
      hide Apply, Enabled, AllFresh;
      ControlKeepsFresh(cfg, s, l);
    }
  }

  lemma {:induction false} TimelyRunIsFresh(cfg: Config, ls: seq<Label>)
    requires Run(cfg, ls).Some? && Timely(cfg, ls)
    ensures AllFresh(cfg, Run(cfg, ls).value)
  {
    if ls != [] {
      var before := ls[..|ls| - 1];
      TimelyRunIsFresh(cfg, before);
      RunKeepsInv(cfg, before);
      var s := Run(cfg, before).value;
      assert WorkersOk(cfg, s.now, s.workers) by { hide Run, WorkersOk, SubmitInv; }
      hide Enabled, Apply, PoolInv, SubmitInv, AllFresh, WorkersOk;
      StepKeepsFresh(cfg, s, ls[|ls| - 1]);
    }
  }

  /** The timer invariant, in every state of every run: something is buffered exactly
      while the timer field is set, and that timer is then armed or its callback is waiting,
      with the deadline of the oldest buffered event, whatever stale callbacks there are. */
  lemma TimerCoversTheBuffer(cfg: Config, ls: seq<Label>, k: nat)
    requires Run(cfg, ls).Some? && k < |Run(cfg, ls).value.workers|
    ensures
      var b := Run(cfg, ls).value.workers[k].batcher;
      && (b.events != [] <==> b.timer.Some?)
      && (b.timer.Some? ==>
            b.timer.value in b.timers && b.addedAt != []
            && b.timers[b.timer.value].deadline == b.addedAt[0] + cfg.flushInterval)
  {
    RunKeepsInv(cfg, ls);
    hide Run, SubmitInv, QueueOk, ProcessedOk, ExitOk, ShutdownOk, LockOk, HistoryOk, FanOutOk;
    var s := Run(cfg, ls).value;
    assert WorkerOk(cfg, s.now, s.workers[k]);
  }

  /** No event stays in a batcher's buffer longer than the flush interval, as long as due
      timers are served before time moves on. (Time spent in the channel, or at the mutex
      while a batch is being written, is not bounded by the interval.) */
  lemma BufferedNoLongerThanTheInterval(cfg: Config, ls: seq<Label>, k: nat, i: nat)
    requires Run(cfg, ls).Some? && Timely(cfg, ls)
    requires k < |Run(cfg, ls).value.workers|
    requires i < |Run(cfg, ls).value.workers[k].batcher.addedAt|
    ensures
      var s := Run(cfg, ls).value;
      var interval := if cfg.flushInterval < 0 then 0 else cfg.flushInterval;
      s.now - s.workers[k].batcher.addedAt[i] <= interval
  {
    TimelyRunIsFresh(cfg, ls);
    RunKeepsInv(cfg, ls);
    hide Run, SubmitInv, QueueOk, ProcessedOk, ExitOk, ShutdownOk, LockOk, HistoryOk, FanOutOk;
    var s := Run(cfg, ls).value;
    assert WorkerOk(cfg, s.now, s.workers[k]);
  }
}
