/** Exactly which accepted events can still wait longer than the flush interval, counted from
    their acceptance, although due timers are served on time. */
module Lateness {
  import opened Collections
  import opened BatcherSpec
  import opened Pipeline
  import opened WorkerInvariant
  import opened SystemInvariant
  import opened PipelineTheorems
  import opened FlushDeadline
  import opened WaitingTime
  import opened Drain

  /** Some worker has handed the event to processBatch. */
  ghost predicate HandedOn(s: State, x: Item) {
    exists k :: 0 <= k < |s.workers| && FlushedFrom(s.workers[k], x)
  }

  /** The event accepted as number `a` has waited past the interval and is not handed on. */
  ghost predicate Overdue(cfg: Config, s: State, a: nat) {
    && a < |s.sent| && a < |s.sentAt|
    && !HandedOn(s, s.sent[a]) && s.now - s.sentAt[a] > Interval(cfg)
  }

  // ---- Acceptance times ----

  lemma StepExtendsSent(cfg: Config, s: State, l: Label)
    requires Enabled(cfg, s, l)
    ensures
      var s' := Apply(cfg, s, l);
      || (s'.sent == s.sent && s'.sentAt == s.sentAt)
      || (exists x :: s'.sent == s.sent + [x] && s'.sentAt == s.sentAt + [s.now])
  {
    if OnWorker(l) {
      hide Act, ActionEnabled, Land, AllWritten, SubmitEffect, SubmitEnabled, ControlEffect, ControlEnabled;
    } else if OnSubmission(l) {
      ApplySubmission(cfg, s, l);
      hide Enabled, Apply, OutcomeOf, Key, CheckAllowed;
    } else {
      hide WorkerEffect, WorkerEnabled, SubmitEffect, SubmitEnabled, AllExited;
    }
  }

  lemma {:induction false} SentExtends(cfg: Config, ls: seq<Label>, more: seq<Label>)
    requires Run(cfg, ls).Some? && Run(cfg, ls + more).Some?
    ensures
      var s, s' := Run(cfg, ls).value, Run(cfg, ls + more).value;
      s.sent <= s'.sent && s.sentAt <= s'.sentAt
  {
    if more == [] {
      assert ls + more == ls;
    } else {
      var n := |more| - 1;
      assert (ls + more)[..|ls + more| - 1] == ls + more[..n];
      SentExtends(cfg, ls, more[..n]);
      hide Enabled, Apply;
      StepExtendsSent(cfg, Run(cfg, ls + more[..n]).value, more[n]);
    }
  }

  lemma {:induction false} EverySentHasItsTime(cfg: Config, ls: seq<Label>)
    requires Run(cfg, ls).Some?
    ensures |Run(cfg, ls).value.sentAt| == |Run(cfg, ls).value.sent|
  {
    if ls != [] {
      EverySentHasItsTime(cfg, ls[..|ls| - 1]);
      hide Enabled, Apply;
      StepExtendsSent(cfg, Run(cfg, ls[..|ls| - 1]).value, ls[|ls| - 1]);
    }
  }

  // ---- Letting time pass ----

  /** No timer of `w` is due before `until`, and no callback waits. */
  ghost predicate Patient(w: Worker, until: int) {
    forall t :: t in w.batcher.timers ==> w.batcher.timers[t].Armed? && until <= w.batcher.timers[t].deadline
  }

  /** What waiting leaves alone: the channel, worker `k` and every held event. */
  ghost predicate Waited(s: State, s': State, k: int) {
    && s'.channel == s.channel && s'.sent == s.sent && s'.sentAt == s.sentAt
    && s'.panicked == s.panicked && |s'.workers| == |s.workers|
    && (0 <= k < |s.workers| ==> s'.workers[k] == s.workers[k])
    && (forall j :: 0 <= j < |s.workers| && s.workers[j].pc.Holding? ==> s'.workers[j].pc == s.workers[j].pc)
  }

  lemma WaitedTwice(s: State, s1: State, s2: State, k: int)
    requires Waited(s, s1, k) && Waited(s1, s2, k)
    ensures Waited(s, s2, k)
  {
  }

  ghost predicate Serving(a: Action) {
    a.AddReturn? || a.SizeFlush? || a.FireTimer? || a.RunCallback?
  }

  lemma ServingKeepsHeld(cfg: Config, now: int, w: Worker, a: Action)
    requires ActionEnabled(cfg, now, w, a) && Serving(a)
    ensures w.pc.Holding? ==> Act(cfg, now, w, a).pc == w.pc
  {
  }

  lemma ApplyServing(cfg: Config, s: State, j: nat, a: Action, k: int)
    requires !s.panicked && j < |s.workers| && j != k
    requires ActionEnabled(cfg, s.now, s.workers[j], a) && Serving(a)
    ensures Enabled(cfg, s, Do(j, a))
    ensures Waited(s, Apply(cfg, s, Do(j, a)), k) && Apply(cfg, s, Do(j, a)).now == s.now
  {
    ServingKeepsHeld(cfg, s.now, s.workers[j], a);
    hide Act, ActionEnabled, Serving, SubmitEffect, SubmitEnabled, ControlEffect, ControlEnabled, Land, AllWritten;
  }

  lemma ServeWorker(cfg: Config, ls: seq<Label>, j: nat, a: Action, k: int)
    requires Run(cfg, ls).Some? && Timely(cfg, ls) && !Run(cfg, ls).value.panicked
    requires j < |Run(cfg, ls).value.workers| && j != k
    requires ActionEnabled(cfg, Run(cfg, ls).value.now, Run(cfg, ls).value.workers[j], a) && Serving(a)
    ensures Run(cfg, ls + [Do(j, a)]).Some? && Timely(cfg, ls + [Do(j, a)])
    ensures
      var s, s' := Run(cfg, ls).value, Run(cfg, ls + [Do(j, a)]).value;
      Waited(s, s', k) && s'.now == s.now && Measure(cfg, s') < Measure(cfg, s)
  {
    var s := Run(cfg, ls).value;
    RunKeepsInv(cfg, ls);
    assert PoolInv(cfg, s) by { hide Run, PoolInv, SubmitInv; }
    assert ServedStep(s, Do(j, a));
    hide *;
    ApplyServing(cfg, s, j, a, k);
    RunSnoc(cfg, ls, Do(j, a));
    TimelySnoc(cfg, ls, Do(j, a));
    DoDecreases(cfg, s, j, a);
  }

  /** A waiting callback at a free mutex runs; at a mutex held by its worker, Add goes on. */
  lemma CallbackCanBeServed(cfg: Config, now: int, w: Worker, t: nat) returns (a: Action)
    requires LockOk(cfg, w) && w.flight.NoFlight? && CanRun(w.batcher, t)
    ensures ActionEnabled(cfg, now, w, a) && Serving(a)
  {
    if w.lock.Free? {
      a := RunCallback(t);
    } else {
      a := if |w.batcher.events| < cfg.batchSize then AddReturn else SizeFlush;
    }
  }

  /** Time may pass until `until` for `w`. */
  ghost predicate Ready(w: Worker, until: int) {
    && (w.flight.NoFlight? ==> forall t :: t in w.batcher.timers ==> w.batcher.timers[t].Armed?)
    && forall t :: t in w.batcher.timers && w.batcher.timers[t].Armed? ==> until <= w.batcher.timers[t].deadline
  }

  lemma ReadyIsServed(s: State, until: int)
    requires s.now <= until && forall j :: 0 <= j < |s.workers| ==> Ready(s.workers[j], until)
    ensures ServedStep(s, Tick(until - s.now))
  {
    forall j | 0 <= j < |s.workers|
      ensures Served(s.workers[j], s.now, until - s.now)
    {
      assert Ready(s.workers[j], until);
    }
  }

  lemma TickWaits(s: State, k: int, until: int)
    ensures Waited(s, s.(now := until, step := s.step + 1), k)
  {
  }

  lemma PassTime(cfg: Config, ls: seq<Label>, k: int, until: int)
    requires Run(cfg, ls).Some? && Timely(cfg, ls) && !Run(cfg, ls).value.panicked
    requires Run(cfg, ls).value.now <= until
    requires
      forall j :: 0 <= j < |Run(cfg, ls).value.workers| ==> Ready(Run(cfg, ls).value.workers[j], until)
    ensures Run(cfg, ls + [Tick(until - Run(cfg, ls).value.now)]).Some?
    ensures Timely(cfg, ls + [Tick(until - Run(cfg, ls).value.now)])
    ensures
      var s, s' := Run(cfg, ls).value, Run(cfg, ls + [Tick(until - Run(cfg, ls).value.now)]).value;
      Waited(s, s', k) && s'.now == until && Measure(cfg, s') == Measure(cfg, s)
  {
    hide *;
    var s := Run(cfg, ls).value;
    var d: nat := until - s.now;
    ReadyIsServed(s, until);
    TickWaits(s, k, until);
    RunTick(cfg, ls, d);
    MeasureFrame(cfg, s, s.(now := until, step := s.step + 1));
  }

  /** A worker that keeps time from passing now can be served now. */
  lemma ServeNow(cfg: Config, ls: seq<Label>, j: nat, t: nat) returns (a: Action)
    requires Run(cfg, ls).Some? && j < |Run(cfg, ls).value.workers|
    requires
      var s := Run(cfg, ls).value;
      || CanFire(s.workers[j].batcher, t, s.now)
      || (s.workers[j].flight.NoFlight? && CanRun(s.workers[j].batcher, t))
    ensures ActionEnabled(cfg, Run(cfg, ls).value.now, Run(cfg, ls).value.workers[j], a) && Serving(a)
  {
    RunKeepsInv(cfg, ls);
    hide Run, SubmitInv, QueueOk, ProcessedOk, ExitOk, ShutdownOk, BatcherOk, LockOk, HistoryOk, FanOutOk;
    var s := Run(cfg, ls).value;
    assert WorkerOk(cfg, s.now, s.workers[j]);
    hide WorkersOk;
    if CanFire(s.workers[j].batcher, t, s.now) {
      a := FireTimer(t);
    } else {
      a := CallbackCanBeServed(cfg, s.now, s.workers[j], t);
    }
  }

  ghost predicate Due(s: State, j: int, t: nat) {
    && 0 <= j < |s.workers|
    && (CanFire(s.workers[j].batcher, t, s.now)
        || (s.workers[j].flight.NoFlight? && CanRun(s.workers[j].batcher, t)))
  }

  ghost predicate DueBefore(s: State, j: int, t: nat, until: int) {
    && 0 <= j < |s.workers| && t in s.workers[j].batcher.timers
    && s.workers[j].batcher.timers[t].Armed?
    && s.now < s.workers[j].batcher.timers[t].deadline < until
  }

  lemma DueWorker(s: State, j: int, t: nat)
    requires Due(s, j, t)
    ensures 0 <= j < |s.workers|
    ensures CanFire(s.workers[j].batcher, t, s.now)
         || (s.workers[j].flight.NoFlight? && CanRun(s.workers[j].batcher, t))
  {
  }

  lemma DueTime(s: State, j: int, t: nat, until: int) returns (due: int)
    requires DueBefore(s, j, t, until)
    ensures s.now < due < until
  {
    due := s.workers[j].batcher.timers[t].deadline;
  }

  lemma NothingDue(s: State, k: int, until: int)
    requires s.now <= until
    requires forall j, t :: j != k ==> !Due(s, j, t) && !DueBefore(s, j, t, until)
    requires Spared(s, k, until)
    ensures forall j :: 0 <= j < |s.workers| ==> Ready(s.workers[j], until)
  {
    forall j | 0 <= j < |s.workers|
      ensures Ready(s.workers[j], until)
    {
      forall t | t in s.workers[j].batcher.timers
        ensures s.workers[j].flight.NoFlight? ==> s.workers[j].batcher.timers[t].Armed?
        ensures s.workers[j].batcher.timers[t].Armed? ==> until <= s.workers[j].batcher.timers[t].deadline
      {
        if j != k {
          assert !Due(s, j, t) && !DueBefore(s, j, t, until);
        }
      }
    }
  }

  /** Worker `k`, if there is one, lets time pass until `until`. */
  ghost predicate Spared(s: State, k: int, until: int) {
    0 <= k < |s.workers| ==> Patient(s.workers[k], until)
  }

  lemma StillSpared(s: State, s': State, k: int, until: int, sooner: int)
    requires Spared(s, k, until) && Waited(s, s', k) && sooner <= until
    ensures Spared(s', k, sooner)
  {
  }

  lemma WaitedOnly(s: State, s': State, k: int)
    requires Waited(s, s', k)
    ensures s'.panicked == s.panicked
  {
  }

  lemma WaitedNot(s: State, k: int)
    ensures Waited(s, s, k)
  {
  }

  /** Time can be made to pass until `until` without touching the channel, a held event or
      worker `k` (if any), as long as no timer of `k` is due before: the other workers'
      timers are served as they become due, and their writes may take as long as needed. */
  lemma {:induction false} WaitUntil(cfg: Config, ls: seq<Label>, k: int, until: int) returns (more: seq<Label>)
    requires Run(cfg, ls).Some? && Timely(cfg, ls) && !Run(cfg, ls).value.panicked
    requires Run(cfg, ls).value.now <= until
    requires Spared(Run(cfg, ls).value, k, until)
    ensures Run(cfg, ls + more).Some? && Timely(cfg, ls + more)
    ensures
      var s, s' := Run(cfg, ls).value, Run(cfg, ls + more).value;
      Waited(s, s', k) && s'.now == until && Measure(cfg, s') <= Measure(cfg, s)
    decreases Measure(cfg, Run(cfg, ls).value), until - Run(cfg, ls).value.now
  {
    hide *;
    var s := Run(cfg, ls).value;
    if j, t :| j != k && Due(s, j, t) {
      DueWorker(s, j, t);
      var a := ServeNow(cfg, ls, j, t);
      ServeWorker(cfg, ls, j, a, k);
      StillSpared(s, Run(cfg, ls + [Do(j, a)]).value, k, until, until);
      assert !Run(cfg, ls + [Do(j, a)]).value.panicked by { WaitedOnly(s, Run(cfg, ls + [Do(j, a)]).value, k); }
      var rest := WaitUntil(cfg, ls + [Do(j, a)], k, until);
      more := [Do(j, a)] + rest;
      assert ls + more == ls + [Do(j, a)] + rest;
      WaitedTwice(s, Run(cfg, ls + [Do(j, a)]).value, Run(cfg, ls + more).value, k);
    } else if j, t :| j != k && DueBefore(s, j, t, until) {
      var due := DueTime(s, j, t, until);
      WaitedNot(s, k);
      StillSpared(s, s, k, until, due);
      var first := WaitUntil(cfg, ls, k, due);
      StillSpared(s, Run(cfg, ls + first).value, k, until, until);
      WaitedOnly(s, Run(cfg, ls + first).value, k);
      var rest := WaitUntil(cfg, ls + first, k, until);
      more := first + rest;
      assert ls + more == ls + first + rest;
      WaitedTwice(s, Run(cfg, ls + first).value, Run(cfg, ls + more).value, k);
    } else {
      NothingDue(s, k, until);
      PassTime(cfg, ls, k, until);
      more := [Tick(until - s.now)];
    }
  }

  // ---- Who can be late ----

  /** Buffered by worker `k` behind an event appended after acceptance time `at`; and overdue
      already, or no launched callback waits to flush the buffer before time can pass. */
  ghost predicate LateInBuffer(cfg: Config, s: State, k: int, x: Item, at: int) {
    && 0 <= k < |s.workers| && x in s.workers[k].batcher.events
    && s.workers[k].batcher.addedAt != [] && at < s.workers[k].batcher.addedAt[0]
    && (s.now - at > Interval(cfg)
        || forall t :: t in s.workers[k].batcher.timers ==> s.workers[k].batcher.timers[t].Armed?)
  }

  ghost predicate CanBeLate(cfg: Config, s: State, x: Item, at: int) {
    || x in s.channel
    || (exists k :: 0 <= k < |s.workers| && x in Held(s.workers[k]))
    || (exists k :: LateInBuffer(cfg, s, k, x, at))
  }

  // ---- It can: the waiting run ----

  lemma UnhandedStays(cfg: Config, s: State, x: Item)
    requires Inv(cfg, s)
    requires x in s.channel || exists k :: 0 <= k < |s.workers|
                                 && (x in Held(s.workers[k]) || x in s.workers[k].batcher.events)
    ensures !HandedOn(s, x)
  {
    hide Inv, Flatten, Held, InFlight;
    if x in s.channel {
      QueuedOnly(cfg, s, x);
    } else {
      var k :| 0 <= k < |s.workers| && (x in Held(s.workers[k]) || x in s.workers[k].batcher.events);
      OnePlace(cfg, s, x, k);
      forall j | 0 <= j < |s.workers|
        ensures !FlushedFrom(s.workers[j], x)
      {
        if j != k {
          assert x !in Unprocessed(s.workers[j]);
        }
      }
    }
  }

  /** Waiting leaves an event where it was. */
  lemma WaitingStays(s: State, s': State, k: int, x: Item)
    requires Waited(s, s', k)
    requires x in s.channel || (exists j :: 0 <= j < |s.workers| && x in Held(s.workers[j]))
             || (0 <= k < |s.workers| && x in s.workers[k].batcher.events)
    ensures x in s'.channel || exists j :: 0 <= j < |s'.workers|
                                 && (x in Held(s'.workers[j]) || x in s'.workers[j].batcher.events)
  {
    if j :| 0 <= j < |s.workers| && x in Held(s.workers[j]) {
      assert x in Held(s'.workers[j]);
    }
  }

  lemma WaitsPast(cfg: Config, ls: seq<Label>, a: nat, k: int, until: int) returns (more: seq<Label>)
    requires Run(cfg, ls).Some? && Timely(cfg, ls) && !Run(cfg, ls).value.panicked
    requires a < |Run(cfg, ls).value.sent| && a < |Run(cfg, ls).value.sentAt|
    requires
      var s := Run(cfg, ls).value;
      var x := s.sent[a];
      && s.now <= until && s.sentAt[a] + Interval(cfg) < until && Spared(s, k, until)
      && (x in s.channel || (exists j :: 0 <= j < |s.workers| && x in Held(s.workers[j]))
          || (0 <= k < |s.workers| && x in s.workers[k].batcher.events))
    ensures Run(cfg, ls + more).Some? && Timely(cfg, ls + more) && Overdue(cfg, Run(cfg, ls + more).value, a)
  {
    hide Run, Timely, Spared, Held, Measure, Inv;
    more := WaitUntil(cfg, ls, k, until);
    var s, s' := Run(cfg, ls).value, Run(cfg, ls + more).value;
    WaitingStays(s, s', k, s.sent[a]);
    RunKeepsInv(cfg, ls + more);
    UnhandedStays(cfg, s', s.sent[a]);
  }

  /** The state of a worker with something buffered. */
  lemma BufferedWorker(cfg: Config, ls: seq<Label>, k: nat)
    requires Run(cfg, ls).Some? && k < |Run(cfg, ls).value.workers|
    requires Run(cfg, ls).value.workers[k].batcher.events != []
    ensures
      var s := Run(cfg, ls).value;
      var w := s.workers[k];
      && WorkerOk(cfg, s.now, w) && w.flight.NoFlight?
      && w.batcher.addedAt != [] && w.batcher.addedAt[0] <= s.now
      && (forall t :: t in w.batcher.timers && w.batcher.timers[t].Armed? ==>
            w.batcher.timers[t].deadline == w.batcher.addedAt[0] + cfg.flushInterval)
      && |w.batcher.addedAt| == |w.batcher.events|
  {
    RunKeepsInv(cfg, ls);
    hide Run, SubmitInv, QueueOk, ProcessedOk, ExitOk, ShutdownOk, HistoryOk, FanOutOk;
    var s := Run(cfg, ls).value;
    assert WorkerOk(cfg, s.now, s.workers[k]);
  }

  lemma LateInBufferWaits(cfg: Config, ls: seq<Label>, a: nat, k: nat) returns (more: seq<Label>)
    requires Run(cfg, ls).Some? && Timely(cfg, ls) && !Run(cfg, ls).value.panicked
    requires a < |Run(cfg, ls).value.sent| && a < |Run(cfg, ls).value.sentAt|
    requires LateInBuffer(cfg, Run(cfg, ls).value, k, Run(cfg, ls).value.sent[a], Run(cfg, ls).value.sentAt[a])
    requires !HandedOn(Run(cfg, ls).value, Run(cfg, ls).value.sent[a])
    ensures Run(cfg, ls + more).Some? && Timely(cfg, ls + more) && Overdue(cfg, Run(cfg, ls + more).value, a)
  {
    hide Run, Timely, WorkerOk;
    var s := Run(cfg, ls).value;
    if s.now - s.sentAt[a] > Interval(cfg) {
      more := [];
      assert ls + more == ls;
    } else {
      BufferedWorker(cfg, ls, k);
      BufferedNoLongerThanTheInterval(cfg, ls, k, 0);
      more := WaitsPast(cfg, ls, a, k, s.workers[k].batcher.addedAt[0] + cfg.flushInterval);
    }
  }

  // ---- It cannot: buffered behind an older event, or about to be flushed ----

  /** An event accepted no earlier than the oldest one in its buffer was appended. */
  lemma NotLateBehindOlder(cfg: Config, ls: seq<Label>, more: seq<Label>, a: nat, k: nat)
    requires Run(cfg, ls).Some? && Run(cfg, ls + more).Some? && Timely(cfg, ls + more)
    requires a < |Run(cfg, ls).value.sent| && a < |Run(cfg, ls).value.sentAt| && k < |Run(cfg, ls).value.workers|
    requires
      var s := Run(cfg, ls).value;
      && s.sent[a] in s.workers[k].batcher.events && s.workers[k].batcher.addedAt != []
      && s.workers[k].batcher.addedAt[0] <= s.sentAt[a]
    ensures !Overdue(cfg, Run(cfg, ls + more).value, a)
  {
    hide Run, Timely, WorkerOk, FlushedFrom;
    var s, s' := Run(cfg, ls).value, Run(cfg, ls + more).value;
    var b := s.workers[k].batcher;
    BufferedWorker(cfg, ls, k);
    var x, first := s.sent[a], b.addedAt[0];
    var i :| 0 <= i < |b.events| && b.events[i] == x;
    RunKeepsTracked(cfg, ls, more, k, x, b.addedAt[i], first);
    SentExtends(cfg, ls, more);
    assert a < |s'.sentAt| ==> s'.sentAt[a] == s.sentAt[a];
    if !FlushedFrom(s'.workers[k], x) {
      BufferedNoLongerThanTheInterval(cfg, ls + more, k, 0);
    }
  }

  /** `x` is handed on by `k`, or still buffered at time `now` with callback `t` waiting. */
  ghost predicate Pinned(s: State, k: int, x: Item, t: nat, now: int) {
    && 0 <= k < |s.workers|
    && (|| FlushedFrom(s.workers[k], x)
        || (x in s.workers[k].batcher.events && CanRun(s.workers[k].batcher, t) && s.now == now))
  }

  ghost predicate PinnedWorker(w: Worker, x: Item, t: nat) {
    FlushedFrom(w, x) || (x in w.batcher.events && CanRun(w.batcher, t))
  }

  lemma ActKeepsPinned(cfg: Config, now: int, w: Worker, a: Action, x: Item, t: nat)
    requires PinnedWorker(w, x, t) && LockOk(cfg, w) && ActionEnabled(cfg, now, w, a)
    ensures PinnedWorker(Act(cfg, now, w, a), x, t)
    ensures FlushedFrom(w, x) ==> FlushedFrom(Act(cfg, now, w, a), x)
  {
    hide Flatten;
  }

  lemma LandKeepsPinned(cfg: Config, w: Worker, x: Item, t: nat)
    requires PinnedWorker(w, x, t) && w.flight.Flight?
    ensures PinnedWorker(Land(w), x, t)
    ensures FlushedFrom(w, x) ==> FlushedFrom(Land(w), x)
  {
    FlattenSnoc(w.finished, w.flight.batch);
  }

  lemma WorkerStepKeepsPinned(cfg: Config, s: State, l: Label, k: nat, x: Item, t: nat)
    requires WorkersOk(cfg, s.now, s.workers) && OnWorker(l) && WorkerEnabled(cfg, s, l)
    requires k < |s.workers| && PinnedWorker(s.workers[k], x, t)
    ensures k < |WorkerEffect(cfg, s, l).workers| && PinnedWorker(WorkerEffect(cfg, s, l).workers[k], x, t)
    ensures FlushedFrom(s.workers[k], x) ==> FlushedFrom(WorkerEffect(cfg, s, l).workers[k], x)
    ensures WorkerEffect(cfg, s, l).now == s.now
  {
    hide LockOk, BatcherOk, HistoryOk, FanOutOk, Act, ActionEnabled, Land, PinnedWorker, FlushedFrom;
    assert WorkerOk(cfg, s.now, s.workers[k]);
    hide WorkersOk;
    var w' := WorkerEffect(cfg, s, l).workers[k];
    if l.k != k {
      assert w' == s.workers[k];
    } else if l.Do? {
      ActKeepsPinned(cfg, s.now, s.workers[k], l.action, x, t);
    } else if l.Complete? {
      LandKeepsPinned(cfg, s.workers[k], x, t);
    } else {
      SamePinned(s.workers[k], w', x, t);
    }
  }

  lemma SamePinned(w: Worker, w': Worker, x: Item, t: nat)
    requires PinnedWorker(w, x, t)
    requires w'.batcher == w.batcher && w'.flight == w.flight && w'.finished == w.finished
    ensures PinnedWorker(w', x, t)
    ensures FlushedFrom(w, x) ==> FlushedFrom(w', x)
  {
    hide Flatten;
  }

  /** Time cannot pass while a callback waits at a buffer. */
  lemma TickKeepsPinned(cfg: Config, s: State, d: nat, k: nat, x: Item, t: nat)
    requires WorkersOk(cfg, s.now, s.workers) && k < |s.workers|
    requires ServedStep(s, Tick(d)) && PinnedWorker(s.workers[k], x, t)
    ensures FlushedFrom(s.workers[k], x)
  {
    hide BatcherOk, HistoryOk, FanOutOk, FlushedFrom;
    assert WorkerOk(cfg, s.now, s.workers[k]);
    assert Served(s.workers[k], s.now, d);
  }

  lemma NoTickKeepsNow(cfg: Config, s: State, l: Label)
    requires Enabled(cfg, s, l) && !OnWorker(l) && !l.Tick?
    ensures Apply(cfg, s, l).now == s.now
  {
    hide WorkerEffect, WorkerEnabled, Key, OutcomeOf, CheckAllowed, AllExited;
  }

  lemma StepKeepsPinned(cfg: Config, s: State, l: Label, k: nat, x: Item, t: nat, now: int)
    requires WorkersOk(cfg, s.now, s.workers) && Enabled(cfg, s, l) && ServedStep(s, l)
    requires Pinned(s, k, x, t, now)
    ensures Pinned(Apply(cfg, s, l), k, x, t, now)
  {
    hide WorkersOk, FlushedFrom, CanRun, ServedStep;
    hide SubmitEffect, SubmitEnabled, WorkerEffect, WorkerEnabled, ControlEffect, ControlEnabled;
    if OnWorker(l) {
      WorkerStepKeepsPinned(cfg, s, l, k, x, t);
    } else {
      OtherKeepsWorkers(cfg, s, l);
      if l.Tick? {
        TickKeepsPinned(cfg, s, l.delay, k, x, t);
      } else {
        NoTickKeepsNow(cfg, s, l);
      }
    }
  }

  lemma {:induction false} RunKeepsPinned(cfg: Config, ls: seq<Label>, more: seq<Label>,
                                          k: nat, x: Item, t: nat, now: int)
    requires Run(cfg, ls).Some? && Run(cfg, ls + more).Some? && Timely(cfg, ls + more)
    requires Pinned(Run(cfg, ls).value, k, x, t, now)
    ensures Pinned(Run(cfg, ls + more).value, k, x, t, now)
  {
    if more == [] {
      assert ls + more == ls;
    } else {
      var n := |more| - 1;
      assert (ls + more)[..|ls + more| - 1] == ls + more[..n];
      RunKeepsPinned(cfg, ls, more[..n], k, x, t, now);
      RunKeepsInv(cfg, ls + more[..n]);
      hide Enabled, Apply, Pinned, SubmitInv, WorkersOk, ServedStep;
      StepKeepsPinned(cfg, Run(cfg, ls + more[..n]).value, more[n], k, x, t, now);
    }
  }

  /** An event whose buffer a waiting callback must flush before time can pass. */
  lemma NotLateBeforeCallback(cfg: Config, ls: seq<Label>, more: seq<Label>, a: nat, k: nat, t: nat)
    requires Run(cfg, ls).Some? && Run(cfg, ls + more).Some? && Timely(cfg, ls + more)
    requires a < |Run(cfg, ls).value.sent| && a < |Run(cfg, ls).value.sentAt| && k < |Run(cfg, ls).value.workers|
    requires
      var s := Run(cfg, ls).value;
      && s.sent[a] in s.workers[k].batcher.events && CanRun(s.workers[k].batcher, t)
      && s.now - s.sentAt[a] <= Interval(cfg)
    ensures !Overdue(cfg, Run(cfg, ls + more).value, a)
  {
    hide Run, Timely, FlushedFrom, CanRun;
    var s, s' := Run(cfg, ls).value, Run(cfg, ls + more).value;
    RunKeepsPinned(cfg, ls, more, k, s.sent[a], t, s.now);
    SentExtends(cfg, ls, more);
    assert a < |s'.sentAt| ==> s'.sentAt[a] == s.sentAt[a];
  }

  /** Exactly which accepted events that have not been handed to processBatch can still wait
      longer than the interval, counted from their acceptance, in a run that goes on timely:
      those that are queued, those that a worker holds, and those that are buffered behind
      an event appended after their acceptance and have waited longer already, or whose
      buffer no launched callback is about to flush. */
  lemma CanBeLateIff(cfg: Config, ls: seq<Label>, a: nat)
    requires Run(cfg, ls).Some? && Timely(cfg, ls) && !Run(cfg, ls).value.panicked
    requires a < |Run(cfg, ls).value.sent| && !HandedOn(Run(cfg, ls).value, Run(cfg, ls).value.sent[a])
    ensures
      var s := Run(cfg, ls).value;
      && |s.sentAt| == |s.sent|
      && ((exists more ::
             Run(cfg, ls + more).Some? && Timely(cfg, ls + more) && Overdue(cfg, Run(cfg, ls + more).value, a))
          <==> CanBeLate(cfg, s, s.sent[a], s.sentAt[a]))
  {
    EverySentHasItsTime(cfg, ls);
    hide Run, Timely, Overdue, HandedOn, LateInBuffer, Held;
    var s := Run(cfg, ls).value;
    var x, at := s.sent[a], s.sentAt[a];
    if CanBeLate(cfg, s, x, at) {
      var more := LateRun(cfg, ls, a);
      assert Run(cfg, ls + more).Some?;
    } else if more :| Run(cfg, ls + more).Some? && Timely(cfg, ls + more)
                      && Overdue(cfg, Run(cfg, ls + more).value, a) {
      var k := UnhandedIsBuffered(cfg, ls, x);
      NotLate(cfg, ls, more, a, k);
    }
  }

  lemma LateRun(cfg: Config, ls: seq<Label>, a: nat) returns (more: seq<Label>)
    requires Run(cfg, ls).Some? && Timely(cfg, ls) && !Run(cfg, ls).value.panicked
    requires a < |Run(cfg, ls).value.sent| && a < |Run(cfg, ls).value.sentAt|
    requires !HandedOn(Run(cfg, ls).value, Run(cfg, ls).value.sent[a])
    requires CanBeLate(cfg, Run(cfg, ls).value, Run(cfg, ls).value.sent[a], Run(cfg, ls).value.sentAt[a])
    ensures Run(cfg, ls + more).Some? && Timely(cfg, ls + more) && Overdue(cfg, Run(cfg, ls + more).value, a)
  {
    hide Run, Timely, Overdue, HandedOn, Held, LateInBuffer;
    var s := Run(cfg, ls).value;
    var x, at := s.sent[a], s.sentAt[a];
    if k :| LateInBuffer(cfg, s, k, x, at) {
      assert 0 <= k by { InBuffer(cfg, s, k, x, at); }
      more := LateInBufferWaits(cfg, ls, a, k);
    } else {
      var until := if s.now <= at + Interval(cfg) then at + Interval(cfg) + 1 else s.now;
      more := WaitsPast(cfg, ls, a, -1, until);
    }
  }

  lemma InBuffer(cfg: Config, s: State, k: int, x: Item, at: int)
    requires LateInBuffer(cfg, s, k, x, at)
    ensures 0 <= k < |s.workers|
  {
  }

  lemma UnhandedIsBuffered(cfg: Config, ls: seq<Label>, x: Item) returns (k: nat)
    requires Run(cfg, ls).Some? && x in Run(cfg, ls).value.sent && !HandedOn(Run(cfg, ls).value, x)
    requires x !in Run(cfg, ls).value.channel
    requires forall j :: 0 <= j < |Run(cfg, ls).value.workers| ==> x !in Held(Run(cfg, ls).value.workers[j])
    ensures k < |Run(cfg, ls).value.workers| && x in Run(cfg, ls).value.workers[k].batcher.events
  {
    RunKeepsInv(cfg, ls);
    hide Run, Inv, Flatten, Held, InFlight;
    var s := Run(cfg, ls).value;
    SentIsSomewhere(cfg, s, x);
    k :| 0 <= k < |s.workers| && x in s.workers[k].batcher.events;
  }

  lemma NotLate(cfg: Config, ls: seq<Label>, more: seq<Label>, a: nat, k: nat)
    requires Run(cfg, ls).Some? && Run(cfg, ls + more).Some? && Timely(cfg, ls + more)
    requires a < |Run(cfg, ls).value.sent| && a < |Run(cfg, ls).value.sentAt| && k < |Run(cfg, ls).value.workers|
    requires Run(cfg, ls).value.sent[a] in Run(cfg, ls).value.workers[k].batcher.events
    requires !LateInBuffer(cfg, Run(cfg, ls).value, k, Run(cfg, ls).value.sent[a], Run(cfg, ls).value.sentAt[a])
    ensures !Overdue(cfg, Run(cfg, ls + more).value, a)
  {
    hide Run, Timely, Overdue, WorkerOk;
    var s := Run(cfg, ls).value;
    BufferedWorker(cfg, ls, k);
    if s.workers[k].batcher.addedAt[0] <= s.sentAt[a] {
      NotLateBehindOlder(cfg, ls, more, a, k);
    } else {
      var t :| t in s.workers[k].batcher.timers && !s.workers[k].batcher.timers[t].Armed?;
      NotLateBeforeCallback(cfg, ls, more, a, k, t);
    }
  }
}
