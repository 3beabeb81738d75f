/** What the timeout of Shutdown can lose, judged at the moment it strikes. */
module ForcedShutdown {
  import opened Collections
  import opened Pipeline
  import opened WorkerInvariant
  import opened SystemInvariant
  import opened PipelineTheorems
  import opened Drain

  // ---- A closed channel only shrinks ----

  ghost predicate Suffix<T>(a: seq<T>, b: seq<T>) {
    |a| <= |b| && a == b[|b| - |a|..]
  }

  lemma SuffixTail<T>(a: seq<T>, b: seq<T>)
    requires Suffix(a, b) && a != []
    ensures Suffix(a[1..], b)
  {
  }

  lemma ClosedStepShrinks(cfg: Config, s: State, l: Label)
    requires Enabled(cfg, s, l) && s.closed
    ensures
      var s' := Apply(cfg, s, l);
      && s'.closed && s'.sent == s.sent
      && (s'.channel == s.channel || (s.channel != [] && s'.channel == s.channel[1..]))
  {
    if OnWorker(l) {
      hide Act, ActionEnabled, Land, AllWritten, SubmitEffect, SubmitEnabled, ControlEffect, ControlEnabled;
    } else if OnSubmission(l) {
      ApplySubmission(cfg, s, l);
      hide Enabled, Apply, OutcomeOf, Key, CheckAllowed;
    } else {
      hide WorkerEffect, WorkerEnabled, SubmitEffect, SubmitEnabled, AllExited;
    }
  }

  lemma {:induction false} ClosedChannelShrinks(cfg: Config, ls: seq<Label>, more: seq<Label>)
    requires Run(cfg, ls).Some? && Run(cfg, ls).value.closed && Run(cfg, ls + more).Some?
    ensures
      var s, s' := Run(cfg, ls).value, Run(cfg, ls + more).value;
      s'.closed && s'.sent == s.sent && Suffix(s'.channel, s.channel)
  {
    if more == [] {
      assert ls + more == ls;
    } else {
      var n := |more| - 1;
      assert (ls + more)[..|ls + more| - 1] == ls + more[..n];
      ClosedChannelShrinks(cfg, ls, more[..n]);
      var s := Run(cfg, ls + more[..n]).value;
      hide Enabled, Apply;
      ClosedStepShrinks(cfg, s, more[n]);
      if s.channel != [] {
        SuffixTail(s.channel, Run(cfg, ls).value.channel);
      }
    }
  }

  // ---- The workers can always leave; after a cancellation, without receiving ----

  lemma WorkerKeepsControl(cfg: Config, s: State, l: Label)
    requires Enabled(cfg, s, l) && OnWorker(l)
    ensures !External(l) && !l.SubmitStart? && !l.Close?
    ensures
      var s' := Apply(cfg, s, l);
      && s'.panicked == s.panicked && s'.cancelled == s.cancelled && s'.closed == s.closed
      && (!l.Receive? ==> s'.channel == s.channel)
  {
    hide Act, ActionEnabled, Land, AllWritten;
  }

  lemma CancelledIsClosed(cfg: Config, s: State)
    requires PoolInv(cfg, s) && s.cancelled
    ensures s.closed
  {
    hide WorkersOk, QueueOk, ProcessedOk, ExitOk;
  }

  lemma InvImpliesPool(cfg: Config, s: State)
    requires Inv(cfg, s)
    ensures PoolInv(cfg, s)
  {
    hide PoolInv, SubmitInv;
  }

  lemma LeavingStep(cfg: Config, ls: seq<Label>, k: nat) returns (l: Label)
    requires Run(cfg, ls).Some? && Run(cfg, ls).value.closed && !Run(cfg, ls).value.panicked
    requires k < |Run(cfg, ls).value.workers| && !Run(cfg, ls).value.workers[k].pc.Exited?
    ensures Run(cfg, ls + [l]).Some? && !l.SubmitStart? && !l.Close?
    ensures
      var s, s' := Run(cfg, ls).value, Run(cfg, ls + [l]).value;
      && s'.closed && !s'.panicked && s'.cancelled == s.cancelled
      && (s.cancelled ==> s'.channel == s.channel)
      && Measure(cfg, s') < Measure(cfg, s)
  {
    var s := Run(cfg, ls).value;
    RunKeepsInv(cfg, ls);
    InvImpliesPool(cfg, s);
    hide *;
    l := WorkerCanStep(cfg, s, k);
    RunSnoc(cfg, ls, l);
    WorkerKeepsControl(cfg, s, l);
    DrainStepDecreases(cfg, s, l);
  }

  /** A continuation after which every worker has exited. After a cancellation it can be one
      in which every select of a worker chooses ctx.Done. */
  lemma {:induction false} AllCanLeave(cfg: Config, ls: seq<Label>) returns (more: seq<Label>)
    requires Run(cfg, ls).Some? && Run(cfg, ls).value.closed && !Run(cfg, ls).value.panicked
    ensures Run(cfg, ls + more).Some? && AllExited(Run(cfg, ls + more).value) && NoCalls(more)
    ensures Run(cfg, ls).value.cancelled ==> Run(cfg, ls + more).value.channel == Run(cfg, ls).value.channel
    decreases Measure(cfg, Run(cfg, ls).value)
  {
    hide Run, Measure;
    var s := Run(cfg, ls).value;
    if k :| 0 <= k < |s.workers| && !s.workers[k].pc.Exited? {
      var l := LeavingStep(cfg, ls, k);
      var rest := AllCanLeave(cfg, ls + [l]);
      more := [l] + rest;
      assert ls + more == ls + [l] + rest;
    } else {
      more := [];
      assert ls + more == ls;
    }
  }

  // ---- What a forced shutdown loses ----

  /** All workers have exited, and something accepted was never processed. */
  ghost predicate EndsWithLoss(cfg: Config, ls: seq<Label>) {
    && Run(cfg, ls).Some? && AllExited(Run(cfg, ls).value)
    && UnionBy(Run(cfg, ls).value.workers, ProcessedSet) != multiset(Run(cfg, ls).value.sent)
  }

  /** If all workers exit after the timeout, what they have not processed is a suffix of what
      was queued when it struck: never an event some worker already had, and never an event
      overtaken by one that was processed. */
  lemma LostWasQueuedAtTimeout(cfg: Config, ls: seq<Label>, more: seq<Label>)
    requires Run(cfg, ls).Some? && Run(cfg, ls).value.shutdown.TimedOut?
    requires Run(cfg, ls + more).Some? && AllExited(Run(cfg, ls + more).value)
    ensures
      var s, s' := Run(cfg, ls).value, Run(cfg, ls + more).value;
      && s'.sent == s.sent
      && multiset(s.sent) == UnionBy(s'.workers, ProcessedSet) + multiset(s'.channel)
      && Suffix(s'.channel, s.channel)
  {
    TimedOutIsClosed(cfg, ls);
    hide Run, UnionBy;
    ClosedChannelShrinks(cfg, ls, more);
    ForcedShutdownLosesTheChannel(cfg, ls + more);
  }

  lemma TimedOutIsClosed(cfg: Config, ls: seq<Label>)
    requires Run(cfg, ls).Some? && Run(cfg, ls).value.shutdown.TimedOut?
    ensures Run(cfg, ls).value.closed && Run(cfg, ls).value.cancelled
  {
    RunKeepsInv(cfg, ls);
    hide Run, PoolInv, SentOk, CountsOk, SubmissionsOk;
  }

  /** When a shutdown that has timed out can end with all workers gone and an accepted event
      unprocessed: if and only if one is still queued. (Continuations that end in a panic are
      the subject of EventLoss.) */
  lemma TimeoutCanLoseIff(cfg: Config, ls: seq<Label>)
    requires Run(cfg, ls).Some? && Run(cfg, ls).value.shutdown.TimedOut? && !Run(cfg, ls).value.panicked
    ensures (exists more :: EndsWithLoss(cfg, ls + more)) <==> Run(cfg, ls).value.channel != []
  {
    var s := Run(cfg, ls).value;
    TimedOutIsClosed(cfg, ls);
    hide Run, UnionBy;
    if s.channel != [] {
      var more := AllCanLeave(cfg, ls);
      ForcedShutdownLosesTheChannel(cfg, ls + more);
      assert EndsWithLoss(cfg, ls + more);
    }
    if more :| EndsWithLoss(cfg, ls + more) {
      LostWasQueuedAtTimeout(cfg, ls, more);
      ForcedShutdownLosesTheChannel(cfg, ls + more);
    }
  }

  // ---- Every outcome the selects can choose ----

  lemma WorkerStepKeepsStaying(cfg: Config, s: State, l: Label, k: nat)
    requires PoolInv(cfg, s) && Enabled(cfg, s, l) && OnWorker(l)
    requires k < |s.workers| && !Leaving(s.workers[k]) && !(l == StopSignal(k))
    ensures k < |Apply(cfg, s, l).workers| && !Leaving(Apply(cfg, s, l).workers[k])
  {
    hide SubmitEffect, SubmitEnabled, ControlEffect, ControlEnabled, QueueOk, ProcessedOk, ExitOk, ShutdownOk;
    hide BatcherOk, LockOk, HistoryOk, FanOutOk, Act, ActionEnabled, Land;
    assert WorkerOk(cfg, s.now, s.workers[k]);
    hide WorkersOk;
    if l.k == k {
      if l.Do? {
        ActKeepsLeaving(cfg, s.now, s.workers[k], l.action);
      } else if l.Complete? {
        LandKeepsLeaving(cfg, s.workers[k]);
      }
    }
  }

  /** A worker at its select can receive whatever else is ready, a cancelled context included,
      and gets the oldest queued event. */
  lemma CanReceive(cfg: Config, s: State, k: nat)
    requires !s.panicked && k < |s.workers| && s.workers[k].pc.Selecting? && s.channel != []
    ensures Enabled(cfg, s, Receive(k))
    ensures
      var s' := Apply(cfg, s, Receive(k));
      && s'.channel == s.channel[1..] && |s'.workers| == |s.workers|
      && s'.workers[k].pc == Holding(s.channel[0])
      && s'.closed == s.closed && s'.panicked == s.panicked && s'.cancelled == s.cancelled
  {
    hide SubmitEffect, SubmitEnabled, ControlEffect, ControlEnabled, Act, ActionEnabled, Land, AllWritten;
  }

  /** A step that brings worker `k` closer to receiving, or the receive itself. */
  lemma StepTowardsReceiving(cfg: Config, ls: seq<Label>, k: nat) returns (l: Label)
    requires Run(cfg, ls).Some? && Run(cfg, ls).value.cancelled && !Run(cfg, ls).value.panicked
    requires k < |Run(cfg, ls).value.workers| && !Leaving(Run(cfg, ls).value.workers[k])
    requires Run(cfg, ls).value.channel != []
    ensures Run(cfg, ls + [l]).Some?
    ensures
      var s, s' := Run(cfg, ls).value, Run(cfg, ls + [l]).value;
      && s'.cancelled && !s'.panicked && k < |s'.workers| && !Leaving(s'.workers[k])
      && s'.channel == (if l.Receive? then s.channel[1..] else s.channel)
      && Measure(cfg, s') < Measure(cfg, s)
  {
    var s := Run(cfg, ls).value;
    RunKeepsInv(cfg, ls);
    InvImpliesPool(cfg, s);
    CancelledIsClosed(cfg, s);
    hide Run, Enabled, Apply, Measure, PoolInv, SubmitInv, Inv;
    if s.workers[k].pc.Selecting? {
      l := Receive(k);
      CanReceive(cfg, s, k);
    } else {
      l := WorkerCanStep(cfg, s, k);
      StopNeedsSelecting(cfg, s, l);
      WorkerKeepsControl(cfg, s, l);
      WorkerStepKeepsStaying(cfg, s, l, k);
    }
    RunSnoc(cfg, ls, l);
    DrainStepDecreases(cfg, s, l);
  }

  lemma StopNeedsSelecting(cfg: Config, s: State, l: Label)
    requires Enabled(cfg, s, l) && OnWorker(l)
    ensures l.StopSignal? ==> l.k < |s.workers| && s.workers[l.k].pc.Selecting?
  {
    hide ActionEnabled, AllWritten;
  }

  lemma CancelledOpen(cfg: Config, ls: seq<Label>)
    requires Run(cfg, ls).Some? && Run(cfg, ls).value.cancelled
    ensures Run(cfg, ls).value.closed
  {
    RunKeepsInv(cfg, ls);
    InvImpliesPool(cfg, Run(cfg, ls).value);
    hide *;
    CancelledIsClosed(cfg, Run(cfg, ls).value);
  }

  lemma {:induction false} ReceiveThenLeave(cfg: Config, ls: seq<Label>, k: int, n: nat) returns (more: seq<Label>)
    requires Run(cfg, ls).Some? && Run(cfg, ls).value.cancelled && !Run(cfg, ls).value.panicked
    requires n <= |Run(cfg, ls).value.channel|
    requires n > 0 ==> 0 <= k < |Run(cfg, ls).value.workers| && !Leaving(Run(cfg, ls).value.workers[k])
    ensures Run(cfg, ls + more).Some? && AllExited(Run(cfg, ls + more).value)
    ensures Run(cfg, ls + more).value.channel == Run(cfg, ls).value.channel[n..]
    decreases Measure(cfg, Run(cfg, ls).value)
  {
    hide Run, Measure, AllExited, Leaving;
    var s := Run(cfg, ls).value;
    if n == 0 {
      CancelledOpen(cfg, ls);
      more := AllCanLeave(cfg, ls);
    } else {
      var l := StepTowardsReceiving(cfg, ls, k);
      var rest := ReceiveThenLeave(cfg, ls + [l], k, if l.Receive? then n - 1 else n);
      more := [l] + rest;
      assert ls + more == ls + [l] + rest;
      assert l.Receive? ==> s.channel[1..][n - 1..] == s.channel[n..];
    }
  }

  ghost predicate AllLeaving(s: State) {
    forall k :: 0 <= k < |s.workers| ==> Leaving(s.workers[k])
  }

  lemma LeavingWorkerStays(cfg: Config, s: State, l: Label)
    requires PoolInv(cfg, s) && AllLeaving(s) && Enabled(cfg, s, l) && OnWorker(l)
    ensures AllLeaving(Apply(cfg, s, l)) && Apply(cfg, s, l).channel == s.channel
  {
    hide SubmitEffect, SubmitEnabled, ControlEffect, ControlEnabled, QueueOk, ProcessedOk, ExitOk, ShutdownOk;
    hide BatcherOk, LockOk, HistoryOk, FanOutOk, Act, ActionEnabled, Land;
    assert WorkerOk(cfg, s.now, s.workers[l.k]) && Leaving(s.workers[l.k]);
    hide WorkersOk;
    if l.Do? {
      ActKeepsLeaving(cfg, s.now, s.workers[l.k], l.action);
    } else if l.Complete? {
      LandKeepsLeaving(cfg, s.workers[l.k]);
    }
  }

  lemma OtherKeepsChannel(cfg: Config, s: State, l: Label)
    requires Enabled(cfg, s, l) && !OnWorker(l) && s.closed
    ensures Apply(cfg, s, l).channel == s.channel
  {
    hide WorkerEffect, WorkerEnabled, Key, OutcomeOf, CheckAllowed, AllExited;
  }

  lemma LeavingStays(cfg: Config, s: State, l: Label)
    requires PoolInv(cfg, s) && AllLeaving(s) && s.closed && Enabled(cfg, s, l)
    ensures AllLeaving(Apply(cfg, s, l)) && Apply(cfg, s, l).channel == s.channel && Apply(cfg, s, l).closed
  {
    hide PoolInv, Enabled, Apply;
    ClosedStepShrinks(cfg, s, l);
    if OnWorker(l) {
      LeavingWorkerStays(cfg, s, l);
    } else {
      OtherKeepsWorkers(cfg, s, l);
      OtherKeepsChannel(cfg, s, l);
    }
  }

  lemma {:induction false} NobodyReceives(cfg: Config, ls: seq<Label>, more: seq<Label>)
    requires Run(cfg, ls).Some? && AllLeaving(Run(cfg, ls).value) && Run(cfg, ls).value.closed
    requires Run(cfg, ls + more).Some?
    ensures AllLeaving(Run(cfg, ls + more).value) && Run(cfg, ls + more).value.closed
    ensures Run(cfg, ls + more).value.channel == Run(cfg, ls).value.channel
  {
    if more == [] {
      assert ls + more == ls;
    } else {
      var n := |more| - 1;
      assert (ls + more)[..|ls + more| - 1] == ls + more[..n];
      NobodyReceives(cfg, ls, more[..n]);
      RunKeepsInv(cfg, ls + more[..n]);
      hide Enabled, Apply, PoolInv, SubmitInv, AllLeaving;
      LeavingStays(cfg, Run(cfg, ls + more[..n]).value, more[n]);
    }
  }

  /** Which outcomes the workers' selects can choose after a timeout, exactly: any number of
      the queued events may still be received and processed before all workers are gone, as
      long as one worker has not begun to leave; else none. */
  lemma AnySuffixCanBeLostIff(cfg: Config, ls: seq<Label>, n: nat)
    requires Run(cfg, ls).Some? && Run(cfg, ls).value.shutdown.TimedOut? && !Run(cfg, ls).value.panicked
    requires n <= |Run(cfg, ls).value.channel|
    ensures
      var s := Run(cfg, ls).value;
      (exists more ::
         && Run(cfg, ls + more).Some? && AllExited(Run(cfg, ls + more).value)
         && Run(cfg, ls + more).value.channel == s.channel[n..])
      <==> n == 0 || exists k :: 0 <= k < |s.workers| && !Leaving(s.workers[k])
  {
    TimedOutIsClosed(cfg, ls);
    hide Run, AllExited, Leaving;
    var s := Run(cfg, ls).value;
    if n == 0 {
      var more := ReceiveThenLeave(cfg, ls, -1, 0);
      assert Run(cfg, ls + more).value.channel == s.channel[n..];
    } else if k :| 0 <= k < |s.workers| && !Leaving(s.workers[k]) {
      var more := ReceiveThenLeave(cfg, ls, k, n);
      assert Run(cfg, ls + more).value.channel == s.channel[n..];
    } else if more :| && Run(cfg, ls + more).Some? && AllExited(Run(cfg, ls + more).value)
                      && Run(cfg, ls + more).value.channel == s.channel[n..] {
      NobodyReceives(cfg, ls, more);
      assert false;
    }
  }
}
