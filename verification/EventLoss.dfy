/** Which accepted events a shutdown can lose, event by event. */
module EventLoss {
  import opened Collections
  import opened Pipeline
  import opened WorkerInvariant
  import opened SystemInvariant
  import opened PipelineTheorems
  import opened ShutdownSafety
  import opened ForcedShutdown
  import opened PanicSafety
  import opened WaitingTime

  /** `x` was accepted, and however the run goes on it is never processed. */
  ghost predicate Lost(cfg: Config, ls: seq<Label>, x: Item) {
    && Run(cfg, ls).Some? && x in Run(cfg, ls).value.sent
    && forall more :: Run(cfg, ls + more).Some? ==> !IsProcessed(Run(cfg, ls + more).value, x)
  }

  /** If the run were to stop here, exactly these events would not have been processed: the
      queued ones, and those some worker holds, buffers or is writing. */
  lemma UnprocessedIff(cfg: Config, ls: seq<Label>, x: Item)
    requires Run(cfg, ls).Some?
    ensures
      var s := Run(cfg, ls).value;
      x in s.sent && !IsProcessed(s, x) <==> x in s.channel || InWorker(s, x)
  {
    RunKeepsInv(cfg, ls);
    hide Run, Inv, Unprocessed, IsProcessed;
    var s := Run(cfg, ls).value;
    if x in s.sent {
      SentIsSomewhere(cfg, s, x);
    }
    if x in s.channel {
      QueuedOnly(cfg, s, x);
    } else if k :| 0 <= k < |s.workers| && x in Unprocessed(s.workers[k]) {
      OnePlace(cfg, s, x, k);
    }
  }

  // ---- Nothing follows a panic, and nothing is received after the last exit ----

  lemma {:induction false} NothingFollowsAPanic(cfg: Config, ls: seq<Label>, more: seq<Label>)
    requires EndsInPanic(cfg, ls) && Run(cfg, ls + more).Some?
    ensures more == []
  {
    if more != [] {
      var before := more[..|more| - 1];
      assert (ls + more)[..|ls + more| - 1] == ls + before;
      assert before == [] ==> ls + before == ls;
      NothingFollowsAPanic(cfg, ls, before);
    }
  }

  lemma ExitedStays(cfg: Config, s: State, l: Label)
    requires PoolInv(cfg, s) && AllExited(s) && s.closed && Enabled(cfg, s, l)
    ensures AllExited(Apply(cfg, s, l)) && Apply(cfg, s, l).closed && Apply(cfg, s, l).channel == s.channel
  {
    ClosedStepShrinks(cfg, s, l);
    if OnWorker(l) {
      assert WorkerOk(cfg, s.now, s.workers[l.k]);
      hide QueueOk, ProcessedOk, ExitOk, ShutdownOk, BatcherOk, HistoryOk, FanOutOk;
      ExitedWorkerStays(cfg, s, l);
    } else {
      OtherKeepsWorkers(cfg, s, l);
      hide PoolInv;
      ExitedControlStays(cfg, s, l);
    }
  }

  lemma ExitedWorkerStays(cfg: Config, s: State, l: Label)
    requires AllExited(s) && Enabled(cfg, s, l) && OnWorker(l)
    requires LockOk(cfg, s.workers[l.k])
    ensures AllExited(Apply(cfg, s, l)) && Apply(cfg, s, l).channel == s.channel
  {
    hide SubmitEffect, SubmitEnabled, ControlEffect, ControlEnabled, StartFlight;
  }

  lemma ExitedControlStays(cfg: Config, s: State, l: Label)
    requires AllExited(s) && s.closed && Enabled(cfg, s, l) && !OnWorker(l)
    requires Apply(cfg, s, l).workers == s.workers
    ensures AllExited(Apply(cfg, s, l)) && Apply(cfg, s, l).channel == s.channel
  {
    hide WorkerEffect, WorkerEnabled, Key, OutcomeOf, CheckAllowed;
  }

  lemma {:induction false} QueuedAtTheEndIsLost(cfg: Config, ls: seq<Label>, more: seq<Label>)
    requires Run(cfg, ls).Some? && AllExited(Run(cfg, ls).value) && Run(cfg, ls).value.closed
    requires Run(cfg, ls + more).Some?
    ensures AllExited(Run(cfg, ls + more).value) && Run(cfg, ls + more).value.closed
    ensures Run(cfg, ls + more).value.channel == Run(cfg, ls).value.channel
  {
    if more == [] {
      assert ls + more == ls;
    } else {
      var n := |more| - 1;
      assert (ls + more)[..|ls + more| - 1] == ls + more[..n];
      QueuedAtTheEndIsLost(cfg, ls, more[..n]);
      RunKeepsInv(cfg, ls + more[..n]);
      hide Enabled, Apply, PoolInv, SubmitInv, AllExited;
      ExitedStays(cfg, Run(cfg, ls + more[..n]).value, more[n]);
    }
  }

  // ---- What can be lost ----

  /** Once all workers have exited, an event that is still queued is lost. */
  lemma ExitedLosesQueued(cfg: Config, ls: seq<Label>, x: Item)
    requires Run(cfg, ls).Some? && AllExited(Run(cfg, ls).value) && Run(cfg, ls).value.closed
    requires x in Run(cfg, ls).value.channel
    ensures Lost(cfg, ls, x)
  {
    hide Run, AllExited, IsProcessed, InWorker;
    UnprocessedIff(cfg, ls, x);
    forall more | Run(cfg, ls + more).Some?
      ensures !IsProcessed(Run(cfg, ls + more).value, x)
    {
      QueuedAtTheEndIsLost(cfg, ls, more);
      UnprocessedIff(cfg, ls + more, x);
    }
  }

  /** A panic loses everything not yet processed. */
  lemma PanicLosesUnprocessed(cfg: Config, ls: seq<Label>, x: Item)
    requires EndsInPanic(cfg, ls)
    requires x in Run(cfg, ls).value.channel || InWorker(Run(cfg, ls).value, x)
    ensures Lost(cfg, ls, x)
  {
    UnprocessedIff(cfg, ls, x);
    hide Run, IsProcessed, InWorker;
    forall more | Run(cfg, ls + more).Some?
      ensures !IsProcessed(Run(cfg, ls + more).value, x)
    {
      NothingFollowsAPanic(cfg, ls, more);
      assert ls + more == ls;
    }
  }

  lemma ClosedIsWaitingOrOver(cfg: Config, ls: seq<Label>)
    requires Run(cfg, ls).Some? && Run(cfg, ls).value.closed && !Run(cfg, ls).value.panicked
    ensures
      var s := Run(cfg, ls).value;
      s.shutdown.Waiting? || s.cancelled || AllExited(s)
  {
    RunKeepsInv(cfg, ls);
    hide Run, WorkersOk, QueueOk, ProcessedOk, SubmitInv;
  }

  lemma ApplyTimeout(cfg: Config, s: State)
    requires !s.panicked && s.shutdown.Waiting?
    ensures Enabled(cfg, s, ShutdownTimeout)
    ensures Apply(cfg, s, ShutdownTimeout) == s.(shutdown := TimedOut, cancelled := true, step := s.step + 1)
  {
    hide SubmitEffect, SubmitEnabled, WorkerEffect, WorkerEnabled, AllExited;
  }

  /** A queued event is lost when the timeout strikes now and no worker receives it. */
  lemma QueuedCanBeLost(cfg: Config, ls: seq<Label>, x: Item) returns (more: seq<Label>)
    requires Run(cfg, ls).Some? && Run(cfg, ls).value.closed && !Run(cfg, ls).value.panicked
    requires x in Run(cfg, ls).value.channel
    ensures NoCalls(more) && Lost(cfg, ls + more, x)
  {
    ClosedIsWaitingOrOver(cfg, ls);
    hide Run, Lost;
    var s := Run(cfg, ls).value;
    if s.cancelled {
      more := AllCanLeave(cfg, ls);
    } else if AllExited(s) {
      more := [];
      assert ls + more == ls;
    } else {
      ApplyTimeout(cfg, s);
      hide Enabled, Apply;
      RunSnoc(cfg, ls, ShutdownTimeout);
      var rest := AllCanLeave(cfg, ls + [ShutdownTimeout]);
      more := [ShutdownTimeout] + rest;
      assert ls + more == ls + [ShutdownTimeout] + rest;
    }
    StillClosed(cfg, ls, more);
    ExitedLosesQueued(cfg, ls + more, x);
  }

  lemma StillClosed(cfg: Config, ls: seq<Label>, more: seq<Label>)
    requires Run(cfg, ls).Some? && Run(cfg, ls).value.closed && Run(cfg, ls + more).Some?
    ensures Run(cfg, ls + more).value.closed
  {
    hide Run, Suffix;
    ClosedChannelShrinks(cfg, ls, more);
  }

  lemma {:induction false} NoWorkKeepsWorkers(cfg: Config, ls: seq<Label>, more: seq<Label>)
    requires Run(cfg, ls).Some? && Run(cfg, ls + more).Some? && NoWork(more)
    ensures Run(cfg, ls + more).value.workers == Run(cfg, ls).value.workers
  {
    if more == [] {
      assert ls + more == ls;
    } else {
      var n := |more| - 1;
      assert (ls + more)[..|ls + more| - 1] == ls + more[..n];
      NoWorkKeepsWorkers(cfg, ls, more[..n]);
      hide Enabled, Apply;
      OtherKeepsWorkers(cfg, Run(cfg, ls + more[..n]).value, more[n]);
    }
  }

  /** An event some worker has is lost when an outstanding Submit panics now. */
  lemma HeldCanBeLost(cfg: Config, ls: seq<Label>, x: Item) returns (more: seq<Label>)
    requires Run(cfg, ls).Some? && Run(cfg, ls).value.closed && !Run(cfg, ls).value.panicked
    requires InWorker(Run(cfg, ls).value, x) && !NoneMaySend(cfg, Run(cfg, ls).value)
    ensures NoCalls(more) && Lost(cfg, ls + more, x)
  {
    hide Run, Lost, MaySend, Unprocessed;
    var s := Run(cfg, ls).value;
    var i :| 0 <= i < |s.submits| && MaySend(cfg, s, s.submits[i]);
    more := OutstandingCanPanic(cfg, ls, i);
    NoWorkKeepsWorkers(cfg, ls, more);
    PanicLosesUnprocessed(cfg, ls + more, x);
  }

  // ---- What cannot be lost ----

  lemma StepKeepsProcessed(cfg: Config, s: State, l: Label, x: Item)
    requires Enabled(cfg, s, l) && IsProcessed(s, x)
    ensures IsProcessed(Apply(cfg, s, l), x)
  {
    var k :| 0 <= k < |s.workers| && x in Flatten(s.workers[k].finished);
    if OnWorker(l) {
      hide SubmitEffect, SubmitEnabled, ControlEffect, ControlEnabled, Flatten;
      var w := s.workers[l.k];
      if l.Complete? {
        FlattenSnoc(w.finished, w.flight.batch);
      }
      var s' := Apply(cfg, s, l);
      FinishedGrows(cfg, s, l);
      assert x in Flatten(s'.workers[k].finished);
    } else {
      OtherKeepsWorkers(cfg, s, l);
    }
  }

  lemma ActKeepsFinished(cfg: Config, now: int, w: Worker, a: Action)
    requires ActionEnabled(cfg, now, w, a)
    ensures Act(cfg, now, w, a).finished == w.finished
  {
    hide Slice;
  }

  lemma FinishedGrows(cfg: Config, s: State, l: Label)
    requires Enabled(cfg, s, l) && OnWorker(l)
    ensures |Apply(cfg, s, l).workers| == |s.workers|
    ensures forall k :: 0 <= k < |s.workers| ==>
      Apply(cfg, s, l).workers[k].finished
      == if l.Complete? && k == l.k then s.workers[k].finished + [s.workers[k].flight.batch] else s.workers[k].finished
  {
    hide SubmitEffect, SubmitEnabled, ControlEffect, ControlEnabled, Act, ActionEnabled;
    if l.Do? {
      ActKeepsFinished(cfg, s.now, s.workers[l.k], l.action);
    }
  }

  lemma {:induction false} ProcessedStays(cfg: Config, ls: seq<Label>, more: seq<Label>, x: Item)
    requires Run(cfg, ls).Some? && Run(cfg, ls + more).Some? && IsProcessed(Run(cfg, ls).value, x)
    ensures IsProcessed(Run(cfg, ls + more).value, x)
  {
    if more == [] {
      assert ls + more == ls;
    } else {
      var n := |more| - 1;
      assert (ls + more)[..|ls + more| - 1] == ls + more[..n];
      ProcessedStays(cfg, ls, more[..n], x);
      hide Enabled, Apply, IsProcessed;
      StepKeepsProcessed(cfg, Run(cfg, ls + more[..n]).value, more[n], x);
    }
  }

  lemma ExitedHasProcessed(cfg: Config, ls: seq<Label>, x: Item)
    requires Run(cfg, ls).Some? && AllExited(Run(cfg, ls).value)
    requires x in Run(cfg, ls).value.sent && x !in Run(cfg, ls).value.channel
    ensures IsProcessed(Run(cfg, ls).value, x)
  {
    var s := Run(cfg, ls).value;
    hide Run, UnionBy, Flatten, Unprocessed;
    ForcedShutdownLosesTheChannel(cfg, ls);
    UnprocessedIff(cfg, ls, x);
  }

  /** An event that is not queued is not lost if nothing can panic any more. */
  lemma CalmLosesOnlyQueued(cfg: Config, ls: seq<Label>, more: seq<Label>, x: Item)
    requires Run(cfg, ls).Some? && Calm(cfg, Run(cfg, ls).value) && NoCalls(more)
    requires Lost(cfg, ls + more, x)
    ensures x in Run(cfg, ls).value.channel
  {
    hide Run, NoneMaySend, Undropped, AllExited, IsProcessed, Suffix;
    CalmStays(cfg, ls, more);
    var rest := AllCanLeave(cfg, ls + more);
    assert ls + more + rest == ls + (more + rest);
    ClosedChannelShrinks(cfg, ls, more + rest);
    ClosedChannelShrinks(cfg, ls + more, rest);
    var s, s' := Run(cfg, ls).value, Run(cfg, ls + (more + rest)).value;
    assert !IsProcessed(s', x);
    if x in s'.channel {
      SuffixHoldsNoMore(s'.channel, s.channel, x);
    } else {
      ExitedHasProcessed(cfg, ls + (more + rest), x);
    }
  }

  lemma SuffixHoldsNoMore<T>(a: seq<T>, b: seq<T>, x: T)
    requires Suffix(a, b) && x in a
    ensures x in b
  {
  }

  /** Exactly which events a shutdown can still lose once it has closed the channel, with
      no further calls: those that are queued, as the timeout may strike; and, if some
      outstanding Submit may still come to its send, also those that a worker has and has
      not finished, as that send panics. */
  lemma CanBeLostIff(cfg: Config, ls: seq<Label>, x: Item)
    requires Run(cfg, ls).Some? && Run(cfg, ls).value.closed && !Run(cfg, ls).value.panicked
    ensures
      var s := Run(cfg, ls).value;
      (exists more :: NoCalls(more) && Lost(cfg, ls + more, x))
      <==> x in s.channel || (InWorker(s, x) && !NoneMaySend(cfg, s))
  {
    hide Run, NoneMaySend, InWorker, IsProcessed;
    var s := Run(cfg, ls).value;
    if x in s.channel {
      var more := QueuedCanBeLost(cfg, ls, x);
      assert NoCalls(more) && Lost(cfg, ls + more, x);
    } else if InWorker(s, x) && !NoneMaySend(cfg, s) {
      var more := HeldCanBeLost(cfg, ls, x);
      assert NoCalls(more) && Lost(cfg, ls + more, x);
    } else if more :| NoCalls(more) && Lost(cfg, ls + more, x) {
      LostWasUnprocessed(cfg, ls, more, x);
      CalmLosesOnlyQueued(cfg, ls, more, x);
    }
  }

  lemma LostWasUnprocessed(cfg: Config, ls: seq<Label>, more: seq<Label>, x: Item)
    requires Run(cfg, ls).Some? && Run(cfg, ls).value.closed && Lost(cfg, ls + more, x)
    ensures x in Run(cfg, ls).value.channel || InWorker(Run(cfg, ls).value, x)
  {
    assert ls + more + [] == ls + more;
    hide Run, InWorker, IsProcessed, Suffix;
    ClosedChannelShrinks(cfg, ls, more);
    UnprocessedIff(cfg, ls, x);
    if IsProcessed(Run(cfg, ls).value, x) {
      ProcessedStays(cfg, ls, more, x);
    }
  }

  // ---- At the moment Shutdown is called ----

  lemma ParkedMaySend(cfg: Config, s: State)
    requires exists i :: InPhase(s, i, Parked)
    ensures !NoneMaySend(cfg, s)
  {
    hide Key, CanPass;
    var i: nat :| InPhase(s, i, Parked);
    assert s.submits[i].phase == Parked;
    assert MaySend(cfg, s, s.submits[i]);
  }

  /** The same at the call of Shutdown itself: exactly which accepted events can be lost by
      calling it now. */
  lemma ShutdownCanLoseIff(cfg: Config, ls: seq<Label>, x: Item)
    requires Run(cfg, ls).Some? && !Run(cfg, ls).value.closed && !Run(cfg, ls).value.panicked
    ensures
      var s := Run(cfg, ls).value;
      (exists more :: NoCalls(more) && Lost(cfg, ls + [Close] + more, x))
      <==> x in s.channel || (InWorker(s, x) && !NoneMaySend(cfg, s))
  {
    hide Run, Unprocessed, Key;
    var s := Run(cfg, ls).value;
    ClosePanicsIff(cfg, s);
    RunSnoc(cfg, ls, Close);
    var s1 := Run(cfg, ls + [Close]).value;
    ClosedSame(cfg, s);
    hide Enabled, Apply, InWorker, NoneMaySend, Lost;
    if s1.panicked {
      ParkedMaySend(cfg, s);
      assert ls + [Close] + [] == ls + [Close];
      if more :| NoCalls(more) && Lost(cfg, ls + [Close] + more, x) {
        LostWasUnprocessed(cfg, ls + [Close], more, x);
      }
      if x in s.channel || InWorker(s, x) {
        PanicLosesUnprocessed(cfg, ls + [Close], x);
        assert NoCalls([]) && Lost(cfg, ls + [Close] + [], x);
      }
    } else {
      CanBeLostIff(cfg, ls + [Close], x);
    }
  }

  lemma ClosedSame(cfg: Config, s: State)
    requires !s.panicked
    ensures
      var s1 := Apply(cfg, s, Close);
      && s1.closed && s1.channel == s.channel && s1.workers == s.workers && s1.sent == s.sent
      && (NoneMaySend(cfg, s1) <==> NoneMaySend(cfg, s))
  {
    hide SubmitEffect, SubmitEnabled, WorkerEffect, WorkerEnabled, AllExited, Key;
    var s1 := Apply(cfg, s, Close);
    assert s1.submits == s.submits;
    forall i | 0 <= i < |s.submits|
      ensures MaySend(cfg, s1, s.submits[i]) <==> MaySend(cfg, s, s.submits[i])
    {
    }
  }

  lemma StartedSame(cfg: Config, s: State, e: Event)
    requires !s.panicked
    requires cfg.deduplicator.NoDeduplicator? || CanPass(cfg, s, e)
    ensures Enabled(cfg, s, SubmitStart(e))
    ensures
      var s1 := Apply(cfg, s, SubmitStart(e));
      && s1.closed == s.closed && !s1.panicked && s1.channel == s.channel && s1.workers == s.workers
      && !NoneMaySend(cfg, s1)
  {
    hide SubmitEffect, SubmitEnabled, WorkerEffect, WorkerEnabled, AllExited, Key;
    var s1 := Apply(cfg, s, SubmitStart(e));
    assert MaySend(cfg, s1, s1.submits[|s.submits|]);
  }

  /** And when one more Submit comes after the channel was closed, with an event that the
      deduplicator may let pass: then everything not yet processed can be lost. */
  lemma LateSubmitCanLoseIff(cfg: Config, ls: seq<Label>, e: Event, x: Item)
    requires Run(cfg, ls).Some? && Run(cfg, ls).value.closed && !Run(cfg, ls).value.panicked
    requires cfg.deduplicator.NoDeduplicator? || CanPass(cfg, Run(cfg, ls).value, e)
    ensures
      var s := Run(cfg, ls).value;
      (exists more :: NoCalls(more) && Lost(cfg, ls + [SubmitStart(e)] + more, x))
      <==> x in s.channel || InWorker(s, x)
  {
    hide Run, Unprocessed, Lost, CanPass;
    StartedSame(cfg, Run(cfg, ls).value, e);
    RunSnoc(cfg, ls, SubmitStart(e));
    hide Enabled, Apply, NoneMaySend;
    CanBeLostIff(cfg, ls + [SubmitStart(e)], x);
  }

  /** The second way, with nothing queued: a worker has received the event, a second Submit
      is under way, and Shutdown is called. */
  lemma PanicCanLoseAnEvent(cfg: Config, e: Event)
    requires Small(cfg, e)
    ensures
      var ls := BusyRun(e)[..3] + [SubmitStart(e)];
      && Run(cfg, ls).Some? && Run(cfg, ls).value.sent == [Item(e, 0)] && Run(cfg, ls).value.channel == []
      && exists more :: NoCalls(more) && Lost(cfg, ls + [Close] + more, Item(e, 0))
  {
    var s := FirstReceived(cfg, e);
    var ls := BusyRun(e)[..3] + [SubmitStart(e)];
    assert s.workers[0].pc == Holding(Item(e, 0));
    hide Run, Lost, WorkerEffect, WorkerEnabled, SubmitEffect, SubmitEnabled, Key, Busy, BusyRun, AllExited;
    RunSnoc(cfg, BusyRun(e)[..3], SubmitStart(e));
    var s1 := Apply(cfg, s, SubmitStart(e));
    assert s1.submits[1].phase == Sending && MaySend(cfg, s1, s1.submits[1]);
    assert Item(e, 0) in Unprocessed(s1.workers[0]);
    hide Apply, Enabled, Unprocessed, MaySend;
    ShutdownCanLoseIff(cfg, ls, Item(e, 0));
  }
}
