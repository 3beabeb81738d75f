/** Submit's outcomes, when the pipeline can panic, and what follows Shutdown. */
module ShutdownSafety {
  import opened Collections
  import opened BatcherSpec
  import opened Pipeline
  import opened WorkerInvariant
  import opened SystemInvariant

  // ---- Submit outcome accounting ----

  function IfDone(sub: Submission): nat { if sub.phase.Done? then 1 else 0 }

  lemma OneReturnIsCounted(sub: Submission)
    ensures IfDone(sub) == IfAccepted(sub) + IfDuplicate(sub) + IfRejected(sub)
  {
    if sub.phase.Done? {
      match sub.phase.outcome
      case Accepted =>
      case Duplicate =>
      case Rejected =>
    }
  }

  lemma {:induction false} EveryReturnIsCounted(submits: seq<Submission>)
    ensures SumBy(submits, IfDone)
         == SumBy(submits, IfAccepted) + SumBy(submits, IfDuplicate) + SumBy(submits, IfRejected)
  {
    if submits != [] {
      EveryReturnIsCounted(submits[1..]);
      OneReturnIsCounted(submits[0]);
    }
  }

  lemma InSentHasSent(submits: seq<Submission>, sent: seq<Item>, i: nat)
    requires SentOk(submits, sent) && i < |submits|
    ensures HasSent(submits[i]) <==> Item(submits[i].event, i) in sent
  {
    if Item(submits[i].event, i) in sent {
      var a :| 0 <= a < |sent| && sent[a] == Item(submits[i].event, i);
    }
  }

  /** Submit calls that have returned are exactly those counted received, duplicated or
      dropped. A call that is not finally skipped as a duplicate was never told so by the
      deduplicator (an error is not an answer), an event is sent if and only if its call
      took the accepting path, and a call is rejected only after the context was cancelled. */
  lemma SubmitAccounting(cfg: Config, ls: seq<Label>)
    requires Run(cfg, ls).Some?
    ensures
      var s := Run(cfg, ls).value;
      && SumBy(s.submits, IfDone) == s.eventsReceived + s.eventsDuplicated + s.eventsDropped
      && s.eventsReceived == SumBy(s.submits, IfAccepted)
      && s.eventsDropped == SumBy(s.submits, IfRejected)
      && (forall i :: 0 <= i < |s.submits| ==>
            && (s.submits[i].phase == Done(Duplicate) ==> s.submits[i].verdict == Seen)
            && (s.submits[i].phase.Done? && s.submits[i].verdict == Seen ==> s.submits[i].phase == Done(Duplicate))
            && (HasSent(s.submits[i]) <==> Item(s.submits[i].event, i) in s.sent)
            && (s.submits[i].phase == Done(Rejected) ==> s.cancelled))
  {
    RunKeepsInv(cfg, ls);
    hide Run, PoolInv, SumBy;
    var s := Run(cfg, ls).value;
    EveryReturnIsCounted(s.submits);
    forall i | 0 <= i < |s.submits|
      ensures HasSent(s.submits[i]) <==> Item(s.submits[i].event, i) in s.sent
      ensures SubmissionOk(s.submits[i], s.closed, s.cancelled, s.panicked)
    {
      InSentHasSent(s.submits, s.sent, i);
    }
  }

  // ---- When the pipeline panics ----

  lemma OnlySendsPanic(cfg: Config, s: State, l: Label)
    requires Enabled(cfg, s, l) && !l.Close? && Apply(cfg, s, l).panicked
    ensures s.closed && (l.TrySend? || l.SlowSend?)
  {
    hide Act, ActionEnabled, Land, CheckAllowed, AllExited;
  }

  lemma ClosePanicsIff(cfg: Config, s: State)
    requires !s.panicked
    ensures Enabled(cfg, s, Close)
    ensures Apply(cfg, s, Close).panicked <==> s.closed || exists i :: InPhase(s, i, Parked)
    ensures !Apply(cfg, s, Close).panicked ==>
      Apply(cfg, s, Close) == s.(closed := true, shutdown := Waiting, step := s.step + 1)
  {
    hide SubmitEffect, SubmitEnabled, WorkerEffect, WorkerEnabled, AllExited;
  }

  /** Exactly when the next step can panic, a second Shutdown aside, which always does.
      On a closed channel it is a Submit before one of its selects that can; on an open one
      it is a Submit blocked in the second select, whose send panics when the channel is
      closed under it. */
  lemma NextStepPanicsIff(cfg: Config, s: State)
    requires SubmissionsOk(s.submits, s.closed, s.cancelled, s.panicked) && !s.panicked
    ensures
      (exists l :: Enabled(cfg, s, l) && (s.closed ==> !l.Close?) && Apply(cfg, s, l).panicked)
      <==> exists i :: if s.closed then InPhase(s, i, Sending) || InPhase(s, i, Full) else InPhase(s, i, Parked)
    ensures s.closed ==> Enabled(cfg, s, Close) && Apply(cfg, s, Close).panicked
  {
    ClosePanicsIff(cfg, s);
    if l :| Enabled(cfg, s, l) && (s.closed ==> !l.Close?) && Apply(cfg, s, l).panicked {
      if !l.Close? {
        OnlySendsPanic(cfg, s, l);
        hide Apply;
        assert SubmissionOk(s.submits[l.i], s.closed, s.cancelled, s.panicked);
        assert InPhase(s, l.i, Sending) || InPhase(s, l.i, Full);
      }
    }
    if i :| s.closed && (InPhase(s, i, Sending) || InPhase(s, i, Full)) {
      var l := if InPhase(s, i, Sending) then TrySend(i) else SlowSend(i);
      assert Enabled(cfg, s, l) && Apply(cfg, s, l).panicked;
    }
  }

  ghost predicate AllDone(s: State) {
    forall i :: 0 <= i < |s.submits| ==> s.submits[i].phase.Done?
  }

  /** Shutdown is called once, when no Submit is outstanding, and none starts after it. */
  ghost predicate CleanStep(s: State, l: Label) {
    && (l.Close? ==> !s.closed && AllDone(s))
    && (l.SubmitStart? ==> !s.closed)
  }

  ghost predicate Clean(cfg: Config, ls: seq<Label>)
    requires Run(cfg, ls).Some?
  {
    ls == []
    || (Clean(cfg, ls[..|ls| - 1]) && CleanStep(Run(cfg, ls[..|ls| - 1]).value, ls[|ls| - 1]))
  }

  ghost predicate Undisturbed(s: State) {
    && !s.panicked
    && (s.closed ==> AllDone(s))
    && (s.cancelled ==> s.closed)
    && forall i :: 0 <= i < |s.submits| ==> s.submits[i].phase != Dropping && s.submits[i].phase != Done(Rejected)
  }

  lemma CleanSubmission(cfg: Config, s: State, l: Label)
    requires Undisturbed(s) && Enabled(cfg, s, l) && OnSubmission(l)
    ensures Undisturbed(Apply(cfg, s, l))
  {
    hide WorkerEffect, WorkerEnabled, ControlEffect, ControlEnabled, CheckAllowed, Key;
    assert !s.submits[l.i].phase.Done?;
    assert !s.closed;
    match l
    case Check(i, _) =>
    case Mark(i, _) =>
    case TrySend(i) =>
    case SlowSend(i) =>
    case SlowCancel(i) =>
    case SlowPark(i) =>
    case Count(i) =>
  }

  lemma CleanClose(cfg: Config, s: State)
    requires Undisturbed(s) && CleanStep(s, Close)
    ensures Undisturbed(Apply(cfg, s, Close))
  {
    hide WorkerEffect, WorkerEnabled, SubmitEffect, SubmitEnabled;
    assert forall i: nat :: !InPhase(s, i, Parked);
  }

  lemma CleanOther(cfg: Config, s: State, l: Label)
    requires Undisturbed(s) && CleanStep(s, l) && Enabled(cfg, s, l)
    requires !OnSubmission(l) && !l.Close?
    requires s.shutdown.Waiting? ==> s.closed
    ensures Undisturbed(Apply(cfg, s, l))
  {
    hide Act, ActionEnabled, Land;
  }

  lemma {:induction false} CleanRunIsUndisturbed(cfg: Config, ls: seq<Label>)
    requires Run(cfg, ls).Some? && Clean(cfg, ls)
    ensures Undisturbed(Run(cfg, ls).value)
  {
    if ls != [] {
      var before, l := ls[..|ls| - 1], ls[|ls| - 1];
      var s := Run(cfg, before).value;
      CleanRunIsUndisturbed(cfg, before);
      RunKeepsInv(cfg, before);
      assert ShutdownOk(s.closed, s.cancelled, s.panicked, s.shutdown);
      hide Enabled, Apply, PoolInv, SubmitInv;
      if OnSubmission(l) {
        CleanSubmission(cfg, s, l);
      } else if l.Close? {
        CleanClose(cfg, s);
      } else {
        CleanOther(cfg, s, l);
      }
    }
  }

  lemma {:induction false} NoneRejected(submits: seq<Submission>)
    requires forall i :: 0 <= i < |submits| ==> submits[i].phase != Done(Rejected)
    ensures SumBy(submits, IfRejected) == 0
  {
    if submits != [] {
      NoneRejected(submits[1..]);
    }
  }

  /** Under the shutdown premise no send ever meets a closed channel and nothing is dropped. */
  lemma CleanShutdownNeverPanicsOrDrops(cfg: Config, ls: seq<Label>)
    requires Run(cfg, ls).Some? && Clean(cfg, ls)
    ensures !Run(cfg, ls).value.panicked && Run(cfg, ls).value.eventsDropped == 0
  {
    CleanRunIsUndisturbed(cfg, ls);
    RunKeepsInv(cfg, ls);
    hide Run, PoolInv, SentOk;
    NoneRejected(Run(cfg, ls).value.submits);
  }

  // ---- After Shutdown has returned nil ----

  /** Nothing a worker has handed out, or could still hand out, differs. */
  ghost predicate Settled(w: Worker, w': Worker) {
    && w'.pc == w.pc && w'.received == w.received && w'.finished == w.finished
    && w'.logs == w.logs && w'.flight == w.flight
    && w'.batcher.events == w.batcher.events && w'.batcher.flushed == w.batcher.flushed
  }

  lemma ExitedActsInVain(cfg: Config, now: int, w: Worker, a: Action)
    requires LockOk(cfg, w) && w.pc.Exited? && ActionEnabled(cfg, now, w, a)
    ensures Settled(w, Act(cfg, now, w, a))
  {
  }

  ghost predicate Vain(s: State, s': State) {
    && s'.shutdown.Returned? && |s'.workers| == |s.workers|
    && forall k :: 0 <= k < |s.workers| ==> Settled(s.workers[k], s'.workers[k])
  }

  lemma ReturnedWorkerIsVain(cfg: Config, s: State, k: nat, a: Action)
    requires PoolInv(cfg, s) && s.shutdown.Returned? && Enabled(cfg, s, Do(k, a))
    ensures Vain(s, Apply(cfg, s, Do(k, a)))
  {
    hide QueueOk, ProcessedOk, BatcherOk, HistoryOk, FanOutOk, Act, ActionEnabled;
    assert WorkerOk(cfg, s.now, s.workers[k]);
    ExitedActsInVain(cfg, s.now, s.workers[k], a);
    hide WorkersOk, WorkerOk, LockOk, PoolInv;
  }

  lemma ReturnedControlIsVain(cfg: Config, s: State, l: Label)
    requires s.shutdown.Returned? && Enabled(cfg, s, l) && s.closed
    requires !OnSubmission(l) && !l.Do? && !l.Receive? && !l.StopSignal? && !l.Complete?
    ensures Vain(s, Apply(cfg, s, l))
  {
    hide Act, ActionEnabled, Land, CheckAllowed, AllExited;
  }

  lemma SendIsVain(cfg: Config, s: State, l: Label)
    requires s.shutdown.Returned? && Enabled(cfg, s, l) && OnSubmission(l)
    ensures Vain(s, Apply(cfg, s, l))
  {
    if Sends(cfg, s, l) {
      assert Apply(cfg, s, l).workers == s.workers;
    } else {
      SubmissionFrame(cfg, s, l);
    }
  }

  lemma AllStay(cfg: Config, s: State, l: Label)
    requires PoolInv(cfg, s) && s.shutdown.Returned? && Enabled(cfg, s, l)
    ensures s.closed && !l.Receive? && !l.StopSignal? && !l.Complete?
  {
    hide QueueOk, ProcessedOk, BatcherOk, HistoryOk, FanOutOk;
    forall k | 0 <= k < |s.workers|
      ensures s.workers[k].flight.NoFlight?
    {
      assert WorkerOk(cfg, s.now, s.workers[k]);
    }
    hide WorkersOk, LockOk, Act, ActionEnabled, CheckAllowed;
  }

  lemma ReturnedStepIsVain(cfg: Config, s: State, l: Label)
    requires PoolInv(cfg, s) && s.shutdown.Returned? && Enabled(cfg, s, l)
    ensures Vain(s, Apply(cfg, s, l))
  {
    hide PoolInv, Enabled, Apply;
    AllStay(cfg, s, l);
    if OnSubmission(l) {
      SendIsVain(cfg, s, l);
    } else if l.Do? {
      ReturnedWorkerIsVain(cfg, s, l.k, l.action);
    } else {
      ReturnedControlIsVain(cfg, s, l);
    }
  }

  /** After Shutdown has returned nil no timer callback, however late, and no other step
      flushes, processes or writes anything any more. */
  lemma {:induction false} NothingIsFlushedAfterReturn(cfg: Config, ls: seq<Label>, later: seq<Label>)
    requires ls <= later && Run(cfg, later).Some? && Run(cfg, ls).Some?
    requires Run(cfg, ls).value.shutdown.Returned?
    ensures Vain(Run(cfg, ls).value, Run(cfg, later).value)
    decreases |later|
  {
    if ls == later {
    } else {
      var before := later[..|later| - 1];
      assert ls <= before;
      NothingIsFlushedAfterReturn(cfg, ls, before);
      RunKeepsInv(cfg, before);
      hide Enabled, Apply, PoolInv;
      ReturnedStepIsVain(cfg, Run(cfg, before).value, later[|later| - 1]);
    }
  }

  // ---- A forced shutdown that loses an event ----

  function LosingRun(e: Event): seq<Label> {
    [SubmitStart(e), TrySend(0), Close, ShutdownTimeout, StopSignal(0), Do(0, FinalFlush)]
  }

  function QueuedState(cfg: Config, e: Event): State {
    Init(cfg).(submits := [Submission(e, Sent, Unchecked, Never, Never)],
               channel := [Item(e, 0)], sent := [Item(e, 0)], sentAt := [0], step := 2)
  }

  /** One event is queued. */
  lemma EventQueued(cfg: Config, e: Event)
    requires cfg.workers == 1 && cfg.channelBuffer > 0 && cfg.deduplicator.NoDeduplicator?
    ensures Run(cfg, LosingRun(e)[..2]) == Some(QueuedState(cfg, e))
  {
    var ls := LosingRun(e);
    hide WorkerEffect, WorkerEnabled;
    var s1 := Init(cfg).(submits := [Submission(e, Sending, Unchecked, Never, Never)], step := 1);
    RunSnoc(cfg, [], ls[0]);
    assert [] + [ls[0]] == ls[..1];
    assert Apply(cfg, Init(cfg), ls[0]) == s1;
    assert InPhase(s1, 0, Sending) && Apply(cfg, s1, TrySend(0)) == QueuedState(cfg, e);
    RunSnoc(cfg, ls[..1], ls[1]);
    assert ls[..1] + [ls[1]] == ls[..2];
  }

  /** Then Shutdown is called and times out. */
  lemma QueuedAtTimeout(cfg: Config, e: Event) returns (s: State)
    requires cfg.workers == 1 && cfg.channelBuffer > 0 && cfg.deduplicator.NoDeduplicator?
    ensures Run(cfg, LosingRun(e)[..4]) == Some(s)
    ensures s == QueuedState(cfg, e).(closed := true, cancelled := true, shutdown := TimedOut, step := 4)
  {
    var ls := LosingRun(e);
    EventQueued(cfg, e);
    hide Run, WorkerEffect, WorkerEnabled, SubmitEffect, SubmitEnabled;
    var s2 := QueuedState(cfg, e);
    var s3 := s2.(closed := true, shutdown := Waiting, step := 3);
    assert Apply(cfg, s2, Close) == s3;
    RunSnoc(cfg, ls[..2], ls[2]);
    assert ls[..2] + [ls[2]] == ls[..3];
    s := s3.(shutdown := TimedOut, cancelled := true, step := 4);
    RunSnoc(cfg, ls[..3], ls[3]);
    assert ls[..3] + [ls[3]] == ls[..4];
  }

  /** The documentation promises that shutting down loses no accepted event. It can: the
      timeout may strike while an event is queued, and the worker's select may then choose
      ctx.Done over the channel. */
  lemma ForcedShutdownCanLoseAnEvent(cfg: Config, e: Event)
    requires cfg.workers == 1 && cfg.channelBuffer > 0 && cfg.deduplicator.NoDeduplicator?
    ensures Run(cfg, LosingRun(e)).Some?
    ensures
      var s := Run(cfg, LosingRun(e)).value;
      && AllExited(s) && !s.panicked
      && s.sent == s.channel == [Item(e, 0)] && s.eventsProcessed == 0
  {
    var ls := LosingRun(e);
    hide Run, SubmitEffect, SubmitEnabled, ControlEffect, ControlEnabled;
    hide Land, StartFlight, Fire, Consume, Slice, CanFire, CanRun;
    var s := QueuedAtTimeout(cfg, e);
    var w := NewWorker(cfg);
    assert s.workers == [w];
    var s1 := s.(workers := [w.(pc := Stopping)], step := 5);
    assert Apply(cfg, s, StopSignal(0)) == s1;
    RunSnoc(cfg, ls[..4], ls[4]);
    assert ls[..4] + [ls[4]] == ls[..5];
    var s2 := s1.(workers := [w.(pc := Exited)], step := 6);
    assert Apply(cfg, s1, Do(0, FinalFlush)) == s2;
    RunSnoc(cfg, ls[..5], ls[5]);
    assert ls[..5] + [ls[5]] == ls;
  }
}
