/** When calling Shutdown is safe: which outstanding Submit calls can make the pipeline
    panic after it. */
module PanicSafety {
  import opened Collections
  import DedupSpec
  import opened Pipeline
  import opened SystemInvariant
  import opened ShutdownSafety

  // ---- The condition ----

  /** The deduplicator may still let the event pass; a closed memory deduplicator never
      forgets an entry again. (Without a deduplicator no call is ever checking.) */
  predicate CanPass(cfg: Config, s: State, e: Event) {
    match cfg.deduplicator
    case NoDeduplicator => false
    case Memory(_) => !s.dedupClosed || Key(cfg, e) !in s.cache
    case _ => true
  }

  /** The call may still come to its send. */
  predicate MaySend(cfg: Config, s: State, sub: Submission) {
    match sub.phase
    case Checking => CanPass(cfg, s, sub.event)
    case Marking => true
    case Sending => true
    case Full => true
    case Parked => true
    case _ => false
  }

  ghost predicate NoneMaySend(cfg: Config, s: State) {
    forall i :: 0 <= i < |s.submits| ==> !MaySend(cfg, s, s.submits[i])
  }

  ghost predicate EndsInPanic(cfg: Config, ls: seq<Label>) {
    Run(cfg, ls).Some? && Run(cfg, ls).value.panicked
  }

  // ---- Safe: nothing is left that could send ----

  ghost predicate Calm(cfg: Config, s: State) {
    !s.panicked && s.closed && NoneMaySend(cfg, s)
  }

  ghost predicate Undropped(s: State) {
    forall i :: 0 <= i < |s.submits| ==> s.submits[i].phase != Dropping && s.submits[i].phase != Done(Rejected)
  }

  lemma CalmSubmission(cfg: Config, s: State, l: Label)
    requires Calm(cfg, s) && Enabled(cfg, s, l) && OnSubmission(l)
    ensures Calm(cfg, Apply(cfg, s, l))
    ensures Undropped(s) ==> Undropped(Apply(cfg, s, l))
  {
    ApplySubmission(cfg, s, l);
    hide Enabled, Apply, Key;
    assert !MaySend(cfg, s, s.submits[l.i]);
    assert l.Check? || l.Count?;
  }

  lemma CalmWorker(cfg: Config, s: State, l: Label)
    requires Calm(cfg, s) && Enabled(cfg, s, l) && OnWorker(l)
    ensures Calm(cfg, Apply(cfg, s, l))
    ensures Undropped(s) ==> Undropped(Apply(cfg, s, l))
  {
    hide SubmitEffect, SubmitEnabled, ControlEffect, ControlEnabled, Act, ActionEnabled, Land, Key;
    var s' := Apply(cfg, s, l);
    assert s'.submits == s.submits && s'.cache == s.cache && s'.dedupClosed == s.dedupClosed;
  }

  lemma CalmControl(cfg: Config, s: State, l: Label)
    requires Calm(cfg, s) && Enabled(cfg, s, l) && !OnSubmission(l) && !OnWorker(l)
    requires !l.SubmitStart? && !l.Close?
    ensures Calm(cfg, Apply(cfg, s, l))
    ensures Undropped(s) ==> Undropped(Apply(cfg, s, l))
  {
    hide SubmitEffect, SubmitEnabled, WorkerEffect, WorkerEnabled, Key, AllExited;
  }

  lemma CalmClose(cfg: Config, ls: seq<Label>)
    requires Run(cfg, ls).Some? && !Run(cfg, ls).value.closed && !Run(cfg, ls).value.panicked
    requires NoneMaySend(cfg, Run(cfg, ls).value)
    ensures Run(cfg, ls + [Close]).Some?
    ensures Calm(cfg, Run(cfg, ls + [Close]).value) && Undropped(Run(cfg, ls + [Close]).value)
  {
    var s := Run(cfg, ls).value;
    RunKeepsInv(cfg, ls);
    hide Run, Key, PoolInv, SentOk, CountsOk;
    ClosePanicsIff(cfg, s);
    RunSnoc(cfg, ls, Close);
    hide Enabled, Apply;
    forall i: nat
      ensures !InPhase(s, i, Parked)
    {
      assert i < |s.submits| ==> !MaySend(cfg, s, s.submits[i]);
    }
    forall i | 0 <= i < |s.submits|
      ensures s.submits[i].phase != Dropping && s.submits[i].phase != Done(Rejected)
    {
      assert SubmissionOk(s.submits[i], s.closed, s.cancelled, s.panicked);
    }
  }

  lemma {:induction false} CalmStays(cfg: Config, ls: seq<Label>, more: seq<Label>)
    requires Run(cfg, ls).Some? && Calm(cfg, Run(cfg, ls).value)
    requires Run(cfg, ls + more).Some? && NoCalls(more)
    ensures Calm(cfg, Run(cfg, ls + more).value)
    ensures Undropped(Run(cfg, ls).value) ==> Undropped(Run(cfg, ls + more).value)
  {
    if more == [] {
      assert ls + more == ls;
    } else {
      var n := |more| - 1;
      assert (ls + more)[..|ls + more| - 1] == ls + more[..n];
      CalmStays(cfg, ls, more[..n]);
      var s := Run(cfg, ls + more[..n]).value;
      hide Calm, Undropped, Enabled, Apply;
      if OnSubmission(more[n]) {
        CalmSubmission(cfg, s, more[n]);
      } else if OnWorker(more[n]) {
        CalmWorker(cfg, s, more[n]);
      } else {
        CalmControl(cfg, s, more[n]);
      }
    }
  }

  lemma UndroppedMeansNoneCounted(cfg: Config, ls: seq<Label>)
    requires Run(cfg, ls).Some? && Undropped(Run(cfg, ls).value)
    ensures Run(cfg, ls).value.eventsDropped == 0
  {
    RunKeepsInv(cfg, ls);
    hide Run, PoolInv, SentOk;
    NoneRejected(Run(cfg, ls).value.submits);
  }

  // ---- Unsafe: an outstanding call goes on to its send ----

  /** Steps of Submit calls, time and the deduplicator only. */
  ghost predicate NoWork(ls: seq<Label>) {
    forall i :: 0 <= i < |ls| ==> !OnWorker(ls[i])
  }

  /** From here the call's own steps lead to a panic. */
  ghost predicate Doomed(cfg: Config, ls: seq<Label>, i: nat, phase: Phase) {
    && Run(cfg, ls).Some? && Run(cfg, ls).value.closed && !Run(cfg, ls).value.panicked
    && InPhase(Run(cfg, ls).value, i, phase)
  }

  lemma SendingPanics(cfg: Config, ls: seq<Label>, i: nat, phase: Phase) returns (more: seq<Label>)
    requires Doomed(cfg, ls, i, phase) && phase in {Sending, Full, Parked}
    ensures NoCalls(more) && NoWork(more) && EndsInPanic(cfg, ls + more)
  {
    var s := Run(cfg, ls).value;
    hide Run;
    var l := if phase == Sending then TrySend(i) else SlowSend(i);
    assert Enabled(cfg, s, l);
    ApplySubmission(cfg, s, l);
    hide Enabled, Apply;
    RunSnoc(cfg, ls, l);
    more := [l];
  }

  /** The call moves on to its next phase. */
  lemma DoomedNext(cfg: Config, ls: seq<Label>, l: Label, i: nat, phase: Phase, next: Phase)
    requires Doomed(cfg, ls, i, phase) && Enabled(cfg, Run(cfg, ls).value, l)
    requires
      var s' := Apply(cfg, Run(cfg, ls).value, l);
      s'.closed && !s'.panicked && InPhase(s', i, next)
    ensures Doomed(cfg, ls + [l], i, next)
  {
    hide Run, Enabled, Apply, InPhase;
    RunSnoc(cfg, ls, l);
  }

  lemma ApplyMark(cfg: Config, s: State, i: nat)
    requires !s.panicked && InPhase(s, i, Marking)
    ensures Enabled(cfg, s, Mark(i, true))
    ensures
      var s' := Apply(cfg, s, Mark(i, true));
      s'.closed == s.closed && s'.panicked == s.panicked && InPhase(s', i, Sending)
  {
    ApplySubmission(cfg, s, Mark(i, true));
    hide Apply, WorkerEnabled, ControlEnabled, Key;
  }

  lemma MarkingPanics(cfg: Config, ls: seq<Label>, i: nat) returns (more: seq<Label>)
    requires Doomed(cfg, ls, i, Marking)
    ensures NoCalls(more) && NoWork(more) && EndsInPanic(cfg, ls + more)
  {
    var l := Mark(i, true);
    hide Run, Enabled, Apply, InPhase;
    ApplyMark(cfg, Run(cfg, ls).value, i);
    DoomedNext(cfg, ls, l, i, Marking, Sending);
    var rest := SendingPanics(cfg, ls + [l], i, Sending);
    more := [l] + rest;
    assert ls + more == ls + [l] + rest;
  }

  lemma ApplyNewVerdict(cfg: Config, s: State, i: nat)
    requires !s.panicked && InPhase(s, i, Checking) && CheckAllowed(cfg, s, s.submits[i].event, New)
    ensures Enabled(cfg, s, Check(i, New))
    ensures
      var s' := Apply(cfg, s, Check(i, New));
      s'.closed == s.closed && s'.panicked == s.panicked && InPhase(s', i, Marking)
  {
    ApplySubmission(cfg, s, Check(i, New));
    hide Apply, WorkerEnabled, ControlEnabled, CheckAllowed, Key;
  }

  lemma PassingPanics(cfg: Config, ls: seq<Label>, i: nat) returns (more: seq<Label>)
    requires Doomed(cfg, ls, i, Checking)
    requires CheckAllowed(cfg, Run(cfg, ls).value, Run(cfg, ls).value.submits[i].event, New)
    ensures NoCalls(more) && NoWork(more) && EndsInPanic(cfg, ls + more)
  {
    var l := Check(i, New);
    hide Run, Enabled, Apply, InPhase, CheckAllowed;
    ApplyNewVerdict(cfg, Run(cfg, ls).value, i);
    DoomedNext(cfg, ls, l, i, Checking, Marking);
    var rest := MarkingPanics(cfg, ls + [l], i);
    more := [l] + rest;
    assert ls + more == ls + [l] + rest;
  }

  lemma ApplyCleanup(cfg: Config, s: State)
    requires !s.panicked && cfg.deduplicator.Memory? && !s.dedupClosed
    ensures Enabled(cfg, s, Cleanup)
    ensures Apply(cfg, s, Cleanup)
         == s.(cache := DedupSpec.Expire(s.cache, cfg.deduplicator.ttl, s.now), step := s.step + 1)
  {
    hide SubmitEffect, SubmitEnabled, WorkerEffect, WorkerEnabled, AllExited, DedupSpec.Expire;
  }

  /** An entry that makes the event a duplicate expires: time passes and the sweep runs. */
  lemma WaitForExpiry(cfg: Config, ls: seq<Label>, i: nat) returns (more: seq<Label>)
    requires Doomed(cfg, ls, i, Checking)
    requires cfg.deduplicator.Memory? && !Run(cfg, ls).value.dedupClosed
    requires Key(cfg, Run(cfg, ls).value.submits[i].event) in Run(cfg, ls).value.cache
    ensures NoCalls(more) && NoWork(more) && Doomed(cfg, ls + more, i, Checking)
    ensures CheckAllowed(cfg, Run(cfg, ls + more).value, Run(cfg, ls + more).value.submits[i].event, New)
  {
    var s := Run(cfg, ls).value;
    var key := Key(cfg, s.submits[i].event);
    hide Run, Key;
    var age := s.now - s.cache[key];
    var d: nat := if age > cfg.deduplicator.ttl then 0 else cfg.deduplicator.ttl + 1 - age;
    ApplyTick(cfg, s, d);
    var s1 := s.(now := s.now + d, step := s.step + 1);
    ApplyCleanup(cfg, s1);
    hide Enabled, Apply;
    RunSnoc(cfg, ls, Tick(d));
    RunSnoc(cfg, ls + [Tick(d)], Cleanup);
    more := [Tick(d), Cleanup];
    assert ls + more == ls + [Tick(d)] + [Cleanup];
  }

  lemma CheckingPanics(cfg: Config, ls: seq<Label>, i: nat) returns (more: seq<Label>)
    requires Doomed(cfg, ls, i, Checking)
    requires CanPass(cfg, Run(cfg, ls).value, Run(cfg, ls).value.submits[i].event)
    ensures NoCalls(more) && NoWork(more) && EndsInPanic(cfg, ls + more)
  {
    var s := Run(cfg, ls).value;
    hide Run, Key, Enabled, Apply;
    if CheckAllowed(cfg, s, s.submits[i].event, New) {
      more := PassingPanics(cfg, ls, i);
    } else {
      var wait := WaitForExpiry(cfg, ls, i);
      var rest := PassingPanics(cfg, ls + wait, i);
      more := wait + rest;
      assert ls + more == ls + wait + rest;
    }
  }

  lemma OutstandingCanPanic(cfg: Config, ls: seq<Label>, i: nat) returns (more: seq<Label>)
    requires Run(cfg, ls).Some? && Run(cfg, ls).value.closed && !Run(cfg, ls).value.panicked
    requires i < |Run(cfg, ls).value.submits| && MaySend(cfg, Run(cfg, ls).value, Run(cfg, ls).value.submits[i])
    ensures NoCalls(more) && NoWork(more) && EndsInPanic(cfg, ls + more)
  {
    hide Run, Key;
    var phase := Run(cfg, ls).value.submits[i].phase;
    assert Doomed(cfg, ls, i, phase);
    match phase
    case Checking => more := CheckingPanics(cfg, ls, i);
    case Marking => more := MarkingPanics(cfg, ls, i);
    case _ => more := SendingPanics(cfg, ls, i, phase);
  }

  lemma CloseThenPanics(cfg: Config, ls: seq<Label>, i: nat) returns (more: seq<Label>)
    requires Run(cfg, ls).Some? && !Run(cfg, ls).value.closed && !Run(cfg, ls).value.panicked
    requires i < |Run(cfg, ls).value.submits| && MaySend(cfg, Run(cfg, ls).value, Run(cfg, ls).value.submits[i])
    ensures NoCalls(more) && EndsInPanic(cfg, ls + [Close] + more)
  {
    hide Run, Key;
    ClosePanicsIff(cfg, Run(cfg, ls).value);
    RunSnoc(cfg, ls, Close);
    hide Enabled, Apply;
    if Run(cfg, ls + [Close]).value.panicked {
      more := [];
      assert ls + [Close] + more == ls + [Close];
    } else {
      more := OutstandingCanPanic(cfg, ls + [Close], i);
    }
  }

  /** Exactly when calling Shutdown can make the pipeline panic, with no further call of
      Submit or Shutdown: if and only if some outstanding Submit may still come to its send.
      If none may, nothing is dropped either, even if Shutdown times out. */
  lemma ShutdownCanPanicIff(cfg: Config, ls: seq<Label>)
    requires Run(cfg, ls).Some? && !Run(cfg, ls).value.closed && !Run(cfg, ls).value.panicked
    ensures
      (exists more :: NoCalls(more) && EndsInPanic(cfg, ls + [Close] + more))
      <==> !NoneMaySend(cfg, Run(cfg, ls).value)
    ensures NoneMaySend(cfg, Run(cfg, ls).value) ==>
      forall more :: NoCalls(more) && Run(cfg, ls + [Close] + more).Some? ==>
        Run(cfg, ls + [Close] + more).value.eventsDropped == 0
  {
    hide Run, MaySend, Undropped;
    var s := Run(cfg, ls).value;
    if NoneMaySend(cfg, s) {
      CalmClose(cfg, ls);
      forall more | NoCalls(more) && Run(cfg, ls + [Close] + more).Some?
        ensures Run(cfg, ls + [Close] + more).value.eventsDropped == 0
        ensures !EndsInPanic(cfg, ls + [Close] + more)
      {
        CalmStays(cfg, ls + [Close], more);
        UndroppedMeansNoneCounted(cfg, ls + [Close] + more);
      }
    } else {
      var i :| 0 <= i < |s.submits| && MaySend(cfg, s, s.submits[i]);
      var more := CloseThenPanics(cfg, ls, i);
      assert NoCalls(more) && EndsInPanic(cfg, ls + [Close] + more);
    }
  }

  /** Such a run: a Submit has been called, Shutdown closes the channel, the Submit sends. */
  lemma SubmitDuringShutdownPanics(cfg: Config, e: Event)
    requires cfg.deduplicator.NoDeduplicator?
    ensures EndsInPanic(cfg, [SubmitStart(e), Close, TrySend(0)])
  {
    hide WorkerEffect, WorkerEnabled, AllExited, NewWorker;
    var s0 := Init(cfg);
    var s1 := s0.(submits := [Submission(e, Sending, Unchecked, Never, Never)], step := 1);
    RunSnoc(cfg, [], SubmitStart(e));
    assert [] + [SubmitStart(e)] == [SubmitStart(e)];
    assert Apply(cfg, s0, SubmitStart(e)) == s1;
    ClosePanicsIff(cfg, s1);
    RunSnoc(cfg, [SubmitStart(e)], Close);
    assert [SubmitStart(e)] + [Close] == [SubmitStart(e), Close];
    var s2 := s1.(closed := true, shutdown := Waiting, step := 2);
    assert Apply(cfg, s1, Close) == s2 && InPhase(s2, 0, Sending);
    RunSnoc(cfg, [SubmitStart(e), Close], TrySend(0));
    assert [SubmitStart(e), Close] + [TrySend(0)] == [SubmitStart(e), Close, TrySend(0)];
  }
}
