/** What skipping a duplicate may rely on: another call with the same fingerprint had been
    marked before, and its event is not forgotten. The memory deduplicator is in front. */
module Skips {
  import opened Collections
  import DedupSpec
  import opened Pipeline
  import opened WorkerInvariant
  import opened SystemInvariant
  import opened ShutdownSafety
  import opened PipelineTheorems
  import opened Delivery

  /** Call `j` marked `key` before step `step`. */
  ghost predicate MarkedBy(cfg: Config, submits: seq<Submission>, j: int, key: DedupSpec.Fingerprint, step: nat) {
    && 0 <= j < |submits| && Key(cfg, submits[j].event) == key
    && submits[j].marked.At? && submits[j].marked.step < step
  }

  ghost predicate Known(cfg: Config, submits: seq<Submission>, key: DedupSpec.Fingerprint, step: nat) {
    exists j :: MarkedBy(cfg, submits, j, key, step)
  }

  ghost predicate CacheKnown(cfg: Config, s: State) {
    forall key :: key in s.cache ==> Known(cfg, s.submits, key, s.step)
  }

  ghost predicate SeenKnown(cfg: Config, s: State) {
    forall i :: 0 <= i < |s.submits| && s.submits[i].verdict == Seen ==>
      s.submits[i].checked.At? && Known(cfg, s.submits, Key(cfg, s.submits[i].event), s.submits[i].checked.step)
  }

  /** Marks and duplicate answers are never taken back. */
  ghost predicate Keeps(a: seq<Submission>, b: seq<Submission>) {
    && |a| <= |b|
    && forall j :: 0 <= j < |a| ==>
         && b[j].event == a[j].event
         && (a[j].marked.At? ==> b[j].marked == a[j].marked)
         && (a[j].verdict == Seen ==> b[j].verdict == Seen && b[j].checked == a[j].checked)
  }

  /** Where a new duplicate answer, and a new cache entry, come from. */
  ghost predicate Justified(cfg: Config, s: State, s': State) {
    && (forall i :: 0 <= i < |s'.submits| && s'.submits[i].verdict == Seen ==>
          || (i < |s.submits| && s.submits[i].verdict == Seen)
          || (s'.submits[i].checked == At(s.step, s.now) && Key(cfg, s'.submits[i].event) in s.cache))
    && (forall key :: key in s'.cache ==>
          key in s.cache || Known(cfg, s'.submits, key, s.step + 1))
  }

  lemma KnownStays(cfg: Config, a: seq<Submission>, b: seq<Submission>,
                   key: DedupSpec.Fingerprint, step: nat, later: nat)
    requires Known(cfg, a, key, step) && Keeps(a, b) && step <= later
    ensures Known(cfg, b, key, later)
  {
    var j :| MarkedBy(cfg, a, j, key, step);
    assert MarkedBy(cfg, b, j, key, later);
  }

  lemma MarkJustified(cfg: Config, s: State, s': State, i: nat)
    requires i < |s.submits| && s.submits[i].marked.Never?
    requires s'.submits == s.submits[i := s.submits[i].(phase := Sending, marked := At(s.step, s.now))]
    requires s'.cache == s.cache[Key(cfg, s.submits[i].event) := s.now]
    ensures Keeps(s.submits, s'.submits) && Justified(cfg, s, s')
  {
    hide Key;
    var key := Key(cfg, s.submits[i].event);
    assert MarkedBy(cfg, s'.submits, i, key, s.step + 1);
    assert Known(cfg, s'.submits, key, s.step + 1);
    hide Known;
  }

  lemma CheckJustified(cfg: Config, s: State, s': State, i: nat)
    requires i < |s.submits| == |s'.submits| && s.submits[i].marked.Never? && s.submits[i].verdict != Seen
    requires s'.submits == s.submits[i := s'.submits[i]] && s'.submits[i].event == s.submits[i].event
    requires s'.submits[i].checked == At(s.step, s.now) && s'.cache == s.cache
    requires s'.submits[i].verdict == Seen ==> Key(cfg, s.submits[i].event) in s.cache
    ensures Keeps(s.submits, s'.submits) && Justified(cfg, s, s')
  {
    hide Key, Known;
  }

  lemma MoveJustified(cfg: Config, s: State, s': State, i: nat)
    requires i < |s.submits| == |s'.submits|
    requires s'.submits == s.submits[i := s'.submits[i]] && SameStamps(s.submits[i], s'.submits[i])
    requires s'.cache == s.cache
    ensures Keeps(s.submits, s'.submits) && Justified(cfg, s, s')
  {
    hide Key, Known;
  }

  lemma SubmissionJustified(cfg: Config, s: State, l: Label)
    requires cfg.deduplicator.Memory? && AllStamped(s.submits, s.step, s.now)
    requires SubmissionsOk(s.submits, s.closed, s.cancelled, s.panicked)
    requires Enabled(cfg, s, l) && OnSubmission(l)
    ensures Keeps(s.submits, Apply(cfg, s, l).submits) && Justified(cfg, s, Apply(cfg, s, l))
  {
    ApplySubmission(cfg, s, l);
    hide Enabled, Apply, Key, OutcomeOf;
    assert StampsOk(s.submits[l.i], s.step, s.now);
    assert SubmissionOk(s.submits[l.i], s.closed, s.cancelled, s.panicked);
    hide AllStamped, SubmissionsOk, Justified, Keeps;
    var s' := SubmitEffect(cfg, s, l).(step := s.step + 1);
    if l.Mark? {
      MarkJustified(cfg, s, s', l.i);
    } else if l.Check? {
      CheckJustified(cfg, s, s', l.i);
    } else {
      assert s'.submits == s.submits[l.i := s'.submits[l.i]];
      MoveJustified(cfg, s, s', l.i);
    }
  }

  lemma OtherJustified(cfg: Config, s: State, l: Label)
    requires cfg.deduplicator.Memory? && Enabled(cfg, s, l) && !OnSubmission(l)
    ensures Keeps(s.submits, Apply(cfg, s, l).submits) && Justified(cfg, s, Apply(cfg, s, l))
  {
    if OnWorker(l) {
      hide SubmitEffect, SubmitEnabled, ControlEffect, ControlEnabled, Act, ActionEnabled, Land, AllWritten;
      hide Key, Known;
    } else {
      hide SubmitEffect, SubmitEnabled, WorkerEffect, WorkerEnabled, AllExited, Key, Known;
    }
  }

  lemma StepKeepsKnown(cfg: Config, s: State, s': State)
    requires CacheKnown(cfg, s) && SeenKnown(cfg, s)
    requires Keeps(s.submits, s'.submits) && Justified(cfg, s, s') && s'.step == s.step + 1
    ensures CacheKnown(cfg, s') && SeenKnown(cfg, s')
  {
    hide Key, Known;
    forall key | key in s'.cache
      ensures Known(cfg, s'.submits, key, s'.step)
    {
      if key in s.cache {
        KnownStays(cfg, s.submits, s'.submits, key, s.step, s'.step);
      } else {
        assert Known(cfg, s'.submits, key, s.step + 1);
      }
    }
    forall i | 0 <= i < |s'.submits| && s'.submits[i].verdict == Seen
      ensures s'.submits[i].checked.At?
      ensures Known(cfg, s'.submits, Key(cfg, s'.submits[i].event), s'.submits[i].checked.step)
    {
      var key := Key(cfg, s'.submits[i].event);
      if i < |s.submits| && s.submits[i].verdict == Seen {
        KnownStays(cfg, s.submits, s'.submits, key, s.submits[i].checked.step, s.submits[i].checked.step);
      } else {
        KnownStays(cfg, s.submits, s'.submits, key, s.step, s.step);
      }
    }
  }

  lemma {:induction false} RunKeepsKnown(cfg: Config, ls: seq<Label>)
    requires Run(cfg, ls).Some? && cfg.deduplicator.Memory?
    ensures CacheKnown(cfg, Run(cfg, ls).value) && SeenKnown(cfg, Run(cfg, ls).value)
  {
    if ls != [] {
      var before, l := ls[..|ls| - 1], ls[|ls| - 1];
      RunKeepsKnown(cfg, before);
      RunKeepsDedup(cfg, before);
      RunKeepsInv(cfg, before);
      var s := Run(cfg, before).value;
      assert Run(cfg, ls).value == Apply(cfg, s, l) && Apply(cfg, s, l).step == s.step + 1;
      hide Run, Enabled, Apply, AllStamped, SubmissionsOk, PoolInv, CacheKnown, SeenKnown, Keeps, Justified;
      if OnSubmission(l) {
        SubmissionJustified(cfg, s, l);
      } else {
        OtherJustified(cfg, s, l);
      }
      StepKeepsKnown(cfg, s, Apply(cfg, s, l));
    }
  }

  /** Sent, on its way to its send, or rejected after a cancellation. */
  ghost predicate Pursued(s: State, sub: Submission) {
    || HasSent(sub) || sub.phase.Sending? || sub.phase.Full? || sub.phase.Parked?
    || (s.cancelled && (sub.phase.Dropping? || sub.phase == Done(Rejected)))
  }

  /** No event is skipped for nothing: a call that was answered "duplicate" comes after the
      Mark of another call with the same fingerprint, whose event was sent, is on its way,
      or was rejected after Shutdown had timed out. */
  lemma SkippedOnlyForAnother(cfg: Config, ls: seq<Label>, i: nat) returns (j: nat)
    requires Run(cfg, ls).Some? && cfg.deduplicator.Memory?
    requires i < |Run(cfg, ls).value.submits| && Run(cfg, ls).value.submits[i].verdict == Seen
    ensures
      var s := Run(cfg, ls).value;
      && j < |s.submits| && j != i
      && cfg.fingerprint(s.submits[j].event.deduplicationKey) == cfg.fingerprint(s.submits[i].event.deduplicationKey)
      && s.submits[j].marked.At? && s.submits[i].checked.At?
      && s.submits[j].marked.step < s.submits[i].checked.step
      && Pursued(s, s.submits[j])
  {
    RunKeepsKnown(cfg, ls);
    RunKeepsDedup(cfg, ls);
    RunKeepsInv(cfg, ls);
    hide Run, PoolInv, SentOk, CountsOk;
    var s := Run(cfg, ls).value;
    var m :| MarkedBy(cfg, s.submits, m, Key(cfg, s.submits[i].event), s.submits[i].checked.step);
    j := m;
    assert StampsOk(s.submits[j], s.step, s.now);
    assert SubmissionOk(s.submits[j], s.closed, s.cancelled, s.panicked);
    PursuedPhases(s, s.submits[j]);
  }

  lemma PursuedPhases(s: State, sub: Submission)
    requires StampsOk(sub, s.step, s.now) && SubmissionOk(sub, s.closed, s.cancelled, s.panicked)
    requires sub.marked.At?
    ensures Pursued(s, sub)
  {
    if sub.phase.Done? {
      match sub.phase.outcome
      case Accepted =>
      case Duplicate =>
      case Rejected =>
    }
  }

  /** Passed on exactly once to each plugin that accepts it, and to no other. */
  ghost predicate DeliveredOnce(cfg: Config, s: State, j: int) {
    && 0 <= j < |s.submits|
    && forall p :: 0 <= p < |cfg.plugins| ==>
         AllDelivered(s, p)[Item(s.submits[j].event, j)] == if cfg.plugins[p](s.submits[j].event) then 1 else 0
  }

  /** At least once: after a clean shutdown that returned nil, every event whose Submit was
      not answered "duplicate", whatever the deduplicator and whether or not it failed, has
      been passed exactly once to each plugin that accepts it. */
  lemma EveryPassedEventIsDelivered(cfg: Config, ls: seq<Label>, i: nat)
    requires Run(cfg, ls).Some? && Clean(cfg, ls) && Validated(cfg)
    requires Run(cfg, ls).value.shutdown.Returned? && i < |Run(cfg, ls).value.submits|
    requires Run(cfg, ls).value.submits[i].verdict != Seen
    ensures DeliveredOnce(cfg, Run(cfg, ls).value, i)
  {
    CleanRunIsUndisturbed(cfg, ls);
    RunKeepsInv(cfg, ls);
    hide Run, Clean, Key, PoolInv, SentOk, CountsOk, AllDelivered;
    var s := Run(cfg, ls).value;
    assert SubmissionOk(s.submits[i], s.closed, s.cancelled, s.panicked);
    DoneWasSent(s, s.submits[i]);
    forall p | 0 <= p < |cfg.plugins|
      ensures AllDelivered(s, p)[Item(s.submits[i].event, i)] == if cfg.plugins[p](s.submits[i].event) then 1 else 0
    {
      GracefulShutdownDeliversExactlyOnce(cfg, ls, i, p);
    }
  }

  /** With the memory deduplicator that covers the skipped events too: the event that each
      was a duplicate of has been delivered. */
  lemma EveryFingerprintIsDelivered(cfg: Config, ls: seq<Label>, i: nat) returns (j: nat)
    requires Run(cfg, ls).Some? && Clean(cfg, ls) && Validated(cfg) && cfg.deduplicator.Memory?
    requires Run(cfg, ls).value.shutdown.Returned? && i < |Run(cfg, ls).value.submits|
    ensures
      var s := Run(cfg, ls).value;
      && j < |s.submits|
      && cfg.fingerprint(s.submits[j].event.deduplicationKey) == cfg.fingerprint(s.submits[i].event.deduplicationKey)
      && (s.submits[i].verdict != Seen ==> j == i)
      && DeliveredOnce(cfg, s, j)
  {
    hide Run, Clean, DeliveredOnce, Pursued;
    var s := Run(cfg, ls).value;
    if s.submits[i].verdict == Seen {
      j := SkippedOnlyForAnother(cfg, ls, i);
      MarkedIsNotSeen(cfg, ls, j);
    } else {
      j := i;
    }
    EveryPassedEventIsDelivered(cfg, ls, j);
  }

  lemma MarkedIsNotSeen(cfg: Config, ls: seq<Label>, j: nat)
    requires Run(cfg, ls).Some? && cfg.deduplicator.Memory? && j < |Run(cfg, ls).value.submits|
    requires Run(cfg, ls).value.submits[j].marked.At?
    ensures Run(cfg, ls).value.submits[j].verdict != Seen
  {
    RunKeepsDedup(cfg, ls);
    hide Run, Key, AllRemembered, AllApart;
    var s := Run(cfg, ls).value;
    assert StampsOk(s.submits[j], s.step, s.now);
  }

  lemma DoneWasSent(s: State, sub: Submission)
    requires SubmissionOk(sub, s.closed, s.cancelled, s.panicked)
    requires sub.phase.Done? && sub.phase != Done(Rejected) && sub.verdict != Seen
    ensures HasSent(sub)
  {
    match sub.phase.outcome
    case Accepted =>
    case Duplicate =>
    case Rejected =>
  }
}
