/** What one call of Submit does, from its start to its return: which answers of the
    deduplicator lead where, when a send succeeds, and what the whole state is afterwards. */
module SubmitCall {
  import opened Collections
  import DedupSpec
  import opened Pipeline
  import opened SystemInvariant
  import opened Delivery

  // ---- Single steps ----

  lemma ApplyStart(cfg: Config, s: State, e: Event)
    requires !s.panicked
    ensures Enabled(cfg, s, SubmitStart(e))
    ensures
      var phase := if cfg.deduplicator.NoDeduplicator? then Sending else Checking;
      Apply(cfg, s, SubmitStart(e))
      == s.(submits := s.submits + [Submission(e, phase, Unchecked, Never, Never)], step := s.step + 1)
  {
    hide SubmitEffect, SubmitEnabled, WorkerEffect, WorkerEnabled, AllExited;
  }

  /** What the deduplicator may answer to a check: nothing is a duplicate for the no-op one,
      the memory one answers by presence of the fingerprint, a remote one may also fail. */
  ghost predicate Answers(cfg: Config, s: State, e: Event, verdict: Verdict) {
    || (cfg.deduplicator.Noop? && verdict == New)
    || (cfg.deduplicator.Memory? && verdict == New && cfg.fingerprint(e.deduplicationKey) !in s.cache)
    || (cfg.deduplicator.Memory? && verdict == Seen && cfg.fingerprint(e.deduplicationKey) in s.cache)
    || (cfg.deduplicator.Remote? && (verdict == New || verdict == Seen || verdict == CheckFailed))
  }

  lemma CheckStep(cfg: Config, s: State, i: nat, verdict: Verdict)
    requires !s.panicked && InPhase(s, i, Checking)
    ensures Enabled(cfg, s, Check(i, verdict)) <==> Answers(cfg, s, s.submits[i].event, verdict)
    ensures Enabled(cfg, s, Check(i, verdict)) <==>
      match cfg.deduplicator
      case NoDeduplicator => false
      case Noop => verdict == New
      case Memory(_) => verdict == if cfg.fingerprint(s.submits[i].event.deduplicationKey) in s.cache then Seen else New
      case Remote => verdict == New || verdict == Seen || verdict == CheckFailed
    ensures Enabled(cfg, s, Check(i, verdict)) ==>
      Apply(cfg, s, Check(i, verdict))
      == s.(submits := s.submits[i := s.submits[i].(phase := if verdict == Seen then DupSeen else Marking,
                                                    verdict := verdict, checked := At(s.step, s.now))],
            step := s.step + 1)
  {
    if Enabled(cfg, s, Check(i, verdict)) {
      ApplySubmission(cfg, s, Check(i, verdict));
    }
    hide Apply, WorkerEnabled, ControlEnabled;
  }

  /** Mark may fail only at a remote deduplicator; the call goes on in either case. */
  lemma MarkStep(cfg: Config, s: State, i: nat, ok: bool)
    requires !s.panicked && InPhase(s, i, Marking)
    ensures Enabled(cfg, s, Mark(i, ok)) <==> ok || cfg.deduplicator.Remote?
    ensures Enabled(cfg, s, Mark(i, ok)) ==>
      Apply(cfg, s, Mark(i, ok))
      == s.(submits := s.submits[i := s.submits[i].(phase := Sending,
                                                    marked := if ok then At(s.step, s.now) else Never)],
            cache := if cfg.deduplicator.Memory?
                     then s.cache[cfg.fingerprint(s.submits[i].event.deduplicationKey) := s.now] else s.cache,
            step := s.step + 1)
  {
    if Enabled(cfg, s, Mark(i, ok)) {
      ApplySubmission(cfg, s, Mark(i, ok));
    }
    hide Apply, WorkerEnabled, ControlEnabled;
  }

  /** The call's event is in the channel; the call has yet to count it. */
  function AfterSend(s: State, i: nat): State
    requires i < |s.submits|
  {
    var item := Item(s.submits[i].event, i);
    s.(submits := s.submits[i := s.submits[i].(phase := Sent)], channel := s.channel + [item],
       sent := s.sent + [item], sentAt := s.sentAt + [s.now], step := s.step + 1)
  }

  /** The first select sends if and only if the channel has a free slot. */
  lemma FastSendIffRoom(cfg: Config, s: State, i: nat)
    requires !s.panicked && !s.closed && InPhase(s, i, Sending)
    ensures Enabled(cfg, s, TrySend(i))
    ensures
      Apply(cfg, s, TrySend(i))
      == if |s.channel| < cfg.channelBuffer
         then s.(submits := s.submits[i := s.submits[i].(phase := Sent)],
                 channel := s.channel + [Item(s.submits[i].event, i)],
                 sent := s.sent + [Item(s.submits[i].event, i)], sentAt := s.sentAt + [s.now],
                 step := s.step + 1)
         else s.(submits := s.submits[i := s.submits[i].(phase := Full)], step := s.step + 1)
  {
    ApplySubmission(cfg, s, TrySend(i));
    hide Apply, WorkerEnabled, ControlEnabled;
  }

  /** A call in the second select, or blocked there, can send if and only if a slot is free,
      can give up if and only if the context is cancelled, and blocks if and only if neither
      is possible. */
  lemma SlowSendIffRoom(cfg: Config, s: State, i: nat)
    requires !s.panicked && !s.closed && (InPhase(s, i, Full) || InPhase(s, i, Parked))
    ensures Enabled(cfg, s, SlowSend(i)) <==> |s.channel| < cfg.channelBuffer
    ensures Enabled(cfg, s, SlowSend(i)) ==>
      Apply(cfg, s, SlowSend(i))
      == s.(submits := s.submits[i := s.submits[i].(phase := Sent)],
            channel := s.channel + [Item(s.submits[i].event, i)],
            sent := s.sent + [Item(s.submits[i].event, i)], sentAt := s.sentAt + [s.now],
            step := s.step + 1)
    ensures Enabled(cfg, s, SlowCancel(i)) <==> s.cancelled
    ensures Enabled(cfg, s, SlowCancel(i)) ==>
      Apply(cfg, s, SlowCancel(i))
      == s.(submits := s.submits[i := s.submits[i].(phase := Dropping)], step := s.step + 1)
    ensures Enabled(cfg, s, SlowPark(i))
       <==> InPhase(s, i, Full) && |s.channel| >= cfg.channelBuffer && !s.cancelled
  {
    if Enabled(cfg, s, SlowSend(i)) {
      ApplySubmission(cfg, s, SlowSend(i));
    }
    if Enabled(cfg, s, SlowCancel(i)) {
      ApplySubmission(cfg, s, SlowCancel(i));
    }
    hide Apply, WorkerEnabled, ControlEnabled;
  }

  /** The call returns nil and counts one event received or duplicated, or returns an error
      and counts one dropped. */
  lemma CountStep(cfg: Config, s: State, i: nat)
    requires !s.panicked && i < |s.submits| && s.submits[i].phase in {Sent, DupSeen, Dropping}
    ensures Enabled(cfg, s, Count(i))
    ensures
      var sub, next := s.submits[i], s.(step := s.step + 1);
      Apply(cfg, s, Count(i))
      == match sub.phase
         case Sent => next.(submits := s.submits[i := sub.(phase := Done(Accepted))],
                            eventsReceived := s.eventsReceived + 1)
         case DupSeen => next.(submits := s.submits[i := sub.(phase := Done(Duplicate))],
                               eventsDuplicated := s.eventsDuplicated + 1)
         case _ => next.(submits := s.submits[i := sub.(phase := Done(Rejected))],
                         eventsDropped := s.eventsDropped + 1)
  {
    ApplySubmission(cfg, s, Count(i));
    hide Apply, WorkerEnabled, ControlEnabled;
  }

  // ---- Whole calls ----

  lemma ReplaceLast<T>(xs: seq<T>, x: T, y: T)
    ensures (xs + [x])[|xs| := y] == xs + [y]
  {
  }

  /** Three more labels of a run. */
  lemma RunThree(cfg: Config, ls: seq<Label>, a: Label, b: Label, c: Label, s1: State, s2: State, s3: State)
    requires Run(cfg, ls).Some? && Enabled(cfg, Run(cfg, ls).value, a) && Apply(cfg, Run(cfg, ls).value, a) == s1
    requires Enabled(cfg, s1, b) && Apply(cfg, s1, b) == s2
    requires Enabled(cfg, s2, c) && Apply(cfg, s2, c) == s3
    ensures Run(cfg, ls + [a, b, c]) == Some(s3)
  {
    hide *;
    RunSnoc(cfg, ls, a);
    RunSnoc(cfg, ls + [a], b);
    RunSnoc(cfg, ls + [a] + [b], c);
    assert ls + [a] + [b] + [c] == ls + [a, b, c];
  }

  lemma RunTwo(cfg: Config, ls: seq<Label>, a: Label, b: Label, s1: State, s2: State)
    requires Run(cfg, ls).Some? && Enabled(cfg, Run(cfg, ls).value, a) && Apply(cfg, Run(cfg, ls).value, a) == s1
    requires Enabled(cfg, s1, b) && Apply(cfg, s1, b) == s2
    ensures Run(cfg, ls + [a, b]) == Some(s2)
  {
    hide *;
    RunSnoc(cfg, ls, a);
    RunSnoc(cfg, ls + [a], b);
    assert ls + [a] + [b] == ls + [a, b];
  }

  /** One more call, at the given point. */
  function With(s: State, sub: Submission, steps: nat): (r: State)
    ensures |r.submits| == |s.submits| + 1
  {
    s.(submits := s.submits + [sub], step := s.step + steps)
  }

  lemma DuplicateSteps(cfg: Config, s: State, e: Event)
    requires !s.panicked && Answers(cfg, s, e, Seen)
    ensures
      var i := |s.submits|;
      var s1 := With(s, Submission(e, Checking, Unchecked, Never, Never), 1);
      var s2 := With(s, Submission(e, DupSeen, Seen, At(s.step + 1, s.now), Never), 2);
      && Enabled(cfg, s, SubmitStart(e)) && Apply(cfg, s, SubmitStart(e)) == s1
      && Enabled(cfg, s1, Check(i, Seen)) && Apply(cfg, s1, Check(i, Seen)) == s2
      && Enabled(cfg, s2, Count(i))
      && Apply(cfg, s2, Count(i))
         == s.(submits := s.submits + [Submission(e, Done(Duplicate), Seen, At(s.step + 1, s.now), Never)],
               eventsDuplicated := s.eventsDuplicated + 1, step := s.step + 3)
  {
    var i := |s.submits|;
    var x1 := Submission(e, Checking, Unchecked, Never, Never);
    var x2 := Submission(e, DupSeen, Seen, At(s.step + 1, s.now), Never);
    ApplyStart(cfg, s, e);
    CheckStep(cfg, With(s, x1, 1), i, Seen);
    CountStep(cfg, With(s, x2, 2), i);
    hide Enabled, Apply;
    ReplaceLast(s.submits, x1, x2);
    ReplaceLast(s.submits, x2, x2.(phase := Done(Duplicate)));
  }

  /** A call that the deduplicator answers "duplicate" changes one counter, and nothing else:
      nothing is marked and nothing is sent. */
  lemma DuplicateIsSkipped(cfg: Config, ls: seq<Label>, e: Event)
    requires Run(cfg, ls).Some? && !Run(cfg, ls).value.panicked
    requires Answers(cfg, Run(cfg, ls).value, e, Seen)
    ensures
      var s := Run(cfg, ls).value;
      var i := |s.submits|;
      Run(cfg, ls + [SubmitStart(e), Check(i, Seen), Count(i)])
      == Some(s.(submits := s.submits + [Submission(e, Done(Duplicate), Seen, At(s.step + 1, s.now), Never)],
                 eventsDuplicated := s.eventsDuplicated + 1, step := s.step + 3))
  {
    hide *;
    var s := Run(cfg, ls).value;
    var i := |s.submits|;
    DuplicateSteps(cfg, s, e);
    var s1 := With(s, Submission(e, Checking, Unchecked, Never, Never), 1);
    var s2 := With(s, Submission(e, DupSeen, Seen, At(s.step + 1, s.now), Never), 2);
    RunThree(cfg, ls, SubmitStart(e), Check(i, Seen), Count(i), s1, s2, Apply(cfg, s2, Count(i)));
  }

  /** The state after a call that was let through at a channel with a free slot. */
  function AfterAccepted(s: State, sub: Submission, cache: DedupSpec.Cache, steps: nat): State {
    var item := Item(sub.event, |s.submits|);
    s.(submits := s.submits + [sub.(phase := Done(Accepted))], cache := cache,
       channel := s.channel + [item], sent := s.sent + [item], sentAt := s.sentAt + [s.now],
       eventsReceived := s.eventsReceived + 1, step := s.step + steps)
  }

  /** From the first select on. */
  lemma SendAndReturn(cfg: Config, s: State, sub: Submission, steps: nat)
    requires !s.panicked && !s.closed && |s.channel| < cfg.channelBuffer && sub.phase == Sending
    ensures
      var i := |s.submits|;
      var s1, s2 := With(s, sub, steps), AfterSend(With(s, sub, steps), |s.submits|);
      && Enabled(cfg, s1, TrySend(i)) && Apply(cfg, s1, TrySend(i)) == s2
      && Enabled(cfg, s2, Count(i)) && Apply(cfg, s2, Count(i)) == AfterAccepted(s, sub, s.cache, steps + 2)
  {
    var i := |s.submits|;
    FastSendIffRoom(cfg, With(s, sub, steps), i);
    CountStep(cfg, AfterSend(With(s, sub, steps), i), i);
    hide Enabled, Apply;
    ReplaceLast(s.submits, sub, sub.(phase := Sent));
    ReplaceLast(s.submits, sub.(phase := Sent), sub.(phase := Done(Accepted)));
  }

  lemma PassSteps(cfg: Config, s: State, e: Event, verdict: Verdict, ok: bool)
    requires !s.panicked && Answers(cfg, s, e, verdict) && verdict != Seen && (ok || cfg.deduplicator.Remote?)
    ensures
      var i := |s.submits|;
      var checked := At(s.step + 1, s.now);
      var marked := if ok then At(s.step + 2, s.now) else Never;
      var s1 := With(s, Submission(e, Checking, Unchecked, Never, Never), 1);
      var s2 := With(s, Submission(e, Marking, verdict, checked, Never), 2);
      && Enabled(cfg, s, SubmitStart(e)) && Apply(cfg, s, SubmitStart(e)) == s1
      && Enabled(cfg, s1, Check(i, verdict)) && Apply(cfg, s1, Check(i, verdict)) == s2
      && Enabled(cfg, s2, Mark(i, ok))
      && Apply(cfg, s2, Mark(i, ok))
         == With(s.(cache := CacheAfter(cfg, s, e)), Submission(e, Sending, verdict, checked, marked), 3)
  {
    var i := |s.submits|;
    var x1 := Submission(e, Checking, Unchecked, Never, Never);
    var x2 := Submission(e, Marking, verdict, At(s.step + 1, s.now), Never);
    var x3 := x2.(phase := Sending, marked := if ok then At(s.step + 2, s.now) else Never);
    ApplyStart(cfg, s, e);
    CheckStep(cfg, With(s, x1, 1), i, verdict);
    MarkStep(cfg, With(s, x2, 2), i, ok);
    hide Enabled, Apply;
    ReplaceLast(s.submits, x1, x2);
    ReplaceLast(s.submits, x2, x3);
  }

  function CacheAfter(cfg: Config, s: State, e: Event): DedupSpec.Cache {
    if cfg.deduplicator.Memory? then s.cache[cfg.fingerprint(e.deduplicationKey) := s.now] else s.cache
  }

  /** A call whose event is not answered "duplicate", because it is new or because the check
      failed, and whether or not Mark fails, sends it and returns nil; with the memory
      deduplicator its fingerprint is then marked. */
  lemma NewEventIsSent(cfg: Config, ls: seq<Label>, e: Event, verdict: Verdict, ok: bool)
    requires Run(cfg, ls).Some? && !Run(cfg, ls).value.panicked && !Run(cfg, ls).value.closed
    requires |Run(cfg, ls).value.channel| < cfg.channelBuffer
    requires Answers(cfg, Run(cfg, ls).value, e, verdict) && verdict != Seen
    requires ok || cfg.deduplicator.Remote?
    ensures
      var s := Run(cfg, ls).value;
      var i := |s.submits|;
      var marked := if ok then At(s.step + 2, s.now) else Never;
      var cache := if cfg.deduplicator.Memory? then s.cache[cfg.fingerprint(e.deduplicationKey) := s.now] else s.cache;
      Run(cfg, ls + [SubmitStart(e), Check(i, verdict), Mark(i, ok)] + [TrySend(i), Count(i)])
      == Some(s.(submits := s.submits + [Submission(e, Done(Accepted), verdict, At(s.step + 1, s.now), marked)],
                 cache := cache, channel := s.channel + [Item(e, i)],
                 sent := s.sent + [Item(e, i)], sentAt := s.sentAt + [s.now],
                 eventsReceived := s.eventsReceived + 1, step := s.step + 5))
  {
    hide *;
    var s := Run(cfg, ls).value;
    var i := |s.submits|;
    PassSteps(cfg, s, e, verdict, ok);
    var x1 := Submission(e, Checking, Unchecked, Never, Never);
    var x2 := Submission(e, Marking, verdict, At(s.step + 1, s.now), Never);
    var x3 := x2.(phase := Sending, marked := if ok then At(s.step + 2, s.now) else Never);
    var marked := s.(cache := CacheAfter(cfg, s, e));
    var s3 := With(marked, x3, 3);
    RunThree(cfg, ls, SubmitStart(e), Check(i, verdict), Mark(i, ok), With(s, x1, 1), With(s, x2, 2), s3);
    SendAndReturn(cfg, marked, x3, 3);
    RunTwo(cfg, ls + [SubmitStart(e), Check(i, verdict), Mark(i, ok)], TrySend(i), Count(i),
           AfterSend(s3, i), AfterAccepted(marked, x3, marked.cache, 5));
    AcceptedInFull(cfg, s, x3);
  }

  lemma AcceptedInFull(cfg: Config, s: State, sub: Submission)
    ensures
      var e := sub.event;
      var cache := if cfg.deduplicator.Memory? then s.cache[cfg.fingerprint(e.deduplicationKey) := s.now] else s.cache;
      var marked := s.(cache := CacheAfter(cfg, s, e));
      AfterAccepted(marked, sub, marked.cache, 5)
      == s.(submits := s.submits + [sub.(phase := Done(Accepted))], cache := cache,
            channel := s.channel + [Item(e, |s.submits|)], sent := s.sent + [Item(e, |s.submits|)],
            sentAt := s.sentAt + [s.now], eventsReceived := s.eventsReceived + 1, step := s.step + 5)
  {
  }

  /** Without a deduplicator every event is sent unchecked. */
  lemma SentUnchecked(cfg: Config, ls: seq<Label>, e: Event)
    requires Run(cfg, ls).Some? && !Run(cfg, ls).value.panicked && !Run(cfg, ls).value.closed
    requires |Run(cfg, ls).value.channel| < cfg.channelBuffer && cfg.deduplicator.NoDeduplicator?
    ensures
      var s := Run(cfg, ls).value;
      var i := |s.submits|;
      Run(cfg, ls + [SubmitStart(e), TrySend(i), Count(i)])
      == Some(s.(submits := s.submits + [Submission(e, Done(Accepted), Unchecked, Never, Never)],
                 channel := s.channel + [Item(e, i)],
                 sent := s.sent + [Item(e, i)], sentAt := s.sentAt + [s.now],
                 eventsReceived := s.eventsReceived + 1, step := s.step + 3))
  {
    hide *;
    var s := Run(cfg, ls).value;
    var i := |s.submits|;
    var sub := Submission(e, Sending, Unchecked, Never, Never);
    StartUnchecked(cfg, s, e);
    SendAndReturn(cfg, s, sub, 1);
    UncheckedInFull(s, sub);
    RunThree(cfg, ls, SubmitStart(e), TrySend(i), Count(i), With(s, sub, 1), AfterSend(With(s, sub, 1), i),
             AfterAccepted(s, sub, s.cache, 3));
  }

  lemma StartUnchecked(cfg: Config, s: State, e: Event)
    requires !s.panicked && cfg.deduplicator.NoDeduplicator?
    ensures Enabled(cfg, s, SubmitStart(e))
    ensures Apply(cfg, s, SubmitStart(e)) == With(s, Submission(e, Sending, Unchecked, Never, Never), 1)
  {
    ApplyStart(cfg, s, e);
    hide Enabled, Apply;
  }

  lemma UncheckedInFull(s: State, sub: Submission)
    ensures
      AfterAccepted(s, sub, s.cache, 3)
      == s.(submits := s.submits + [sub.(phase := Done(Accepted))],
            channel := s.channel + [Item(sub.event, |s.submits|)],
            sent := s.sent + [Item(sub.event, |s.submits|)], sentAt := s.sentAt + [s.now],
            eventsReceived := s.eventsReceived + 1, step := s.step + 3)
  {
  }

  // ---- Redelivery ----

  /** An event delivered again is answered "duplicate": with the memory deduplicator, while
      it is not closed, the only possible answer for an event whose deduplication key was
      marked at most the TTL ago, whatever else differs, is Seen. */
  lemma RedeliveryIsDuplicate(cfg: Config, ls: seq<Label>, i: nat, j: nat, verdict: Verdict)
    requires Run(cfg, ls).Some? && cfg.deduplicator.Memory?
    requires !Run(cfg, ls).value.dedupClosed && !Run(cfg, ls).value.panicked
    requires i < |Run(cfg, ls).value.submits| && InPhase(Run(cfg, ls).value, j, Checking)
    requires
      var s := Run(cfg, ls).value;
      && s.submits[i].event.deduplicationKey == s.submits[j].event.deduplicationKey
      && s.submits[i].marked.At? && s.now - s.submits[i].marked.time <= cfg.deduplicator.ttl
    ensures Enabled(cfg, Run(cfg, ls).value, Check(j, verdict)) <==> verdict == Seen
  {
    RunKeepsDedup(cfg, ls);
    hide Run, AllApart, AllStamped;
    var s := Run(cfg, ls).value;
    assert Remembered(s.cache, cfg.deduplicator.ttl, s.now, Key(cfg, s.submits[i].event), s.submits[i].marked.time);
    hide AllRemembered;
    CheckStep(cfg, s, j, verdict);
    hide Enabled, Apply;
  }

  /** A closed deduplicator has forgotten everything: the next check of any event is answered
      "new", until something is marked again. */
  lemma CloseForgets(cfg: Config, ls: seq<Label>, e: Event, verdict: Verdict)
    requires Run(cfg, ls).Some? && cfg.deduplicator.Memory?
    requires !Run(cfg, ls).value.dedupClosed && !Run(cfg, ls).value.panicked
    ensures
      var i := |Run(cfg, ls).value.submits|;
      Run(cfg, ls + [CloseDedup, SubmitStart(e), Check(i, verdict)]).Some? <==> verdict == New
  {
    var s := Run(cfg, ls).value;
    var i := |s.submits|;
    ApplyCloseDedup(cfg, s);
    var s1 := s.(cache := map[], dedupClosed := true, step := s.step + 1);
    StartChecking(cfg, s1, e);
    var s2 := With(s1, Submission(e, Checking, Unchecked, Never, Never), 1);
    CheckStep(cfg, s2, i, verdict);
    assert Answers(cfg, s2, e, verdict) <==> verdict == New;
    hide Answers, Enabled, Apply, With;
    assert (ls + [CloseDedup, SubmitStart(e), Check(i, verdict)])[..|ls| + 2] == ls + [CloseDedup, SubmitStart(e)];
    RunTwo(cfg, ls, CloseDedup, SubmitStart(e), s1, s2);
  }

  lemma ApplyCloseDedup(cfg: Config, s: State)
    requires !s.panicked && cfg.deduplicator.Memory? && !s.dedupClosed
    ensures Enabled(cfg, s, CloseDedup)
    ensures Apply(cfg, s, CloseDedup) == s.(cache := map[], dedupClosed := true, step := s.step + 1)
  {
    hide SubmitEffect, SubmitEnabled, WorkerEffect, WorkerEnabled, AllExited;
  }

  lemma StartChecking(cfg: Config, s: State, e: Event)
    requires !s.panicked && !cfg.deduplicator.NoDeduplicator?
    ensures Enabled(cfg, s, SubmitStart(e))
    ensures Apply(cfg, s, SubmitStart(e)) == With(s, Submission(e, Checking, Unchecked, Never, Never), 1)
  {
    ApplyStart(cfg, s, e);
    hide Enabled, Apply;
  }
}
