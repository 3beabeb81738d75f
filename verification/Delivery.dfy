/** End to end: what reaches a plugin, and how often, with the memory deduplicator in
    front of the pipeline. */
module Delivery {
  import opened Collections
  import opened BatcherSpec
  import DedupSpec
  import opened Pipeline
  import opened WorkerInvariant
  import opened SystemInvariant
  import opened PipelineTheorems

  // ---- Exactly once, up to the plugin's filter ----

  /** Everything worker `w` has passed to WriteBatch of plugin `p`. */
  ghost function Delivered(p: nat, w: Worker): multiset<Item> {
    if p < |w.logs| then multiset(Flatten(w.logs[p])) else multiset{}
  }

  ghost function DeliveredTo(p: nat): Worker -> multiset<Item> {
    w => Delivered(p, w)
  }

  ghost function AllDelivered(s: State, p: nat): multiset<Item> {
    UnionBy(s.workers, DeliveredTo(p))
  }

  lemma DeliveredIsOwned(cfg: Config, now: int, w: Worker, p: nat)
    requires WorkerOk(cfg, now, w) && p < |cfg.plugins|
    ensures Delivered(p, w) <= OwnedSet(w)
  {
    hide BatcherOk, HistoryOk, Slice, Flatten;
    assert PluginOk(cfg, w, p);
    var given := Flatten(w.finished) + Started(w, p);
    forall x
      ensures Delivered(p, w)[x] <= multiset(given)[x]
    {
      SliceCounts(cfg.plugins[p], given, x);
    }
    assert multiset(given) == multiset(Flatten(w.finished)) + multiset(Started(w, p));
    assert multiset(Started(w, p)) <= multiset(InFlight(w));
  }

  /** No event is passed to a plugin twice, in any run, by any of the workers. */
  lemma DeliveredAtMostOnce(cfg: Config, ls: seq<Label>, p: nat, x: Item)
    requires Run(cfg, ls).Some? && p < |cfg.plugins|
    ensures
      var s := Run(cfg, ls).value;
      AllDelivered(s, p)[x] <= 1 && (x in AllDelivered(s, p) ==> x in s.sent)
  {
    RunKeepsInv(cfg, ls);
    hide Run, UnionBy;
    var s := Run(cfg, ls).value;
    SentIsOwned(cfg, s);
    forall w | w in s.workers
      ensures DeliveredTo(p)(w) <= OwnedSet(w)
    {
      DeliveredIsOwned(cfg, s.now, w, p);
    }
    hide PoolInv;
    UnionBySubset(s.workers, DeliveredTo(p), OwnedSet);
    SentIsDistinct(s.submits, s.sent, x);
  }

  lemma LandedIsDelivered(cfg: Config, now: int, w: Worker, p: nat, x: Item)
    requires WorkerOk(cfg, now, w) && w.flight.NoFlight? && p < |cfg.plugins|
    ensures Delivered(p, w)[x] == if cfg.plugins[p](x.event) then ProcessedSet(w)[x] else 0
  {
    hide BatcherOk, LockOk, HistoryOk, Slice, Flatten;
    assert PluginOk(cfg, w, p);
    assert Flatten(w.finished) + Started(w, p) == Flatten(w.finished);
    SliceCounts(cfg.plugins[p], Flatten(w.finished), x);
  }

  lemma {:induction false} DeliveredTally(cfg: Config, now: int, ws: seq<Worker>, p: nat, x: Item)
    requires forall k :: 0 <= k < |ws| ==> WorkerOk(cfg, now, ws[k]) && ws[k].flight.NoFlight?
    requires p < |cfg.plugins|
    ensures UnionBy(ws, DeliveredTo(p))[x] == if cfg.plugins[p](x.event) then UnionBy(ws, ProcessedSet)[x] else 0
  {
    hide WorkerOk, Delivered, ProcessedSet;
    if ws != [] {
      DeliveredTally(cfg, now, ws[..|ws| - 1], p, x);
      LandedIsDelivered(cfg, now, ws[|ws| - 1], p, x);
    }
  }

  /** After a graceful shutdown every event whose Submit was accepted has been passed to
      each plugin that accepts it exactly once, and to no other plugin. */
  lemma GracefulShutdownDeliversExactlyOnce(cfg: Config, ls: seq<Label>, i: nat, p: nat)
    requires Run(cfg, ls).Some? && Run(cfg, ls).value.shutdown.Returned? && Validated(cfg)
    requires p < |cfg.plugins| && i < |Run(cfg, ls).value.submits|
    requires HasSent(Run(cfg, ls).value.submits[i])
    ensures
      var s := Run(cfg, ls).value;
      var event := s.submits[i].event;
      AllDelivered(s, p)[Item(event, i)] == if cfg.plugins[p](event) then 1 else 0
  {
    GracefulShutdownCompletes(cfg, ls);
    RunKeepsInv(cfg, ls);
    hide Run, SubmitInv, UnionBy, QueueOk, ProcessedOk, ShutdownOk;
    var s := Run(cfg, ls).value;
    forall k | 0 <= k < |s.workers|
      ensures WorkerOk(cfg, s.now, s.workers[k]) && s.workers[k].flight.NoFlight?
    {
      assert WorkerOk(cfg, s.now, s.workers[k]) && s.workers[k].pc.Exited?;
      ExitedHoldsNothing(cfg, s.now, s.workers[k]);
    }
    hide PoolInv, WorkerOk, WorkersOk;
    DeliveredTally(cfg, s.now, s.workers, p, Item(s.submits[i].event, i));
  }

  // ---- Deduplication ----

  /** Check and Mark of one call, in step order and in time. With the memory deduplicator
      no call sends before its Mark. */
  ghost predicate StampsOk(sub: Submission, step: nat, now: int) {
    && (sub.checked.At? ==> sub.checked.step < step && sub.checked.time <= now)
    && (sub.marked.At? ==>
          && sub.checked.At? && sub.verdict == New
          && sub.checked.step < sub.marked.step < step
          && sub.checked.time <= sub.marked.time <= now)
    && (sub.phase.Checking? ==> sub.checked.Never? && sub.marked.Never?)
    && (sub.phase.Marking? ==> sub.checked.At? && sub.marked.Never? && sub.verdict == New)
    && (sub.phase.Sending? || sub.phase.Full? || sub.phase.Parked? || HasSent(sub) ==> sub.marked.At?)
  }

  ghost predicate AllStamped(submits: seq<Submission>, step: nat, now: int) {
    forall i :: 0 <= i < |submits| ==> StampsOk(submits[i], step, now)
  }

  /** A marked fingerprint is still cached, or its Mark is older than the TTL. */
  ghost predicate Remembered(cache: DedupSpec.Cache, ttl: int, now: int, key: DedupSpec.Fingerprint, at: int) {
    (key in cache && cache[key] >= at) || now - at > ttl
  }

  ghost predicate AllRemembered(cfg: Config, submits: seq<Submission>, cache: DedupSpec.Cache, ttl: int, now: int) {
    forall i :: 0 <= i < |submits| && submits[i].marked.At? ==>
      Remembered(cache, ttl, now, Key(cfg, submits[i].event), submits[i].marked.time)
  }

  /** `b` passed its check after `a` was marked: more than the TTL later. */
  ghost predicate Apart(cfg: Config, ttl: int, a: Submission, b: Submission) {
    a.marked.At? && b.checked.At? && b.verdict == New && Key(cfg, a.event) == Key(cfg, b.event)
    && a.marked.step <= b.checked.step
    ==> b.checked.time - a.marked.time > ttl
  }

  ghost predicate AllApart(cfg: Config, submits: seq<Submission>, ttl: int) {
    forall i, j :: 0 <= i < |submits| && 0 <= j < |submits| && i != j ==> Apart(cfg, ttl, submits[i], submits[j])
  }

  ghost predicate DedupInv(cfg: Config, s: State)
    requires cfg.deduplicator.Memory?
  {
    var ttl := cfg.deduplicator.ttl;
    && AllStamped(s.submits, s.step, s.now)
    && (!s.dedupClosed ==>
          AllRemembered(cfg, s.submits, s.cache, ttl, s.now) && AllApart(cfg, s.submits, ttl))
  }

  lemma CheckKeepsApart(cfg: Config, s: State, i: nat, sub: Submission)
    requires cfg.deduplicator.Memory? && DedupInv(cfg, s) && !s.dedupClosed
    requires i < |s.submits| && s.submits[i].phase.Checking?
    requires sub.event == s.submits[i].event && sub.marked.Never? && sub.checked == At(s.step, s.now)
    requires sub.verdict == New ==> Key(cfg, sub.event) !in s.cache
    ensures AllApart(cfg, s.submits[i := sub], cfg.deduplicator.ttl)
  {
    var ttl := cfg.deduplicator.ttl;
    var subs := s.submits[i := sub];
    forall a, b | 0 <= a < |subs| && 0 <= b < |subs| && a != b
      ensures Apart(cfg, ttl, subs[a], subs[b])
    {
      assert Apart(cfg, ttl, s.submits[a], s.submits[b]);
      if b == i && subs[a].marked.At? && sub.verdict == New && Key(cfg, subs[a].event) == Key(cfg, sub.event) {
        assert Remembered(s.cache, ttl, s.now, Key(cfg, subs[a].event), subs[a].marked.time);
      }
    }
  }

  lemma CheckKeepsDedup(cfg: Config, s: State, i: nat, verdict: Verdict)
    requires cfg.deduplicator.Memory? && DedupInv(cfg, s) && Enabled(cfg, s, Check(i, verdict))
    ensures DedupInv(cfg, Apply(cfg, s, Check(i, verdict)))
  {
    ApplySubmission(cfg, s, Check(i, verdict));
    hide Enabled, Apply, Key;
    assert StampsOk(s.submits[i], s.step, s.now);
    var sub := SubmitEffect(cfg, s, Check(i, verdict)).submits[i];
    if !s.dedupClosed {
      CheckKeepsApart(cfg, s, i, sub);
    }
    hide AllApart, Remembered;
  }

  lemma MarkKeepsRemembered(cfg: Config, s: State, i: nat, sub: Submission, key: DedupSpec.Fingerprint)
    requires cfg.deduplicator.Memory? && DedupInv(cfg, s) && !s.dedupClosed
    requires i < |s.submits| && key == Key(cfg, s.submits[i].event)
    requires sub.event == s.submits[i].event && sub.marked == At(s.step, s.now)
    ensures AllRemembered(cfg, s.submits[i := sub], DedupSpec.Mark(s.cache, key, s.now), cfg.deduplicator.ttl, s.now)
  {
    var ttl := cfg.deduplicator.ttl;
    var subs := s.submits[i := sub];
    forall a | 0 <= a < |subs| && subs[a].marked.At?
      ensures Remembered(DedupSpec.Mark(s.cache, key, s.now), ttl, s.now, Key(cfg, subs[a].event), subs[a].marked.time)
    {
      assert StampsOk(s.submits[a], s.step, s.now);
      if a != i {
        assert Remembered(s.cache, ttl, s.now, Key(cfg, subs[a].event), subs[a].marked.time);
      }
    }
  }

  lemma MarkKeepsApart(cfg: Config, s: State, i: nat, sub: Submission)
    requires cfg.deduplicator.Memory? && DedupInv(cfg, s) && !s.dedupClosed
    requires i < |s.submits|
    requires sub == s.submits[i].(phase := Sending, marked := At(s.step, s.now))
    ensures AllApart(cfg, s.submits[i := sub], cfg.deduplicator.ttl)
  {
    var ttl := cfg.deduplicator.ttl;
    var subs := s.submits[i := sub];
    forall a, b | 0 <= a < |subs| && 0 <= b < |subs| && a != b
      ensures Apart(cfg, ttl, subs[a], subs[b])
    {
      assert Apart(cfg, ttl, s.submits[a], s.submits[b]);
      assert StampsOk(s.submits[b], s.step, s.now);
    }
  }

  lemma MarkKeepsDedup(cfg: Config, s: State, i: nat, ok: bool)
    requires cfg.deduplicator.Memory? && DedupInv(cfg, s) && Enabled(cfg, s, Mark(i, ok))
    ensures DedupInv(cfg, Apply(cfg, s, Mark(i, ok)))
  {
    ApplySubmission(cfg, s, Mark(i, ok));
    hide Enabled, Apply, Key;
    assert StampsOk(s.submits[i], s.step, s.now);
    var sub := SubmitEffect(cfg, s, Mark(i, ok)).submits[i];
    if !s.dedupClosed {
      MarkKeepsApart(cfg, s, i, sub);
      MarkKeepsRemembered(cfg, s, i, sub, Key(cfg, s.submits[i].event));
    }
    hide AllApart, AllRemembered, DedupSpec.Mark;
  }

  /** Moving on without a check or a Mark. */
  ghost predicate SameStamps(a: Submission, b: Submission) {
    b.event == a.event && b.verdict == a.verdict && b.checked == a.checked && b.marked == a.marked
  }

  lemma MoveKeepsDedup(cfg: Config, s: State, l: Label)
    requires cfg.deduplicator.Memory? && DedupInv(cfg, s) && Enabled(cfg, s, l)
    requires OnSubmission(l) && !l.Check? && !l.Mark?
    ensures DedupInv(cfg, Apply(cfg, s, l))
  {
    ApplySubmission(cfg, s, l);
    assert StampsOk(s.submits[l.i], s.step, s.now);
    hide Enabled, Apply, Key, Remembered, DedupInv;
    var s' := SubmitEffect(cfg, s, l);
    assert s'.cache == s.cache && s'.now == s.now && s'.step == s.step && s'.dedupClosed == s.dedupClosed;
    assert s'.submits == s.submits[l.i := s'.submits[l.i]] && SameStamps(s.submits[l.i], s'.submits[l.i]);
    assert StampsOk(s'.submits[l.i], s.step, s.now);
    hide SubmitEffect, SubmitEnabled, StampsOk;
    StampsKeepDedup(cfg, s, s', l.i);
    LaterKeepsDedup(cfg, s', Apply(cfg, s, l));
  }

  lemma StampsKeepDedup(cfg: Config, s: State, s': State, i: nat)
    requires cfg.deduplicator.Memory? && DedupInv(cfg, s) && i < |s.submits| == |s'.submits|
    requires s'.submits == s.submits[i := s'.submits[i]]
    requires SameStamps(s.submits[i], s'.submits[i]) && StampsOk(s'.submits[i], s.step, s.now)
    requires s'.cache == s.cache && s'.now == s.now && s'.step == s.step && s'.dedupClosed == s.dedupClosed
    ensures DedupInv(cfg, s')
  {
    hide Key, Remembered;
    var ttl := cfg.deduplicator.ttl;
    if !s.dedupClosed {
      forall a, b | 0 <= a < |s'.submits| && 0 <= b < |s'.submits| && a != b
        ensures Apart(cfg, ttl, s'.submits[a], s'.submits[b])
      {
        assert Apart(cfg, ttl, s.submits[a], s.submits[b]);
      }
    }
  }

  /** Steps and time only make stamps older. */
  lemma LaterKeepsDedup(cfg: Config, s: State, s': State)
    requires cfg.deduplicator.Memory? && DedupInv(cfg, s)
    requires s'.submits == s.submits && s'.step >= s.step && s'.now >= s.now
    requires s'.dedupClosed || (s'.cache == s.cache && s'.dedupClosed == s.dedupClosed)
    ensures DedupInv(cfg, s')
  {
    hide Key, AllApart;
  }

  lemma CleanupKeepsDedup(cfg: Config, s: State)
    requires cfg.deduplicator.Memory? && DedupInv(cfg, s) && Enabled(cfg, s, Cleanup)
    ensures DedupInv(cfg, Apply(cfg, s, Cleanup))
  {
    hide SubmitEffect, SubmitEnabled, WorkerEffect, WorkerEnabled, Key, AllApart;
  }

  lemma StartKeepsDedup(cfg: Config, s: State, e: Event)
    requires cfg.deduplicator.Memory? && DedupInv(cfg, s) && Enabled(cfg, s, SubmitStart(e))
    ensures DedupInv(cfg, Apply(cfg, s, SubmitStart(e)))
  {
    hide SubmitEffect, SubmitEnabled, WorkerEffect, WorkerEnabled, Key, Remembered;
    var subs := Apply(cfg, s, SubmitStart(e)).submits;
    var ttl := cfg.deduplicator.ttl;
    if !s.dedupClosed {
      forall a, b | 0 <= a < |subs| && 0 <= b < |subs| && a != b
        ensures Apart(cfg, ttl, subs[a], subs[b])
      {
        if a < |s.submits| && b < |s.submits| {
          assert Apart(cfg, ttl, s.submits[a], s.submits[b]);
        }
      }
    }
  }

  lemma WorkerKeepsDedup(cfg: Config, s: State, l: Label)
    requires cfg.deduplicator.Memory? && DedupInv(cfg, s) && Enabled(cfg, s, l) && OnWorker(l)
    ensures DedupInv(cfg, Apply(cfg, s, l))
  {
    hide SubmitEffect, SubmitEnabled, ControlEffect, ControlEnabled, DedupInv, Act, ActionEnabled, Land;
    LaterKeepsDedup(cfg, s, Apply(cfg, s, l));
  }

  lemma ControlKeepsDedup(cfg: Config, s: State, l: Label)
    requires cfg.deduplicator.Memory? && DedupInv(cfg, s) && Enabled(cfg, s, l)
    requires l.Close? || l.ShutdownReturn? || l.ShutdownTimeout? || l.Tick? || l.CloseDedup?
    ensures DedupInv(cfg, Apply(cfg, s, l))
  {
    hide SubmitEffect, SubmitEnabled, WorkerEffect, WorkerEnabled, DedupInv;
    LaterKeepsDedup(cfg, s, Apply(cfg, s, l));
  }

  lemma StepKeepsDedup(cfg: Config, s: State, l: Label)
    requires cfg.deduplicator.Memory? && DedupInv(cfg, s) && Enabled(cfg, s, l)
    ensures DedupInv(cfg, Apply(cfg, s, l))
  {
    hide DedupInv, Enabled, Apply;
    if l.Check? {
      CheckKeepsDedup(cfg, s, l.i, l.verdict);
    } else if l.Mark? {
      MarkKeepsDedup(cfg, s, l.i, l.ok);
    } else if OnSubmission(l) {
      MoveKeepsDedup(cfg, s, l);
    } else if OnWorker(l) {
      WorkerKeepsDedup(cfg, s, l);
    } else if l.SubmitStart? {
      StartKeepsDedup(cfg, s, l.event);
    } else if l.Cleanup? {
      CleanupKeepsDedup(cfg, s);
    } else {
      ControlKeepsDedup(cfg, s, l);
    }
  }

  lemma {:induction false} RunKeepsDedup(cfg: Config, ls: seq<Label>)
    requires Run(cfg, ls).Some? && cfg.deduplicator.Memory?
    ensures DedupInv(cfg, Run(cfg, ls).value)
  {
    if ls != [] {
      var before := ls[..|ls| - 1];
      RunKeepsDedup(cfg, before);
      hide DedupInv, Enabled, Apply;
      StepKeepsDedup(cfg, Run(cfg, before).value, ls[|ls| - 1]);
    }
  }

  /** Each one's check came before the other's Mark. */
  ghost predicate Overlap(a: Submission, b: Submission) {
    && a.checked.At? && a.marked.At? && b.checked.At? && b.marked.At?
    && a.checked.step < b.marked.step && b.checked.step < a.marked.step
  }

  ghost predicate MoreThanApart(a: Submission, b: Submission, ttl: int) {
    && a.marked.At? && b.marked.At?
    && (a.marked.time - b.marked.time > ttl || b.marked.time - a.marked.time > ttl)
  }

  /** At most once: in any interleaving, of two accepted events whose deduplication keys have
      one fingerprint, as equal keys have whatever else differs, either
      each call's check preceded the other's Mark, or their Marks are more than the TTL apart. */
  lemma AcceptedTwiceOnlyIfOverlappingOrApart(cfg: Config, ls: seq<Label>, i: nat, j: nat)
    requires Run(cfg, ls).Some? && cfg.deduplicator.Memory? && !Run(cfg, ls).value.dedupClosed
    requires i < |Run(cfg, ls).value.submits| && j < |Run(cfg, ls).value.submits| && i != j
    requires
      var subs := Run(cfg, ls).value.submits;
      && HasSent(subs[i]) && HasSent(subs[j])
      && cfg.fingerprint(subs[i].event.deduplicationKey) == cfg.fingerprint(subs[j].event.deduplicationKey)
    ensures
      var subs := Run(cfg, ls).value.submits;
      Overlap(subs[i], subs[j]) || MoreThanApart(subs[i], subs[j], cfg.deduplicator.ttl)
  {
    RunKeepsDedup(cfg, ls);
    hide Run, Remembered, AllRemembered;
    var s := Run(cfg, ls).value;
    assert StampsOk(s.submits[i], s.step, s.now) && StampsOk(s.submits[j], s.step, s.now);
    assert Apart(cfg, cfg.deduplicator.ttl, s.submits[i], s.submits[j]);
    assert Apart(cfg, cfg.deduplicator.ttl, s.submits[j], s.submits[i]);
  }

  // ---- Runs in which Submit calls do not overlap ----

  ghost predicate SerialStep(s: State, l: Label) {
    l.SubmitStart? ==> forall i :: 0 <= i < |s.submits| ==> s.submits[i].phase.Done?
  }

  ghost predicate Serial(cfg: Config, ls: seq<Label>)
    requires Run(cfg, ls).Some?
  {
    ls == []
    || (Serial(cfg, ls[..|ls| - 1]) && SerialStep(Run(cfg, ls[..|ls| - 1]).value, ls[|ls| - 1]))
  }

  /** Only the latest call is unfinished, and each call checked after the earlier Marks. */
  ghost predicate SerialInv(submits: seq<Submission>) {
    && (forall i :: 0 <= i < |submits| - 1 ==> submits[i].phase.Done?)
    && (forall i, j :: 0 <= i < j < |submits| && submits[i].marked.At? && submits[j].checked.At? ==>
          submits[i].marked.step < submits[j].checked.step)
  }

  lemma OneKeepsSerial(submits: seq<Submission>, k: nat, sub: Submission, step: nat, now: int)
    requires SerialInv(submits) && AllStamped(submits, step, now)
    requires k < |submits| && !submits[k].phase.Done?
    requires sub.checked == submits[k].checked || sub.checked == At(step, now)
    ensures SerialInv(submits[k := sub])
  {
    var subs := submits[k := sub];
    assert k == |submits| - 1;
    forall i, j | 0 <= i < j < |subs| && subs[i].marked.At? && subs[j].checked.At?
      ensures subs[i].marked.step < subs[j].checked.step
    {
      assert StampsOk(submits[i], step, now) && submits[j] == submits[j];
    }
  }

  lemma SubmitKeepsSerial(cfg: Config, s: State, l: Label)
    requires SerialInv(s.submits) && AllStamped(s.submits, s.step, s.now)
    requires Enabled(cfg, s, l) && OnSubmission(l)
    ensures SerialInv(Apply(cfg, s, l).submits)
  {
    ApplySubmission(cfg, s, l);
    hide Enabled, Apply, Key, CheckAllowed, DedupSpec.Mark, OutcomeOf, SerialInv, AllStamped;
    var subs := SubmitEffect(cfg, s, l).submits;
    assert subs == s.submits || subs == s.submits[l.i := subs[l.i]];
    OneKeepsSerial(s.submits, l.i, subs[l.i], s.step, s.now);
  }

  lemma StepKeepsSerial(cfg: Config, s: State, l: Label)
    requires SerialInv(s.submits) && AllStamped(s.submits, s.step, s.now)
    requires Enabled(cfg, s, l) && SerialStep(s, l)
    ensures SerialInv(Apply(cfg, s, l).submits)
  {
    if OnSubmission(l) {
      SubmitKeepsSerial(cfg, s, l);
    } else {
      hide SubmitEffect, SubmitEnabled, Act, ActionEnabled, Land;
      var s' := Apply(cfg, s, l);
      assert s'.submits == s.submits || (l.SubmitStart? && s'.submits == s.submits + [s'.submits[|s.submits|]]);
    }
  }

  lemma {:induction false} SerialRunKeepsSerial(cfg: Config, ls: seq<Label>)
    requires Run(cfg, ls).Some? && cfg.deduplicator.Memory? && Serial(cfg, ls)
    ensures SerialInv(Run(cfg, ls).value.submits)
  {
    if ls != [] {
      var before := ls[..|ls| - 1];
      SerialRunKeepsSerial(cfg, before);
      RunKeepsDedup(cfg, before);
      hide Enabled, Apply, SerialInv, AllStamped, SerialStep;
      StepKeepsSerial(cfg, Run(cfg, before).value, ls[|ls| - 1]);
    }
  }

  /** End to end: when Submit calls do not overlap, a plugin receives at most one event per
      fingerprint and TTL window. Two different events with one fingerprint that it has
      been given were marked more than the TTL apart. */
  lemma OneEventPerFingerprintAndWindow(cfg: Config, ls: seq<Label>, p: nat, x: Item, y: Item)
    requires Run(cfg, ls).Some? && Serial(cfg, ls)
    requires cfg.deduplicator.Memory? && !Run(cfg, ls).value.dedupClosed && p < |cfg.plugins|
    requires x != y && cfg.fingerprint(x.event.deduplicationKey) == cfg.fingerprint(y.event.deduplicationKey)
    requires x in AllDelivered(Run(cfg, ls).value, p) && y in AllDelivered(Run(cfg, ls).value, p)
    ensures
      var subs := Run(cfg, ls).value.submits;
      && x.submission < |subs| && y.submission < |subs|
      && MoreThanApart(subs[x.submission], subs[y.submission], cfg.deduplicator.ttl)
  {
    DeliveredAtMostOnce(cfg, ls, p, x);
    DeliveredAtMostOnce(cfg, ls, p, y);
    RunKeepsInv(cfg, ls);
    SerialRunKeepsSerial(cfg, ls);
    hide Run, Serial, PoolInv, AllDelivered;
    var s := Run(cfg, ls).value;
    var a :| 0 <= a < |s.sent| && s.sent[a] == x;
    var b :| 0 <= b < |s.sent| && s.sent[b] == y;
    assert x.submission != y.submission;
    AcceptedTwiceOnlyIfOverlappingOrApart(cfg, ls, x.submission, y.submission);
    hide SentOk, CountsOk, SubmissionsOk;
    if x.submission < y.submission {
      assert !Overlap(s.submits[x.submission], s.submits[y.submission]);
    } else {
      assert !Overlap(s.submits[y.submission], s.submits[x.submission]);
    }
  }
}
