/** The parallel fan-out: each plugin sees its own filtering of the whole run, batch by
    batch, and write errors are invisible to everything else. */
module FanOut {
  import opened Collections
  import opened BatcherSpec
  import opened Pipeline
  import opened WorkerInvariant
  import opened SystemInvariant

  /** The filtering loop of writeToPlugin. */
  method FilterBatch(plugin: Plugin, batch: seq<Item>) returns (filtered: seq<Item>)
    ensures filtered == Slice(plugin, batch)
    ensures |filtered| <= |batch|
    ensures forall x :: x in filtered <==> x in batch && plugin(x.event)
  {
    filtered := [];
    for i := 0 to |batch|
      invariant filtered == Slice(plugin, batch[..i]) && |filtered| <= i
      invariant forall x :: x in filtered <==> x in batch[..i] && plugin(x.event)
    {
      assert batch[..i + 1][..i] == batch[..i];
      if plugin(batch[i].event) {
        filtered := filtered + [batch[i]];
      }
    }
    assert batch[..|batch|] == batch;
  }

  /** What plugin `p` was given by worker `k`, over the whole run: the concatenation of
      the slices passed to WriteBatch is the plugin's filter applied to the events of the
      batches started for it, in order; no slice is empty or larger than a batch; and no
      plugin starts a batch before every plugin has finished the one before. */
  lemma FanOutFiltersTheRun(cfg: Config, ls: seq<Label>, k: nat, p: nat)
    requires Run(cfg, ls).Some? && k < |Run(cfg, ls).value.workers| && p < |cfg.plugins|
    ensures
      var w := Run(cfg, ls).value.workers[k];
      && |w.logs| == |w.begun| == |w.ended| == |cfg.plugins|
      && Flatten(w.logs[p]) == Slice(cfg.plugins[p], Flatten(w.finished) + Started(w, p))
      && (forall i :: 0 <= i < |w.logs[p]| ==> 1 <= |w.logs[p][i]| <= Bound(cfg.batchSize))
      && (forall q :: 0 <= q < |cfg.plugins| ==> w.begun[p] <= w.ended[q] + 1 && |w.finished| <= w.ended[q])
  {
    RunKeepsInv(cfg, ls);
    hide Run, SubmitInv, QueueOk, ProcessedOk, ExitOk, ShutdownOk, BatcherOk, LockOk, HistoryOk;
    hide Slice, Flatten;
    var s := Run(cfg, ls).value;
    var w := s.workers[k];
    assert WorkerOk(cfg, s.now, w);
    assert PluginOk(cfg, w, p);
    forall q | 0 <= q < |cfg.plugins|
      ensures w.begun[p] <= w.ended[q] + 1 && |w.finished| <= w.ended[q]
    {
      assert PluginOk(cfg, w, q);
    }
  }

  // ---- Errors ----

  /** A WriteBatch of plugin `p`, called by worker `k`, returns an error. */
  function IfFailed(k: nat, p: nat): Label -> nat {
    l => if l == Do(k, EndWrite(p, false)) then 1 else 0
  }

  lemma ActCountsFailure(cfg: Config, now: int, w: Worker, a: Action, p: nat)
    requires FanOutOk(cfg, w) && ActionEnabled(cfg, now, w, a) && p < |cfg.plugins|
    ensures p < |Act(cfg, now, w, a).failed|
    ensures Act(cfg, now, w, a).failed[p] == w.failed[p] + (if a == EndWrite(p, false) then 1 else 0)
  {
    hide Slice, PluginOk;
  }

  /** The error counts change only where the worker itself acts. */
  lemma OnlyActsFail(cfg: Config, s: State, l: Label, k: nat)
    requires Enabled(cfg, s, l) && OnWorker(l) && k < |s.workers|
    ensures k < |Apply(cfg, s, l).workers|
    ensures l.Do? && l.k == k ==>
      ActionEnabled(cfg, s.now, s.workers[k], l.action)
      && Apply(cfg, s, l).workers[k] == Act(cfg, s.now, s.workers[k], l.action)
    ensures !(l.Do? && l.k == k) ==> Apply(cfg, s, l).workers[k].failed == s.workers[k].failed
  {
    hide SubmitEffect, SubmitEnabled, ControlEffect, ControlEnabled, Act, ActionEnabled, AllWritten;
  }

  lemma StepCountsFailure(cfg: Config, s: State, l: Label, k: nat, p: nat)
    requires Enabled(cfg, s, l) && k < |s.workers| && p < |cfg.plugins| && FanOutOk(cfg, s.workers[k])
    ensures k < |Apply(cfg, s, l).workers| && p < |Apply(cfg, s, l).workers[k].failed|
    ensures p < |s.workers[k].failed|
    ensures Apply(cfg, s, l).workers[k].failed[p] == s.workers[k].failed[p] + IfFailed(k, p)(l)
  {
    assert |s.workers[k].failed| == |cfg.plugins|;
    hide FanOutOk, Enabled, Apply, Act, ActionEnabled;
    if OnWorker(l) {
      OnlyActsFail(cfg, s, l, k);
      if l.Do? && l.k == k {
        ActCountsFailure(cfg, s.now, s.workers[k], l.action, p);
      }
    } else {
      OtherKeepsWorkers(cfg, s, l);
    }
  }

  lemma WorkerFanOut(cfg: Config, ls: seq<Label>, k: nat)
    requires Run(cfg, ls).Some? && k < cfg.workers
    ensures k < |Run(cfg, ls).value.workers| && FanOutOk(cfg, Run(cfg, ls).value.workers[k])
  {
    RunKeepsInv(cfg, ls);
    hide Run, SubmitInv, QueueOk, ProcessedOk, ExitOk, ShutdownOk, BatcherOk, LockOk, HistoryOk, FanOutOk;
    var s := Run(cfg, ls).value;
    assert WorkerOk(cfg, s.now, s.workers[k]);
  }

  lemma NothingFailedYet(cfg: Config, k: nat, p: nat)
    requires k < cfg.workers && p < |cfg.plugins|
    ensures Run(cfg, []) == Some(Init(cfg)) && k < |Init(cfg).workers| && p < |Init(cfg).workers[k].failed|
    ensures Init(cfg).workers[k].failed[p] == SumBy([], IfFailed(k, p))
  {
    assert Init(cfg).workers[k] == NewWorker(cfg);
  }

  /** The error count of a plugin at a worker is the number of its WriteBatch calls that have
      returned an error, no more and no fewer. */
  lemma {:induction false} FailuresAreCounted(cfg: Config, ls: seq<Label>, k: nat, p: nat)
    requires Run(cfg, ls).Some? && k < cfg.workers && p < |cfg.plugins|
    ensures
      var ws := Run(cfg, ls).value.workers;
      k < |ws| && p < |ws[k].failed| && ws[k].failed[p] == SumBy(ls, IfFailed(k, p))
  {
    hide *;
    if ls == [] {
      NothingFailedYet(cfg, k, p);
    } else {
      var before, l := ls[..|ls| - 1], ls[|ls| - 1];
      RunLast(cfg, ls);
      FailuresAreCounted(cfg, before, k, p);
      WorkerFanOut(cfg, before, k);
      StepCountsFailure(cfg, Run(cfg, before).value, l, k, p);
      assert ls == before + [l];
      SumBySnoc(before, l, IfFailed(k, p));
    }
  }

  /** The same step, with another answer from WriteBatch. */
  ghost predicate SameButOutcome(l: Label, l': Label) {
    l == l' || (l.Do? && l.action.EndWrite? && l' == l.(action := l.action.(ok := !l.action.ok)))
  }

  /** `w` without its error counts. */
  function Erase(w: Worker): Worker {
    w.(failed := [])
  }

  ghost predicate SameWorker(w: Worker, w': Worker) {
    Erase(w') == Erase(w) && |w'.failed| == |w.failed|
  }

  ghost predicate SamePools(ws: seq<Worker>, ws': seq<Worker>) {
    |ws'| == |ws| && forall k :: 0 <= k < |ws| ==> SameWorker(ws[k], ws'[k])
  }

  ghost predicate SameButErrors(s: State, s': State) {
    s' == s.(workers := s'.workers) && SamePools(s.workers, s'.workers)
  }

  lemma ActDespiteErrors(cfg: Config, now: int, w: Worker, w': Worker, a: Action)
    requires ActionEnabled(cfg, now, w, a) && SameWorker(w, w')
    ensures ActionEnabled(cfg, now, w', a) && SameWorker(Act(cfg, now, w, a), Act(cfg, now, w', a))
  {
    assert w' == w.(failed := w'.failed);
  }

  lemma OutcomeDoesNotMatter(cfg: Config, now: int, w: Worker, p: nat, ok: bool)
    requires ActionEnabled(cfg, now, w, EndWrite(p, ok))
    ensures ActionEnabled(cfg, now, w, EndWrite(p, !ok))
    ensures SameWorker(Act(cfg, now, w, EndWrite(p, ok)), Act(cfg, now, w, EndWrite(p, !ok)))
  {
  }

  lemma SetBoth(s: State, s': State, k: nat, w: Worker, w': Worker)
    requires SameButErrors(s, s') && k < |s.workers| && SameWorker(w, w')
    ensures SameButErrors(SetWorker(s, k, w), SetWorker(s', k, w'))
  {
    hide SameWorker;
    assert s'.workers[k := w'] == s'.workers[k := w'];
  }

  lemma DoDespiteErrors(cfg: Config, s: State, s': State, k: nat, a: Action, a': Action)
    requires SameButErrors(s, s') && k < |s.workers| && ActionEnabled(cfg, s.now, s.workers[k], a)
    requires a' == a || (a.EndWrite? && a' == a.(ok := !a.ok))
    ensures k < |s'.workers| && ActionEnabled(cfg, s'.now, s'.workers[k], a')
    ensures SameButErrors(SetWorker(s, k, Act(cfg, s.now, s.workers[k], a)),
                          SetWorker(s', k, Act(cfg, s'.now, s'.workers[k], a')))
  {
    var w, w' := s.workers[k], s'.workers[k];
    hide Act, ActionEnabled;
    assert SameWorker(w, w');
    ActDespiteErrors(cfg, s.now, w, w', a);
    var r, r1 := Act(cfg, s.now, w, a), Act(cfg, s.now, w', a);
    assert SameWorker(r, r1);
    if a' != a {
      OutcomeDoesNotMatter(cfg, s.now, w', a.plugin, a.ok);
      assert SameWorker(r1, Act(cfg, s.now, w', a'));
    }
    SetBoth(s, s', k, r, Act(cfg, s.now, w', a'));
  }

  lemma WorkerStepDespiteErrors(cfg: Config, s: State, s': State, l: Label, l': Label)
    requires SameButErrors(s, s') && SameButOutcome(l, l') && OnWorker(l) && WorkerEnabled(cfg, s, l)
    ensures OnWorker(l') && WorkerEnabled(cfg, s', l')
    ensures SameButErrors(WorkerEffect(cfg, s, l), WorkerEffect(cfg, s', l'))
  {
    var k := l.k;
    var w, w' := s.workers[k], s'.workers[k];
    hide Act, ActionEnabled;
    assert SameWorker(w, w') && s'.channel == s.channel;
    assert w' == w.(failed := w'.failed) by { assert Erase(w') == Erase(w); }
    if l.Do? {
      hide SameButErrors;
      DoDespiteErrors(cfg, s, s', k, l.action, l'.action);
    } else if l.Complete? {
      SetBoth(s, s', k, Land(w), Land(w'));
    } else if l.StopSignal? {
      SetBoth(s, s', k, w.(pc := Stopping), w'.(pc := Stopping));
    } else {
      var item := s.channel[0];
      SetBoth(s, s', k, w.(pc := Holding(item), received := w.received + [item]),
              w'.(pc := Holding(item), received := w'.received + [item]));
    }
  }

  lemma SendIgnoresWorkers(s: State, ws: seq<Worker>, i: nat)
    requires i < |s.submits|
    ensures Send(s.(workers := ws), i) == Send(s, i).(workers := ws) && Send(s, i).workers == s.workers
  {
  }

  lemma CountIgnoresWorkers(s: State, ws: seq<Worker>, i: nat)
    requires i < |s.submits|
    ensures CountAndReturn(s.(workers := ws), i) == CountAndReturn(s, i).(workers := ws)
    ensures CountAndReturn(s, i).workers == s.workers
  {
    hide OutcomeOf;
  }

  lemma SubmitAllowedIgnoresWorkers(cfg: Config, s: State, ws: seq<Worker>, l: Label)
    requires OnSubmission(l) && SubmitEnabled(cfg, s, l)
    ensures SubmitEnabled(cfg, s.(workers := ws), l)
  {
    hide Key;
  }

  lemma SelectIgnoresWorkers(cfg: Config, s: State, ws: seq<Worker>, l: Label)
    requires OnSubmission(l) && !l.Check? && !l.Mark? && l.i < |s.submits|
    ensures SubmitEffect(cfg, s.(workers := ws), l) == SubmitEffect(cfg, s, l).(workers := ws)
    ensures SubmitEffect(cfg, s, l).workers == s.workers
  {
    SendIgnoresWorkers(s, ws, l.i);
    CountIgnoresWorkers(s, ws, l.i);
    hide OutcomeOf, Send, CountAndReturn, Key, DedupSpec.Mark;
    match l {
      case TrySend(i) =>
      case SlowSend(i) =>
      case SlowCancel(i) =>
      case SlowPark(i) =>
      case Count(i) =>
    }
  }

  lemma DedupIgnoresWorkers(cfg: Config, s: State, ws: seq<Worker>, l: Label)
    requires (l.Check? || l.Mark?) && l.i < |s.submits|
    ensures SubmitEffect(cfg, s.(workers := ws), l) == SubmitEffect(cfg, s, l).(workers := ws)
    ensures SubmitEffect(cfg, s, l).workers == s.workers
  {
    hide Key, DedupSpec.Mark;
  }

  lemma SubmitIgnoresWorkers(cfg: Config, s: State, ws: seq<Worker>, l: Label)
    requires OnSubmission(l) && SubmitEnabled(cfg, s, l) && l.i < |s.submits|
    ensures SubmitEnabled(cfg, s.(workers := ws), l)
    ensures SubmitEffect(cfg, s.(workers := ws), l) == SubmitEffect(cfg, s, l).(workers := ws)
    ensures SubmitEffect(cfg, s, l).workers == s.workers
  {
    SubmitAllowedIgnoresWorkers(cfg, s, ws, l);
    hide SubmitEffect, SubmitEnabled;
    if l.Check? || l.Mark? {
      DedupIgnoresWorkers(cfg, s, ws, l);
    } else {
      SelectIgnoresWorkers(cfg, s, ws, l);
    }
  }

  lemma TimedIgnoresWorkers(cfg: Config, s: State, ws: seq<Worker>, l: Label)
    requires l.Tick? || l.Cleanup? || l.CloseDedup? || l.SubmitStart?
    requires ControlEnabled(cfg, s, l)
    ensures ControlEnabled(cfg, s.(workers := ws), l)
    ensures ControlEffect(cfg, s.(workers := ws), l) == ControlEffect(cfg, s, l).(workers := ws)
    ensures ControlEffect(cfg, s, l).workers == s.workers
  {
    hide AllExited;
  }

  lemma ShutdownIgnoresWorkers(cfg: Config, s: State, ws: seq<Worker>, l: Label)
    requires l.Close? || l.ShutdownReturn? || l.ShutdownTimeout?
    requires ControlEnabled(cfg, s, l) && AllExited(s) == AllExited(s.(workers := ws))
    ensures ControlEnabled(cfg, s.(workers := ws), l)
    ensures ControlEffect(cfg, s.(workers := ws), l) == ControlEffect(cfg, s, l).(workers := ws)
    ensures ControlEffect(cfg, s, l).workers == s.workers
  {
    hide AllExited;
    assert forall i: nat :: InPhase(s.(workers := ws), i, Parked) == InPhase(s, i, Parked);
  }

  lemma ControlIgnoresWorkers(cfg: Config, s: State, ws: seq<Worker>, l: Label)
    requires !OnSubmission(l) && !OnWorker(l) && ControlEnabled(cfg, s, l)
    requires AllExited(s) == AllExited(s.(workers := ws))
    ensures ControlEnabled(cfg, s.(workers := ws), l)
    ensures ControlEffect(cfg, s.(workers := ws), l) == ControlEffect(cfg, s, l).(workers := ws)
    ensures ControlEffect(cfg, s, l).workers == s.workers
  {
    hide AllExited, ControlEffect, ControlEnabled;
    if l.Close? || l.ShutdownReturn? || l.ShutdownTimeout? {
      ShutdownIgnoresWorkers(cfg, s, ws, l);
    } else {
      TimedIgnoresWorkers(cfg, s, ws, l);
    }
  }

  lemma ExitsDespiteErrors(s: State, s': State)
    requires SameButErrors(s, s')
    ensures AllExited(s') == AllExited(s)
  {
    forall k | 0 <= k < |s.workers|
      ensures s'.workers[k].pc == s.workers[k].pc
    {
      assert SameWorker(s.workers[k], s'.workers[k]);
      assert Erase(s'.workers[k]) == Erase(s.workers[k]);
    }
  }

  lemma StepDespiteErrors(cfg: Config, s: State, s': State, l: Label, l': Label)
    requires SameButErrors(s, s') && SameButOutcome(l, l') && Enabled(cfg, s, l)
    ensures Enabled(cfg, s', l') && SameButErrors(Apply(cfg, s, l), Apply(cfg, s', l'))
  {
    hide SubmitEffect, SubmitEnabled, WorkerEffect, WorkerEnabled, ControlEffect, ControlEnabled, SamePools, AllExited;
    assert s' == s.(workers := s'.workers);
    if OnSubmission(l) {
      ApplySubmission(cfg, s, l);
      SubmitIgnoresWorkers(cfg, s, s'.workers, l);
    } else if OnWorker(l) {
      WorkerStepDespiteErrors(cfg, s, s', l, l');
    } else {
      ExitsDespiteErrors(s, s');
      ControlIgnoresWorkers(cfg, s, s'.workers, l);
    }
  }

  /** Whatever WriteBatch answers, the run can go on in the same way and nothing differs
      but the error counts: one plugin's errors change no plugin's log, no counter and no
      other event's path. */
  lemma {:induction false} ErrorsAreInvisible(cfg: Config, ls: seq<Label>, ls': seq<Label>)
    requires Run(cfg, ls).Some? && |ls'| == |ls|
    requires forall i :: 0 <= i < |ls| ==> SameButOutcome(ls[i], ls'[i])
    ensures Run(cfg, ls').Some? && SameButErrors(Run(cfg, ls).value, Run(cfg, ls').value)
  {
    if ls != [] {
      var n := |ls| - 1;
      ErrorsAreInvisible(cfg, ls[..n], ls'[..n]);
      hide Enabled, Apply, SameButErrors;
      StepDespiteErrors(cfg, Run(cfg, ls[..n]).value, Run(cfg, ls'[..n]).value, ls[n], ls'[n]);
    }
  }
}
