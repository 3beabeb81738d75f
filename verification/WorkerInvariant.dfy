/** What every step keeps about one worker, its batcher and its fan-out. */
module WorkerInvariant {
  import opened Collections
  import opened BatcherSpec
  import opened Pipeline

  ghost function Held(w: Worker): seq<Item> {
    if w.pc.Holding? then [w.pc.item] else []
  }

  ghost function InFlight(w: Worker): seq<Item> {
    if w.flight.Flight? then w.flight.batch else []
  }

  /** Events this worker has received and processBatch has not finished. */
  ghost function Unprocessed(w: Worker): seq<Item> {
    InFlight(w) + w.batcher.events + Held(w)
  }

  ghost predicate BatcherOk(cfg: Config, now: int, w: Worker) {
    TimerInv(w.batcher, now, cfg.flushInterval) && BatchesInv(w.batcher, cfg.batchSize)
  }

  /** Who holds the mutex, and what may be buffered or in flight meanwhile. */
  ghost predicate LockOk(cfg: Config, w: Worker) {
    var bound := Bound(cfg.batchSize);
    && (w.lock.Free? ==> w.flight.NoFlight? && !w.pc.Adding? && |w.batcher.events| < bound)
    && (w.lock.ByCallback? ==>
          w.flight.Flight? && |w.flight.batch| < bound && !w.pc.Adding? && !w.pc.Exited?)
    && (w.lock.ByWorker? ==> w.pc.Adding? || (w.pc.Stopping? && w.flight.Flight?))
    && (w.pc.Adding? && w.flight.NoFlight? ==> 1 <= |w.batcher.events| <= bound)
    && (w.flight.Flight? ==>
          && w.batcher.events == []
          && 1 <= |w.flight.batch| <= bound
          && |w.flight.writes| == |cfg.plugins|)
    && (w.pc.Exited? ==> w.lock.Free? && w.batcher.events == [])
  }

  /** The batches in the order they were handed out, then what is still on the way:
      together exactly what the worker received, in order. */
  ghost predicate HistoryOk(w: Worker) {
    && w.batcher.flushed == w.finished + (if w.flight.Flight? then [w.flight.batch] else [])
    && w.received == Flatten(w.finished) + Unprocessed(w)
  }

  ghost function Started(w: Worker, p: nat): seq<Item> {
    if w.flight.Flight? && p < |w.flight.writes| && !w.flight.writes[p].Idle? then w.flight.batch else []
  }

  ghost predicate PluginOk(cfg: Config, w: Worker, p: nat)
    requires p < |cfg.plugins|
    requires |w.logs| == |w.begun| == |w.ended| == |cfg.plugins|
    requires w.flight.Flight? ==> |w.flight.writes| == |cfg.plugins|
  {
    var n := |w.finished|;
    && Flatten(w.logs[p]) == Slice(cfg.plugins[p], Flatten(w.finished) + Started(w, p))
    && w.begun[p] == (if w.flight.Flight? && !w.flight.writes[p].Idle? then n + 1 else n)
    && w.ended[p] == (if w.flight.Flight? && w.flight.writes[p].Written? then n + 1 else n)
    && forall i :: 0 <= i < |w.logs[p]| ==> 1 <= |w.logs[p][i]| <= Bound(cfg.batchSize)
  }

  ghost predicate FanOutOk(cfg: Config, w: Worker) {
    && |w.logs| == |w.begun| == |w.ended| == |w.failed| == |cfg.plugins|
    && (w.flight.Flight? ==> |w.flight.writes| == |cfg.plugins|)
    && forall p :: 0 <= p < |cfg.plugins| ==> PluginOk(cfg, w, p)
  }

  ghost predicate WorkerOk(cfg: Config, now: int, w: Worker) {
    BatcherOk(cfg, now, w) && LockOk(cfg, w) && HistoryOk(w) && FanOutOk(cfg, w)
  }

  // ---- Slices ----

  lemma {:induction false} SliceConcat(plugin: Plugin, a: seq<Item>, b: seq<Item>)
    ensures Slice(plugin, a + b) == Slice(plugin, a) + Slice(plugin, b)
  {
    if b == [] {
      assert a + b == a;
    } else {
      var n := |b| - 1;
      assert (a + b)[..|a + b| - 1] == a + b[..n];
      SliceConcat(plugin, a, b[..n]);
    }
  }

  /** A slice holds the accepted events of its batch, each as often as the batch. */
  lemma {:induction false} SliceCounts(plugin: Plugin, batch: seq<Item>, x: Item)
    ensures multiset(Slice(plugin, batch))[x] == if plugin(x.event) then multiset(batch)[x] else 0
  {
    if batch != [] {
      var n := |batch| - 1;
      assert batch == batch[..n] + [batch[n]];
      SliceCounts(plugin, batch[..n], x);
    }
  }

  lemma {:induction false} SliceLength(plugin: Plugin, batch: seq<Item>)
    ensures |Slice(plugin, batch)| <= |batch|
  {
    if batch != [] {
      SliceLength(plugin, batch[..|batch| - 1]);
    }
  }

  // ---- Preservation ----

  lemma StartFlightKeepsBatcher(cfg: Config, now: int, w: Worker, who: Lock)
    requires BatcherOk(cfg, now, w) && |w.batcher.events| <= Bound(cfg.batchSize)
    ensures BatcherOk(cfg, now, StartFlight(cfg, w, who))
  {
    FlushKeepsTimerInv(w.batcher, now, cfg.flushInterval);
  }

  lemma CallbackKeepsBatcher(cfg: Config, now: int, w: Worker, t: nat)
    requires BatcherOk(cfg, now, w) && LockOk(cfg, w) && ActionEnabled(cfg, now, w, RunCallback(t))
    ensures BatcherOk(cfg, now, Act(cfg, now, w, RunCallback(t)))
  {
    TimeoutKeepsTimerInv(w.batcher, t, now, cfg.flushInterval);
  }

  lemma ActKeepsBatcher(cfg: Config, now: int, w: Worker, a: Action)
    requires BatcherOk(cfg, now, w) && LockOk(cfg, w) && ActionEnabled(cfg, now, w, a)
    ensures BatcherOk(cfg, now, Act(cfg, now, w, a))
  {
    match a
    case Append => AppendKeepsTimerInv(w.batcher, w.pc.item, now, cfg.flushInterval);
    case AddReturn =>
    case SizeFlush => StartFlightKeepsBatcher(cfg, now, w, ByWorker);
    case FinalFlush => StartFlightKeepsBatcher(cfg, now, w, ByWorker);
    case FireTimer(t) => FireKeepsTimerInv(w.batcher, t, now, cfg.flushInterval);
    case RunCallback(t) => CallbackKeepsBatcher(cfg, now, w, t);
    case BeginWrite(p) =>
    case EndWrite(p, ok) =>
  }

  lemma ActKeepsLock(cfg: Config, now: int, w: Worker, a: Action)
    requires LockOk(cfg, w) && ActionEnabled(cfg, now, w, a)
    ensures LockOk(cfg, Act(cfg, now, w, a))
  {
  }

  lemma ActKeepsHistory(cfg: Config, now: int, w: Worker, a: Action)
    requires LockOk(cfg, w) && HistoryOk(w) && ActionEnabled(cfg, now, w, a)
    ensures HistoryOk(Act(cfg, now, w, a))
    ensures Act(cfg, now, w, a).received == w.received
    ensures Act(cfg, now, w, a).finished == w.finished
  {
    var w' := Act(cfg, now, w, a);
    assert Unprocessed(w') == Unprocessed(w);
    assert w.batcher.flushed + [w.batcher.events] == w.finished + [w.batcher.events] || w.flight.Flight?;
  }

  /** Passing the next slice on extends the flattened log by that slice. */
  lemma LogExtends(cfg: Config, w: Worker, p: nat)
    requires p < |cfg.plugins| && w.flight.Flight? && |w.flight.batch| <= Bound(cfg.batchSize)
    requires |w.logs| == |w.begun| == |w.ended| == |cfg.plugins| == |w.flight.writes|
    requires PluginOk(cfg, w, p) && w.flight.writes[p].Idle?
    ensures
      var slice := Slice(cfg.plugins[p], w.flight.batch);
      && |slice| <= Bound(cfg.batchSize)
      && Flatten(w.logs[p]) + slice == Slice(cfg.plugins[p], Flatten(w.finished) + w.flight.batch)
      && Flatten(w.logs[p] + [slice]) == Flatten(w.logs[p]) + slice
  {
    var slice := Slice(cfg.plugins[p], w.flight.batch);
    SliceConcat(cfg.plugins[p], Flatten(w.finished), w.flight.batch);
    assert Flatten(w.finished) + Started(w, p) == Flatten(w.finished);
    SliceLength(cfg.plugins[p], w.flight.batch);
    FlattenSnoc(w.logs[p], slice);
  }

  /** BeginWrite at plugin `p`, field by field. */
  lemma BegunPlugin(cfg: Config, w: Worker, w': Worker, p: nat, slice: seq<Item>)
    requires p < |cfg.plugins| && w.flight.Flight? && w'.flight.Flight?
    requires |w.logs| == |w.begun| == |w.ended| == |cfg.plugins| == |w.flight.writes|
    requires |w'.logs| == |w'.begun| == |w'.ended| == |cfg.plugins| == |w'.flight.writes|
    requires PluginOk(cfg, w, p) && w.flight.writes[p].Idle?
    requires |slice| <= Bound(cfg.batchSize)
    requires Flatten(w.logs[p]) + slice == Slice(cfg.plugins[p], Flatten(w.finished) + w.flight.batch)
    requires Flatten(w.logs[p] + [slice]) == Flatten(w.logs[p]) + slice
    requires w'.finished == w.finished && w'.flight.batch == w.flight.batch
    requires w'.begun[p] == w.begun[p] + 1
    requires
      if slice == [] then
        w'.logs[p] == w.logs[p] && w'.flight.writes[p].Written? && w'.ended[p] == w.ended[p] + 1
      else
        w'.logs[p] == w.logs[p] + [slice] && w'.flight.writes[p].Writing? && w'.ended[p] == w.ended[p]
    ensures PluginOk(cfg, w', p)
  {
    assert Started(w', p) == w.flight.batch;
    if slice == [] {
      assert Flatten(w.logs[p]) + slice == Flatten(w.logs[p]);
    }
  }

  lemma BeginKeepsPlugin(cfg: Config, now: int, w: Worker, p: nat)
    requires LockOk(cfg, w) && FanOutOk(cfg, w) && ActionEnabled(cfg, now, w, BeginWrite(p))
    ensures PluginOk(cfg, Act(cfg, now, w, BeginWrite(p)), p)
  {
    assert PluginOk(cfg, w, p);
    LogExtends(cfg, w, p);
    BegunPlugin(cfg, w, Act(cfg, now, w, BeginWrite(p)), p, Slice(cfg.plugins[p], w.flight.batch));
  }

  lemma BeginKeepsFanOut(cfg: Config, now: int, w: Worker, p: nat)
    requires LockOk(cfg, w) && FanOutOk(cfg, w) && ActionEnabled(cfg, now, w, BeginWrite(p))
    ensures FanOutOk(cfg, Act(cfg, now, w, BeginWrite(p)))
  {
    var w' := Act(cfg, now, w, BeginWrite(p));
    forall q | 0 <= q < |cfg.plugins|
      ensures PluginOk(cfg, w', q)
    {
      if q == p {
        BeginKeepsPlugin(cfg, now, w, p);
      } else {
        assert PluginOk(cfg, w, q) && Started(w', q) == Started(w, q);
      }
    }
  }

  lemma EndKeepsFanOut(cfg: Config, now: int, w: Worker, p: nat, ok: bool)
    requires LockOk(cfg, w) && FanOutOk(cfg, w) && ActionEnabled(cfg, now, w, EndWrite(p, ok))
    ensures FanOutOk(cfg, Act(cfg, now, w, EndWrite(p, ok)))
  {
    var w' := Act(cfg, now, w, EndWrite(p, ok));
    forall q | 0 <= q < |cfg.plugins|
      ensures PluginOk(cfg, w', q)
    {
      assert PluginOk(cfg, w, q) && Started(w', q) == Started(w, q);
    }
  }

  lemma StartKeepsFanOut(cfg: Config, w: Worker, who: Lock)
    requires FanOutOk(cfg, w) && w.flight.NoFlight?
    ensures FanOutOk(cfg, StartFlight(cfg, w, who))
  {
    var w' := StartFlight(cfg, w, who);
    forall q | 0 <= q < |cfg.plugins|
      ensures PluginOk(cfg, w', q)
    {
      assert PluginOk(cfg, w, q) && Started(w', q) == Started(w, q) == [];
    }
  }

  /** FanOutOk looks only at the fields named here. */
  lemma SameFanOut(cfg: Config, w: Worker, w': Worker)
    requires FanOutOk(cfg, w)
    requires w'.flight == w.flight && w'.finished == w.finished && w'.logs == w.logs
    requires w'.begun == w.begun && w'.ended == w.ended && w'.failed == w.failed
    ensures FanOutOk(cfg, w')
  {
    forall q | 0 <= q < |cfg.plugins|
      ensures PluginOk(cfg, w', q)
    {
      assert PluginOk(cfg, w, q) && Started(w', q) == Started(w, q);
    }
  }

  lemma ActKeepsFanOut(cfg: Config, now: int, w: Worker, a: Action)
    requires LockOk(cfg, w) && FanOutOk(cfg, w) && ActionEnabled(cfg, now, w, a)
    ensures FanOutOk(cfg, Act(cfg, now, w, a))
  {
    match a
    case BeginWrite(p) => BeginKeepsFanOut(cfg, now, w, p);
    case EndWrite(p, ok) => EndKeepsFanOut(cfg, now, w, p, ok);
    case SizeFlush => StartKeepsFanOut(cfg, w, ByWorker);
    case FinalFlush =>
      if w.batcher.events == [] {
        SameFanOut(cfg, w, Act(cfg, now, w, a));
      } else {
        StartKeepsFanOut(cfg, w, ByWorker);
      }
    case RunCallback(t) =>
      var w1 := w.(batcher := Consume(w.batcher, t));
      SameFanOut(cfg, w, w1);
      if w.batcher.events != [] {
        StartKeepsFanOut(cfg, w1, ByCallback);
      }
    case _ => SameFanOut(cfg, w, Act(cfg, now, w, a));
  }

  lemma ActKeepsWorker(cfg: Config, now: int, w: Worker, a: Action)
    requires WorkerOk(cfg, now, w) && ActionEnabled(cfg, now, w, a)
    ensures WorkerOk(cfg, now, Act(cfg, now, w, a))
    ensures Act(cfg, now, w, a).received == w.received
    ensures Act(cfg, now, w, a).finished == w.finished
  {
    ActKeepsBatcher(cfg, now, w, a);
    ActKeepsLock(cfg, now, w, a);
    ActKeepsHistory(cfg, now, w, a);
    ActKeepsFanOut(cfg, now, w, a);
  }

  lemma LandKeepsFanOut(cfg: Config, w: Worker)
    requires FanOutOk(cfg, w) && AllWritten(w)
    ensures FanOutOk(cfg, Land(w))
  {
    FlattenSnoc(w.finished, w.flight.batch);
    forall q | 0 <= q < |cfg.plugins|
      ensures PluginOk(cfg, Land(w), q)
    {
      assert PluginOk(cfg, w, q) && w.flight.writes[q].Written?;
      assert Flatten(w.finished + [w.flight.batch]) + [] == Flatten(w.finished) + w.flight.batch;
    }
  }

  lemma LandKeepsWorker(cfg: Config, now: int, w: Worker)
    requires WorkerOk(cfg, now, w) && AllWritten(w)
    ensures WorkerOk(cfg, now, Land(w)) && Land(w).received == w.received
    ensures |Flatten(Land(w).finished)| == |Flatten(w.finished)| + |w.flight.batch|
  {
    LandKeepsFanOut(cfg, w);
    FlattenSnoc(w.finished, w.flight.batch);
  }

  /** When processBatch returns: the batch joins the finished ones and the mutex is free. Add
      goes back to the worker's loop, the final flush ends the worker, and a callback leaves
      the worker where it was, at its select or waiting for the mutex. */
  lemma LandOutcome(cfg: Config, now: int, w: Worker)
    requires WorkerOk(cfg, now, w) && w.flight.Flight?
    ensures Land(w).finished == w.finished + [w.flight.batch] && Land(w).lock.Free? && Land(w).flight.NoFlight?
    ensures Land(w).batcher == w.batcher && Land(w).logs == w.logs && Land(w).received == w.received
    ensures w.lock.ByWorker? && w.pc.Adding? ==> Land(w).pc == Selecting
    ensures w.lock.ByWorker? && !w.pc.Adding? ==> w.pc == Stopping && Land(w).pc == Exited
    ensures w.lock.ByCallback? ==> Land(w).pc == w.pc && (w.pc.Selecting? || w.pc.Holding? || w.pc.Stopping?)
    ensures !w.lock.Free?
  {
  }

  lemma ReceiveKeepsWorker(cfg: Config, now: int, w: Worker, item: Item)
    requires WorkerOk(cfg, now, w) && w.pc.Selecting?
    ensures WorkerOk(cfg, now, w.(pc := Holding(item), received := w.received + [item]))
  {
    var w' := w.(pc := Holding(item), received := w.received + [item]);
    SameFanOut(cfg, w, w');
    assert Unprocessed(w') == Unprocessed(w) + [item];
  }

  lemma StopKeepsWorker(cfg: Config, now: int, w: Worker)
    requires WorkerOk(cfg, now, w) && w.pc.Selecting?
    ensures WorkerOk(cfg, now, w.(pc := Stopping))
  {
    SameFanOut(cfg, w, w.(pc := Stopping));
  }

  lemma LaterKeepsWorker(cfg: Config, now: int, later: int, w: Worker)
    requires WorkerOk(cfg, now, w) && now <= later
    ensures WorkerOk(cfg, later, w)
  {
  }

  lemma NewWorkerOk(cfg: Config)
    ensures WorkerOk(cfg, 0, NewWorker(cfg))
  {
    var w := NewWorker(cfg);
    assert Unprocessed(w) == [];
    forall p | 0 <= p < |cfg.plugins|
      ensures PluginOk(cfg, w, p)
    {
      assert Flatten(w.finished) + Started(w, p) == [];
    }
  }

  /** A worker's two steps inside Add, and a callback's step, do to its batcher what the
      batcher's own Add and timeoutFlush do in one go; exactly one second step is possible. */
  lemma ActionsRefineTheBatcher(cfg: Config, now: int, w: Worker, t: nat)
    ensures ActionEnabled(cfg, now, w, Append) && w.flight.NoFlight? ==>
      var added := Act(cfg, now, w, Append);
      var result := BatcherSpec.Add(w.batcher, w.pc.item, now, cfg.batchSize, cfg.flushInterval);
      && ActionEnabled(cfg, now, added, AddReturn) != ActionEnabled(cfg, now, added, SizeFlush)
      && (ActionEnabled(cfg, now, added, AddReturn) ==>
            Act(cfg, now, added, AddReturn).batcher == result)
      && (ActionEnabled(cfg, now, added, SizeFlush) ==>
            Act(cfg, now, added, SizeFlush).batcher == result
            && Act(cfg, now, added, SizeFlush).flight.batch == w.batcher.events + [w.pc.item])
    ensures ActionEnabled(cfg, now, w, RunCallback(t)) ==>
      Act(cfg, now, w, RunCallback(t)).batcher == TimeoutFlush(w.batcher, t)
  {
  }

  /** A flush for size hands processBatch a batch of exactly max(1, batchSize) events, the last
      of them the one just added; Add returns without a flush exactly when it has fewer. */
  lemma SizeFlushIsFull(cfg: Config, now: int, w: Worker)
    requires WorkerOk(cfg, now, w) && w.pc.Adding? && w.flight.NoFlight?
    ensures
      var size := if cfg.batchSize == 0 then 1 else cfg.batchSize;
      && (ActionEnabled(cfg, now, w, SizeFlush) <==> |w.batcher.events| == size)
      && (ActionEnabled(cfg, now, w, AddReturn) <==> |w.batcher.events| < size)
      && (ActionEnabled(cfg, now, w, SizeFlush) ==>
            Act(cfg, now, w, SizeFlush).flight == Flight(w.batcher.events, seq(|cfg.plugins|, _ => Idle)))
  {
  }

  /** A worker never holds more than max(1, batchSize) unprocessed events, even when a
      timer flush is writing while the worker waits at the mutex with one more. */
  lemma WorkerHoldsAtMostABatch(cfg: Config, now: int, w: Worker)
    requires WorkerOk(cfg, now, w)
    ensures |Unprocessed(w)| <= Bound(cfg.batchSize)
  {
  }
}
