/** What holds at the end of every run, whatever the interleaving. */
module PipelineTheorems {
  import opened Collections
  import opened BatcherSpec
  import opened Pipeline
  import opened WorkerInvariant
  import opened SystemInvariant

  // ---- Where an accepted event can be ----

  ghost function ReceivedSet(w: Worker): multiset<Item> {
    multiset(w.received)
  }

  ghost function ProcessedSet(w: Worker): multiset<Item> {
    multiset(Flatten(w.finished))
  }

  ghost function PendingSet(w: Worker): multiset<Item> {
    multiset(Held(w)) + multiset(w.batcher.events) + multiset(InFlight(w))
  }

  /** Received but not yet added, buffered, in flight, or processed. */
  ghost function OwnedSet(w: Worker): multiset<Item> {
    PendingSet(w) + ProcessedSet(w)
  }

  ghost predicate IsProcessed(s: State, x: Item) {
    exists k :: 0 <= k < |s.workers| && x in Flatten(s.workers[k].finished)
  }

  /** The shares of the first `n` workers. */
  ghost function Shares(ts: seq<Taken>, n: nat): multiset<Item> {
    if n == 0 then multiset{} else Shares(ts, n - 1) + multiset(ReceivedBy(ts, n - 1))
  }

  lemma {:induction false} SharesSnoc(ts: seq<Taken>, t: Taken, n: nat)
    ensures Shares(ts + [t], n) == Shares(ts, n) + (if t.worker < n then multiset{t.item} else multiset{})
  {
    hide ReceivedBy;
    if n > 0 {
      SharesSnoc(ts, t, n - 1);
      ReceivedSnoc(ts, t, n - 1);
    }
  }

  lemma {:induction false} NoShares(n: nat)
    ensures Shares([], n) == multiset{}
  {
    if n > 0 {
      NoShares(n - 1);
    }
  }

  /** What the channel delivered is exactly what the workers received between them. */
  lemma {:induction false} SharesCover(ts: seq<Taken>, n: nat)
    requires forall j :: 0 <= j < |ts| ==> ts[j].worker < n
    ensures multiset(ItemsOf(ts)) == Shares(ts, n)
  {
    if ts == [] {
      NoShares(n);
    } else {
      var m := |ts| - 1;
      SharesCover(ts[..m], n);
      SharesSnoc(ts[..m], ts[m], n);
      assert ts == ts[..m] + [ts[m]];
    }
  }

  lemma {:induction false} SharesAreReceived(ts: seq<Taken>, workers: seq<Worker>)
    requires forall k :: 0 <= k < |workers| ==> workers[k].received == ReceivedBy(ts, k)
    ensures UnionBy(workers, ReceivedSet) == Shares(ts, |workers|)
  {
    if workers != [] {
      SharesAreReceived(ts, workers[..|workers| - 1]);
    }
  }

  lemma OwnedIsReceived(w: Worker)
    requires HistoryOk(w)
    ensures OwnedSet(w) == ReceivedSet(w)
  {
  }

  lemma SentIsShared(cfg: Config, s: State)
    requires PoolInv(cfg, s)
    ensures multiset(s.sent) == multiset(s.channel) + UnionBy(s.workers, ReceivedSet)
  {
    hide WorkersOk, ProcessedOk, ExitOk, ShutdownOk;
    SharesCover(s.dequeued, |s.workers|);
    SharesAreReceived(s.dequeued, s.workers);
  }

  lemma SentIsOwned(cfg: Config, s: State)
    requires PoolInv(cfg, s)
    ensures multiset(s.sent) == multiset(s.channel) + UnionBy(s.workers, OwnedSet)
  {
    SentIsShared(cfg, s);
    forall w | w in s.workers
      ensures OwnedSet(w) == ReceivedSet(w)
    {
      OwnedIsReceived(w);
    }
    UnionByEqual(s.workers, OwnedSet, ReceivedSet);
  }

  lemma SentIsDistinct(submits: seq<Submission>, sent: seq<Item>, x: Item)
    requires SentOk(submits, sent)
    ensures multiset(sent)[x] <= 1
  {
    DistinctMultiset(sent, x);
  }

  /** Conservation: no interleaving of submitters, workers, timers and shutdown loses or
      duplicates an event. Every item ever sent is, exactly once, in the channel, held by
      a worker, buffered, in flight, or processed. */
  lemma Conservation(cfg: Config, ls: seq<Label>)
    requires Run(cfg, ls).Some?
    ensures
      var s := Run(cfg, ls).value;
      && multiset(s.sent) == multiset(s.channel) + UnionBy(s.workers, OwnedSet)
      && forall x :: multiset(s.sent)[x] <= 1
  {
    RunKeepsInv(cfg, ls);
    var s := Run(cfg, ls).value;
    SentIsOwned(cfg, s);
    forall x
      ensures multiset(s.sent)[x] <= 1
    {
      SentIsDistinct(s.submits, s.sent, x);
    }
  }

  // ---- Each accepted event is in one place ----

  /** Some worker has received the event and not finished processing it. */
  ghost predicate InWorker(s: State, x: Item) {
    exists k :: 0 <= k < |s.workers| && x in Unprocessed(s.workers[k])
  }

  lemma PlacesOf(w: Worker, x: Item)
    ensures OwnedSet(w)[x] == multiset(Unprocessed(w))[x] + multiset(Flatten(w.finished))[x]
    ensures x in Unprocessed(w) <==> x in Held(w) || x in w.batcher.events || x in InFlight(w)
  {
    hide Flatten, Held, InFlight;
  }

  lemma OnlyOwner(workers: seq<Worker>, x: Item, k: nat)
    requires k < |workers| && x in Unprocessed(workers[k]) && UnionBy(workers, OwnedSet)[x] <= 1
    ensures UnionBy(workers, OwnedSet)[x] == 1 && multiset(Unprocessed(workers[k]))[x] == 1
    ensures forall j :: 0 <= j < |workers| ==> x !in Flatten(workers[j].finished)
    ensures forall j :: 0 <= j < |workers| && j != k ==> x !in Unprocessed(workers[j])
  {
    hide *;
    ShareIsBelow(workers, OwnedSet, x, k);
    PlacesOf(workers[k], x);
    forall j | 0 <= j < |workers|
      ensures x !in Flatten(workers[j].finished)
      ensures j != k ==> x !in Unprocessed(workers[j])
    {
      PlacesOf(workers[j], x);
      if j < k {
        SharesAddUp(workers, OwnedSet, x, j, k);
      } else if k < j {
        SharesAddUp(workers, OwnedSet, x, k, j);
      }
    }
  }

  lemma NoOwner(workers: seq<Worker>, x: Item)
    requires UnionBy(workers, OwnedSet)[x] == 0
    ensures forall j :: 0 <= j < |workers| ==> x !in Flatten(workers[j].finished) && x !in Unprocessed(workers[j])
  {
    hide *;
    forall j | 0 <= j < |workers|
      ensures x !in Unprocessed(workers[j]) && x !in Flatten(workers[j].finished)
    {
      ShareIsBelow(workers, OwnedSet, x, j);
      PlacesOf(workers[j], x);
    }
  }

  lemma SentOnce(cfg: Config, s: State, x: Item)
    requires Inv(cfg, s)
    ensures multiset(s.sent) == multiset(s.channel) + UnionBy(s.workers, OwnedSet)
    ensures multiset(s.sent)[x] <= 1
  {
    hide PoolInv, SentOk, CountsOk, SubmissionsOk, ShutdownOk, UnionBy, OwnedSet;
    SentIsOwned(cfg, s);
    SentIsDistinct(s.submits, s.sent, x);
  }

  lemma OnePlace(cfg: Config, s: State, x: Item, k: nat)
    requires Inv(cfg, s) && k < |s.workers| && x in Unprocessed(s.workers[k])
    ensures x in s.sent && x !in s.channel && !IsProcessed(s, x)
    ensures forall j :: 0 <= j < |s.workers| && j != k ==> x !in Unprocessed(s.workers[j])
    ensures x in s.workers[k].batcher.events ==> x !in Held(s.workers[k]) && x !in InFlight(s.workers[k])
    ensures x in Held(s.workers[k]) ==> x !in InFlight(s.workers[k])
  {
    SentOnce(cfg, s, x);
    hide Inv, UnionBy, OwnedSet, Held, InFlight, Flatten;
    OnlyOwner(s.workers, x, k);
    assert x in multiset(s.sent);
  }

  lemma QueuedOnly(cfg: Config, s: State, x: Item)
    requires Inv(cfg, s) && x in s.channel
    ensures x in s.sent && !InWorker(s, x) && !IsProcessed(s, x)
  {
    SentOnce(cfg, s, x);
    hide Inv, UnionBy, OwnedSet, Unprocessed, Flatten;
    assert x in multiset(s.sent);
    NoOwner(s.workers, x);
  }

  lemma OwnerOf(workers: seq<Worker>, x: Item) returns (k: nat)
    requires x in UnionBy(workers, OwnedSet)
    ensures k < |workers| && (x in Unprocessed(workers[k]) || x in Flatten(workers[k].finished))
  {
    hide *;
    k := InSomeShare(workers, OwnedSet, x);
    PlacesOf(workers[k], x);
  }

  lemma SentIsSomewhere(cfg: Config, s: State, x: Item)
    requires Inv(cfg, s) && x in s.sent
    ensures x in s.channel || InWorker(s, x) || IsProcessed(s, x)
  {
    hide Inv, UnionBy, OwnedSet, Unprocessed, Flatten;
    SentOnce(cfg, s, x);
    assert x in multiset(s.sent);
    if x !in s.channel {
      assert x !in multiset(s.channel);
      var k := OwnerOf(s.workers, x);
    }
  }

  lemma WorkerPartition(cfg: Config, now: int, w: Worker)
    requires WorkerOk(cfg, now, w)
    ensures w.received == Flatten(w.finished) + InFlight(w) + w.batcher.events + Held(w)
    ensures w.received == Flatten(w.batcher.flushed) + w.batcher.events + Held(w)
  {
    hide BatcherOk, LockOk, FanOutOk;
    FlattenSnoc(w.finished, InFlight(w));
    assert w.finished + [] == w.finished;
    assert Flatten(w.finished) + [] == Flatten(w.finished);
  }

  /** Order and partition: the channel is FIFO, what it delivered is an interleaving of
      the workers' received sequences, and each worker's batches, followed by what it
      still has on the way, are its received sequence unchanged. */
  lemma OrderAndPartition(cfg: Config, ls: seq<Label>, k: nat)
    requires Run(cfg, ls).Some? && k < |Run(cfg, ls).value.workers|
    ensures
      var s := Run(cfg, ls).value;
      var w := s.workers[k];
      && s.sent == ItemsOf(s.dequeued) + s.channel
      && (forall j :: 0 <= j < |s.dequeued| ==> s.dequeued[j].worker < |s.workers|)
      && ReceivedBy(s.dequeued, k) == Flatten(w.finished) + InFlight(w) + w.batcher.events + Held(w)
      && ReceivedBy(s.dequeued, k) == Flatten(w.batcher.flushed) + w.batcher.events + Held(w)
      && (forall i :: 0 <= i < |w.batcher.flushed| ==> 1 <= |w.batcher.flushed[i]| <= Bound(cfg.batchSize))
  {
    RunKeepsInv(cfg, ls);
    hide Run, Flatten, ReceivedBy, SubmitInv;
    var s := Run(cfg, ls).value;
    assert WorkerOk(cfg, s.now, s.workers[k]);
    WorkerPartition(cfg, s.now, s.workers[k]);
  }

  // ---- Counting ----

  function ReceivedSize(w: Worker): nat { |w.received| }

  ghost function Backlog(w: Worker): nat { |Unprocessed(w)| }

  lemma SentSize(cfg: Config, s: State)
    requires PoolInv(cfg, s)
    ensures |s.sent| == |s.channel| + s.eventsProcessed + SumBy(s.workers, Backlog)
  {
    hide ExitOk, ShutdownOk, SumBy, UnionBy;
    SentIsShared(cfg, s);
    UnionBySize(s.workers, ReceivedSet, ReceivedSize);
    assert |multiset(s.sent)| == |s.sent| && |multiset(s.channel)| == |s.channel|;
    forall w | w in s.workers
      ensures ReceivedSize(w) == ProcessedSize(w) + Backlog(w)
    {
      assert WorkerOk(cfg, s.now, w);
    }
    SumBySplit(s.workers, ReceivedSize, ProcessedSize, Backlog);
  }

  /** Bounded residency: at most the channel's capacity plus one batch per worker is
      accepted and not yet processed. */
  lemma BoundedResidency(cfg: Config, ls: seq<Label>)
    requires Run(cfg, ls).Some?
    ensures
      var s := Run(cfg, ls).value;
      s.eventsProcessed <= |s.sent| <= s.eventsProcessed + cfg.channelBuffer + cfg.workers * Bound(cfg.batchSize)
  {
    RunKeepsInv(cfg, ls);
    hide Run, SumBy;
    var s := Run(cfg, ls).value;
    SentSize(cfg, s);
    forall w | w in s.workers
      ensures Backlog(w) <= Bound(cfg.batchSize)
    {
      WorkerHoldsAtMostABatch(cfg, s.now, w);
    }
    SumByBound(s.workers, Backlog, Bound(cfg.batchSize));
  }

  // ---- Shutdown ----

  lemma ExitedHoldsNothing(cfg: Config, now: int, w: Worker)
    requires WorkerOk(cfg, now, w) && w.pc.Exited?
    ensures Unprocessed(w) == [] && w.flight.NoFlight?
    ensures Flatten(w.finished) == w.received && OwnedSet(w) == ProcessedSet(w)
  {
    hide BatcherOk, FanOutOk;
  }

  /** Once every worker has exited, what was accepted is what was processed plus what
      the channel still holds. */
  lemma ExitAccounting(cfg: Config, s: State)
    requires PoolInv(cfg, s) && AllExited(s)
    ensures multiset(s.sent) == multiset(s.channel) + UnionBy(s.workers, ProcessedSet)
    ensures |s.sent| == |s.channel| + s.eventsProcessed
    ensures forall k :: 0 <= k < |s.workers| ==>
      Unprocessed(s.workers[k]) == [] && Flatten(s.workers[k].finished) == ReceivedBy(s.dequeued, k)
  {
    hide SumBy, UnionBy, Flatten, ExitOk, ShutdownOk, ProcessedOk;
    SentIsOwned(cfg, s);
    SentSize(cfg, s);
    forall w | w in s.workers
      ensures OwnedSet(w) == ProcessedSet(w) && Backlog(w) == 0
      ensures Unprocessed(w) == [] && Flatten(w.finished) == w.received
    {
      assert WorkerOk(cfg, s.now, w);
      ExitedHoldsNothing(cfg, s.now, w);
    }
    UnionByEqual(s.workers, OwnedSet, ProcessedSet);
    SumByBound(s.workers, Backlog, 0);
  }

  lemma {:induction false} NoneInPhase(submits: seq<Submission>)
    ensures SumBy(submits, IfSent) == 0 <==> forall i :: 0 <= i < |submits| ==> submits[i].phase != Sent
  {
    if submits != [] {
      NoneInPhase(submits[1..]);
      assert submits == [submits[0]] + submits[1..];
    }
  }

  lemma ReturnedMeansDrained(cfg: Config, s: State)
    requires PoolInv(cfg, s) && s.shutdown.Returned? && Validated(cfg)
    ensures AllExited(s) && s.channel == []
  {
    hide WorkerOk, QueueOk, ProcessedOk;
    assert Leaving(s.workers[0]);
  }

  lemma EachSentOnce(submits: seq<Submission>, sent: seq<Item>)
    requires SentOk(submits, sent)
    ensures forall i :: 0 <= i < |submits| && HasSent(submits[i]) ==>
      multiset(sent)[Item(submits[i].event, i)] == 1
  {
    forall i | 0 <= i < |submits| && HasSent(submits[i])
      ensures multiset(sent)[Item(submits[i].event, i)] == 1
    {
      SentIsDistinct(submits, sent, Item(submits[i].event, i));
      assert Item(submits[i].event, i) in sent;
    }
  }

  /** Graceful shutdown is complete. When Shutdown has returned nil, the channel and all
      batchers are empty and every accepted event was processed exactly once, in the order
      its worker received it. */
  lemma GracefulShutdownCompletes(cfg: Config, ls: seq<Label>)
    requires Run(cfg, ls).Some? && Run(cfg, ls).value.shutdown.Returned? && Validated(cfg)
    ensures
      var s := Run(cfg, ls).value;
      && s.channel == []
      && UnionBy(s.workers, ProcessedSet) == multiset(s.sent)
      && (forall k :: 0 <= k < |s.workers| ==>
            Unprocessed(s.workers[k]) == [] && Flatten(s.workers[k].finished) == ReceivedBy(s.dequeued, k))
      && (forall i :: 0 <= i < |s.submits| && HasSent(s.submits[i]) ==>
            UnionBy(s.workers, ProcessedSet)[Item(s.submits[i].event, i)] == 1)
  {
    RunKeepsInv(cfg, ls);
    hide Run, UnionBy, Unprocessed, PoolInv, SentOk, Flatten, SumBy, ReceivedBy, SubmissionsOk, ShutdownOk, CountsOk;
    var s := Run(cfg, ls).value;
    ReturnedMeansDrained(cfg, s);
    ExitAccounting(cfg, s);
    EachSentOnce(s.submits, s.sent);
  }

  /** The counters then agree, eventsProcessed = eventsReceived, if and only if no Submit
      is still between its send and its counter. */
  lemma GracefulCountersAgreeIff(cfg: Config, ls: seq<Label>)
    requires Run(cfg, ls).Some? && Run(cfg, ls).value.shutdown.Returned? && Validated(cfg)
    ensures
      var s := Run(cfg, ls).value;
      && s.eventsProcessed == |s.sent|
      && (s.eventsProcessed == s.eventsReceived
          <==> forall i :: 0 <= i < |s.submits| ==> s.submits[i].phase != Sent)
  {
    RunKeepsInv(cfg, ls);
    hide Run, PoolInv, SentOk, SumBy, SubmissionsOk, ShutdownOk;
    var s := Run(cfg, ls).value;
    ReturnedMeansDrained(cfg, s);
    ExitAccounting(cfg, s);
    NoneInPhase(s.submits);
  }

  /** Forced shutdown loses exactly the channel: once all workers have exited, whatever
      made them exit, accepted = processed + still queued, nothing is stranded in a batcher
      or a batch in flight, and nothing at all is lost if and only if the channel is empty. */
  lemma ForcedShutdownLosesTheChannel(cfg: Config, ls: seq<Label>)
    requires Run(cfg, ls).Some? && AllExited(Run(cfg, ls).value)
    ensures
      var s := Run(cfg, ls).value;
      && multiset(s.sent) == UnionBy(s.workers, ProcessedSet) + multiset(s.channel)
      && |s.sent| == s.eventsProcessed + |s.channel|
      && (forall k :: 0 <= k < |s.workers| ==> Unprocessed(s.workers[k]) == [])
      && (multiset(s.sent) == UnionBy(s.workers, ProcessedSet) <==> s.channel == [])
  {
    RunKeepsInv(cfg, ls);
    hide Run, UnionBy, PoolInv;
    var s := Run(cfg, ls).value;
    ExitAccounting(cfg, s);
    assert |multiset(s.channel)| == |s.channel|;
  }
}
