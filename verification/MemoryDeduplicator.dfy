/**
 The in-memory deduplicator of pkg/dedup/memory.go: a map from fingerprint to the
 time of the latest Mark, swept every minute for entries older than the TTL.

 IsDuplicate looks only at presence, never at the timestamp, so it approximates
 "marked within the TTL": `DedupSpec` proves exactly how closely.
 */
module DedupSpec {

  type Fingerprint = string
  type Cache = map<Fingerprint, int>

  function Mark(cache: Cache, key: Fingerprint, now: int): Cache {
    cache[key := now]
  }

  /** removeExpired: drop every entry strictly older than the TTL. */
  function Expire(cache: Cache, ttl: int, now: int): Cache {
    map key | key in cache && now - cache[key] <= ttl :: cache[key]
  }

  datatype Op =
    | MarkOp(key: Fingerprint, at: int)
    | CheckOp(key: Fingerprint, at: int)
    | SweepOp(at: int)
    | CloseOp(at: int)

  function Effect(cache: Cache, ttl: int, op: Op): Cache {
    match op
    case MarkOp(key, at) => Mark(cache, key, at)
    case CheckOp(_, _) => cache
    case SweepOp(at) => Expire(cache, ttl, at)
    case CloseOp(_) => map[]
  }

  function Replay(ops: seq<Op>, ttl: int): Cache {
    if ops == [] then map[] else Effect(Replay(ops[..|ops| - 1], ttl), ttl, ops[|ops| - 1])
  }

  ghost predicate Marks(op: Op, key: Fingerprint) {
    op.MarkOp? && op.key == key
  }

  ghost predicate LastMarkAt(ops: seq<Op>, key: Fingerprint, m: int) {
    0 <= m < |ops| && Marks(ops[m], key) && forall c :: m < c < |ops| ==> !Marks(ops[c], key)
  }

  /** Operation `c` removes an entry that was marked at time `at`. */
  ghost predicate Removes(op: Op, ttl: int, at: int) {
    op.CloseOp? || (op.SweepOp? && op.at - at > ttl)
  }

  ghost predicate Survives(ops: seq<Op>, ttl: int, m: int)
    requires 0 <= m < |ops|
  {
    forall c :: m < c < |ops| ==> !Removes(ops[c], ttl, ops[m].at)
  }

  lemma {:induction false} PresentWasMarked(ops: seq<Op>, ttl: int, key: Fingerprint) returns (m: nat)
    requires key in Replay(ops, ttl)
    ensures LastMarkAt(ops, key, m) && Survives(ops, ttl, m)
    ensures Replay(ops, ttl)[key] == ops[m].at
  {
    var n := |ops| - 1;
    if Marks(ops[n], key) {
      m := n;
    } else {
      m := PresentWasMarked(ops[..n], ttl, key);
      assert ops[..n][m] == ops[m];
      forall c | m < c < |ops|
        ensures !Marks(ops[c], key) && !Removes(ops[c], ttl, ops[m].at)
      {
        if c < n {
          assert ops[..n][c] == ops[c];
        }
      }
    }
  }

  lemma {:induction false} SurvivingMarkIsPresent(ops: seq<Op>, ttl: int, key: Fingerprint, m: nat)
    requires LastMarkAt(ops, key, m) && Survives(ops, ttl, m)
    ensures key in Replay(ops, ttl) && Replay(ops, ttl)[key] == ops[m].at
  {
    var n := |ops| - 1;
    if m < n {
      forall c | m < c < n
        ensures !Marks(ops[..n][c], key) && !Removes(ops[..n][c], ttl, ops[m].at)
      {
        assert ops[..n][c] == ops[c];
      }
      SurvivingMarkIsPresent(ops[..n], ttl, key, m);
      assert !Removes(ops[n], ttl, ops[m].at) && !Marks(ops[n], key);
    }
  }

  /** The cache refines the history of Marks, exactly: a key is present if and only
      if no sweep after its latest Mark found that Mark older than the TTL and the
      cache was not closed since; and it then maps to the time of that Mark. */
  lemma CacheRefinesHistory(ops: seq<Op>, ttl: int, key: Fingerprint)
    ensures key in Replay(ops, ttl) <==> exists m :: LastMarkAt(ops, key, m) && Survives(ops, ttl, m)
    ensures forall m :: LastMarkAt(ops, key, m) && key in Replay(ops, ttl) ==> Replay(ops, ttl)[key] == ops[m].at
  {
    if key in Replay(ops, ttl) {
      var m := PresentWasMarked(ops, ttl, key);
      forall k | LastMarkAt(ops, key, k)
        ensures Replay(ops, ttl)[key] == ops[k].at
      {
        assert k == m;
      }
    }
    if m :| LastMarkAt(ops, key, m) && Survives(ops, ttl, m) {
      SurvivingMarkIsPresent(ops, ttl, key, m);
    }
  }

  // ---- Clocked histories ----

  ghost predicate Timed(ops: seq<Op>, now: int) {
    && (forall i, j :: 0 <= i <= j < |ops| ==> ops[i].at <= ops[j].at)
    && (forall i :: 0 <= i < |ops| ==> ops[i].at <= now)
  }

  ghost predicate NeverClosed(ops: seq<Op>) {
    forall i :: 0 <= i < |ops| ==> !ops[i].CloseOp?
  }

  lemma {:induction false} LastMarkExists(ops: seq<Op>, key: Fingerprint, i: nat) returns (m: nat)
    requires i < |ops| && Marks(ops[i], key)
    ensures i <= m && LastMarkAt(ops, key, m)
    decreases |ops| - i
  {
    if j :| i < j < |ops| && Marks(ops[j], key) {
      m := LastMarkExists(ops, key, j);
    } else {
      m := i;
    }
  }

  /** IsDuplicate at time `now`, from below: a key marked at most the TTL ago is
      reported, whatever sweeps ran in between. */
  lemma MarkedWithinTtlIsDuplicate(ops: seq<Op>, ttl: int, key: Fingerprint, i: nat, now: int)
    requires Timed(ops, now) && NeverClosed(ops)
    requires i < |ops| && Marks(ops[i], key) && now - ops[i].at <= ttl
    ensures key in Replay(ops, ttl)
  {
    var m := LastMarkExists(ops, key, i);
    SurvivingMarkIsPresent(ops, ttl, key, m);
  }

  /** ... and from above: a key that is reported was marked, at most the TTL plus the
      time since the last sweep ago. */
  lemma DuplicateIsRecent(ops: seq<Op>, ttl: int, key: Fingerprint, lastSweep: nat, now: int)
    requires Timed(ops, now) && ttl >= 0
    requires lastSweep < |ops| && ops[lastSweep].SweepOp?
    requires key in Replay(ops, ttl)
    ensures exists m :: LastMarkAt(ops, key, m) && now - ops[m].at <= ttl + (now - ops[lastSweep].at)
  {
    var m := PresentWasMarked(ops, ttl, key);
    if m < lastSweep {
      assert !Removes(ops[lastSweep], ttl, ops[m].at);
    }
  }

  /** A key that was marked but is no longer reported was removed by a sweep that
      came more than the TTL after its latest Mark. */
  lemma ForgottenWasExpired(ops: seq<Op>, ttl: int, key: Fingerprint, i: nat, now: int) returns (m: nat, c: nat)
    requires Timed(ops, now) && NeverClosed(ops)
    requires i < |ops| && Marks(ops[i], key)
    requires key !in Replay(ops, ttl)
    ensures i <= m < c < |ops| && LastMarkAt(ops, key, m)
    ensures ops[c].SweepOp? && ops[c].at - ops[m].at > ttl
    ensures now - ops[i].at > ttl
  {
    m := LastMarkExists(ops, key, i);
    if Survives(ops, ttl, m) {
      SurvivingMarkIsPresent(ops, ttl, key, m);
      assert false;
    }
    c :| m < c < |ops| && Removes(ops[c], ttl, ops[m].at);
  }

  /** IsDuplicate is not the exact relation: between sweeps an entry older than the
      TTL is still reported. */
  lemma StaleEntryIsStillReported(key: Fingerprint, ttl: nat)
    ensures
      var ops := [MarkOp(key, 0), CheckOp(key, ttl + 1)];
      Timed(ops, ttl + 1) && key in Replay(ops, ttl) && (ttl + 1) - Replay(ops, ttl)[key] > ttl
  {
    var ops := [MarkOp(key, 0), CheckOp(key, ttl + 1)];
    assert LastMarkAt(ops, key, 0) && Survives(ops, ttl, 0);
    SurvivingMarkIsPresent(ops, ttl, key, 0);
  }
}

module MemoryDeduplicatorClass {
  import opened DedupSpec

  /** MemoryDeduplicator. `now` stands for time.Now(); each method is one critical
      section of the mutex. The ghost history records every operation. */
  class MemoryDeduplicator {
    const ttl: int
    var cache: Cache
    var stopped: bool               // stopCleanup is closed
    ghost var history: seq<Op>

    ghost predicate Valid()
      reads this
    {
      && cache == Replay(history, ttl)
      && (stopped <==> !NeverClosed(history))
    }

    constructor (ttl: int)
      ensures Valid() && history == [] && !stopped && this.ttl == ttl
    {
      this.ttl := ttl;
      cache := map[];
      stopped := false;
      history := [];
    }

    method IsDuplicate(key: Fingerprint, ghost now: int) returns (duplicate: bool)
      requires Valid()
      modifies this`history
      ensures Valid() && history == old(history) + [CheckOp(key, now)]
      ensures duplicate <==> key in Replay(old(history), ttl)
    {
      duplicate := key in cache;
      history := history + [CheckOp(key, now)];
      assert history[..|history| - 1] == old(history);
    }

    method Mark(key: Fingerprint, now: int)
      requires Valid()
      modifies this
      ensures Valid() && history == old(history) + [MarkOp(key, now)]
      ensures cache == old(cache)[key := now]
    {
      cache := cache[key := now];
      history := history + [MarkOp(key, now)];
      assert history[..|history| - 1] == old(history);
    }

    /** removeExpired: visits the entries in no particular order, deleting as it goes. */
    method RemoveExpired(now: int) returns (removed: nat)
      requires Valid()
      modifies this
      ensures Valid() && history == old(history) + [SweepOp(now)]
      ensures cache == Expire(old(cache), ttl, now)
      ensures removed == |old(cache)| - |cache| && stopped == old(stopped)
    {
      removed := 0;
      var pending := cache.Keys;
      while pending != {}
        invariant pending <= cache.Keys <= old(cache).Keys
        invariant forall key :: key in cache ==> cache[key] == old(cache)[key]
        invariant forall key :: key in old(cache) && key !in pending ==>
          (key in cache <==> now - old(cache)[key] <= ttl)
        invariant removed == |old(cache)| - |cache|
        invariant history == old(history) && stopped == old(stopped)
        decreases pending
      {
        var key :| key in pending;
        pending := pending - {key};
        if now - cache[key] > ttl {
          assert (cache - {key}).Keys == cache.Keys - {key};
          assert |cache - {key}| == |(cache - {key}).Keys| == |cache.Keys| - 1;
          cache := cache - {key};
          removed := removed + 1;
        }
      }
      history := history + [SweepOp(now)];
      assert history[..|history| - 1] == old(history);
    }

    /** One turn of the cleanup goroutine: its select takes a tick, or the stop signal once
        there is one, and then the goroutine ends. */
    method CleanupTurn(tick: bool, now: int) returns (running: bool)
      requires Valid() && (!tick ==> stopped)
      modifies this
      ensures Valid() && running == tick && stopped == old(stopped)
      ensures history == if tick then old(history) + [SweepOp(now)] else old(history)
      ensures cache == if tick then Expire(old(cache), ttl, now) else old(cache)
    {
      if tick {
        var _ := RemoveExpired(now);
      }
      running := tick;
    }

    /** A second Close closes a closed channel, which panics before anything is cleared. */
    method Close(ghost now: int) returns (panicked: bool)
      requires Valid()
      modifies this
      ensures Valid() && stopped
      ensures panicked <==> !NeverClosed(old(history))
      ensures panicked ==> cache == old(cache) && history == old(history)
      ensures !panicked ==> cache == map[] && history == old(history) + [CloseOp(now)]
    {
      panicked := stopped;
      if !panicked {
        stopped := true;
        cache := map[];
        history := history + [CloseOp(now)];
        assert history[..|history| - 1] == old(history) && history[|history| - 1].CloseOp?;
      }
    }
  }
}
