/**
 The batcher of pkg/processor/batcher.go: a buffer, a timer that covers the
 oldest buffered event, and the batches handed to the flush function.

 `BatcherSpec` says what each critical section does to the batcher's value.
 `BatcherClass` holds the mutable object, backing array included, and is proved
 against that specification.
 */
module BatcherSpec {
  import opened Collections

  /** A runtime timer. `Fired` is a callback that has been launched and waits for
      the batcher's mutex; `Timer.Stop` can no longer recall it. */
  datatype Timer = Armed(deadline: int) | Fired(deadline: int)

  datatype BatcherState<T> = BatcherState(
    events: seq<T>,              // b.events
    addedAt: seq<int>,           // when each buffered event was appended
    timer: Option<nat>,          // b.timer
    timers: map<nat, Timer>,     // the runtime's view: armed timers and waiting callbacks
    nextTimer: nat,
    flushed: seq<seq<T>>)        // every batch handed to flushFunc, oldest first

  function Empty<T>(): BatcherState<T> {
    BatcherState([], [], None, map[], 0, [])
  }

  /** The largest batch: with maxSize 0 an event is flushed as soon as it is added. */
  function Bound(maxSize: nat): nat {
    if maxSize < 1 then 1 else maxSize
  }

  /** The first half of Add: append, and start the timer on the first event. */
  function Append<T>(b: BatcherState<T>, e: T, now: int, maxWait: int): BatcherState<T> {
    var b1 := b.(events := b.events + [e], addedAt := b.addedAt + [now]);
    if |b1.events| == 1 then
      b1.(timer := Some(b.nextTimer),
          timers := b.timers[b.nextTimer := Armed(now + maxWait)],
          nextTimer := b.nextTimer + 1)
    else
      b1
  }

  /** Timer.Stop: recalls an armed timer, has no effect on a launched callback. */
  function Stop(timers: map<nat, Timer>, t: Option<nat>): map<nat, Timer> {
    if t.Some? && t.value in timers && timers[t.value].Armed? then timers - {t.value} else timers
  }

  function Flush<T>(b: BatcherState<T>): BatcherState<T> {
    if b.events == [] then
      b
    else
      b.(events := [], addedAt := [], timer := None, timers := Stop(b.timers, b.timer),
         flushed := b.flushed + [b.events])
  }

  function Add<T>(b: BatcherState<T>, e: T, now: int, maxSize: nat, maxWait: int): BatcherState<T> {
    var b1 := Append(b, e, now, maxWait);
    if |b1.events| >= maxSize then Flush(b1) else b1
  }

  predicate CanFire<T>(b: BatcherState<T>, t: nat, now: int) {
    t in b.timers && b.timers[t].Armed? && b.timers[t].deadline <= now
  }

  /** The runtime launches timeoutFlush in its own goroutine. */
  function Fire<T>(b: BatcherState<T>, t: nat): BatcherState<T>
    requires t in b.timers
  {
    b.(timers := b.timers[t := Fired(b.timers[t].deadline)])
  }

  predicate CanRun<T>(b: BatcherState<T>, t: nat) {
    t in b.timers && b.timers[t].Fired?
  }

  /** The waiting callback `t` leaves the runtime's list once it has the mutex. */
  function Consume<T>(b: BatcherState<T>, t: nat): BatcherState<T> {
    b.(timers := b.timers - {t})
  }

  function TimeoutFlush<T>(b: BatcherState<T>, t: nat): BatcherState<T> {
    Flush(Consume(b, t))
  }

  /** What holds whenever the buffer is readable. The timer field is set exactly
      while something is buffered, and then that timer is armed or its callback is
      waiting, due `maxWait` after the oldest buffered event was added. No other timer is
      armed. */
  ghost predicate TimerInv<T>(b: BatcherState<T>, now: int, maxWait: int) {
    && |b.addedAt| == |b.events|
    && (b.events != [] <==> b.timer.Some?)
    && (b.timer.Some? ==>
          && b.timer.value in b.timers
          && b.timers[b.timer.value].deadline == b.addedAt[0] + maxWait)
    && (forall t :: t in b.timers ==> t < b.nextTimer)
    && (forall t :: t in b.timers && b.timers[t].Armed? ==> b.timer == Some(t))
    && (forall t :: t in b.timers && b.timers[t].Fired? ==> b.timers[t].deadline <= now)
    && (forall i :: 0 <= i < |b.addedAt| ==> b.addedAt[0] <= b.addedAt[i] <= now)
  }

  ghost predicate BatchesInv<T>(b: BatcherState<T>, maxSize: nat) {
    forall i :: 0 <= i < |b.flushed| ==> 1 <= |b.flushed[i]| <= Bound(maxSize)
  }

  /** Between calls the buffer is strictly below the bound. */
  ghost predicate BatcherInv<T>(b: BatcherState<T>, now: int, maxSize: nat, maxWait: int) {
    TimerInv(b, now, maxWait) && BatchesInv(b, maxSize) && |b.events| < Bound(maxSize)
  }

  /** Everything the batcher ever took in, in order: handed out, then buffered. */
  ghost function Contents<T>(b: BatcherState<T>): seq<T> {
    Flatten(b.flushed) + b.events
  }

  lemma AppendKeepsTimerInv<T>(b: BatcherState<T>, e: T, now: int, maxWait: int)
    requires TimerInv(b, now, maxWait)
    ensures TimerInv(Append(b, e, now, maxWait), now, maxWait)
    ensures Contents(Append(b, e, now, maxWait)) == Contents(b) + [e]
  {
    assert Flatten(b.flushed) + (b.events + [e]) == Flatten(b.flushed) + b.events + [e];
  }

  lemma FlushKeepsTimerInv<T>(b: BatcherState<T>, now: int, maxWait: int)
    requires TimerInv(b, now, maxWait)
    ensures TimerInv(Flush(b), now, maxWait)
    ensures Flush(b).events == [] && Contents(Flush(b)) == Contents(b)
  {
    FlattenSnoc(b.flushed, b.events);
  }

  /** Consuming a callback keeps everything but the promise about the current timer,
      so it is only sound together with the flush that follows it. */
  lemma TimeoutKeepsTimerInv<T>(b: BatcherState<T>, t: nat, now: int, maxWait: int)
    requires TimerInv(b, now, maxWait) && CanRun(b, t)
    ensures TimerInv(TimeoutFlush(b, t), now, maxWait)
    ensures TimeoutFlush(b, t).events == [] && Contents(TimeoutFlush(b, t)) == Contents(b)
  {
    FlattenSnoc(b.flushed, b.events);
  }

  lemma FireKeepsTimerInv<T>(b: BatcherState<T>, t: nat, now: int, maxWait: int)
    requires TimerInv(b, now, maxWait) && CanFire(b, t, now)
    ensures TimerInv(Fire(b, t), now, maxWait)
  {
  }

  lemma LaterKeepsTimerInv<T>(b: BatcherState<T>, now: int, later: int, maxWait: int)
    requires TimerInv(b, now, maxWait) && now <= later
    ensures TimerInv(b, later, maxWait)
  {
  }

  // ---- Runs of one batcher under any mix of calls, timer fires and stale callbacks ----

  datatype Op<T> =
    | AddOp(event: T)
    | FireOp(timer: nat)
    | CallbackOp(timer: nat)
    | FlushOp
    | WaitOp(delay: nat)

  datatype Clocked<T> = Clocked(b: BatcherState<T>, now: int)

  function Step<T>(c: Clocked<T>, op: Op<T>, maxSize: nat, maxWait: int): Option<Clocked<T>> {
    match op
    case AddOp(e) => Some(c.(b := Add(c.b, e, c.now, maxSize, maxWait)))
    case FireOp(t) => if CanFire(c.b, t, c.now) then Some(c.(b := Fire(c.b, t))) else None
    case CallbackOp(t) => if CanRun(c.b, t) then Some(c.(b := TimeoutFlush(c.b, t))) else None
    case FlushOp => Some(c.(b := Flush(c.b)))
    case WaitOp(d) => Some(c.(now := c.now + d))
  }

  /** The batcher after `ops`, or None when an operation was not possible. */
  function Replay<T>(ops: seq<Op<T>>, maxSize: nat, maxWait: int): Option<Clocked<T>> {
    if ops == [] then
      Some(Clocked(Empty(), 0))
    else
      match Replay(ops[..|ops| - 1], maxSize, maxWait)
      case None => None
      case Some(c) => Step(c, ops[|ops| - 1], maxSize, maxWait)
  }

  function Taken<T>(op: Op<T>): seq<T> {
    match op case AddOp(e) => [e] case _ => []
  }

  function Added<T>(ops: seq<Op<T>>): seq<T> {
    if ops == [] then []
    else
      Added(ops[..|ops| - 1]) + Taken(ops[|ops| - 1])
  }

  lemma AddKeepsInv<T>(b: BatcherState<T>, e: T, now: int, maxSize: nat, maxWait: int)
    requires BatcherInv(b, now, maxSize, maxWait)
    ensures BatcherInv(Add(b, e, now, maxSize, maxWait), now, maxSize, maxWait)
    ensures Contents(Add(b, e, now, maxSize, maxWait)) == Contents(b) + [e]
  {
    AppendKeepsTimerInv(b, e, now, maxWait);
    FlushKeepsTimerInv(Append(b, e, now, maxWait), now, maxWait);
  }

  /** What Add does, in full. While the batch stays below max(1, maxSize) events it hands out
      nothing and only buffers; the event that opens a buffer arms a timer due maxWait from
      now, a later one arms none. The event that fills the batch has exactly that batch, of
      exactly max(1, maxSize) events, handed out, and leaves an empty buffer and no armed
      timer; launched callbacks stay launched. */
  lemma AddOutcome<T>(b: BatcherState<T>, e: T, now: int, maxSize: nat, maxWait: int)
    requires BatcherInv(b, now, maxSize, maxWait)
    ensures
      var b' := Add(b, e, now, maxSize, maxWait);
      var full := |b.events| + 1 == (if maxSize == 0 then 1 else maxSize);
      && (!full ==>
            && b'.flushed == b.flushed && b'.events == b.events + [e] && b'.addedAt == b.addedAt + [now]
            && |b'.events| < maxSize
            && (b.events != [] ==> b'.timer == b.timer && b'.timers == b.timers)
            && (b.events == [] ==>
                  && b'.timer.Some? && b'.timer.value !in b.timers
                  && b'.timers == b.timers[b'.timer.value := Armed(now + maxWait)]))
      && (full ==>
            && b'.flushed == b.flushed + [b.events + [e]]
            && b'.events == [] && b'.addedAt == [] && b'.timer == None
            && (forall t :: t in b'.timers <==> t in b.timers && b.timers[t].Fired?)
            && (forall t :: t in b'.timers ==> b'.timers[t] == b.timers[t]))
  {
  }

  lemma StepKeepsInv<T>(c: Clocked<T>, op: Op<T>, maxSize: nat, maxWait: int)
    requires BatcherInv(c.b, c.now, maxSize, maxWait) && Step(c, op, maxSize, maxWait).Some?
    ensures
      var c' := Step(c, op, maxSize, maxWait).value;
      && BatcherInv(c'.b, c'.now, maxSize, maxWait)
      && Contents(c'.b) == Contents(c.b) + Taken(op)
  {
    match op
    case AddOp(e) => AddKeepsInv(c.b, e, c.now, maxSize, maxWait);
    case FireOp(t) => FireKeepsTimerInv(c.b, t, c.now, maxWait);
    case CallbackOp(t) => TimeoutKeepsTimerInv(c.b, t, c.now, maxWait);
    case FlushOp => FlushKeepsTimerInv(c.b, c.now, maxWait);
    case WaitOp(d) => LaterKeepsTimerInv(c.b, c.now, c.now + d, maxWait);
  }

  /** Whatever mix of size, timeout and manual flushes ran, and however late a stale
      callback arrived: no event is lost, repeated or reordered, every batch has
      between 1 and max(1, maxSize) events, and the timer invariant holds. */
  lemma {:induction false} AnyRunPartitionsItsEvents<T>(ops: seq<Op<T>>, maxSize: nat, maxWait: int)
    requires Replay(ops, maxSize, maxWait).Some?
    ensures
      var c := Replay(ops, maxSize, maxWait).value;
      && Flatten(c.b.flushed) + c.b.events == Added(ops)
      && BatcherInv(c.b, c.now, maxSize, maxWait)
  {
    if ops != [] {
      var before := ops[..|ops| - 1];
      AnyRunPartitionsItsEvents(before, maxSize, maxWait);
      StepKeepsInv(Replay(before, maxSize, maxWait).value, ops[|ops| - 1], maxSize, maxWait);
    }
  }

  /** A callback's flush is early, before its oldest event has waited `maxWait`, if and only
      if the callback is not the current timer's and that timer is not due yet. The current
      timer's own callback is never early; timeoutFlush does not ask which callback it is. */
  lemma CallbackFlushesEarlyIff<T>(ops: seq<Op<T>>, t: nat, maxSize: nat, maxWait: int)
    requires Replay(ops, maxSize, maxWait).Some? && CanRun(Replay(ops, maxSize, maxWait).value.b, t)
    ensures
      var c := Replay(ops, maxSize, maxWait).value;
      && Step(c, CallbackOp(t), maxSize, maxWait).Some?
      && (Step(c, CallbackOp(t), maxSize, maxWait).value.b.flushed
          == if c.b.events == [] then c.b.flushed else c.b.flushed + [c.b.events])
      && (c.b.events != [] ==>
            && c.b.timer.Some? && c.b.timer.value in c.b.timers && c.b.addedAt != []
            && (c.now < c.b.addedAt[0] + maxWait
                <==> c.b.timer != Some(t) && c.now < c.b.timers[c.b.timer.value].deadline)
            && (c.b.timer == Some(t) ==> c.now >= c.b.addedAt[0] + maxWait))
  {
    AnyRunPartitionsItsEvents(ops, maxSize, maxWait);
  }

  lemma ReplaySnoc<T>(ops: seq<Op<T>>, op: Op<T>, maxSize: nat, maxWait: int)
    requires Replay(ops, maxSize, maxWait).Some?
    ensures Replay(ops + [op], maxSize, maxWait) == Step(Replay(ops, maxSize, maxWait).value, op, maxSize, maxWait)
  {
    assert (ops + [op])[..|ops|] == ops;
  }

  function StaleRun<T>(a: T, b: T, c: T, maxWait: nat): seq<Op<T>> {
    [AddOp(a), WaitOp(maxWait), FireOp(0), AddOp(b), AddOp(c), CallbackOp(0)]
  }

  /** The first event is buffered, and its timer has just fired. */
  function StaleStart<T>(a: T, maxWait: nat): BatcherState<T> {
    BatcherState([a], [0], Some(0), map[0 := Fired(maxWait)], 1, [])
  }

  lemma StaleRunStarts<T>(a: T, b: T, c: T, maxWait: nat)
    ensures Replay(StaleRun(a, b, c, maxWait)[..3], 2, maxWait) == Some(Clocked(StaleStart(a, maxWait), maxWait))
  {
    var ops := StaleRun(a, b, c, maxWait);
    var b1 := BatcherState([a], [0], Some(0), map[0 := Armed(maxWait)], 1, []);
    hide Replay;
    assert Replay<T>([], 2, maxWait) == Some(Clocked(Empty(), 0)) by { NothingReplayed<T>(2, maxWait); }
    ReplaySnoc([], ops[0], 2, maxWait);
    assert [] + [ops[0]] == ops[..1];
    assert Append(Empty(), a, 0, maxWait) == b1 by {
      assert [] + [a] == [a];
      assert map[][0 := Armed(0 + maxWait)] == b1.timers;
    }
    assert Replay(ops[..1], 2, maxWait) == Some(Clocked(b1, 0));
    ReplaySnoc(ops[..1], ops[1], 2, maxWait);
    assert ops[..1] + [ops[1]] == ops[..2] && Replay(ops[..2], 2, maxWait) == Some(Clocked(b1, maxWait));
    ReplaySnoc(ops[..2], ops[2], 2, maxWait);
    assert b1.timers[0 := Fired(maxWait)] == StaleStart(a, maxWait).timers;
    assert ops[..2] + [ops[2]] == ops[..3];
  }

  /** A stale callback can flush early: the callback of the first batch's timer, launched
      just before that batch was flushed for its size, flushes the event of the next batch
      at age 0, and that event's own timer is recalled. */
  lemma StaleCallbackFlushesEarly<T>(a: T, b: T, c: T, maxWait: nat)
    ensures
      Replay(StaleRun(a, b, c, maxWait), 2, maxWait)
      == Some(Clocked(BatcherState([], [], None, map[], 2, [[a, b], [c]]), maxWait))
  {
    var ops := StaleRun(a, b, c, maxWait);
    var b3 := StaleStart(a, maxWait);
    var b4 := BatcherState([], [], None, map[0 := Fired(maxWait)], 1, [[a, b]]);
    var b5 := BatcherState([c], [maxWait], Some(1), map[0 := Fired(maxWait), 1 := Armed(2 * maxWait)], 2, [[a, b]]);
    StaleRunStarts(a, b, c, maxWait);
    hide Replay;
    ReplaySnoc(ops[..3], ops[3], 2, maxWait);
    assert Append(b3, b, maxWait, maxWait).events == [a, b];
    assert [] + [[a, b]] == b4.flushed;
    assert ops[..3] + [ops[3]] == ops[..4] && Replay(ops[..4], 2, maxWait) == Some(Clocked(b4, maxWait));
    ReplaySnoc(ops[..4], ops[4], 2, maxWait);
    assert Append(b4, c, maxWait, maxWait) == b5 by {
      assert [] + [c] == b5.events && [] + [maxWait] == b5.addedAt;
      assert b4.timers[1 := Armed(maxWait + maxWait)] == b5.timers;
    }
    assert ops[..4] + [ops[4]] == ops[..5] && Replay(ops[..5], 2, maxWait) == Some(Clocked(b5, maxWait));
    ReplaySnoc(ops[..5], ops[5], 2, maxWait);
    assert ops[..5] + [ops[5]] == ops;
    assert Stop(b5.timers - {0}, Some(1)) == map[];
    assert b5.flushed + [[c]] == [[a, b], [c]];
  }

  lemma NothingReplayed<T>(maxSize: nat, maxWait: int)
    ensures Replay<T>([], maxSize, maxWait) == Some(Clocked(Empty(), 0))
  {
  }
}

module BatcherClass {
  import opened Collections
  import opened BatcherSpec

  /** Batcher[T]. The mutex is not a field: each method is one critical section. */
  class Batcher<T(0)> {
    const maxSize: nat
    const maxWait: int
    var backing: array<T>           // the array behind b.events
    var length: nat                 // len(b.events)
    var timer: Option<nat>
    var timers: map<nat, Timer>
    var nextTimer: nat
    var handed: seq<array<T>>       // the slices passed to flushFunc
    ghost var addedAt: seq<int>
    ghost var contents: seq<seq<T>> // what each slice held when it was passed on

    /** No slice handed out shares the backing array, and each still holds what it
        held when it was handed out. With maxSize >= 1 the array is never replaced. */
    ghost predicate Valid()
      reads this, backing, handed
    {
      && length <= backing.Length
      && length < Bound(maxSize)
      && backing.Length >= maxSize
      && (maxSize >= 1 ==> backing.Length == maxSize)
      && |handed| == |contents|
      && (forall k :: 0 <= k < |handed| ==> handed[k] != backing && handed[k][..] == contents[k])
    }

    ghost function State(): BatcherState<T>
      reads this, backing
      requires length <= backing.Length
    {
      BatcherState(backing[..length], addedAt, timer, timers, nextTimer, contents)
    }

    constructor (maxSize: nat, maxWait: int)
      ensures Valid() && State() == Empty()
      ensures this.maxSize == maxSize && this.maxWait == maxWait
      ensures fresh(backing)
    {
      this.maxSize := maxSize;
      this.maxWait := maxWait;
      backing := new T[maxSize];
      length := 0;
      timer := None;
      timers := map[];
      nextTimer := 0;
      handed := [];
      addedAt := [];
      contents := [];
    }

    /** append(b.events, event): in place while there is capacity, otherwise into a
        larger array. */
    method AppendEvent(event: T)
      requires length <= backing.Length
      requires forall k :: 0 <= k < |handed| ==> handed[k] != backing
      modifies this`backing, this`length, backing
      ensures length == old(length) + 1 <= backing.Length
      ensures backing[..length] == old(backing[..length]) + [event]
      ensures if old(length) < old(backing.Length) then backing == old(backing) else fresh(backing)
      ensures forall k :: 0 <= k < |handed| ==> handed[k] != backing && handed[k][..] == old(handed[k][..])
    {
      if length == backing.Length {
        var grown := new T[2 * length + 1];
        for i := 0 to length
          modifies grown
          invariant forall j :: 0 <= j < i ==> grown[j] == backing[j]
        {
          grown[i] := backing[i];
        }
        backing := grown;
      }
      backing[length] := event;
      length := length + 1;
    }

    method Add(event: T, now: int)
      requires Valid()
      modifies this, backing
      ensures Valid()
      ensures State() == BatcherSpec.Add(old(State()), event, now, maxSize, maxWait)
      ensures old(handed) <= handed
      ensures maxSize >= 1 ==> backing == old(backing)
      ensures old(length) + 1 < maxSize ==>
        backing[..length] == old(backing[..length]) + [event] && contents == old(contents)
      ensures old(length) + 1 >= maxSize ==>
        length == 0 && contents == old(contents) + [old(backing[..length]) + [event]]
    {
      AppendEvent(event);
      addedAt := addedAt + [now];
      if length == 1 {
        timers := timers[nextTimer := Armed(now + maxWait)];
        timer := Some(nextTimer);
        nextTimer := nextTimer + 1;
      }
      assert State() == Append(old(State()), event, now, maxWait);
      if length >= maxSize {
        FlushLocked();
      }
    }

    /** make and copy: a fresh slice with the buffered events. */
    method CopyEvents() returns (batch: array<T>)
      requires length <= backing.Length
      ensures fresh(batch) && batch[..] == backing[..length]
    {
      batch := new T[length];
      for i := 0 to length
        modifies batch
        invariant forall j :: 0 <= j < i ==> batch[j] == backing[j]
      {
        batch[i] := backing[i];
      }
    }

    /** flush: stop the timer, copy the events out, reset the buffer, call flushFunc. */
    method FlushLocked()
      requires length <= backing.Length
      requires |handed| == |contents|
      requires forall k :: 0 <= k < |handed| ==> handed[k] != backing && handed[k][..] == contents[k]
      modifies this`length, this`timer, this`timers, this`handed, this`addedAt, this`contents
      ensures length == 0 && |handed| == |contents|
      ensures State() == BatcherSpec.Flush(old(State()))
      ensures old(handed) <= handed
      ensures forall k :: 0 <= k < |handed| ==> handed[k] != backing && handed[k][..] == contents[k]
    {
      if length == 0 {
        assert backing[..length] == [];
        return;
      }
      assert backing[..length] != [];
      if timer.Some? {
        if timer.value in timers && timers[timer.value].Armed? {
          timers := timers - {timer.value};
        }
        timer := None;
      }
      var batch := CopyEvents();
      length := 0;
      addedAt := [];
      handed := handed + [batch];
      contents := contents + [batch[..]];
    }

    /** timeoutFlush, run by the waiting callback of timer `t`. */
    method TimeoutFlush(t: nat)
      requires Valid() && t in timers && timers[t].Fired?
      modifies this
      ensures Valid()
      ensures State() == BatcherSpec.TimeoutFlush(old(State()), t)
      ensures old(handed) <= handed && backing == old(backing)
    {
      timers := timers - {t};
      FlushLocked();
    }

    method Flush()
      requires Valid()
      modifies this
      ensures Valid()
      ensures State() == BatcherSpec.Flush(old(State()))
      ensures old(handed) <= handed && backing == old(backing)
    {
      FlushLocked();
    }

    method Size() returns (n: nat)
      requires Valid()
      ensures n == |State().events| < Bound(maxSize)
    {
      n := length;
    }
  }
}
