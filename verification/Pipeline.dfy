/**
 The event pipeline of pkg/processor/processor.go as a labelled step machine:
 any number of concurrent Submit calls, a bounded channel, a pool of workers that
 each own a batcher, the parallel fan-out of a batch to the plugins, and Shutdown.

 One step is one action of one goroutine that the others can observe. A run is a
 sequence of labels; every choice the scheduler, a `select`, a timer, a remote
 deduplicator or a storage backend makes is in the label.
 */
module Pipeline {
  import opened Collections
  import opened BatcherSpec
  import DedupSpec

  // ---- Configuration ----

  /** An event, as far as the pipeline looks at it. */
  datatype Event = Event(deduplicationKey: string, body: string)

  /** StoragePlugin.Filter. WriteBatch may succeed or fail as it likes. */
  type Plugin = Event -> bool

  datatype Deduplicator = NoDeduplicator | Noop | Memory(ttl: int) | Remote

  datatype Config = Config(
    workers: nat,
    channelBuffer: nat,
    batchSize: nat,
    flushInterval: int,
    plugins: seq<Plugin>,
    deduplicator: Deduplicator,
    fingerprint: string -> DedupSpec.Fingerprint)

  /** ValidateConfig checks these two; it does not check the batch size. */
  ghost predicate Validated(cfg: Config) {
    cfg.workers > 0 && cfg.channelBuffer > 0
  }

  // ---- Submit ----

  /** An accepted event, together with the Submit call that sent it. */
  datatype Item = Item(event: Event, submission: nat)

  datatype Verdict = Unchecked | New | Seen | CheckFailed

  datatype Outcome = Accepted | Duplicate | Rejected

  datatype Phase =
    | Checking          // before IsDuplicate
    | Marking           // before Mark
    | Sending           // before the first select
    | Full              // took its default branch, before the second select
    | Parked            // blocked in the second select
    | Sent              // sent, eventsReceived not yet bumped
    | DupSeen           // duplicate, eventsDuplicated not yet bumped
    | Dropping          // ctx.Done chosen, eventsDropped not yet bumped
    | Done(outcome: Outcome)

  datatype Stamp = Never | At(step: nat, time: int)

  datatype Submission = Submission(event: Event, phase: Phase, verdict: Verdict, checked: Stamp, marked: Stamp)

  // ---- Workers ----

  datatype Pc =
    | Selecting            // at the select in the worker loop
    | Holding(item: Item)  // received, waiting for the batcher's mutex in Add
    | Adding               // inside Add, the mutex is held
    | Stopping             // left the loop, in the final batcher.Flush
    | Exited

  datatype Lock = Free | ByWorker | ByCallback

  /** The goroutine that writes the batch in flight to one plugin. */
  datatype Write = Idle | Writing | Written

  datatype Flight = NoFlight | Flight(batch: seq<Item>, writes: seq<Write>)

  datatype Worker = Worker(
    pc: Pc,
    lock: Lock,                     // the batcher's mutex
    batcher: BatcherState<Item>,
    flight: Flight,                 // the batch inside processBatch
    received: seq<Item>,            // everything this worker took off the channel
    finished: seq<seq<Item>>,       // batches whose processBatch has returned
    logs: seq<seq<seq<Item>>>,      // per plugin: the slices passed to WriteBatch
    begun: seq<nat>,                // per plugin: batches whose write has started
    ended: seq<nat>,                // per plugin: batches whose write has ended
    failed: seq<nat>)               // per plugin: WriteBatch calls that returned an error

  /** writeToPlugin's filtering loop. */
  function Slice(plugin: Plugin, batch: seq<Item>): seq<Item> {
    if batch == [] then
      []
    else
      Slice(plugin, batch[..|batch| - 1])
      + (if plugin(batch[|batch| - 1].event) then [batch[|batch| - 1]] else [])
  }

  function NewWorker(cfg: Config): Worker {
    var n := |cfg.plugins|;
    Worker(Selecting, Free, Empty(), NoFlight, [], [],
           seq(n, _ => []), seq(n, _ => 0), seq(n, _ => 0), seq(n, _ => 0))
  }

  datatype Action =
    | Append                     // Add: lock, append, arm the timer
    | AddReturn                  // Add: below maxSize, unlock
    | SizeFlush                  // Add: flush because maxSize is reached
    | FinalFlush                 // the worker's last Flush
    | FireTimer(timer: nat)
    | RunCallback(timer: nat)    // timeoutFlush
    | BeginWrite(plugin: nat)
    | EndWrite(plugin: nat, ok: bool)

  predicate ActionEnabled(cfg: Config, now: int, w: Worker, a: Action) {
    match a
    case Append => w.pc.Holding? && w.lock.Free?
    case AddReturn => w.pc.Adding? && w.flight.NoFlight? && |w.batcher.events| < cfg.batchSize
    case SizeFlush => w.pc.Adding? && w.flight.NoFlight? && |w.batcher.events| >= cfg.batchSize
    case FinalFlush => w.pc.Stopping? && w.lock.Free?
    case FireTimer(t) => CanFire(w.batcher, t, now)
    case RunCallback(t) => CanRun(w.batcher, t) && w.lock.Free?
    case BeginWrite(p) =>
      && w.flight.Flight?
      && p < |cfg.plugins| && p < |w.flight.writes| && p < |w.begun| && p < |w.ended| && p < |w.logs|
      && w.flight.writes[p].Idle?
    case EndWrite(p, _) =>
      && w.flight.Flight?
      && p < |w.flight.writes| && p < |w.ended| && p < |w.failed|
      && w.flight.writes[p].Writing?
  }

  /** flush with a non-empty buffer: processBatch starts while the mutex is held. */
  function StartFlight(cfg: Config, w: Worker, who: Lock): Worker {
    w.(lock := who,
       flight := Flight(w.batcher.events, seq(|cfg.plugins|, _ => Idle)),
       batcher := Flush(w.batcher))
  }

  function Act(cfg: Config, now: int, w: Worker, a: Action): Worker
    requires ActionEnabled(cfg, now, w, a)
  {
    match a
    case Append =>
      w.(pc := Adding, lock := ByWorker,
         batcher := BatcherSpec.Append(w.batcher, w.pc.item, now, cfg.flushInterval))
    case AddReturn => w.(pc := Selecting, lock := Free)
    case SizeFlush => StartFlight(cfg, w, ByWorker)
    case FinalFlush =>
      if w.batcher.events == [] then w.(pc := Exited) else StartFlight(cfg, w, ByWorker)
    case FireTimer(t) => w.(batcher := Fire(w.batcher, t))
    case RunCallback(t) =>
      var w1 := w.(batcher := Consume(w.batcher, t));
      if w.batcher.events == [] then w1 else StartFlight(cfg, w1, ByCallback)
    case BeginWrite(p) =>
      var slice := Slice(cfg.plugins[p], w.flight.batch);
      if slice == [] then
        w.(flight := w.flight.(writes := w.flight.writes[p := Written]),
           begun := w.begun[p := w.begun[p] + 1], ended := w.ended[p := w.ended[p] + 1])
      else
        w.(flight := w.flight.(writes := w.flight.writes[p := Writing]),
           begun := w.begun[p := w.begun[p] + 1],
           logs := w.logs[p := w.logs[p] + [slice]])
    case EndWrite(p, ok) =>
      w.(flight := w.flight.(writes := w.flight.writes[p := Written]),
         ended := w.ended[p := w.ended[p] + 1],
         failed := if ok then w.failed else w.failed[p := w.failed[p] + 1])
  }

  ghost predicate AllWritten(w: Worker) {
    w.flight.Flight? && forall p :: 0 <= p < |w.flight.writes| ==> w.flight.writes[p].Written?
  }

  /** processBatch after wg.Wait: count, return, unlock. The worker goes back to its
      loop after Add and exits after its final Flush. */
  function Land(w: Worker): Worker
    requires w.flight.Flight?
  {
    w.(finished := w.finished + [w.flight.batch],
       flight := NoFlight,
       lock := Free,
       pc := if !w.lock.ByWorker? then w.pc else if w.pc.Adding? then Selecting else Exited)
  }

  // ---- The whole system ----

  datatype Shutdown = NotCalled | Waiting | Returned | TimedOut

  /** An item and the worker that received it. */
  datatype Taken = Taken(item: Item, worker: nat)

  datatype State = State(
    channel: seq<Item>,
    closed: bool,
    cancelled: bool,                // p.ctx
    panicked: bool,                 // send on, or close of, a closed channel
    shutdown: Shutdown,
    now: int,
    step: nat,                      // steps taken so far
    submits: seq<Submission>,       // every Submit call ever made
    workers: seq<Worker>,
    cache: DedupSpec.Cache,         // the memory deduplicator
    dedupClosed: bool,
    eventsReceived: nat,
    eventsProcessed: nat,
    eventsDuplicated: nat,
    eventsDropped: nat,
    sent: seq<Item>,                // history: every item ever sent
    sentAt: seq<int>,               // history: and when
    dequeued: seq<Taken>)           // history: every item ever received

  function Init(cfg: Config): State {
    State([], false, false, false, NotCalled, 0, 0, [], seq(cfg.workers, _ => NewWorker(cfg)),
          map[], false, 0, 0, 0, 0, [], [], [])
  }

  datatype Label =
    | SubmitStart(event: Event)
    | Check(i: nat, verdict: Verdict)
    | Mark(i: nat, ok: bool)
    | TrySend(i: nat)               // the first select
    | SlowSend(i: nat)              // the second select: the send case
    | SlowCancel(i: nat)            // the second select: ctx.Done
    | SlowPark(i: nat)              // the second select: nothing ready
    | Count(i: nat)                 // bump the counter and return
    | Receive(k: nat)
    | StopSignal(k: nat)            // channel closed and empty, or ctx.Done
    | Do(k: nat, action: Action)
    | Complete(k: nat)
    | Close                         // Shutdown called
    | ShutdownReturn                // done: return nil
    | ShutdownTimeout               // cancel, return an error
    | Tick(delay: nat)
    | Cleanup                       // the deduplicator's sweep
    | CloseDedup

  ghost predicate AllExited(s: State) {
    forall k :: 0 <= k < |s.workers| ==> s.workers[k].pc.Exited?
  }

  predicate InPhase(s: State, i: nat, phase: Phase) {
    i < |s.submits| && s.submits[i].phase == phase
  }

  function Key(cfg: Config, e: Event): DedupSpec.Fingerprint {
    cfg.fingerprint(e.deduplicationKey)
  }

  /** What IsDuplicate can answer. */
  predicate CheckAllowed(cfg: Config, s: State, e: Event, verdict: Verdict) {
    match cfg.deduplicator
    case NoDeduplicator => false
    case Noop => verdict == New
    case Memory(_) => verdict == if Key(cfg, e) in s.cache then Seen else New
    case Remote => verdict != Unchecked
  }

  /** The labels of one Submit call. */
  predicate OnSubmission(l: Label) {
    l.Check? || l.Mark? || l.TrySend? || l.SlowSend? || l.SlowCancel? || l.SlowPark? || l.Count?
  }

  /** The labels of one worker and its batcher. */
  predicate OnWorker(l: Label) {
    l.Receive? || l.StopSignal? || l.Do? || l.Complete?
  }

  ghost predicate SubmitEnabled(cfg: Config, s: State, l: Label)
    requires OnSubmission(l)
  {
    match l
    case Check(i, verdict) =>
      InPhase(s, i, Checking) && CheckAllowed(cfg, s, s.submits[i].event, verdict)
    case Mark(i, ok) => InPhase(s, i, Marking) && (ok || cfg.deduplicator.Remote?)
    case TrySend(i) => InPhase(s, i, Sending)
    case SlowSend(i) =>
      (InPhase(s, i, Full) || InPhase(s, i, Parked)) && (s.closed || |s.channel| < cfg.channelBuffer)
    case SlowCancel(i) => (InPhase(s, i, Full) || InPhase(s, i, Parked)) && s.cancelled
    case SlowPark(i) =>
      InPhase(s, i, Full) && !s.closed && !s.cancelled && |s.channel| >= cfg.channelBuffer
    case Count(i) => InPhase(s, i, Sent) || InPhase(s, i, DupSeen) || InPhase(s, i, Dropping)
  }

  ghost predicate WorkerEnabled(cfg: Config, s: State, l: Label)
    requires OnWorker(l)
  {
    && l.k < |s.workers|
    && match l
       case Receive(k) => s.workers[k].pc.Selecting? && s.channel != []
       case StopSignal(k) =>
         s.workers[k].pc.Selecting? && ((s.closed && s.channel == []) || s.cancelled)
       case Do(k, a) => ActionEnabled(cfg, s.now, s.workers[k], a)
       case Complete(k) => AllWritten(s.workers[k])
  }

  ghost predicate ControlEnabled(cfg: Config, s: State, l: Label)
    requires !OnSubmission(l) && !OnWorker(l)
  {
    match l
    case SubmitStart(_) => true
    case Close => true
    case ShutdownReturn => s.shutdown.Waiting? && AllExited(s)
    case ShutdownTimeout => s.shutdown.Waiting?
    case Tick(_) => true
    case Cleanup => cfg.deduplicator.Memory? && !s.dedupClosed
    case CloseDedup => cfg.deduplicator.Memory? && !s.dedupClosed
  }

  ghost predicate Enabled(cfg: Config, s: State, l: Label) {
    && !s.panicked
    && if OnSubmission(l) then SubmitEnabled(cfg, s, l)
       else if OnWorker(l) then WorkerEnabled(cfg, s, l)
       else ControlEnabled(cfg, s, l)
  }

  function SetPhase(s: State, i: nat, phase: Phase): State
    requires i < |s.submits|
  {
    s.(submits := s.submits[i := s.submits[i].(phase := phase)])
  }

  /** A send on the channel; on a closed channel it panics. */
  function Send(s: State, i: nat): State
    requires i < |s.submits|
  {
    if s.closed then
      s.(panicked := true)
    else
      var item := Item(s.submits[i].event, i);
      SetPhase(s, i, Sent).(channel := s.channel + [item], sent := s.sent + [item], sentAt := s.sentAt + [s.now])
  }

  /** What the call returns, and which counter it bumps. */
  function OutcomeOf(phase: Phase): Outcome {
    if phase.Sent? then Accepted else if phase.DupSeen? then Duplicate else Rejected
  }

  function CountAndReturn(s: State, i: nat): State
    requires i < |s.submits|
  {
    var sub := s.submits[i];
    var outcome := OutcomeOf(sub.phase);
    s.(submits := s.submits[i := sub.(phase := Done(outcome))],
       eventsReceived := s.eventsReceived + (if outcome.Accepted? then 1 else 0),
       eventsDuplicated := s.eventsDuplicated + (if outcome.Duplicate? then 1 else 0),
       eventsDropped := s.eventsDropped + (if outcome.Rejected? then 1 else 0))
  }

  function SetWorker(s: State, k: nat, w: Worker): State
    requires k < |s.workers|
  {
    s.(workers := s.workers[k := w])
  }

  function SubmitEffect(cfg: Config, s: State, l: Label): State
    requires OnSubmission(l) && l.i < |s.submits|
  {
    var sub := s.submits[l.i];
    match l
    case Check(i, verdict) =>
      var phase := if verdict == Seen then DupSeen else Marking;
      s.(submits := s.submits[i := sub.(phase := phase, verdict := verdict, checked := At(s.step, s.now))])
    case Mark(i, ok) =>
      var marked := if ok then At(s.step, s.now) else Never;
      s.(submits := s.submits[i := sub.(phase := Sending, marked := marked)],
         cache := if cfg.deduplicator.Memory?
                  then DedupSpec.Mark(s.cache, Key(cfg, sub.event), s.now)
                  else s.cache)
    case TrySend(i) =>
      if s.closed || |s.channel| < cfg.channelBuffer then Send(s, i) else SetPhase(s, i, Full)
    case SlowSend(i) => Send(s, i)
    case SlowCancel(i) => SetPhase(s, i, Dropping)
    case SlowPark(i) => SetPhase(s, i, Parked)
    case Count(i) => CountAndReturn(s, i)
  }

  ghost function WorkerEffect(cfg: Config, s: State, l: Label): State
    requires OnWorker(l) && WorkerEnabled(cfg, s, l)
  {
    var w := s.workers[l.k];
    match l
    case Receive(k) =>
      var item := s.channel[0];
      SetWorker(s, k, w.(pc := Holding(item), received := w.received + [item]))
        .(channel := s.channel[1..], dequeued := s.dequeued + [Taken(item, k)])
    case StopSignal(k) => SetWorker(s, k, w.(pc := Stopping))
    case Do(k, a) => SetWorker(s, k, Act(cfg, s.now, w, a))
    case Complete(k) =>
      SetWorker(s, k, Land(w)).(eventsProcessed := s.eventsProcessed + |w.flight.batch|)
  }

  ghost function ControlEffect(cfg: Config, s: State, l: Label): State
    requires !OnSubmission(l) && !OnWorker(l) && ControlEnabled(cfg, s, l)
  {
    match l
    case SubmitStart(e) =>
      var phase := if cfg.deduplicator.NoDeduplicator? then Sending else Checking;
      s.(submits := s.submits + [Submission(e, phase, Unchecked, Never, Never)])
    case Close =>
      if s.closed || exists i :: InPhase(s, i, Parked) then
        s.(closed := true, panicked := true)
      else
        s.(closed := true, shutdown := Waiting)
    case ShutdownReturn => s.(shutdown := Returned)
    case ShutdownTimeout => s.(shutdown := TimedOut, cancelled := true)
    case Tick(d) => s.(now := s.now + d)
    case Cleanup => s.(cache := DedupSpec.Expire(s.cache, cfg.deduplicator.ttl, s.now))
    case CloseDedup => s.(cache := map[], dedupClosed := true)
  }

  ghost function Effect(cfg: Config, s: State, l: Label): State
    requires Enabled(cfg, s, l)
  {
    if OnSubmission(l) then SubmitEffect(cfg, s, l)
    else if OnWorker(l) then WorkerEffect(cfg, s, l)
    else ControlEffect(cfg, s, l)
  }

  ghost function Apply(cfg: Config, s: State, l: Label): State
    requires Enabled(cfg, s, l)
  {
    Effect(cfg, s, l).(step := s.step + 1)
  }

  /** The state a run ends in, or None when some step was not possible. */
  ghost function Run(cfg: Config, ls: seq<Label>): Option<State> {
    if ls == [] then
      Some(Init(cfg))
    else
      match Run(cfg, ls[..|ls| - 1])
      case None => None
      case Some(s) => if Enabled(cfg, s, ls[|ls| - 1]) then Some(Apply(cfg, s, ls[|ls| - 1])) else None
  }

  /** No new call of Submit or Shutdown. */
  ghost predicate NoCalls(ls: seq<Label>) {
    forall i :: 0 <= i < |ls| ==> !ls[i].SubmitStart? && !ls[i].Close?
  }

  lemma RunSnoc(cfg: Config, ls: seq<Label>, l: Label)
    requires Run(cfg, ls).Some? && Enabled(cfg, Run(cfg, ls).value, l)
    ensures Run(cfg, ls + [l]) == Some(Apply(cfg, Run(cfg, ls).value, l))
  {
    assert (ls + [l])[..|ls|] == ls;
  }

  lemma RunLast(cfg: Config, ls: seq<Label>)
    requires Run(cfg, ls).Some? && ls != []
    ensures
      var before, l := Run(cfg, ls[..|ls| - 1]), ls[|ls| - 1];
      before.Some? && Enabled(cfg, before.value, l) && Run(cfg, ls) == Some(Apply(cfg, before.value, l))
  {
    hide Enabled, Apply;
  }

  lemma RunLastOf(cfg: Config, ls: seq<Label>, more: seq<Label>)
    requires Run(cfg, ls + more).Some? && more != []
    ensures
      var before, l := Run(cfg, ls + more[..|more| - 1]), more[|more| - 1];
      before.Some? && Enabled(cfg, before.value, l) && Run(cfg, ls + more) == Some(Apply(cfg, before.value, l))
  {
    hide Run, Enabled, Apply;
    assert (ls + more)[..|ls + more| - 1] == ls + more[..|more| - 1];
    RunLast(cfg, ls + more);
  }

  lemma ApplyTick(cfg: Config, s: State, d: nat)
    requires !s.panicked
    ensures Enabled(cfg, s, Tick(d)) && Apply(cfg, s, Tick(d)) == s.(now := s.now + d, step := s.step + 1)
  {
    hide SubmitEffect, SubmitEnabled, WorkerEffect, WorkerEnabled, AllExited;
  }
}
