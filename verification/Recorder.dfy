// The recorder: a buffer between the bus and the store that survives storage
// failures and says how much they cost.
module Recording {
  import opened Common
  import opened Events
  import opened EventStores

  // The value of a recorder and of the session it writes. `accepted`,
  // `persisted` and `dropped` are history: everything recorded so far, and the
  // batches that were and were not written.
  datatype Recorder = Recorder(
    bufferSize: nat, flushInterval: int, buffer: seq<Event>, lastFlush: int, recorded: nat, failures: nat,
    healthy: bool, consecutive: nat, lost: nat, held: seq<Event>,
    accepted: seq<Event>, persisted: seq<Event>, dropped: seq<Event>)

  function NewRecorder(bufferSize: nat, flushInterval: int, now: int): (r: Recorder) {
    Recorder(bufferSize, flushInterval, [], now, 0, 0, true, 0, 0, [], [], [], [])
  }

  // Writing a batch to a store that fails before its k-th event, if it fails.
  function StoreBatch(held: seq<Event>, batch: seq<Event>, fault: Option<nat>): (r: AppendResult) {
    if fault.Some? && fault.value < |batch| then AppendResult(AppendedMany(held, batch[..fault.value]).held, true)
    else AppendedMany(held, batch)
  }

  function Flushed(r: Recorder, now: int, fault: Option<nat>): (s: Recorder) {
    if r.buffer == [] then r.(lastFlush := now)
    else
      var written := StoreBatch(r.held, r.buffer, fault);
      var emptied := r.(buffer := [], lastFlush := now, held := written.held);
      if written.raised then
        emptied.(failures := r.failures + 1, consecutive := r.consecutive + 1, healthy := false,
                 lost := r.lost + |r.buffer|, dropped := r.dropped + r.buffer)
      else
        emptied.(recorded := r.recorded + |r.buffer|, consecutive := 0, healthy := true,
                 persisted := r.persisted + r.buffer)
  }

  predicate FlushIsDue(r: Recorder, now: int) {
    r.buffer != [] && (|r.buffer| >= r.bufferSize || now - r.lastFlush >= r.flushInterval)
  }

  function FlushedIfDue(r: Recorder, now: int, fault: Option<nat>): (s: Recorder) {
    if FlushIsDue(r, now) then Flushed(r, now, fault) else r
  }

  function AfterRecord(r: Recorder, e: Event, now: int, fault: Option<nat>): (s: Recorder) {
    FlushedIfDue(r.(buffer := r.buffer + [e], accepted := r.accepted + [e]), now, fault)
  }

  datatype Step =
    | Record(event: Event, now: int, fault: Option<nat>)
    | FlushIfDue(now: int, fault: Option<nat>)
    | Flush(now: int, fault: Option<nat>)

  function Stepped(r: Recorder, step: Step): (s: Recorder) {
    match step
    case Record(e, now, fault) => AfterRecord(r, e, now, fault)
    case FlushIfDue(now, fault) => FlushedIfDue(r, now, fault)
    case Flush(now, fault) => Flushed(r, now, fault)
  }

  function RunRecorder(r: Recorder, steps: seq<Step>): (s: Recorder) {
    if steps == [] then r else Stepped(RunRecorder(r, steps[..|steps| - 1]), steps[|steps| - 1])
  }

  // -- accounting ---------------------------------------------------------------

  // Every accepted event is persisted, dropped or still buffered; what was
  // persisted is held, and what is held came from some batch.
  ghost predicate RecorderInv(r: Recorder) {
    && Accounted(r) && Held(r)
    && r.recorded == |r.persisted| && r.lost == |r.dropped|
    && (r.healthy <==> r.consecutive == 0) && r.consecutive <= r.failures
  }

  ghost predicate Accounted(r: Recorder) {
    multiset(r.accepted) == multiset(r.persisted) + multiset(r.dropped) + multiset(r.buffer)
  }

  ghost predicate Held(r: Recorder) {
    && DistinctEvents(r.held)
    && (forall e :: e in r.persisted ==> e.finite && e.id in EventStores.IdsOf(r.held))
    && (forall e :: e in r.held ==> e in r.persisted || e in r.dropped)
  }

  lemma StoreBatchKeeps(held: seq<Event>, batch: seq<Event>, fault: Option<nat>)
    requires DistinctEvents(held)
    ensures var r := StoreBatch(held, batch, fault);
      && DistinctEvents(r.held) && held <= r.held
      && (forall e :: e in r.held ==> e in held || e in batch)
      && (!r.raised ==> IdsOf(r.held) == IdsOf(held) + IdsOf(batch) && forall e :: e in batch ==> e.finite)
  {
    BatchStored(held, batch);
    if fault.Some? && fault.value < |batch| {
      BatchStored(held, batch[..fault.value]);
    }
  }

  lemma FlushKeeps(r: Recorder, now: int, fault: Option<nat>)
    requires RecorderInv(r)
    ensures RecorderInv(Flushed(r, now, fault)) && Flushed(r, now, fault).accepted == r.accepted
    ensures Flushed(r, now, fault).buffer == []
  {
    hide StoreBatch, Accounted, Held;
    FlushAccounts(r, now, fault);
    FlushHolds(r, now, fault);
  }

  lemma FlushAccounts(r: Recorder, now: int, fault: Option<nat>)
    requires Accounted(r)
    ensures Accounted(Flushed(r, now, fault))
  {
    hide StoreBatch;
  }

  lemma FlushHolds(r: Recorder, now: int, fault: Option<nat>)
    requires Held(r)
    ensures Held(Flushed(r, now, fault))
  {
    hide StoreBatch, DistinctEvents, IdsOf;
    StoreBatchKeeps(r.held, r.buffer, fault);
    forall e | e in r.buffer ensures e.id in IdsOf(r.buffer) {
      MemberId(r.buffer, e);
    }
    IdsGrow(r.held, StoreBatch(r.held, r.buffer, fault).held);
  }

  lemma MemberId(events: seq<Event>, e: Event)
    requires e in events
    ensures e.id in IdsOf(events)
  {
  }

  lemma IdsGrow(a: seq<Event>, b: seq<Event>)
    requires a <= b
    ensures IdsOf(a) <= IdsOf(b)
  {
    forall e | e in a ensures e in b {
    }
  }

  lemma AcceptKeeps(r: Recorder, e: Event)
    requires RecorderInv(r)
    ensures RecorderInv(r.(buffer := r.buffer + [e], accepted := r.accepted + [e]))
  {
  }

  lemma {:induction false} RunKeeps(r: Recorder, steps: seq<Step>)
    requires RecorderInv(r)
    ensures RecorderInv(RunRecorder(r, steps))
  {
    hide RecorderInv, Flushed, FlushIsDue;
    if steps != [] {
      RunKeeps(r, steps[..|steps| - 1]);
      var s := RunRecorder(r, steps[..|steps| - 1]);
      match steps[|steps| - 1]
      case Record(e, now, fault) =>
        AcceptKeeps(s, e);
        FlushKeeps(s.(buffer := s.buffer + [e], accepted := s.accepted + [e]), now, fault);
      case FlushIfDue(now, fault) => FlushKeeps(s, now, fault);
      case Flush(now, fault) => FlushKeeps(s, now, fault);
    }
  }

  // After every step, accepted = recorded + buffered + lost, event by event.
  lemma NothingUnaccounted(bufferSize: nat, flushInterval: int, now: int, steps: seq<Step>)
    ensures var r := RunRecorder(NewRecorder(bufferSize, flushInterval, now), steps);
      && multiset(r.accepted) == multiset(r.persisted) + multiset(r.dropped) + multiset(r.buffer)
      && |r.accepted| == r.recorded + |r.buffer| + r.lost
      && (r.healthy <==> r.consecutive == 0)
  {
    hide RunRecorder;
    RunKeeps(NewRecorder(bufferSize, flushInterval, now), steps);
    var r := RunRecorder(NewRecorder(bufferSize, flushInterval, now), steps);
    assert |multiset(r.accepted)| == |multiset(r.persisted) + multiset(r.dropped) + multiset(r.buffer)|;
  }

  // After any step the buffer is empty, or smaller than its limit and younger
  // than the interval; a recorded event stays in it exactly while both hold,
  // and then nothing is written.
  lemma BufferStaysBounded(r: Recorder, step: Step)
    ensures var s := Stepped(r, step);
      && (s.buffer == [] || (|s.buffer| < r.bufferSize && step.now - s.lastFlush < r.flushInterval))
      && (step.Record? ==>
            (s.buffer != [] <==> |r.buffer| + 1 < r.bufferSize && step.now - r.lastFlush < r.flushInterval))
      && (s.buffer != [] ==> s.held == r.held && s.buffer == r.buffer + if step.Record? then [step.event] else [])
      && (step.Flush? || (r.buffer != [] && s.buffer == []) ==> s.lastFlush == step.now)
  {
    hide StoreBatch;
  }

  // A session that lost nothing and is flushed reads back as the one ordering
  // of everything that was accepted, however it was batched and redelivered.
  lemma RecordingRoundTrip(bufferSize: nat, flushInterval: int, now: int, steps: seq<Step>, q: Query)
    requires var r := RunRecorder(NewRecorder(bufferSize, flushInterval, now), steps);
      r.lost == 0 && r.buffer == [] && OneEventPerId(r.accepted)
    ensures var r := RunRecorder(NewRecorder(bufferSize, flushInterval, now), steps);
      && Ordered(Read(r.held, q))
      && (forall e :: e in Read(r.held, q) <==> e in r.accepted && q.Selects(e))
      && Read(r.held, q) == Read(AppendedMany([], r.accepted).held, q)
  {
    hide RunRecorder, Read, AppendedMany, Query.Selects;
    var r := RunRecorder(NewRecorder(bufferSize, flushInterval, now), steps);
    RunKeeps(NewRecorder(bufferSize, flushInterval, now), steps);
    HeldIsAccepted(r);
    ReadOrders(r.held, q);
    ReadIsCanonical(r.accepted, r.accepted, q);
    HeldExactly(r.accepted);
    BatchStored([], r.accepted);
    ReadOrders(AppendedMany([], r.accepted).held, q);
    OrderingIsUnique(Read(r.held, q), Read(AppendedMany([], r.accepted).held, q));
  }

  lemma HeldIsAccepted(r: Recorder)
    requires RecorderInv(r) && r.lost == 0 && r.buffer == [] && OneEventPerId(r.accepted)
    ensures DistinctEvents(r.held)
    ensures forall e :: e in r.held <==> e in r.accepted
    ensures forall e :: e in r.accepted ==> e.finite
  {
    assert r.dropped == [];
    forall e ensures e in r.persisted <==> e in r.accepted {
      assert multiset(r.accepted)[e] == multiset(r.persisted)[e];
    }
    forall e | e in r.accepted ensures e in r.held {
      assert e.id in IdsOf(r.held);
    }
  }

  // -- the class ------------------------------------------------------------------

  class SessionRecorder {
    const store: InMemoryEventStore
    const session: string
    const bufferSize: nat
    const flushInterval: int
    var buffer: seq<Event>
    var lastFlush: int
    var eventsRecorded: nat
    var failures: nat
    var healthy: bool
    var consecutiveFailures: nat
    var eventsLost: nat
    ghost var accepted: seq<Event>
    ghost var persisted: seq<Event>
    ghost var dropped: seq<Event>

    ghost predicate Valid()
      reads this, store
    {
      store.Valid() && RecorderInv(View())
    }

    ghost function View(): Recorder
      reads this, store
    {
      Recorder(bufferSize, flushInterval, buffer, lastFlush, eventsRecorded, failures, healthy, consecutiveFailures,
               eventsLost, store.Held(session), accepted, persisted, dropped)
    }

    constructor (store: InMemoryEventStore, session: string, bufferSize: nat, flushInterval: int, now: int)
      requires store.Valid() && store.Held(session) == []
      ensures Valid() && View() == NewRecorder(bufferSize, flushInterval, now)
      ensures this.store == store
    {
      this.store, this.session, this.bufferSize, this.flushInterval := store, session, bufferSize, flushInterval;
      buffer, lastFlush, eventsRecorded, failures, healthy := [], now, 0, 0, true;
      consecutiveFailures, eventsLost, accepted, persisted, dropped := 0, 0, [], [], [];
    }

    method Record(e: Event, now: int, fault: Option<nat>)
      requires Valid()
      modifies this, store
      ensures Valid() && View() == AfterRecord(old(View()), e, now, fault)
    {
      hide RecorderInv, Flushed, InMemoryEventStore.Valid, InMemoryEventStore.Held;
      AcceptKeeps(View(), e);
      buffer, accepted := buffer + [e], accepted + [e];
      FlushIfDue(now, fault);
    }

    // Flushes on size or age, without waiting for another event.
    method FlushIfDue(now: int, fault: Option<nat>)
      requires Valid()
      modifies this, store
      ensures Valid() && View() == FlushedIfDue(old(View()), now, fault)
    {
      if buffer != [] && (|buffer| >= bufferSize || now - lastFlush >= flushInterval) {
        Flush(now, fault);
      }
    }

    // Writes the buffer out; a batch that fails is gone, and counted as such.
    method Flush(now: int, fault: Option<nat>)
      requires Valid()
      modifies this, store
      ensures View() == Flushed(old(View()), now, fault)
      ensures Valid()
    {
      hide RecorderInv, StoreBatch, InMemoryEventStore.Valid, InMemoryEventStore.Held;
      ghost var before := View();
      FlushKeeps(before, now, fault);
      if buffer == [] {
        lastFlush := now;
        return;
      }
      var batch := buffer;
      buffer := [];
      assert store.Held(session) == before.held;
      var raised := Write(batch, fault);
      assert AppendResult(store.Held(session), raised) == StoreBatch(before.held, batch, fault);
      if raised {
        failures, consecutiveFailures, healthy := failures + 1, consecutiveFailures + 1, false;
        eventsLost, dropped := eventsLost + |batch|, dropped + batch;
      } else {
        eventsRecorded, persisted := eventsRecorded + |batch|, persisted + batch;
        healthy, consecutiveFailures := true, 0;
      }
      lastFlush := now;
    }

    method Write(batch: seq<Event>, fault: Option<nat>) returns (raised: bool)
      requires store.Valid()
      modifies store
      ensures store.Valid()
      ensures AppendResult(store.Held(session), raised) == StoreBatch(old(store.Held(session)), batch, fault)
    {
      if fault.Some? && fault.value < |batch| {
        raised := store.AppendMany(session, batch[..fault.value]);
        return true;
      }
      raised := store.AppendMany(session, batch);
    }
  }
}
