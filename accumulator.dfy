/**
 The worker's state and what each event does to it, as functions: the ingest queue, the
 buffer, the time of the last successful flush and whether the worker still runs
 (gologloki.go:94-98, 128-218). The class in module `Adapter` is proved to follow these
 functions step by step; the lemmas at the end follow a whole run of events.
 */
module Accumulator {
  import opened Wrappers
  import opened LokiTypes
  import opened LokiConfig
  import opened Golog
  import opened Formatter
  import opened Grouper
  import opened Sender

  datatype State = State(queue: seq<LokiLogEntry>, buffer: seq<LokiLogEntry>, lastFlush: int, running: bool)

  /** One flush: the buffer it took, the payload it sent and whether the send reported success. */
  datatype Flushed = Flushed(entries: seq<LokiLogEntry>, payload: LokiPayload, delivered: bool)

  /** The state after an event and the flush the event caused, if any. */
  datatype Step = Step(state: State, flushed: Option<Flushed>)

  /** A freshly constructed adapter: empty queue and buffer, last flush at construction time. */
  function Initial(now: int): (s: State)
    ensures s.queue == [] && s.buffer == [] && s.lastFlush == now && s.running
  {
    State([], [], now, true)
  }

  /**
   What holds between events: the queue is within its capacity, the buffer is flushed as
   soon as it reaches the batch size, and a stopped worker left nothing in the buffer.
   */
  predicate Invariant<L>(cfg: LokiConfig<L>, s: State)
  {
    && Startable(cfg)
    && |s.queue| <= QueueCapacity(cfg)
    && (s.buffer == [] || |s.buffer| < cfg.batchSize)
    && (!s.running ==> s.buffer == [])
  }

  /** The non-blocking send into the queue: appended when there is room, dropped otherwise. */
  function Enqueue<L>(cfg: LokiConfig<L>, s: State, entry: LokiLogEntry): (r: State)
    ensures r.buffer == s.buffer && r.lastFlush == s.lastFlush && r.running == s.running
    ensures |s.queue| < QueueCapacity(cfg) <==> r.queue == s.queue + [entry]
    ensures |s.queue| >= QueueCapacity(cfg) ==> r.queue == s.queue
  {
    if |s.queue| < QueueCapacity(cfg) then s.(queue := s.queue + [entry]) else s
  }

  /** The entry a submission puts in the queue, if it puts one there. */
  function Accepted<L>(cfg: LokiConfig<L>, ext: Externals<L>, s: State, log: Log<L>): (r: seq<LokiLogEntry>)
    ensures |r| <= 1
    ensures r != [] ==> |s.queue| < QueueCapacity(cfg) && FormatEntry(cfg, ext, log) == Some(r[0])
    ensures FormatEntry(cfg, ext, log).Some? && |s.queue| < QueueCapacity(cfg) ==>
      r == [FormatEntry(cfg, ext, log).value]
  {
    var entry := FormatEntry(cfg, ext, log);
    if entry.Some? && |s.queue| < QueueCapacity(cfg) then [entry.value] else []
  }

  /** `Log`: format the record and enqueue it; a filtered record changes nothing. */
  function Submit<L>(cfg: LokiConfig<L>, ext: Externals<L>, s: State, log: Log<L>): (r: State)
    ensures !cfg.enable || !ext.isEnabled(cfg.level, log.level) ==> r == s
    ensures r == s.(queue := s.queue + Accepted(cfg, ext, s, log))
  {
    match FormatEntry(cfg, ext, log)
    case None => s
    case Some(entry) => Enqueue(cfg, s, entry)
  }

  /**
   `flush`: nothing on an empty buffer; otherwise the buffer is taken and emptied, grouped
   into streams and sent, and the last-flush time moves to `now` exactly when the send
   reports success.
   */
  function DoFlush<L>(cfg: LokiConfig<L>, s: State, now: int, backend: Backend): (r: Step)
    ensures s.buffer == [] ==> r == Step(s, None)
    ensures s.buffer != [] ==> r.flushed.Some? && r.flushed.value.entries == s.buffer
    ensures r.flushed.Some? ==>
      && r.flushed.value.payload == Batch(r.flushed.value.entries)
      && r.flushed.value.delivered == Delivered(cfg.retryCount, r.flushed.value.payload, backend)
    ensures r.state.buffer == [] && r.state.queue == s.queue && r.state.running == s.running
    ensures r.state.lastFlush == if r.flushed.Some? && r.flushed.value.delivered then now else s.lastFlush
  {
    if s.buffer == [] then Step(s, None)
    else
      var payload := Batch(s.buffer);
      var ok := Delivered(cfg.retryCount, payload, backend);
      Step(s.(buffer := [], lastFlush := if ok then now else s.lastFlush), Some(Flushed(s.buffer, payload, ok)))
  }

  /**
   A new entry arrives from the queue: it is appended to the buffer, which is flushed when
   its length reaches the batch size.
   */
  function OnEntry<L>(cfg: LokiConfig<L>, s: State, now: int, backend: Backend): (r: Step)
    requires s.queue != []
    ensures r.state.queue == s.queue[1..] && r.state.running == s.running
    ensures r.flushed.Some? <==> |s.buffer| + 1 >= cfg.batchSize
    ensures r.flushed.Some? ==> r.flushed.value.entries == s.buffer + [s.queue[0]] && r.state.buffer == []
    ensures r.flushed.None? ==> r.state == s.(queue := s.queue[1..], buffer := s.buffer + [s.queue[0]])
    ensures r.flushed.Some? ==>
      r == DoFlush(cfg, s.(queue := s.queue[1..], buffer := s.buffer + [s.queue[0]]), now, backend)
  {
    var s1 := s.(queue := s.queue[1..], buffer := s.buffer + [s.queue[0]]);
    if |s1.buffer| >= cfg.batchSize then DoFlush(cfg, s1, now, backend) else Step(s1, None)
  }

  /** A tick flushes a non-empty buffer once a batch interval has passed since the last success. */
  function OnTick<L>(cfg: LokiConfig<L>, s: State, now: int, backend: Backend): (r: Step)
    ensures r.flushed.Some? <==> s.buffer != [] && now - s.lastFlush >= cfg.batchInterval
    ensures r.flushed.None? ==> r.state == s
    ensures r.flushed.Some? ==> r.flushed.value.entries == s.buffer && r.state.buffer == []
    ensures r.state.queue == s.queue && r.state.running == s.running
    ensures r.flushed.Some? ==> r == DoFlush(cfg, s, now, backend)
  {
    if |s.buffer| > 0 && now - s.lastFlush >= cfg.batchInterval then DoFlush(cfg, s, now, backend)
    else Step(s, None)
  }

  /** Quit flushes a non-empty buffer and stops the worker; the queue is not drained. */
  function OnQuit<L>(cfg: LokiConfig<L>, s: State, now: int, backend: Backend): (r: Step)
    ensures !r.state.running && r.state.buffer == [] && r.state.queue == s.queue
    ensures r.flushed.Some? <==> s.buffer != []
    ensures r.flushed.Some? ==> r.flushed.value.entries == s.buffer
  {
    var step := if |s.buffer| > 0 then DoFlush(cfg, s, now, backend) else Step(s, None);
    step.(state := step.state.(running := false))
  }

  /** The events the adapter reacts to, each with the clock reading and backend it meets. */
  datatype Event<!L> =
    | Submitted(log: Log<L>)
    | Received(now: int, backend: Backend)
    | Ticked(now: int, backend: Backend)
    | Stopped(now: int, backend: Backend)

  /**
   One event. The worker's events need a running worker, and an arrival needs a non-empty
   queue (the `select` cannot pick it otherwise); an event that cannot fire changes nothing.
   */
  function Apply<L>(cfg: LokiConfig<L>, ext: Externals<L>, s: State, ev: Event<L>): (r: Step)
    ensures ev.Submitted? ==> r == Step(Submit(cfg, ext, s, ev.log), None)
    ensures !ev.Submitted? && !s.running ==> r == Step(s, None)
    ensures ev.Received? && s.queue == [] ==> r == Step(s, None)
    ensures ev.Received? && s.running && s.queue != [] ==> r == OnEntry(cfg, s, ev.now, ev.backend)
    ensures ev.Ticked? && s.running ==> r == OnTick(cfg, s, ev.now, ev.backend)
    ensures ev.Stopped? && s.running ==> r == OnQuit(cfg, s, ev.now, ev.backend)
    ensures r.state.running ==> s.running
  {
    match ev
    case Submitted(log) => Step(Submit(cfg, ext, s, log), None)
    case Received(now, backend) =>
      if s.running && s.queue != [] then OnEntry(cfg, s, now, backend) else Step(s, None)
    case Ticked(now, backend) =>
      if s.running then OnTick(cfg, s, now, backend) else Step(s, None)
    case Stopped(now, backend) =>
      if s.running then OnQuit(cfg, s, now, backend) else Step(s, None)
  }

  /** What an event put in the queue. */
  function AcceptedBy<L>(cfg: LokiConfig<L>, ext: Externals<L>, s: State, ev: Event<L>): (r: seq<LokiLogEntry>)
    ensures |r| <= 1
    ensures !ev.Submitted? ==> r == []
  {
    if ev.Submitted? then Accepted(cfg, ext, s, ev.log) else []
  }

  /** A run: the final state, the flushes in order, and the entries the queue accepted in order. */
  datatype Trace = Trace(state: State, flushes: seq<Flushed>, accepted: seq<LokiLogEntry>)

  function Run<L>(cfg: LokiConfig<L>, ext: Externals<L>, s: State, evs: seq<Event<L>>): (t: Trace)
    decreases |evs|
  {
    if evs == [] then Trace(s, [], [])
    else
      var step := Apply(cfg, ext, s, evs[0]);
      var rest := Run(cfg, ext, step.state, evs[1..]);
      Trace(
        rest.state,
        (if step.flushed.Some? then [step.flushed.value] else []) + rest.flushes,
        AcceptedBy(cfg, ext, s, evs[0]) + rest.accepted)
  }

  /** The entries of a sequence of flushes, in order. */
  function Flatten(fs: seq<Flushed>): (r: seq<LokiLogEntry>)
  {
    if fs == [] then [] else fs[0].entries + Flatten(fs[1..])
  }

  lemma FlattenAppend(a: seq<Flushed>, b: seq<Flushed>)
    ensures Flatten(a + b) == Flatten(a) + Flatten(b)
  {
    if a == [] {
      assert a + b == b;
    } else {
      assert (a + b)[1..] == a[1..] + b;
      FlattenAppend(a[1..], b);
    }
  }

  /** Every event keeps the invariant. */
  lemma ApplyKeepsInvariant<L>(cfg: LokiConfig<L>, ext: Externals<L>, s: State, ev: Event<L>)
    requires Invariant(cfg, s)
    ensures Invariant(cfg, Apply(cfg, ext, s, ev).state)
  {
  }

  /**
   One event moves entries along the pipeline without losing, duplicating or reordering
   any: flushed entries, then the buffer, then the queue read the same before and after,
   up to what the event accepted.
   */
  lemma ApplyConserves<L>(cfg: LokiConfig<L>, ext: Externals<L>, s: State, ev: Event<L>)
    ensures var step := Apply(cfg, ext, s, ev);
      (if step.flushed.Some? then step.flushed.value.entries else []) + step.state.buffer + step.state.queue
        == s.buffer + s.queue + AcceptedBy(cfg, ext, s, ev)
  {
    match ev
    case Submitted(log) =>
    case Received(now, backend) =>
      if s.running && s.queue != [] {
        assert s.queue == [s.queue[0]] + s.queue[1..];
      }
    case Ticked(now, backend) =>
    case Stopped(now, backend) =>
  }

  lemma Regroup<T>(moved: seq<T>, flushed: seq<T>, b1: seq<T>, q1: seq<T>, b2: seq<T>, q2: seq<T>,
    before: seq<T>, acc1: seq<T>, acc2: seq<T>)
    requires moved + b1 + q1 == before + acc1
    requires flushed + b2 + q2 == b1 + q1 + acc2
    ensures (moved + flushed) + b2 + q2 == before + acc1 + acc2
  {
    calc {
      (moved + flushed) + b2 + q2;
      moved + (flushed + b2 + q2);
      moved + (b1 + q1 + acc2);
      (moved + b1 + q1) + acc2;
    }
  }

  /**
   Over any run, every entry the queue accepted is, in arrival order, either in exactly one
   flush or still in the buffer or the queue: nothing is lost or sent twice between
   submission and the send step.
   */
  lemma {:induction false} RunConserves<L>(cfg: LokiConfig<L>, ext: Externals<L>, s: State, evs: seq<Event<L>>)
    ensures var t := Run(cfg, ext, s, evs);
      Flatten(t.flushes) + t.state.buffer + t.state.queue == s.buffer + s.queue + t.accepted
    decreases |evs|
  {
    if evs != [] {
      var step := Apply(cfg, ext, s, evs[0]);
      var rest := Run(cfg, ext, step.state, evs[1..]);
      var first := if step.flushed.Some? then [step.flushed.value] else [];
      RunConserves(cfg, ext, step.state, evs[1..]);
      ApplyConserves(cfg, ext, s, evs[0]);
      FlattenAppend(first, rest.flushes);
      var moved := if step.flushed.Some? then step.flushed.value.entries else [];
      assert Flatten(first) == moved by {
        if step.flushed.Some? {
          assert first[1..] == [];
        }
      }
      Regroup(moved, Flatten(rest.flushes), step.state.buffer, step.state.queue, rest.state.buffer,
        rest.state.queue, s.buffer + s.queue, AcceptedBy(cfg, ext, s, evs[0]), rest.accepted);
    }
  }

  /**
   Over any run the invariant holds at the end, every flush sent the grouping of a
   non-empty buffer, and a stopped worker stays stopped.
   */
  lemma {:induction false} RunKeepsInvariant<L>(cfg: LokiConfig<L>, ext: Externals<L>, s: State, evs: seq<Event<L>>)
    requires Invariant(cfg, s)
    ensures var t := Run(cfg, ext, s, evs);
      && Invariant(cfg, t.state)
      && (forall f :: f in t.flushes ==> f.entries != [] && f.payload == Batch(f.entries))
      && (!s.running ==> !t.state.running && t.flushes == [])
    decreases |evs|
  {
    if evs != [] {
      var step := Apply(cfg, ext, s, evs[0]);
      ApplyKeepsInvariant(cfg, ext, s, evs[0]);
      RunKeepsInvariant(cfg, ext, step.state, evs[1..]);
    }
  }
}
