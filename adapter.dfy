/**
 `lokiAdapter`: the object that producers log into and whose worker batches and sends
 (gologloki.go:14-27, 30-99, 128-218, 266-319). The worker goroutine's `select` becomes one
 method per event, called in whatever order the environment chooses; the clock is the
 `now` each event is given, and the backend is the oracle each flush meets.
 */
module Adapter {
  import opened Wrappers
  import opened LokiTypes
  import opened LokiConfig
  import opened Golog
  import opened Formatter
  import opened Grouper
  import opened Sender
  import opened Accumulator

  class LokiAdapter<!L> {
    const cfg: LokiConfig<L>
    const ext: Externals<L>
    var queue: seq<LokiLogEntry>
    var buffer: seq<LokiLogEntry>
    var lastFlush: int
    var running: bool

    /** The adapter's state as the functions of module `Accumulator` see it. */
    function Snapshot(): State
      reads this
    {
      State(queue, buffer, lastFlush, running)
    }

    ghost predicate Valid()
      reads this
    {
      Invariant(cfg, Snapshot())
    }

    /** `NewLokiAdapter`: empty queue and buffer, last flush now, worker running. */
    constructor (cfg: LokiConfig<L>, ext: Externals<L>, now: int)
      requires Startable(cfg)
      ensures Valid() && this.cfg == cfg && this.ext == ext
      ensures Snapshot() == Initial(now)
    {
      this.cfg := cfg;
      this.ext := ext;
      queue := [];
      buffer := [];
      lastFlush := now;
      running := true;
    }

    /** `NewDefaultLokiAdapter`: the same, with the default configuration for `url`. */
    constructor Default(url: string, debug: L, ext: Externals<L>, now: int)
      ensures Valid() && cfg == DefaultLokiConfig(url, debug) && this.ext == ext
      ensures Snapshot() == Initial(now)
    {
      cfg := DefaultLokiConfig(url, debug);
      this.ext := ext;
      queue := [];
      buffer := [];
      lastFlush := now;
      running := true;
    }

    /**
     `Log`: format the record and offer it to the queue without blocking; a full queue
     drops it, a filtered record leaves everything as it was.
     */
    method Log(log: Log<L>)
      requires Valid()
      modifies this`queue
      ensures Valid()
      ensures Snapshot() == Submit(cfg, ext, old(Snapshot()), log)
    {
      var entry := BuildEntry(cfg, ext, log);
      if entry.Some? {
        if |queue| < QueueCapacity(cfg) {
          queue := queue + [entry.value];
        }
      }
    }

    /** `flush`: take and clear the buffer, group it, send it, and note the time on success. */
    method Flush(now: int, backend: Backend) returns (flushed: Option<Flushed>)
      modifies this`buffer, this`lastFlush
      ensures Step(Snapshot(), flushed) == DoFlush(cfg, old(Snapshot()), now, backend)
    {
      if |buffer| == 0 {
        return None;
      }
      var snapshot := buffer;
      buffer := [];
      var payload := GroupIntoStreams(snapshot);
      var ok, _, _ := SendWithRetry(cfg.retryCount, cfg.retryDelay, payload, backend);
      if ok {
        lastFlush := now;
      }
      flushed := Some(Flushed(snapshot, payload, ok));
    }

    /** The worker takes an entry from the queue. */
    method Receive(now: int, backend: Backend) returns (flushed: Option<Flushed>)
      requires Valid() && running && queue != []
      modifies this`queue, this`buffer, this`lastFlush
      ensures Valid()
      ensures Step(Snapshot(), flushed) == OnEntry(cfg, old(Snapshot()), now, backend)
    {
      var entry := queue[0];
      queue := queue[1..];
      buffer := buffer + [entry];
      flushed := None;
      if |buffer| >= cfg.batchSize {
        flushed := Flush(now, backend);
      }
    }

    /** The ticker fires. */
    method Tick(now: int, backend: Backend) returns (flushed: Option<Flushed>)
      requires Valid() && running
      modifies this`buffer, this`lastFlush
      ensures Valid()
      ensures Step(Snapshot(), flushed) == OnTick(cfg, old(Snapshot()), now, backend)
    {
      flushed := None;
      if |buffer| > 0 && now - lastFlush >= cfg.batchInterval {
        flushed := Flush(now, backend);
      }
    }

    /** The quit signal: a last flush of a non-empty buffer, then the worker stops. */
    method Quit(now: int, backend: Backend) returns (flushed: Option<Flushed>)
      requires Valid() && running
      modifies this`buffer, this`lastFlush, this`running
      ensures Valid()
      ensures Step(Snapshot(), flushed) == OnQuit(cfg, old(Snapshot()), now, backend)
    {
      flushed := None;
      if |buffer| > 0 {
        flushed := Flush(now, backend);
      }
      running := false;
    }
  }
}
