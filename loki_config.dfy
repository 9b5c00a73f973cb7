/**
 `LokiConfig` and the default configuration. Durations are integer nanoseconds, as Go's
 `time.Duration` is. The severity type `L` belongs to the logging facade.
 */
module LokiConfig {

  /** One second in nanoseconds (`time.Second`). */
  const Second: int := 1_000_000_000

  datatype LokiConfig<L> = LokiConfig(
    enable: bool,
    level: L,
    url: string,
    labels: map<string, string>,
    batchSize: int,
    batchInterval: int,
    retryCount: int,
    retryDelay: int,
    timeout: int)

  /**
   What starting an adapter demands of its configuration: `make` panics on a negative queue
   or buffer capacity, and `time.NewTicker` panics on a non-positive period. Nothing else is
   checked, so a zero batch size or a negative retry count is accepted.
   */
  predicate Startable<L>(cfg: LokiConfig<L>)
  {
    cfg.batchSize >= 0 && cfg.batchInterval > 0
  }

  /** Capacity of the ingest queue: ten batches. */
  function QueueCapacity<L>(cfg: LokiConfig<L>): (c: int)
    ensures c == cfg.batchSize * 10
    ensures Startable(cfg) ==> c >= 0 && (cfg.batchSize > 0 <==> c >= 10)
  {
    cfg.batchSize * 10
  }

  /** `defaultLokiConfig`; `debug` is the facade's `DebugLevel`. */
  function DefaultLokiConfig<L>(url: string, debug: L): (cfg: LokiConfig<L>)
    ensures cfg.enable && cfg.level == debug
    ensures cfg.url == url
    ensures cfg.labels == map["job" := "app_logs"]
    ensures cfg.batchSize == 100 && cfg.batchInterval == 5 * Second
    ensures cfg.retryCount == 3 && cfg.retryDelay == Second && cfg.timeout == 10 * Second
  {
    LokiConfig(
      enable := true,
      level := debug,
      url := url,
      labels := map["job" := "app_logs"],
      batchSize := 100,
      batchInterval := 5 * Second,
      retryCount := 3,
      retryDelay := 1 * Second,
      timeout := 10 * Second)
  }

  /** The default configuration starts an adapter whose queue holds a thousand entries. */
  lemma DefaultIsStartable<L>(url: string, debug: L)
    ensures Startable(DefaultLokiConfig(url, debug))
    ensures QueueCapacity(DefaultLokiConfig(url, debug)) == 1000
    ensures DefaultLokiConfig(url, debug).retryCount >= 0
  {
  }
}
