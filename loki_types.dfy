/**
 The records the adapter hands around: a formatted entry, a stream of the push protocol
 and the payload of one push. Timestamps are nanoseconds since the Unix epoch.
 */
module LokiTypes {

  /** A label set: the flat string-to-string map that identifies a stream. */
  type Labels = map<string, string>

  /** One `[timestamp, line]` pair of a stream, the timestamp already rendered in decimal. */
  type StreamValue = (string, string)

  /** `lokiLogEntry`: an entry after formatting, waiting in the queue or the buffer. */
  datatype LokiLogEntry = LokiLogEntry(timestamp: int, line: string, level: string, labels: Labels)

  /** `lokiStream`: the label set of a stream and its values in arrival order. */
  datatype LokiStream = LokiStream(stream: Labels, values: seq<StreamValue>)

  /**
   `lokiPayload`: the streams of one push. The source collects them from a Go map, so their
   order is unspecified; the model keeps them as a set.
   */
  datatype LokiPayload = LokiPayload(streams: set<LokiStream>)
}
