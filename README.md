# gologloki in Dafny

A model of the core of `gologloki`, a Go adapter that ships log records from the `golog`
logging facade to a Loki server over Loki's HTTP push protocol. The model follows one record
from the facade to the send step:

- **Entry formatter** (`Formatter`): `Log` up to the enqueue, `Format` and
  `convertToString`. A record is dropped when the adapter is disabled or the facade's level
  check refuses it. Otherwise it becomes an entry with a label set and a text line. Static
  labels come first, accepted fields overwrite them, `logger_name` comes next and `level`
  always wins. The line is the (possibly `[name]: `-prefixed) message, then
  `Error: <text>`, then the JSON of the fields that did not become labels. Each addition is
  preceded by its separator only when the line is not empty at that point.
- **Ingest queue** (`Accumulator.Enqueue`): a non-blocking append to a queue of capacity
  `BatchSize*10`. A full queue drops the entry.
- **Batch accumulator** (`Adapter.LokiAdapter`, specified by `Accumulator`): the worker's
  `select` loop as one method per event. An arriving entry is buffered, and the buffer is
  flushed once it holds `BatchSize` entries. A tick flushes a non-empty buffer once
  `BatchInterval` has passed since the last successful flush. Quit flushes a non-empty
  buffer and stops the worker.
- **Stream grouper** (`Grouper`): a flush partitions the buffer by label set into streams.
  Values keep arrival order and are `(decimal UnixNano, line)` pairs. The payload is the set
  of streams.
- **Send step** (`Sender`): `sendWithRetry` as written and the 2xx test of `send`. The HTTP
  exchange is an oracle giving a status code or a transport failure for each attempt.
  Because the loop body returns the first attempt's result, a non-negative `RetryCount`
  means exactly one exchange and no back-off. A negative one means no exchange and a report
  of success.
- **Configuration** (`LokiConfig`): the `LokiConfig` record and `defaultLokiConfig`.

Everything outside this path becomes a parameter. The facade's severity type is a type
parameter `L`. `Level.IsEnabled`, `Level.String`, `%f` formatting of floats and
`json.Marshal` of a field map are function-valued fields of `Golog.Externals`. An error
is the text its `Error()` returns. The clock is an integer number of nanoseconds handed to
each worker event. The backend is a function from a payload and an attempt number to an
outcome.

Besides the per-operation contracts, two lemmas follow whole runs of events
(`Accumulator.Run`). The first says no entry is lost, duplicated or reordered between the
queue and the send step. The second says the queue bound and the buffer bound hold
throughout. The grouper lemmas say each flushed entry sits in exactly one stream, at a
position that respects arrival order.

Behaviour of the code that the model keeps as written:

- Accepted fields overwrite same-named static labels. They are not the ones that give way.
- `" - "` precedes `Error: ` only when the message is non-empty.
- A non-primitive field whose key is already a label key is dropped entirely. It goes
  neither into the labels nor into the JSON tail.
- `Format` rewrites the name before the label is set, so `logger_name` holds `[name]: `.
- Quit flushes only the buffer. Entries still waiting in the queue are not drained.
- `sendWithRetry` never retries, and reports success without sending when `RetryCount < 0`.
- Nothing checks `BatchSize > 0` or `RetryCount >= 0`. Starting an adapter only needs
  `BatchSize >= 0`, because `make` panics on a negative capacity. It also needs
  `BatchInterval > 0`, because `time.NewTicker` panics otherwise.

## Model

| member | source | states |
|---|---|---|
| `Decimal.NatToDecimal` | gologloki.go:115-117 | `%d` of a natural number is a non-empty digit string, with a leading `0` only for zero |
| `Decimal.IntRoundTrip` | gologloki.go:114-117 | the `%d` text of any integer is well formed and parses back to that integer |
| `Decimal.IntToDecimal` | gologloki.go:114-117 | `%d` of an integer is canonical: a minus sign exactly for negative values, then digits with no leading zero unless the value is zero, so never `-0` |
| `Decimal.NatRoundTrip` | gologloki.go:116-117 | the digits of a natural number parse back to it |
| `Decimal.IntToDecimalInjective` | gologloki.go:196-198 | distinct timestamps are rendered as distinct decimal strings |
| `Formatter.Format` | gologloki.go:102-106 | a non-empty name becomes `[name]: ` and prefixes the message, which keeps the original as its suffix; an empty name leaves the record unchanged; nothing else changes |
| `Formatter.ConvertToString` | gologloki.go:110-125 | accepted iff the value is a string, integer, unsigned integer, float or bool; strings map to themselves, integers to decimal text that parses back to the value, bools to `true`/`false`, floats to the `%f` text |
| `Formatter.FieldLabels` | gologloki.go:47-53 | a field key is a field label iff the field is present and its value is accepted |
| `Formatter.EntryLabels` | gologloki.go:43-59 | `level` is always the level string; `logger_name` is the name when set; any other key is a label iff it is a static label or an accepted field, with the field's text winning over the static value |
| `Formatter.LeftoverExactly` | gologloki.go:73-79 | a field reaches the JSON tail iff it was refused as a label and its key is no static label, not `level` and not the `logger_name` that was set |
| `Formatter.LoggerName` | gologloki.go:55-57 | a `logger_name` is set iff `WithName` is set and the name is non-empty, and then it is the name |
| `Formatter.FieldsJson` | gologloki.go:80-81 | with no leftover fields there is no JSON part; otherwise the JSON part is the marshalling of exactly the leftover fields, absent when marshalling fails |
| `Formatter.Line` | gologloki.go:61-92 | the line starts with the message; with neither error nor JSON it is the message; with an error and no JSON it is exactly the message, ` - ` when the message is non-empty, and `Error: <text>`; the JSON ends the line, preceded by the pipe separator unless nothing was written before it |
| `Formatter.LineJsonTail` | gologloki.go:80-86 | the JSON part is appended to exactly the line without it, behind the pipe separator when that line is non-empty |
| `Formatter.FormatEntry` | gologloki.go:30-92 | no entry iff the adapter is disabled or the level is refused; otherwise the entry keeps the timestamp, its `level` label equals its level string, the line starts with the prefixed message, and `logger_name` holds `[name]: ` when `WithName` is set |
| `Formatter.CopyLabels` | gologloki.go:43-45 | copying the static labels key by key yields exactly the static map |
| `Formatter.AddFieldLabels` | gologloki.go:47-53 | after the field loop the labels are the static ones overwritten by the accepted fields |
| `Formatter.CollectLeftover` | gologloki.go:74-79 | the loop collects exactly the fields whose key is not a label |
| `Formatter.WriteLine` | gologloki.go:61-92 | writing the buffer piece by piece yields the specified line |
| `Formatter.BuildEntry` | gologloki.go:30-92 | the entry built in place is the specified one, or none when filtered |
| `Grouper.ValueOf` | gologloki.go:196-200 | a stream value is the decimal rendering of the timestamp, which parses back to it, and the line |
| `Grouper.StreamLength` | gologloki.go:180-203 | a stream holds one value per entry carrying its label set |
| `Grouper.CountPositive` | gologloki.go:188-194 | a label set has a stream iff some buffered entry carries it |
| `Grouper.StreamMapExtend` | gologloki.go:186-202 | adding an entry appends its value to the stream of its labels, creating it if absent, and leaves the others alone |
| `Grouper.EntryPlacement` | gologloki.go:180-203 | entry `i` sits in its label set's stream at its rank among the entries with those labels |
| `Grouper.SlotOrigin` | gologloki.go:180-203 | every value of a stream comes from an entry with that label set and that rank |
| `Grouper.ArrivalOrder` | gologloki.go:197-200 | two entries of one stream keep their arrival order |
| `Grouper.BatchStreams` | gologloki.go:178-211 | the payload has exactly one stream per distinct label set, no two streams share a label set, and each stream holds exactly the values of its entries |
| `Grouper.EntryInOneStream` | gologloki.go:180-211 | every buffered entry appears in the one stream of its label set, at its rank |
| `Grouper.Batch` | gologloki.go:178-211 | the payload holds as many streams as the buffer has distinct label sets |
| `Grouper.EmptyBatch` | gologloki.go:180-211 | the empty case of the grouping loops: no entries yield no streams |
| `Grouper.GroupIntoStreams` | gologloki.go:178-211 | the grouping and collecting loops produce the specified payload |
| `Sender.Send` | gologloki.go:257-262 | an exchange succeeds iff it yields a status in [200,300) |
| `Sender.Delivered` | gologloki.go:221-231 | with a negative retry count the result is success; otherwise it is the first exchange's 2xx test |
| `Sender.SendWithRetry` | gologloki.go:221-232 | with `RetryCount >= 0` exactly one exchange, no sleep, and its result; with `RetryCount < 0` none, and success |
| `LokiConfig.QueueCapacity` | gologloki.go:279 | the capacity is ten times the batch size; for a startable configuration it is non-negative, and at least ten exactly when the batch size is positive |
| `LokiConfig.DefaultLokiConfig` | gologloki_config.go:27-45 | enabled at the debug level; the URL passes through; labels are exactly `{"job": "app_logs"}`; batches of 100 or 5 s; 3 retries, 1 s delay, 10 s timeout |
| `LokiConfig.DefaultIsStartable` | gologloki_config.go:37-40 | the default configuration starts an adapter with a queue of 1000 entries and a non-negative retry count |
| `Accumulator.Initial` | gologloki.go:281-283 | a new adapter has an empty queue and buffer, a running worker, and `lastFlush` at construction time |
| `Accumulator.Enqueue` | gologloki.go:94-98 | the entry is appended at the end iff the queue is below capacity; otherwise the queue is unchanged |
| `Accumulator.Accepted` | gologloki.go:94-98 | at most one entry is accepted; an entry is accepted iff the record is formatted and the queue has room, and then it is the formatted entry |
| `Accumulator.Submit` | gologloki.go:30-99 | a disabled adapter or a refused level leaves the state unchanged; otherwise only the queue changes, by the accepted entry |
| `Accumulator.DoFlush` | gologloki.go:167-218 | nothing happens on an empty buffer; otherwise the buffer is emptied, the payload is the grouping of the old buffer, and `lastFlush` becomes `now` iff the send reports success |
| `Accumulator.OnEntry` | gologloki.go:136-143 | the head of the queue is appended to the buffer, and a flush of the whole buffer happens iff its length reaches `BatchSize`; that flush is `DoFlush` of the extended buffer |
| `Accumulator.OnTick` | gologloki.go:145-153 | a flush happens iff the buffer is non-empty and `now - lastFlush >= BatchInterval`, and it is `DoFlush` of the state; otherwise nothing changes |
| `Accumulator.OnQuit` | gologloki.go:154-161 | a non-empty buffer is flushed, the worker stops, and the queue is left as it is |
| `Accumulator.Apply` | gologloki.go:134-162 | a submission enqueues and flushes nothing; a stopped worker ignores its events; an arrival on an empty queue cannot fire; otherwise arrival, tick and quit act as `OnEntry`, `OnTick` and `OnQuit`; a stopped worker is never restarted |
| `Accumulator.ApplyKeepsInvariant` | gologloki.go:94-161 | every event keeps the queue within capacity and the buffer below `BatchSize`, and leaves a stopped worker's buffer empty |
| `Accumulator.ApplyConserves` | gologloki.go:94-175 | one event moves entries between queue, buffer and flush without loss, duplication or reordering |
| `Accumulator.RunConserves` | gologloki.go:94-175 | over any run, flushed entries then buffer then queue equal the initial buffer and queue followed by every accepted entry, in order |
| `Accumulator.RunKeepsInvariant` | gologloki.go:128-218 | over any run the invariant holds, every flush sends the grouping of a non-empty buffer, and a stopped worker stays stopped and sends nothing |
| `Adapter.LokiAdapter.constructor` | gologloki.go:266-290 | a new adapter keeps its configuration, has an empty queue and buffer, runs, and has `lastFlush` at construction time |
| `Adapter.LokiAdapter.Default` | gologloki.go:293-319 | the same with the default configuration |
| `Adapter.LokiAdapter.Log` | gologloki.go:30-99 | the new state is the submission of the record to the old one |
| `Adapter.LokiAdapter.Flush` | gologloki.go:167-218 | the new state and the flush record are those of `DoFlush` |
| `Adapter.LokiAdapter.Receive` | gologloki.go:136-143 | the new state and flush are those of `OnEntry`, and the invariant is kept |
| `Adapter.LokiAdapter.Tick` | gologloki.go:145-153 | the new state and flush are those of `OnTick`, and the invariant is kept |
| `Adapter.LokiAdapter.Quit` | gologloki.go:154-161 | the new state and flush are those of `OnQuit`, and the invariant is kept |

## Left out

- Goroutine, channels, `select`, `sync.WaitGroup` and `bufferMutex`: the worker is modelled as sequential event methods. The environment picks the order of events where `select` would pick at random. Locking is ignored, including the unlocked `len(a.buffer)` read in `flush`.
- An unbuffered queue (`BatchSize` 0) would hand an entry over when the worker is waiting in `select`; the model gives it capacity 0, so it always drops.
- `time.Now`, `time.NewTicker`, `time.Since`: each worker event gets one clock reading `now`. The send takes no modelled time, so `lastFlush` is set to that reading. Ticks may arrive at any time.
- HTTP: `http.Client`/`http.Transport` set-up, request construction, the `Content-Type` header and `Timeout`. These are foreign library calls, so they are replaced by the `Sender.Backend` oracle. A request that cannot be built counts as a transport failure.
- `json.Marshal` of the payload (gologloki.go:236) and of the leftover fields (gologloki.go:82): byte-exact JSON is foreign library output. Leftover fields go through `Externals.marshalFields`; the payload is handed to the oracle as a value. The payload marshal cannot fail on string data, so its error branch is not modelled.
- Label-key marshalling in `flush` (gologloki.go:181-186) is modelled as equality of label maps. Strings are sequences of Unicode characters, so invalid UTF-8, which `json.Marshal` replaces and could merge into one key, is not represented. The unreachable marshal-error branch is left out for the same reason.
- `%f` float formatting: floating point text is external and enters as `Externals.floatText`.
- Golog.Value: `Float` holds a real number, so NaN, the infinities and negative zero (which `%f` prints as `NaN`, `+Inf`, `-Inf` and `-0.000000`) are not represented.
- Golog.Value: `Other` keeps only the Go type name of a non-primitive field, so what `marshalFields` makes of it, and whether that marshalling fails, can depend only on the type name, not on the value.
- Adapter.LokiAdapter: `cfg` is a constant copy. The source keeps the caller's `*LokiConfig` pointer (gologloki.go:15, 268), so a caller that later changes that record changes the running adapter; the model does not capture this aliasing.
- `Level.IsEnabled`, `Level.String`, `golog.DebugLevel` and `Error()` belong to the `golog` facade. They enter as parameters.
- `time.Sleep` in the retry loop: it is guarded by `attempt > 0`, which is never reached.
- `fmt.Printf` diagnostics on overflow and errors: side-channel output with no effect on state.
- Integer widths: Go's `int` for `BatchSize*10`, the ranges of `int8`…`uint64` field values and of `UnixNano`. They are modelled as unbounded integers, so overflow is not represented.
