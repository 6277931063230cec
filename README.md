# Windows event-log input: collection cycle

This project models the collection cycle of the Windows event-log input
plugin (`plugins/inputs/win_eventlog/win_eventlog.go`), and proves what that
cycle does.

A `WinEventLog` collector keeps two Windows event-log handles between
cycles: a `bookmark` (the read position) and a pull-mode `subscription`.
Both are 0 while unset. It also keeps a render buffer of `RenderBufferSize`
= 1 << 14 bytes and an output buffer `out`. Each call of `Gather` does four
things:

1. It sets the bookmark from the newest event of the channel if the bookmark is unset.
2. It opens the subscription, starting after the bookmark, if the subscription is unset.
3. It polls the subscription for up to 5 handles at a time.
4. For every handle it renders the event into the reset output buffer,
   parses it, and adds one `win_event` metric.

The metric has the fields `recordID`, `eventID`, `message`, `source` and
`created`, and the one tag `level`. The message is the EventData values
joined with newlines.

The Windows calls are oracles bundled in `EventLog.Env`. The subscription's
successive poll results are a finite script; each entry carries a batch of
handles and an optional error, because the API returns both. Rendering, XML
parsing and bookmark creation are functions in `Env`. The accumulator is
the sequence of metrics `Gather` returns.

Files:
- `text.dfy` (module `Text`): `Join` (strings.Join) and `Split`. `Split` is
  not in the source; it is the reference inverse used to prove that joining
  loses nothing.
- `events.dfy` (module `Events`): handles, error codes, the parsed event,
  the metric, and collecting the EventData values.
- `win_eventlog.dfy` (module `EventLog`): the oracles, the specification
  functions of a drain, and the class `WinEventLog` with `Gather`, its loops
  and `UpdateBookmark`.

## Behaviour worth noting

- **Empty channel on the first run.** The code takes element 0 of the
  reverse query's result without a check (`win_eventlog.go:122`), so an
  empty result is an index-out-of-range panic. The model reports this as
  the outcome `Panicked`. A cycle that starts with the bookmark set never
  panics.
- **Bookmark never advances.** The code places a bookmark update from the
  last handle (`win_eventlog.go:109`) after a `for {}` loop, which suggests
  the bookmark was meant to follow the records read. The loop is left only
  by `return`, so that update never runs. `Gather` proves that a bookmark
  that is already set is never changed.
- **Render and parse errors do not skip a record.** The code only logs a
  render error, and it discards a parse error. Either way it still emits a
  metric from whatever the buffer or the parse result holds.
  `CycleMetricsPerHandle` proves that there is exactly one metric per
  handle.
- **Query and subscribe errors do not abort the cycle.** The error of
  EvtQuery is overwritten by the next call before anything looks at it
  (`win_eventlog.go:115-117`), so it is never even logged. The errors of the
  reverse query's EventHandles and of Subscribe are only logged
  (`win_eventlog.go:118-119` and `:57-58`). Each time the code stores
  whatever handle the call returned and goes on.

## Model

| member | source | states |
|---|---|---|
| `EventLog.WinEventLog.Gather` | plugins/inputs/win_eventlog/win_eventlog.go:40-111 | The bookmark is initialised only when it is 0 on entry. It comes from element 0 of the 1-item reverse query. The cycle panics exactly when the bookmark was 0 and that query returns nothing, so a cycle that starts with the bookmark set never panics. A nonzero bookmark is never changed. The subscription is opened with the current bookmark only when it is 0, and is otherwise kept unchanged. The metrics are those of every handle of every batch before the first failed poll. The outcome is nil for ERROR_NO_MORE_ITEMS, the poll's error for any other error, and the end of the script when no poll fails. Every poll asks the subscription for BatchSize (5) handles. `out` holds the last rendered handle's bytes. |
| `EventLog.WinEventLog.Drain` | plugins/inputs/win_eventlog/win_eventlog.go:64-107 | The poll loop is left only through a failed poll or, in the model, the end of the script. It never panics. It emits the metrics of all handles before the first error, batch by batch. It reports the exit through `PollExit`, and it polls the current subscription for 5 handles each time. |
| `EventLog.WinEventLog.EmitBatch` | plugins/inputs/win_eventlog/win_eventlog.go:77-106 | A successful batch yields one metric per handle, in handle order. Afterwards `out` holds the rendering of the batch's last handle, or is unchanged if the batch is empty. |
| `EventLog.WinEventLog.EmitRecord` | plugins/inputs/win_eventlog/win_eventlog.go:78-105 | `out` is reset and then holds exactly what rendering the handle wrote. The metric is formed from the parsed event, whatever errors the render or the parse reported. |
| `EventLog.WinEventLog.UpdateBookmark` | plugins/inputs/win_eventlog/win_eventlog.go:113-133 | With the bookmark unset, the new bookmark is created from element 0 of a 1-item query of the channel. If that result is empty the call panics and the bookmark stays 0. With the bookmark set, it is replaced by one created from the given event. The returned handle is stored even on error. |
| `EventLog.WinEventLog.constructor` | plugins/inputs/win_eventlog/win_eventlog.go:136-141 | A new collector has no bookmark and no subscription, a render buffer of RenderBufferSize (1 << 14) bytes, and an empty output buffer. |
| `EventLog.PollExit` | plugins/inputs/win_eventlog/win_eventlog.go:66-75 | A failed poll ends the cycle with nil exactly when its error is ERROR_NO_MORE_ITEMS. Otherwise the cycle returns that same error. |
| `EventLog.Stop` | plugins/inputs/win_eventlog/win_eventlog.go:65-75 | The loop stops at the first poll result that carries an error. Every earlier poll succeeded. |
| `EventLog.CycleMetricsPerHandle` | plugins/inputs/win_eventlog/win_eventlog.go:77-106 | There are exactly as many metrics as handles in the successful batches. Metric k is the metric of handle k, so no record is dropped for a render or parse error. |
| `EventLog.MetricOrder` | plugins/inputs/win_eventlog/win_eventlog.go:77-106 | Metrics come out in batch order and then handle order. The metric of handle j of batch i sits right after the metrics of all earlier batches' handles. |
| `EventLog.RecordMetric` | plugins/inputs/win_eventlog/win_eventlog.go:78-105 | Every handle yields a full metric, with the five fields and the level tag, whatever the render or the parse reports. Its message is formed from the event parsed out of the rendered bytes. |
| `EventLog.AllHandlesAt` | plugins/inputs/win_eventlog/win_eventlog.go:77-78 | Handle j of batch i sits in the handle stream at the offset given by the earlier batches' sizes. |
| `Events.CollectValues` | plugins/inputs/win_eventlog/win_eventlog.go:89-93 | The appending loop gathers exactly the EventData values, in order, one per pair. Keys are dropped. |
| `Events.Values` | plugins/inputs/win_eventlog/win_eventlog.go:91-93 | Value i of the result is the value of pair i, and there is one value per pair. |
| `Events.MessageRecoversValues` | plugins/inputs/win_eventlog/win_eventlog.go:89-100 | The message field is the values joined with "\n". When no value holds a newline and there is at least one pair, splitting the message at newlines gives back exactly the values. |
| `Events.MetricIgnoresKeys` | plugins/inputs/win_eventlog/win_eventlog.go:91-93 | The keys of EventData pairs never affect the metric. |
| `Events.MessageExamples` | plugins/inputs/win_eventlog/win_eventlog.go:89-100 | Values "a" and "b" give the message "a\nb", whatever their keys. No pairs give "". |
| `Events.Message` | plugins/inputs/win_eventlog/win_eventlog.go:89-100 | An event without EventData pairs has the empty message. Otherwise the message begins with the first pair's value. |
| `Events.EventMetric` | plugins/inputs/win_eventlog/win_eventlog.go:96-105 | The measurement is "win_event". The fields are exactly recordID, eventID, message, source (the provider) and created, each carrying that event attribute or the given message. The tags are exactly level, carrying the event's level. |
| `Events.ToMetric` | plugins/inputs/win_eventlog/win_eventlog.go:89-105 | An event's metric has exactly the five fields and the level tag. Its message field is the EventData values joined with "\n". |
| `Events.ZeroEventMetric` | plugins/inputs/win_eventlog/win_eventlog.go:85 | A parse that leaves the zero-valued event gives a metric of zeros and empty strings. The exception is `created`, which holds the formatting of the zero timestamp, taken as a parameter. |
| `Text.Join` | plugins/inputs/win_eventlog/win_eventlog.go:100 | strings.Join of no parts is the empty string. Otherwise the result begins with the first part. |
| `Text.JoinEndsWithLast` | plugins/inputs/win_eventlog/win_eventlog.go:100 | strings.Join of at least one part ends with the last part. |
| `Text.SplitJoin` | plugins/inputs/win_eventlog/win_eventlog.go:100 | Splitting at the separator undoes strings.Join when no part contains the separator. `Split` exists only as this inverse; the source never splits. |
| `Text.JoinSplit` | plugins/inputs/win_eventlog/win_eventlog.go:100 | Joining with the separator undoes splitting, for every string. |

## Left out

- The Windows API calls are oracles in `Env`, not implementations. These are
  CreateEvent, CloseHandle, Subscribe, EvtQuery, EventHandles, RenderEventXML,
  UnmarshalEventXML and CreateBookmarkFromEvent. Their definitions are not
  part of this model.
- The query and subscription flags (EvtQueryChannelPath,
  EvtQueryReverseDirection and EvtSubscribeStartAfterBookmark) are implied
  by the oracle they go to. They are not separate arguments.
- The value 259 for ERROR_NO_MORE_ITEMS is the Windows error code. The file
  that defines it is not part of this model.
- The renderer's writes into the render buffer are not modelled. Only the
  buffer's capacity is passed to the render oracle.
- XML decoding of a rendered event is the parse oracle. No XML is modelled.
- `TimeCreated.SystemTime.String()` is an opaque string held in the event.
  The formatting of a zero timestamp is therefore a parameter of
  `ZeroEvent`, not a fixed string.
- Logging through `w.Log` is left out, because it is observability only.
- The signal event appears only as the handle passed to Subscribe.
  Releasing it (the deferred CloseHandle) is not modelled.
- The `for {}` poll loop is unbounded. The model runs it over a finite
  script and reports `ScriptEnded` when the script runs out without a failed
  poll. The source would keep polling in that case.
- The accumulator is the returned sequence of metrics. No telegraf
  Accumulator is modelled.
- Plugin registration in `init()`, `Description` and `SampleConfig` are left
  out, because they are host wiring and constant strings. The constructor
  models only the buffers `init()` allocates.
- RecordID is a `nat`: the uint64 range is not enforced, because no
  operation does arithmetic on it. EventID is an `int`, and Provider and
  Level are strings.
- A panic from a nil `out` buffer cannot happen in the model, because the
  constructor always allocates one.
- Persisting the bookmark across restarts is left out, because the code has
  no such mechanism.
