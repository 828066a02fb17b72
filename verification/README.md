# syslog-cloudwatch-bridge: batching and dispatch, modelled in Dafny

The bridge receives syslog records and ships them to a CloudWatch Logs
stream. Its only real logic is the path from a parsed record to a
`PutLogEvents` call, and that is what this project models:

- the **batching loop**. A goroutine selects between a record arriving on the
  channel, which is appended to the accumulator `loglist`, and a ticker tick.
  A tick with an empty accumulator does nothing. Otherwise the tick hands the
  whole accumulator to `sendToCloudWatch` and resets it to empty.
- **request construction**. `sendToCloudWatch` orders the batch by timestamp
  with `sort.Slice`, which is not stable. It turns each record into an input
  log event: the record's `content`, or the JSON of the whole record when
  `-json` is set, stamped with the record's time in milliseconds. It names
  the fixed log group and stream, and it sets the `SequenceToken` field only
  when the process-wide `sequenceToken` is non-empty.
- **sequence-token chaining**. After the call, `sequenceToken` is overwritten
  with the response's `NextSequenceToken`.
- **`makeMilliTimestamp`**: Unix nanoseconds divided by 1,000,000 with Go's
  truncating integer division.

The model is a sequential state machine over immutable values:

- `Records` holds `Record` (a Unix-nanosecond `Int64` timestamp, the content
  and an opaque map of the other parsed fields) and `MakeMilliTimestamp`.
- `Sorting` holds `TimestampSort`, the type of every function that returns a
  timestamp-sorted permutation of its input. It also holds a reference
  insertion sort of that type and the facts shared by all such sorts.
- `Dispatcher` holds the `PutLogEventsInput` request and how it is built from
  a batch and the current token. `json.Marshal` and the sort are
  function-valued fields of `Config`. Of the sort, only its type is known.
- `Aggregator` holds the loop state `Session(acc, sequenceToken)`, the
  `Step` function for the two events, `Run` over a sequence of events, and
  the lemmas about whole runs.
- `Scenarios` holds concrete runs: three out-of-order records in one window,
  and two windows linked by the token.
- `Seqs` and `Optional` are generic helpers.

The remote call is an input, not a computation. Each `Tick` carries the
outcome the call would have: `Accepted(nextSequenceToken)` or `Failed`.

Two points of the code shape the model:

- `sort.Slice` (main.go:102) is not stable, so the model claims only
  sortedness and permutation. The request is built with `Config.sort`, which
  may be any `TimestampSort`, so every property of the request holds for
  every order `sort.Slice` may give equal timestamps.
  `EventTimestampsIndependentOfTieOrder` shows what that order can and
  cannot change: the sequence of event timestamps is fixed, and only the
  order of messages that share a timestamp may vary.
- The token update `sequenceToken = *resp.NextSequenceToken` at main.go:130
  runs even when `err != nil`. A failed call returns no next token, so the
  dereference panics and the process ends. The model therefore moves the
  loop to `Halted` after a failed call.

## Model

| member | source | states |
|---|---|---|
| Records.MakeMilliTimestamp | main.go:151-153 | The result is the millisecond count truncated toward zero. For `n >= 0`, `ms*10^6 <= n < ms*10^6 + 10^6`. For `n < 0`, `ms*10^6 - 10^6 < n <= ms*10^6 <= 0`. It always fits in int64. |
| Records.MilliTimestampUnique | main.go:151-153 | Those truncation bounds single out one value: any integer that meets them is `MakeMilliTimestamp(n)`. |
| Records.MilliTimestampMonotone | main.go:151-153 | `t1 <= t2` implies `ms(t1) <= ms(t2)` for every int64 pair, negative ones included. |
| Records.MilliTimestampTruncatesTowardZero | main.go:152 | Go's division rounds toward zero: -1 ns gives 0 ms, not the -1 a floor division gives; -1,000,001 ns gives -1 ms. |
| Sorting.Insert | main.go:102 | Inserting into a timestamp-sorted sequence keeps it sorted and adds exactly one occurrence of the record. |
| Sorting.SortByTimestamp | main.go:102 | A reference sort: the result has non-decreasing timestamps and is a permutation (same multiset) of the batch. It shows that `TimestampSort` is inhabited. The request does not use it. |
| Sorting.SortedPermutationsShareTimestamps | main.go:102 | Any two timestamp-sorted permutations of one batch agree on the timestamp at every position. |
| Sorting.StrictlySortedPermutationIsUnique | main.go:102 | When no two records share a timestamp, the only sorted permutation is the strictly increasing arrangement. An unstable sort has no choice to make. |
| Dispatcher.BuildRequest | main.go:97-122 | For any timestamp sort, the request names the configured group and stream and has one event per batch record. It carries a sequence token iff the current token is non-empty, and then exactly that token. |
| Dispatcher.AppendLogEvents | main.go:104-117 | The loop emits one event per record, in order. Each message is the content in plain mode and the record's JSON in JSON mode. Each timestamp is `MakeMilliTimestamp` of the record's time. The result equals the reference `EventsOf`. |
| Dispatcher.RequestEventsArePermutationOfBatch | main.go:102-117 | The request's events are, as a multiset, the events of the batch records. None is lost or duplicated. |
| Dispatcher.RequestEventsInTimestampOrder | main.go:102-117 | The request's millisecond timestamps never decrease, the order `PutLogEvents` requires. |
| Dispatcher.RequestEventsFollowSortedBatch | main.go:102-117 | Event i comes from record i of the batch as the configured sort ordered it, which is a sorted permutation of the batch. The event holds that record's content or JSON, and its time in milliseconds. |
| Dispatcher.EventTimestampsIndependentOfTieOrder | main.go:102-117 | Any other sorted arrangement of the batch yields the same event timestamps as the request. The unstable sort only reorders messages that share a timestamp. |
| Aggregator.Step | main.go:73-85 | A record arrival appends exactly that record to the accumulator, makes no call and keeps the token. A tick with nothing accumulated makes no call and changes nothing. A tick with records sends exactly the accumulated records, built with the current token. After an accepted call the accumulator is empty and the token is the returned one. After a failed call the loop stops. |
| Aggregator.Run | main.go:74-85 | A run makes no more calls than it receives ticks. |
| Aggregator.HaltedIsFinal | main.go:124-130 | After a failed call the loop makes no further calls and does not change. |
| Aggregator.TokenChaining | main.go:119-130 | The first call sends the token held at the start, or none if it is empty. Every later call follows an accepted one and sends the token that call returned, or none if that token is empty. While running, the token is the last one returned. The loop stops exactly when a call fails. |
| Aggregator.FirstRequestHasNoToken | main.go:119-130 | From startup (token empty), the first request carries no token. Every later request carries the previous call's returned token whenever that token is non-empty. |
| Aggregator.StepConservesRecords | main.go:76-83 | One step hands over and keeps exactly the old accumulator plus the new arrival, in order. |
| Aggregator.RecordsConserved | main.go:73-85 | While the loop runs, all batches sent followed by the current accumulator equal the starting accumulator followed by all arrivals, in arrival order. |
| Aggregator.BatchesArePrefixOfArrivals | main.go:73-85 | Even after a failure, the batches sent form a prefix of the starting accumulator followed by all arrivals. |
| Aggregator.CallsAreNonEmpty | main.go:76-81 | No call is made with an empty batch. Every request has one event per batch record and names the configured group and stream. |
| Aggregator.IdleTicksMakeNoCall | main.go:76-79 | Ticks with an empty accumulator make no call and leave the state, token included, unchanged. |
| Scenarios.SortThree | main.go:102 | Any timestamp sort puts records that arrived as c, a, b, with a older than b older than c, in the order a, b, c. |
| Scenarios.OneWindowSendsInTimestampOrder | main.go:73-122 | Records arriving as c, a, b, with a older than b older than c, go out in one request as a, b, c without a token. The token then becomes the returned one. |
| Scenarios.OneWindowPlainMessages | main.go:104-117 | In plain mode, records at 10:00:02, 10:00:00 and 10:00:01 UTC on 1 January 1970 with contents c, a, b yield messages a, b, c stamped 36,000,000, 36,001,000 and 36,002,000 ms. |
| Scenarios.SecondWindowCarriesFirstToken | main.go:119-130 | Two windows with one record each make two calls. The first has no token, and the second carries the token returned by the first. |

## Left out

- Syslog server, listening and parsing (main.go:58-67, 88): network I/O in a
  third-party library. Records enter the model already parsed, as `Arrived`
  events.
- The channel of capacity 100 and the 200 ms ticker (main.go:58, 70): these
  are goroutine scheduling and wall-clock timing. The model sees only the
  order in which arrivals and ticks reach the loop, so channel backpressure
  is not modelled.
- Stream creation `initCloudWatchStream` and its `log.Fatal` on failure
  (main.go:133-149): a foreign call made once before the loop starts. The
  model starts from `Start`, the state after a successful creation: empty
  accumulator and empty token (main.go:28, 73).
- AWS session and client construction and the TLS certificate pool
  (main.go:35-38, 93-95): foreign calls with no effect on the request's
  contents.
- The `PutLogEvents` network call (main.go:124): replaced by the outcome
  carried by each tick. An accepted call whose response has no
  `NextSequenceToken` would also hit the dereference at main.go:130. The
  model gives every accepted call a token, possibly empty.
- Go runtime semantics of the panic at main.go:130: the model only records
  that the loop stops after the failed call.
- The order that Go's `sort.Slice` gives records with equal timestamps
  (main.go:102): it depends on the library's pattern-defeating quicksort.
  `Config.sort` stands for it and is any `TimestampSort`.
- `json.Marshal` (main.go:108): an uninterpreted function in `Config.marshal`.
  Its ignored error is library behaviour and is not modelled.
- The type assertions `logPart["content"].(string)` and
  `logPart["timestamp"].(time.Time)` (main.go:102, 111, 115) panic when a field
  is missing or has another type. The model's `Record` always has both fields.
- `time.Time` is represented by its `UnixNano` value. Go leaves `UnixNano`
  undefined outside the int64 range, and `Before` agrees with comparing
  `UnixNano` inside it.
- The remaining parsed fields are an opaque `map<string, string>`. Their
  dynamic Go types are not modelled.
- Environment variables, flags, port defaulting, the random stream name and
  log output (main.go:25-27, 42-55, 126, 128, 148): bootstrap and
  observability. The group and stream names and the `-json` flag are fields
  of `Config`.
