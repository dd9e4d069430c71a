# otel-file-importer, modelled in Dafny

The importer replays a file of OTLP trace export documents (JSON, written back
to back) into Honeycomb. Four stages run one after another:

1. `DecodeJSON` reads JSON values from the file.
2. `TranslateCollectorTraces` turns each value into an OTLP export request. It goes
   JSON → trace model → protobuf bytes → request.
3. `TranslateTraceRequest` turns each request into batches of events, using husky.
4. `ProduceEvents` sends every event through the libhoney client and publishes
   the events whose send succeeded. `main` then counts them.

The producer holds the policy. It keeps a send counter and a timestamp
adjustment for the whole run:

- Before each event, if the counter exceeds `batch`, it sleeps and resets the
  counter to zero.
- While the adjustment is still zero and a positive `start` offset was given,
  it sets the adjustment to `begin - timestamp` of the current event, where
  `begin = now - start`.
- Each event copies attributes and sample rate from its source. Its timestamp
  is the source timestamp plus the adjustment. It takes its batch's dataset
  only when no run-level dataset was configured.
- A failed send is logged and skipped: the event is not counted and not
  published.

The model is functional:

- The producer is a left fold (`Produce.Run`) over the events in visiting
  order. Visiting order is results, then batches, then events (`Events.Flatten`).
- `Produce.ProduceEvents` is the source's triple loop, written as three
  methods, one per loop. It is proved equal to the fold.
- Sending is an oracle `(position, event) -> bool`. The clock reading `now` is
  a field of the configuration. A sleep is recorded as a flag on the attempt
  it precedes.
- Each translation stage forwards the translations of the longest prefix of
  its input that all translate successfully. The foreign decoders and
  translators are oracle functions.
- The decoder runs over a finite stream of outcomes: value, decode error or
  end of input.

Two behaviours of the code as written:

- `DecodeJSON` skips a malformed value and keeps reading
  (`continue`, main.go:121). It does not stop at it.
- The guard `adjustment == 0 && start > 0` is re-evaluated on every event.
  The comment at main.go:212 expects the adjustment to come from the earliest
  event in the file. The code does not do that: the adjustment is anchored to
  the first event, in visiting order, whose timestamp differs from `begin`.
  Events before that anchor have timestamp `begin` and keep it.

Two observations from the proofs:

- The `-batch` flag's help text (main.go:34) calls it the number of events to send in a row
  before pausing. The guard is `count > batch`, so with every send succeeding
  `batch + 1` events go out between pauses. `Throttle.AllSentSchedule` states
  the exact schedule.
- When `start > 0`, an event with an earlier timestamp than the anchor that
  is visited after it lands before `begin`.

## Model

| member | source | states |
|---|---|---|
| Decode.DecodeJSON | main.go:104-129 | the decode loop forwards exactly the values of the reference `Decoded` of its outcome stream |
| Decode.DecodedAppend | main.go:111-125 | values before any end of input are forwarded in stream order, ahead of everything after them |
| Decode.SkipsDecodeError | main.go:114-121 | a decode error is skipped: removing it from the stream changes nothing, and later values are still forwarded |
| Decode.StopsAtEndOfInput | main.go:114-117 | end of input stops decoding: nothing after it is forwarded |
| Decode.ValuesThenEnd | main.go:111-125 | N values followed by end of input yield exactly those N values, in order |
| Decode.TwoValues | main_test.go:17-31 | two back-to-back JSON values then end of input give two records |
| Translate.TakeWhileOk | main.go:139-161 | the output is no longer than the input; every output is the successful translation of the input at the same position; the input just past the output failed |
| Translate.TakeWhileOkIs | main.go:139-161 | conversely, any output whose elements are the successful translations of the inputs at the same positions, and which stops at the end of the input or just before a failure, is the longest successful prefix |
| Translate.ForwardUntilFailure | main.go:174-186 | the receive loop outputs the longest successfully translated prefix and consumes one input more than it outputs when it stops on a failure |
| Translate.TranslateCollectorTraces | main.go:131-166 | the trace stage forwards, in order, one request per record of a prefix of the input; each request is what unmarshalling the record to traces, marshalling those to protobuf and unmarshalling the bytes to a request gives, with all three hops succeeding; the record just past the prefix failed at one of the hops; on a failure one record more is consumed than forwarded |
| Translate.TranslateTraceRequest | main.go:168-190 | the event stage forwards, in order, one result per request of a prefix of the input; each result is what husky's translation gives for that request, called with the placeholder key "junk" and the protobuf content type; the request just past the prefix failed to translate; on a failure one request more is consumed than forwarded |
| Events.FlattenAppend | main.go:206-208 | events are visited result after result: the events of a + b are those of a followed by those of b |
| Events.FlattenBatchesAppend | main.go:207-208 | within a result, events are visited batch after batch, in order |
| Produce.ToUint | main.go:224 | the sample rate conversion to Go's `uint` is the identity on non-negative values and wraps negative ones by 2^64 |
| Produce.RunFromAppend | main.go:199-206 | counter and adjustment span the whole run: handling a + b is handling a and then b from the state a left |
| Produce.RunPrefix | main.go:206-241 | what happens to the first k events does not depend on any later event |
| Produce.RunAt | main.go:209-239 | the attempt at each position is the per-event policy applied to the state after the earlier events |
| Produce.HandleEvent | main.go:209-239 | the loop body (adjustment, throttle, event construction, send, count) agrees with the per-event policy |
| Produce.ProduceBatch | main.go:208-240 | the inner loop continues the run over one batch's events |
| Produce.ProduceResult | main.go:207-241 | the middle loop continues the run over one result's batches |
| Produce.ProduceEvents | main.go:192-246 | the stage attempts every flattened event in order, and publishes exactly the ones whose send succeeded |
| Produce.SentPositions | main.go:232-239 | the successful positions, strictly increasing, each one sent, and none missing |
| Produce.Anchor | main.go:211-215 | the anchor is the first event whose timestamp differs from begin, or there is none if every timestamp equals begin |
| Delivery.AttemptContents | main.go:222-235 | each built event copies attributes, converts the sample rate, takes the batch's dataset exactly when the run-level dataset is empty, and counts as sent exactly when the client accepts it |
| Delivery.EmittedAreSentInOrder | main.go:232-239 | the published events are the events of the successful attempts, one for one and in order |
| Delivery.EmittedCount | main.go:232-239 | the number published equals the number of source events minus the number of failed sends |
| Delivery.FailedSendDropped | main.go:232-235 | a failed send publishes nothing, leaves the counter unchanged apart from a throttle reset, and later events are still attempted |
| Delivery.AllSentAllEmitted | main.go:232-239 | when every send succeeds, every source event is published |
| Throttle.SleepRule | main.go:217-237 | a sleep precedes an event exactly when the counter exceeds batch; the counter is then reset to zero, and it grows only on a successful send |
| Throttle.CountBounded | main.go:217-237 | the counter stays between 0 and batch + 1 |
| Throttle.AllSentCount | main.go:217-237 | with every send succeeding, the counter after n events is ((n - 1) mod (batch + 1)) + 1 |
| Throttle.AllSentSchedule | main.go:217-220 | with every send succeeding, a sleep precedes position i exactly when i is a positive multiple of batch + 1 |
| Throttle.FirstSleep | main.go:217-220 | with every send succeeding, no sleep precedes the first batch + 1 events, and a sleep precedes event batch + 2 |
| Rebase.NoRebase | main.go:199-225 | without a positive start the adjustment stays zero and every output timestamp equals its source timestamp |
| Rebase.AdjustmentSticky | main.go:211-215 | once the adjustment is nonzero it never changes |
| Rebase.RebaseAdjustment | main.go:196-215 | with a positive start the final adjustment is begin minus the anchor's timestamp, or zero without an anchor |
| Rebase.RebaseTimestamps | main.go:196-225 | with a positive start the anchor lands on begin; earlier events stay at begin; from the anchor on every event is shifted by begin minus the anchor's timestamp |
| Rebase.RebasePreservesGaps | main.go:211-225 | with a positive start, the gap between the output timestamps of any two events from the anchor on equals the gap between their source timestamps |
| Pipeline.CountEvents | main.go:93-97 | the driver's count equals the number of published events |
| Pipeline.Replay | main.go:88-101 | the reported count is the number of events reaching the producer minus the number of failed sends |
| Pipeline.SingleEventScenario | main_test.go:79-129 | one result, one batch, one event, no run-level dataset, batch 1: one event is published with the batch's dataset and the source's fields, and no sleep precedes it |
| Pipeline.ThreeRecordScenario | main.go:206-239 | three single-event results, batch 1, start 0, every send succeeding: three events are published, and the only sleep comes before the third |

## Left out

- Goroutines, unbuffered channels and backpressure. Each stage is a function or method on finite sequences, in the same order. When a stage stops early its upstream stays blocked forever; that is not modelled, and only the count of consumed inputs is.
- The foreign libraries are oracle function parameters: `encoding/json`, ptrace's JSON unmarshaller and protobuf marshaller, `proto.Unmarshal` and `husky.TranslateTraceRequest`. Their errors are only logged by the source, and the model drops them: a failing hop yields a `StageError` tag that ends the stage and appears in no output.
- The libhoney client is left out: `NewClient`, asynchronous delivery, `TxResponses`, `MonitorLibhoneyResponses` and `libhoney.Close`. A synchronous send is an oracle on (position, event). Asynchronous delivery results never affect the pipeline.
- `time.Now` and `time.Sleep`: the clock reading is the `now` field of the configuration, and a sleep is a flag on the attempt it precedes. The sleep duration has no other effect, so it is not a parameter.
- Go integer widths: timestamps, durations and the counter are unbounded integers. Neither the saturation of `time.Time.Sub` nor int64 overflow is modelled. The one width that is modelled is the `uint` conversion of the sample rate.
- Translate.TranslateCollectorTraces: a JSON `null` in the file decodes to a nil `*json.RawMessage` without error (main.go:112-124), and dereferencing it at main.go:140 panics and ends the process before any count is logged. In the model every decoded value carries bytes, so that crash is not modelled, and `Pipeline.Replay` promises a count for every stream.
- Go's JSON decoder keeps returning the same error after a syntax error, which would make the skip loop spin. That depends on library behaviour, so the model treats each outcome as a separate decoder call. The outcome stream is finite, and running out of it counts as end of input.
- Attribute maps: the source's `map[string]any` is narrowed to string, integer and boolean values. The producer copies attribute maps unchanged, so the value types play no part. The husky fields `RequestSize` and `SizeBytes` are not read by the core and are dropped.
- Everything else in `main` is left out: flag parsing and defaults, the dry-run flag, fatal exits on a missing path or key, opening and closing the file, logger levels, and the `Spinner` animation. All of these are I/O or process lifecycle.
