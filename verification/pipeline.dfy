/** The driver: the four stages chained in order, and the loop that counts
    what the producer publishes. */
module Pipeline {
  import opened Events
  import opened Decode
  import opened Translate
  import opened Produce
  import Delivery
  import Throttle

  /** The driver's loop over the producer's output: one count per event. */
  method CountEvents(events: seq<Event>) returns (count: int)
    ensures count == |events|
  {
    count := 0;
    var i := 0;
    while i < |events|
      invariant 0 <= i <= |events|
      invariant count == i
    {
      count := count + 1;
      i := i + 1;
    }
  }

  /** The events the producer visits for a given input: what survives
      decoding and both translation stages, flattened. */
  function SourceEvents<Traces, Request>(stream: seq<Outcome<Bytes>>, codec: TraceCodec<Traces, Request>,
                                         translate: EventTranslator<Request>): seq<Tagged>
  {
    Flatten(TakeWhileOk(TakeWhileOk(Decoded(stream), TraceStep(codec)), EventStep(translate)))
  }

  /** A whole replay. The reported count is the number of source events
      that reached the producer minus the number whose send failed. */
  method Replay<Traces, Request>(stream: seq<Outcome<Bytes>>, codec: TraceCodec<Traces, Request>,
                                 translate: EventTranslator<Request>, cfg: Config, send: Sender)
    returns (count: int)
    ensures count == |SourceEvents(stream, codec, translate)|
                     - Dropped(Run(cfg, SourceEvents(stream, codec, translate), send).attempts)
    ensures 0 <= count <= |SourceEvents(stream, codec, translate)|
  {
    var records := DecodeJSON(stream);
    var requests, _ := TranslateCollectorTraces(codec, records);
    TakeWhileOkIs(records, TraceStep(codec), requests);
    var results, _ := TranslateTraceRequest(translate, requests);
    TakeWhileOkIs(requests, EventStep(translate), results);
    var published, attempts := ProduceEvents(cfg, results, send);
    count := CountEvents(published);
    Delivery.EmittedCount(attempts);
  }

  /** One result holding one batch with one event, no run-level dataset, a
      threshold of one and no start offset: exactly one event is published,
      with the batch's dataset and the source's attributes, sample rate and
      timestamp, and no sleep before it. */
  lemma {:induction false} SingleEventScenario(attributes: Attributes, timestamp: int, now: int, send: Sender)
    requires forall pos, e :: send(pos, e)
    ensures var cfg := Config("", 1, 0, now);
      var results := [TranslationResult([Batch("test", [SourceEvent(attributes, 1, timestamp)])])];
      var attempts := Run(cfg, Flatten(results), send).attempts;
      && Emitted(attempts) == [Event("test", attributes, 1, timestamp)]
      && !attempts[0].slept
  {
    var b := Batch("test", [SourceEvent(attributes, 1, timestamp)]);
    var r := TranslationResult([b]);
    FlattenSingle(r);
    FlattenBatchesSingle(b);
    var t := Tagged("test", SourceEvent(attributes, 1, timestamp));
    assert Flatten([r]) == [t];
    RunFromSnoc(Config("", 1, 0, now), Trace(Initial, []), [], t, send);
    assert [] + [t] == [t];
    var a := Run(Config("", 1, 0, now), [t], send).attempts[0];
    EmittedSnoc([], a);
    assert [] + [a] == [a];
  }

  /** Three records, each translated to one batch of one event, with a
      threshold of one, no start offset and every send succeeding: three
      events are published and the only sleep comes before the third. */
  lemma {:induction false} ThreeRecordScenario(results: seq<TranslationResult>, cfg: Config, send: Sender)
    requires |results| == 3
    requires forall i :: 0 <= i < 3 ==> |results[i].batches| == 1 && |results[i].batches[0].events| == 1
    requires cfg.batch == 1 && cfg.start == 0
    requires forall pos, e :: send(pos, e)
    ensures var attempts := Run(cfg, Flatten(results), send).attempts;
      && |Emitted(attempts)| == 3
      && |attempts| == 3
      && !attempts[0].slept && !attempts[1].slept && attempts[2].slept
  {
    var items := Flatten(results);
    forall i | 0 <= i < 3
      ensures |FlattenBatches(results[i].batches)| == 1
    {
      FlattenBatchesSingle(results[i].batches[0]);
      assert results[i].batches == [results[i].batches[0]];
    }
    assert results == results[..2] + [results[2]];
    assert results[..2] == results[..1] + [results[1]];
    assert results[..1] == [] + [results[0]];
    FlattenAppend(results[..2], [results[2]]);
    FlattenAppend(results[..1], [results[1]]);
    FlattenAppend([], [results[0]]);
    FlattenSingle(results[0]);
    FlattenSingle(results[1]);
    FlattenSingle(results[2]);
    assert |items| == 3;
    Delivery.AllSentAllEmitted(cfg, items, send);
    Throttle.FirstSleep(cfg, items, send);
  }
}
