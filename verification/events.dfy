/** The records the producer stage consumes and builds: a translation result
    holds batches, a batch holds events and names the dataset they belong to,
    and each source event becomes one client event. */
module Events {

  /** The value of one event attribute, narrowed to strings, integers and
      booleans. The producer copies attribute maps verbatim, so the value types
      play no part in its behaviour. */
  datatype AttrValue = StringAttr(s: string) | IntAttr(i: int) | BoolAttr(b: bool)

  type Attributes = map<string, AttrValue>

  /** One translated span event: attributes, sample rate, and timestamp in
      nanoseconds. */
  datatype SourceEvent = SourceEvent(attributes: Attributes, sampleRate: int, timestamp: int)

  /** Events that share a destination dataset. */
  datatype Batch = Batch(dataset: string, events: seq<SourceEvent>)

  /** The translation of one trace export request. */
  datatype TranslationResult = TranslationResult(batches: seq<Batch>)

  /** The event handed to the ingestion client. */
  datatype Event = Event(dataset: string, attributes: Attributes, sampleRate: nat, timestamp: int)

  /** A source event paired with the dataset of the batch that holds it. */
  datatype Tagged = Tagged(dataset: string, event: SourceEvent)

  function TagBatch(b: Batch): seq<Tagged>
  {
    seq(|b.events|, i requires 0 <= i < |b.events| => Tagged(b.dataset, b.events[i]))
  }

  /** The events of a list of batches, batch by batch, each batch's events in order. */
  function FlattenBatches(bs: seq<Batch>): seq<Tagged>
  {
    if |bs| == 0 then [] else FlattenBatches(bs[..|bs| - 1]) + TagBatch(bs[|bs| - 1])
  }

  /** The events of a list of translation results in the order the producer
      visits them: result by result, then batch by batch, then event by event. */
  function Flatten(rs: seq<TranslationResult>): seq<Tagged>
  {
    if |rs| == 0 then [] else Flatten(rs[..|rs| - 1]) + FlattenBatches(rs[|rs| - 1].batches)
  }

  /** Flattening two runs of batches one after the other keeps their events
      apart and in order. */
  lemma {:induction false} FlattenBatchesAppend(a: seq<Batch>, b: seq<Batch>)
    ensures FlattenBatches(a + b) == FlattenBatches(a) + FlattenBatches(b)
    decreases |b|
  {
    if |b| == 0 {
      assert a + b == a;
    } else {
      var b' := b[..|b| - 1];
      assert (a + b)[..|a + b| - 1] == a + b';
      assert (a + b)[|a + b| - 1] == b[|b| - 1];
      FlattenBatchesAppend(a, b');
    }
  }

  /** Results are visited one after the other: the events of a + b are the
      events of a followed by the events of b. */
  lemma {:induction false} FlattenAppend(a: seq<TranslationResult>, b: seq<TranslationResult>)
    ensures Flatten(a + b) == Flatten(a) + Flatten(b)
    decreases |b|
  {
    if |b| == 0 {
      assert a + b == a;
    } else {
      var b', last := b[..|b| - 1], b[|b| - 1];
      var ab := a + b;
      assert ab[..|ab| - 1] == a + b';
      assert ab[|ab| - 1] == last;
      assert Flatten(ab) == Flatten(a + b') + FlattenBatches(last.batches);
      FlattenAppend(a, b');
      assert Flatten(b) == Flatten(b') + FlattenBatches(last.batches);
    }
  }

  /** One result with one batch: the events of that batch, each tagged with
      the batch's dataset. */
  lemma {:induction false} FlattenSingle(r: TranslationResult)
    ensures Flatten([r]) == FlattenBatches(r.batches)
  {
    assert [r][..0] == [];
  }

  lemma {:induction false} FlattenBatchesSingle(b: Batch)
    ensures FlattenBatches([b]) == TagBatch(b)
  {
    assert [b][..0] == [];
  }
}
