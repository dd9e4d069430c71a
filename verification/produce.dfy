/** The per-event policy of the producer stage, as a left fold over the
    events of a run in visiting order. The state carried from event to event
    is the send counter and the lazily computed timestamp adjustment. */
module Produce {
  import opened Wrappers
  import opened Events

  /** Run-level settings. `dataset` is the dataset the client was built with
      (empty when the destination is an environment), `batch` the counter
      threshold, `start` how far back the replay should begin, and `now` the
      clock reading taken when the stage starts. Instants and durations are
      nanoseconds. */
  datatype Config = Config(dataset: string, batch: int, start: int, now: int)
  {
    /** The instant the first replayed event should land on. */
    function Begin(): int { now - start }
  }

  datatype State = State(count: int, adjustment: int)

  const Initial: State := State(0, 0)

  /** What happened to one source event: the event built from it, whether
      the stage slept just before it, and whether its send succeeded. */
  datatype Attempt = Attempt(event: Event, slept: bool, sent: bool)

  /** The synchronous outcome of sending the event built for the source event
      at a position (0-based, over the whole run): true when the client
      accepted it. */
  type Sender = (nat, Event) -> bool

  datatype StepResult = StepResult(state: State, attempt: Attempt)

  datatype Trace = Trace(state: State, attempts: seq<Attempt>)

  const UintModulus: int := 0x1_0000_0000_0000_0000

  /** The conversion of a signed integer to Go's 64-bit `uint`. */
  function ToUint(x: int): (r: nat)
    ensures r < UintModulus
    ensures 0 <= x < UintModulus ==> r == x
    ensures -UintModulus <= x < 0 ==> r == x + UintModulus
  {
    x % UintModulus
  }

  /** The event built for `t` under a given adjustment. */
  function Build(cfg: Config, adjustment: int, t: Tagged): Event
  {
    Event(if cfg.dataset == "" then t.dataset else cfg.dataset,
          t.event.attributes,
          ToUint(t.event.sampleRate),
          t.event.timestamp + adjustment)
  }

  /** The policy applied to one source event. */
  function Step(cfg: Config, st: State, pos: nat, t: Tagged, send: Sender): StepResult
  {
    var adjustment := if st.adjustment == 0 && cfg.start > 0 then cfg.Begin() - t.event.timestamp else st.adjustment;
    var slept := st.count > cfg.batch;
    var count := if slept then 0 else st.count;
    var event := Build(cfg, adjustment, t);
    var sent := send(pos, event);
    StepResult(State(if sent then count + 1 else count, adjustment), Attempt(event, slept, sent))
  }

  /** The run continued from `t` over further events in visiting order.
      Every event is attempted, whatever happened to the ones before it. */
  function RunFrom(cfg: Config, t: Trace, items: seq<Tagged>, send: Sender): (r: Trace)
    ensures |r.attempts| == |t.attempts| + |items|
    decreases |items|
  {
    if |items| == 0 then t
    else
      var prev := RunFrom(cfg, t, items[..|items| - 1], send);
      var s := Step(cfg, prev.state, |prev.attempts|, items[|items| - 1], send);
      Trace(s.state, prev.attempts + [s.attempt])
  }

  /** The whole run, from a zero counter and a zero adjustment. */
  function Run(cfg: Config, items: seq<Tagged>, send: Sender): (r: Trace)
    ensures |r.attempts| == |items|
  {
    RunFrom(cfg, Trace(Initial, []), items, send)
  }

  /** The state just before the source event at position i is handled. */
  function StateAt(cfg: Config, items: seq<Tagged>, send: Sender, i: nat): State
    requires i <= |items|
  {
    Run(cfg, items[..i], send).state
  }

  /** The events the stage publishes downstream: the built events whose send
      succeeded, in order. */
  function Emitted(attempts: seq<Attempt>): seq<Event>
  {
    if |attempts| == 0 then []
    else Emitted(attempts[..|attempts| - 1]) + (if attempts[|attempts| - 1].sent then [attempts[|attempts| - 1].event] else [])
  }

  /** The positions whose send succeeded, in increasing order. */
  function SentPositions(attempts: seq<Attempt>): (r: seq<nat>)
    ensures forall k :: 0 <= k < |r| ==> r[k] < |attempts| && attempts[r[k]].sent
    ensures forall k, l :: 0 <= k < l < |r| ==> r[k] < r[l]
    ensures forall i :: 0 <= i < |attempts| && attempts[i].sent ==> i in r
  {
    if |attempts| == 0 then []
    else
      var prev := SentPositions(attempts[..|attempts| - 1]);
      prev + (if attempts[|attempts| - 1].sent then [|attempts| - 1] else [])
  }

  /** The number of events whose send failed. */
  function Dropped(attempts: seq<Attempt>): nat
  {
    if |attempts| == 0 then 0
    else Dropped(attempts[..|attempts| - 1]) + (if attempts[|attempts| - 1].sent then 0 else 1)
  }

  /** The position of the first event whose timestamp differs from `begin`:
      the event the adjustment is anchored to. */
  function Anchor(items: seq<Tagged>, begin: int): (r: Option<nat>)
    ensures r.Some? ==> r.value < |items| && items[r.value].event.timestamp != begin
    ensures r.Some? ==> forall j :: 0 <= j < r.value ==> items[j].event.timestamp == begin
    ensures r.None? ==> forall j :: 0 <= j < |items| ==> items[j].event.timestamp == begin
  {
    if |items| == 0 then None
    else if items[0].event.timestamp != begin then Some(0)
    else match Anchor(items[1..], begin)
      case None => None
      case Some(k) => Some(k + 1)
  }

  /** The adjustment a run settles on, given its anchor. */
  function AnchoredAdjustment(items: seq<Tagged>, begin: int, anchor: Option<nat>): int
    requires anchor.Some? ==> anchor.value < |items|
  {
    match anchor
    case None => 0
    case Some(k) => begin - items[k].event.timestamp
  }

  /** Continuing over a + b is continuing over a, then over b. */
  lemma {:induction false} RunFromAppend(cfg: Config, t: Trace, a: seq<Tagged>, b: seq<Tagged>, send: Sender)
    ensures RunFrom(cfg, t, a + b, send) == RunFrom(cfg, RunFrom(cfg, t, a, send), b, send)
    decreases |b|
  {
    if |b| == 0 {
      assert a + b == a;
    } else {
      var ab := a + b;
      assert ab[..|ab| - 1] == a + b[..|b| - 1];
      assert ab[|ab| - 1] == b[|b| - 1];
      RunFromAppend(cfg, t, a, b[..|b| - 1], send);
    }
  }

  lemma {:induction false} RunFromSnoc(cfg: Config, t: Trace, items: seq<Tagged>, x: Tagged, send: Sender)
    ensures var prev := RunFrom(cfg, t, items, send);
      var s := Step(cfg, prev.state, |prev.attempts|, x, send);
      RunFrom(cfg, t, items + [x], send) == Trace(s.state, prev.attempts + [s.attempt])
  {
    assert (items + [x])[..|items|] == items;
  }

  lemma {:induction false} ContinueRun(cfg: Config, t0: Trace, done: seq<Tagged>, x: Tagged, send: Sender,
                    st: State, attempts: seq<Attempt>, s: StepResult)
    requires Trace(st, attempts) == RunFrom(cfg, t0, done, send)
    requires s == Step(cfg, st, |attempts|, x, send)
    ensures Trace(s.state, attempts + [s.attempt]) == RunFrom(cfg, t0, done + [x], send)
  {
    RunFromSnoc(cfg, t0, done, x, send);
  }

  /** Handling a prefix of the events yields exactly the first attempts of
      the whole run: later events never change what happened earlier. */
  lemma {:induction false} RunPrefix(cfg: Config, items: seq<Tagged>, send: Sender, k: nat)
    requires k <= |items|
    ensures Run(cfg, items[..k], send).attempts == Run(cfg, items, send).attempts[..k]
    decreases |items|
  {
    if k < |items| {
      var p := items[..|items| - 1];
      assert p[..k] == items[..k];
      RunPrefix(cfg, p, send, k);
    } else {
      assert items[..k] == items;
    }
  }

  /** The attempt at position i is the policy applied to the state reached
      after the first i events, and it yields the state after i + 1 events. */
  lemma {:induction false} RunAt(cfg: Config, items: seq<Tagged>, send: Sender, i: nat)
    requires i < |items|
    ensures var s := Step(cfg, StateAt(cfg, items, send, i), i, items[i], send);
      && Run(cfg, items, send).attempts[i] == s.attempt
      && StateAt(cfg, items, send, i + 1) == s.state
  {
    var p := items[..i + 1];
    assert p[..|p| - 1] == items[..i];
    assert p[|p| - 1] == items[i];
    RunPrefix(cfg, items, send, i + 1);
  }

  lemma {:induction false} EmittedSnoc(attempts: seq<Attempt>, a: Attempt)
    ensures Emitted(attempts + [a]) == Emitted(attempts) + (if a.sent then [a.event] else [])
  {
    assert (attempts + [a])[..|attempts|] == attempts;
  }

  lemma {:induction false} FlattenBatchesSnoc(bs: seq<Batch>, j: nat)
    requires j < |bs|
    ensures FlattenBatches(bs[..j + 1]) == FlattenBatches(bs[..j]) + TagBatch(bs[j])
  {
    assert bs[..j + 1][..j] == bs[..j];
  }

  lemma {:induction false} FlattenSnoc(rs: seq<TranslationResult>, i: nat)
    requires i < |rs|
    ensures Flatten(rs[..i + 1]) == Flatten(rs[..i]) + FlattenBatches(rs[i].batches)
  {
    assert rs[..i + 1][..i] == rs[..i];
  }

  lemma {:induction false} TagBatchSnoc(b: Batch, k: nat)
    requires k < |b.events|
    ensures TagBatch(b)[..k + 1] == TagBatch(b)[..k] + [Tagged(b.dataset, b.events[k])]
  {
  }

  /** The body of the innermost loop of the producer, for one event of a
      batch whose dataset is `dataset`: the lazy adjustment, the throttle,
      building the event and sending it. */
  method HandleEvent(cfg: Config, count: int, adjustment: int, pos: nat, dataset: string, e: SourceEvent, send: Sender)
    returns (count': int, adjustment': int, event: Event, slept: bool, ok: bool)
    ensures StepResult(State(count', adjustment'), Attempt(event, slept, ok))
            == Step(cfg, State(count, adjustment), pos, Tagged(dataset, e), send)
  {
    count', adjustment' := count, adjustment;
    if adjustment' == 0 && cfg.start > 0 {
      adjustment' := cfg.now - cfg.start - e.timestamp;
    }
    // the sleep itself is not modelled, only that it happened
    slept := false;
    if count' > cfg.batch {
      slept := true;
      count' := 0;
    }
    event := Event(if cfg.dataset == "" then dataset else cfg.dataset, e.attributes, ToUint(e.sampleRate), e.timestamp + adjustment');
    ok := send(pos, event);
    if ok {
      count' := count' + 1;
    }
  }

  /** The innermost loop of the producer: every event of one batch, in
      order, continuing the run from the given counter, adjustment and
      attempts. */
  method ProduceBatch(cfg: Config, b: Batch, send: Sender,
                      count: int, adjustment: int, published: seq<Event>, attempts: seq<Attempt>)
    returns (count': int, adjustment': int, published': seq<Event>, attempts': seq<Attempt>)
    requires published == Emitted(attempts)
    ensures Trace(State(count', adjustment'), attempts')
            == RunFrom(cfg, Trace(State(count, adjustment), attempts), TagBatch(b), send)
    ensures published' == Emitted(attempts')
  {
    ghost var t0 := Trace(State(count, adjustment), attempts);
    count', adjustment', published', attempts' := count, adjustment, published, attempts;
    var k := 0;
    while k < |b.events|
      invariant 0 <= k <= |b.events|
      invariant Trace(State(count', adjustment'), attempts') == RunFrom(cfg, t0, TagBatch(b)[..k], send)
      invariant published' == Emitted(attempts')
    {
      var e := b.events[k];
      ghost var before := State(count', adjustment');
      var event, slept, ok;
      count', adjustment', event, slept, ok := HandleEvent(cfg, count', adjustment', |attempts'|, b.dataset, e, send);
      ContinueRun(cfg, t0, TagBatch(b)[..k], Tagged(b.dataset, e), send, before, attempts',
                  StepResult(State(count', adjustment'), Attempt(event, slept, ok)));
      TagBatchSnoc(b, k);
      EmittedSnoc(attempts', Attempt(event, slept, ok));
      attempts' := attempts' + [Attempt(event, slept, ok)];
      if ok {
        published' := published' + [event];
      }
      k := k + 1;
    }
    assert TagBatch(b)[..k] == TagBatch(b);
  }

  /** The middle loop of the producer: every batch of one translation
      result, in order, continuing the run. */
  method ProduceResult(cfg: Config, r: TranslationResult, send: Sender,
                       count: int, adjustment: int, published: seq<Event>, attempts: seq<Attempt>)
    returns (count': int, adjustment': int, published': seq<Event>, attempts': seq<Attempt>)
    requires published == Emitted(attempts)
    ensures Trace(State(count', adjustment'), attempts')
            == RunFrom(cfg, Trace(State(count, adjustment), attempts), FlattenBatches(r.batches), send)
    ensures published' == Emitted(attempts')
  {
    ghost var t0 := Trace(State(count, adjustment), attempts);
    count', adjustment', published', attempts' := count, adjustment, published, attempts;
    var batches := r.batches;
    var j := 0;
    while j < |batches|
      invariant 0 <= j <= |batches|
      invariant Trace(State(count', adjustment'), attempts') == RunFrom(cfg, t0, FlattenBatches(batches[..j]), send)
      invariant published' == Emitted(attempts')
    {
      FlattenBatchesSnoc(batches, j);
      RunFromAppend(cfg, t0, FlattenBatches(batches[..j]), TagBatch(batches[j]), send);
      count', adjustment', published', attempts' := ProduceBatch(cfg, batches[j], send, count', adjustment', published', attempts');
      j := j + 1;
    }
    assert batches[..j] == batches;
  }

  /** The producer stage as the source writes it: for each result, for each
      of its batches, for each event of the batch, with the counter and the
      adjustment kept across the whole run. It returns the events it
      publishes and a record of every attempt. */
  method ProduceEvents(cfg: Config, results: seq<TranslationResult>, send: Sender)
    returns (published: seq<Event>, attempts: seq<Attempt>)
    ensures attempts == Run(cfg, Flatten(results), send).attempts
    ensures published == Emitted(attempts)
  {
    var adjustment := 0;
    var count := 0;
    published, attempts := [], [];
    var i := 0;
    while i < |results|
      invariant 0 <= i <= |results|
      invariant Trace(State(count, adjustment), attempts) == Run(cfg, Flatten(results[..i]), send)
      invariant published == Emitted(attempts)
    {
      FlattenSnoc(results, i);
      RunFromAppend(cfg, Trace(Initial, []), Flatten(results[..i]), FlattenBatches(results[i].batches), send);
      count, adjustment, published, attempts := ProduceResult(cfg, results[i], send, count, adjustment, published, attempts);
      i := i + 1;
    }
    assert results[..i] == results;
  }
}
