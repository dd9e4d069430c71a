/** What the producer publishes: the events built from the source events,
    copied field by field, of which only the successfully sent ones go
    downstream, in visiting order. */
module Delivery {
  import opened Events
  import opened Produce

  /** Every source event is turned into an event that copies its attributes
      and sample rate, takes the batch's dataset exactly when the run has no
      dataset of its own, and is marked sent exactly when the client accepted
      it. */
  lemma {:induction false} AttemptContents(cfg: Config, items: seq<Tagged>, send: Sender)
    ensures var attempts := Run(cfg, items, send).attempts;
      forall i :: 0 <= i < |items| ==>
        && attempts[i].sent == send(i, attempts[i].event)
        && attempts[i].event.attributes == items[i].event.attributes
        && attempts[i].event.sampleRate == ToUint(items[i].event.sampleRate)
        && attempts[i].event.dataset == (if cfg.dataset == "" then items[i].dataset else cfg.dataset)
  {
    var attempts := Run(cfg, items, send).attempts;
    forall i | 0 <= i < |items|
      ensures attempts[i].sent == send(i, attempts[i].event)
      ensures attempts[i].event.attributes == items[i].event.attributes
      ensures attempts[i].event.sampleRate == ToUint(items[i].event.sampleRate)
      ensures attempts[i].event.dataset == (if cfg.dataset == "" then items[i].dataset else cfg.dataset)
    {
      RunAt(cfg, items, send, i);
    }
  }

  /** The published events are the events of the successful attempts, one
      for one and in the order they were attempted. */
  lemma {:induction false} EmittedAreSentInOrder(attempts: seq<Attempt>)
    ensures var ps := SentPositions(attempts);
      && |Emitted(attempts)| == |ps|
      && forall k :: 0 <= k < |ps| ==> Emitted(attempts)[k] == attempts[ps[k]].event
    decreases |attempts|
  {
    if |attempts| > 0 {
      var p := attempts[..|attempts| - 1];
      EmittedAreSentInOrder(p);
      var ps, pp := SentPositions(attempts), SentPositions(p);
      forall k | 0 <= k < |pp|
        ensures attempts[pp[k]] == p[pp[k]]
      {
      }
    }
  }

  /** The number of published events is the number of source events minus
      the number of failed sends. */
  lemma {:induction false} EmittedCount(attempts: seq<Attempt>)
    ensures |Emitted(attempts)| == |attempts| - Dropped(attempts)
    decreases |attempts|
  {
    if |attempts| > 0 {
      EmittedCount(attempts[..|attempts| - 1]);
    }
  }

  /** A failed send publishes nothing and does not advance the counter; the
      run still goes on to every later event. */
  lemma {:induction false} FailedSendDropped(cfg: Config, items: seq<Tagged>, send: Sender, i: nat)
    requires i < |items|
    requires !send(i, Run(cfg, items, send).attempts[i].event)
    ensures var attempts := Run(cfg, items, send).attempts;
      && Emitted(attempts[..i + 1]) == Emitted(attempts[..i])
      && StateAt(cfg, items, send, i + 1).count
         == (if attempts[i].slept then 0 else StateAt(cfg, items, send, i).count)
      && |attempts| == |items|
  {
    var attempts := Run(cfg, items, send).attempts;
    RunAt(cfg, items, send, i);
    assert attempts[..i + 1][..i] == attempts[..i];
  }

  /** When every send succeeds, every source event is published. */
  lemma {:induction false} AllSentAllEmitted(cfg: Config, items: seq<Tagged>, send: Sender)
    requires forall pos, e :: send(pos, e)
    ensures |Emitted(Run(cfg, items, send).attempts)| == |items|
  {
    var attempts := Run(cfg, items, send).attempts;
    AttemptContents(cfg, items, send);
    NoneDropped(attempts);
    EmittedCount(attempts);
  }

  lemma {:induction false} NoneDropped(attempts: seq<Attempt>)
    requires forall i :: 0 <= i < |attempts| ==> attempts[i].sent
    ensures Dropped(attempts) == 0
    decreases |attempts|
  {
    if |attempts| > 0 {
      NoneDropped(attempts[..|attempts| - 1]);
    }
  }
}
