/** The pacing rule of the producer: before each event, if the counter has
    passed the batch threshold, sleep and reset it; the counter grows by one
    for each successful send. */
module Throttle {
  import opened Events
  import opened Produce

  /** The stage sleeps before an event exactly when the counter exceeds the
      batch threshold; it then restarts the counter from zero, and only a
      successful send adds one to it. */
  lemma {:induction false} SleepRule(cfg: Config, items: seq<Tagged>, send: Sender)
    ensures var attempts := Run(cfg, items, send).attempts;
      forall i :: 0 <= i < |items| ==>
        && (attempts[i].slept <==> StateAt(cfg, items, send, i).count > cfg.batch)
        && StateAt(cfg, items, send, i + 1).count
           == (if attempts[i].slept then 0 else StateAt(cfg, items, send, i).count)
              + (if attempts[i].sent then 1 else 0)
  {
    forall i | 0 <= i < |items| {
      RunAt(cfg, items, send, i);
    }
  }

  /** The counter never goes below zero nor beyond one past the threshold. */
  lemma {:induction false} CountBounded(cfg: Config, items: seq<Tagged>, send: Sender)
    ensures var c := Run(cfg, items, send).state.count;
      0 <= c <= (if cfg.batch >= 0 then cfg.batch + 1 else 1)
    decreases |items|
  {
    if |items| > 0 {
      CountBounded(cfg, items[..|items| - 1], send);
    }
  }

  lemma {:induction false} ModUnique(n: int, m: int, q: int, r: int)
    requires m > 0 && 0 <= r < m && n == q * m + r
    ensures n % m == r
  {
    var d := q - n / m;
    assert d * m == n % m - r;
    MulBound(d, m);
  }

  lemma {:induction false} MulBound(d: int, m: int)
    requires m > 0
    ensures d >= 1 ==> d * m >= m
    ensures d <= -1 ==> d * m <= -m
  {
    if d >= 1 {
      assert d * m == (d - 1) * m + m;
    } else if d <= -1 {
      assert d * m == (d + 1) * m - m;
    }
  }

  lemma {:induction false} ModSucc(n: nat, m: nat)
    requires m > 0
    ensures (n + 1) % m == (if n % m == m - 1 then 0 else n % m + 1)
  {
    var q, r := n / m, n % m;
    if r == m - 1 {
      ModUnique(n + 1, m, q + 1, 0);
    } else {
      ModUnique(n + 1, m, q, r + 1);
    }
  }

  /** With every send succeeding, the counter after n events cycles through
      1 .. batch + 1. */
  lemma {:induction false} AllSentCount(cfg: Config, items: seq<Tagged>, send: Sender, n: nat)
    requires forall pos, e :: send(pos, e)
    requires cfg.batch >= 0
    requires n <= |items|
    ensures StateAt(cfg, items, send, n).count == (if n == 0 then 0 else (n - 1) % (cfg.batch + 1) + 1)
  {
    if n > 0 {
      var m := cfg.batch + 1;
      AllSentCount(cfg, items, send, n - 1);
      RunAt(cfg, items, send, n - 1);
      var before := StateAt(cfg, items, send, n - 1).count;
      var after := StateAt(cfg, items, send, n).count;
      assert after == (if before > cfg.batch then 0 else before) + 1;
      if n == 1 {
        ModUnique(0, m, 0, 0);
      } else {
        ModSucc(n - 2, m);
        var r := (n - 2) % m;
        assert before == r + 1;
        if r == m - 1 {
          assert after == 1;
        } else {
          assert after == r + 2;
        }
      }
    }
  }

  /** With every send succeeding, the stage sleeps before the event at
      position i exactly when i is a positive multiple of batch + 1: a pause
      after every batch + 1 events. */
  lemma {:induction false} AllSentSchedule(cfg: Config, items: seq<Tagged>, send: Sender)
    requires forall pos, e :: send(pos, e)
    requires cfg.batch >= 0
    ensures var attempts := Run(cfg, items, send).attempts;
      forall i :: 0 <= i < |items| ==> (attempts[i].slept <==> i > 0 && i % (cfg.batch + 1) == 0)
  {
    var attempts := Run(cfg, items, send).attempts;
    forall i | 0 <= i < |items|
      ensures attempts[i].slept <==> i > 0 && i % (cfg.batch + 1) == 0
    {
      RunAt(cfg, items, send, i);
      AllSentCount(cfg, items, send, i);
      if i > 0 {
        ModSucc(i - 1, cfg.batch + 1);
      }
    }
  }

  /** With every send succeeding, no sleep precedes the first batch + 1
      events and the first sleep comes right before event batch + 2. */
  lemma {:induction false} FirstSleep(cfg: Config, items: seq<Tagged>, send: Sender)
    requires forall pos, e :: send(pos, e)
    requires cfg.batch >= 0
    ensures var attempts := Run(cfg, items, send).attempts;
      && (forall i :: 0 <= i <= cfg.batch && i < |items| ==> !attempts[i].slept)
      && (cfg.batch + 1 < |items| ==> attempts[cfg.batch + 1].slept)
  {
    var attempts := Run(cfg, items, send).attempts;
    forall i | 0 <= i <= cfg.batch && i < |items|
      ensures !attempts[i].slept
    {
      RunAt(cfg, items, send, i);
      AllSentCount(cfg, items, send, i);
      if i > 0 {
        ModUnique(i - 1, cfg.batch + 1, 0, i - 1);
      }
    }
    if cfg.batch + 1 < |items| {
      RunAt(cfg, items, send, cfg.batch + 1);
      AllSentCount(cfg, items, send, cfg.batch + 1);
      ModUnique(cfg.batch, cfg.batch + 1, 0, cfg.batch);
    }
  }
}
