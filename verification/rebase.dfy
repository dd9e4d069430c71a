/** Timestamp rebasing. The adjustment starts at zero and, while it is still
    zero and a start offset was given, is recomputed before each event as
    begin minus that event's timestamp; every built event carries its source
    timestamp plus the adjustment in force. */
module Rebase {
  import opened Wrappers
  import opened Events
  import opened Produce

  /** Without a positive start offset nothing is rebased: the adjustment
      stays zero and every event keeps its source timestamp. */
  lemma {:induction false} NoRebase(cfg: Config, items: seq<Tagged>, send: Sender)
    requires cfg.start <= 0
    ensures Run(cfg, items, send).state.adjustment == 0
    ensures var attempts := Run(cfg, items, send).attempts;
      forall i :: 0 <= i < |items| ==> attempts[i].event.timestamp == items[i].event.timestamp
    decreases |items|
  {
    if |items| > 0 {
      NoRebase(cfg, items[..|items| - 1], send);
    }
  }

  /** Once the adjustment is nonzero, no later event changes it. */
  lemma {:induction false} AdjustmentSticky(cfg: Config, items: seq<Tagged>, send: Sender, k: nat, m: nat)
    requires k <= m <= |items|
    requires StateAt(cfg, items, send, k).adjustment != 0
    ensures StateAt(cfg, items, send, m).adjustment == StateAt(cfg, items, send, k).adjustment
    decreases m
  {
    if m > k {
      AdjustmentSticky(cfg, items, send, k, m - 1);
      RunAt(cfg, items, send, m - 1);
    }
  }

  /** The converse of Anchor's contract: an event whose timestamp differs
      from `begin`, preceded only by events at `begin`, is the anchor. */
  lemma {:induction false} AnchorIs(items: seq<Tagged>, begin: int, k: nat)
    requires k < |items| && items[k].event.timestamp != begin
    requires forall j :: 0 <= j < k ==> items[j].event.timestamp == begin
    ensures Anchor(items, begin) == Some(k)
  {
  }

  /** The converse of Anchor's contract: with every event at `begin` there
      is no anchor. */
  lemma {:induction false} NoAnchor(items: seq<Tagged>, begin: int)
    requires forall j :: 0 <= j < |items| ==> items[j].event.timestamp == begin
    ensures Anchor(items, begin) == None
  {
  }

  /** With a positive start offset, the adjustment a run ends with is begin
      minus the timestamp of its anchor, and zero when it has none. */
  lemma {:induction false} RebaseAdjustment(cfg: Config, items: seq<Tagged>, send: Sender)
    requires cfg.start > 0
    ensures Run(cfg, items, send).state.adjustment
            == AnchoredAdjustment(items, cfg.Begin(), Anchor(items, cfg.Begin()))
    decreases |items|
  {
    if |items| > 0 {
      var b := cfg.Begin();
      var p := items[..|items| - 1];
      RebaseAdjustment(cfg, p, send);
      match Anchor(p, b)
      case Some(k) =>
        AnchorIs(items, b, k);
      case None =>
        if items[|items| - 1].event.timestamp != b {
          AnchorIs(items, b, |items| - 1);
        } else {
          NoAnchor(items, b);
        }
    }
  }

  /** The shift applied to the event at position i: none before the anchor,
      begin minus the anchor's timestamp from the anchor on. */
  function ShiftAt(items: seq<Tagged>, begin: int, i: nat): int
  {
    match Anchor(items, begin)
    case None => 0
    case Some(k) => if k <= i then begin - items[k].event.timestamp else 0
  }

  lemma {:induction false} RebasedAt(cfg: Config, items: seq<Tagged>, send: Sender, i: nat)
    requires cfg.start > 0 && i < |items|
    ensures Run(cfg, items, send).attempts[i].event.timestamp
            == items[i].event.timestamp + ShiftAt(items, cfg.Begin(), i)
  {
    var b := cfg.Begin();
    var p := items[..i + 1];
    RunAt(cfg, items, send, i);
    RebaseAdjustment(cfg, p, send);
    match Anchor(items, b)
    case Some(k) =>
      if k <= i {
        AnchorIs(p, b, k);
      } else {
        NoAnchor(p, b);
      }
    case None =>
      NoAnchor(p, b);
  }

  /** With a positive start offset: events before the anchor sit at begin and
      keep their timestamps; the anchor lands exactly on begin; every event
      from the anchor on is shifted by begin minus the anchor's timestamp. */
  lemma {:induction false} RebaseTimestamps(cfg: Config, items: seq<Tagged>, send: Sender)
    requires cfg.start > 0
    ensures var attempts, b := Run(cfg, items, send).attempts, cfg.Begin();
      match Anchor(items, b)
      case None =>
        forall i :: 0 <= i < |items| ==> attempts[i].event.timestamp == items[i].event.timestamp == b
      case Some(k) =>
        && attempts[k].event.timestamp == b
        && (forall i :: 0 <= i < k ==> attempts[i].event.timestamp == items[i].event.timestamp == b)
        && (forall i :: k <= i < |items| ==>
              attempts[i].event.timestamp == items[i].event.timestamp + (b - items[k].event.timestamp))
  {
    forall i | 0 <= i < |items| {
      RebasedAt(cfg, items, send, i);
    }
  }

  /** With a positive start offset, the gap between two events from the
      anchor on is the gap between their source timestamps. */
  lemma {:induction false} RebasePreservesGaps(cfg: Config, items: seq<Tagged>, send: Sender, k: nat, i: nat, j: nat)
    requires cfg.start > 0
    requires Anchor(items, cfg.Begin()) == Some(k)
    requires k <= i < |items| && k <= j < |items|
    ensures var attempts := Run(cfg, items, send).attempts;
      attempts[i].event.timestamp - attempts[j].event.timestamp
      == items[i].event.timestamp - items[j].event.timestamp
  {
    RebasedAt(cfg, items, send, i);
    RebasedAt(cfg, items, send, j);
  }
}
