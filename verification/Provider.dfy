/** Applying execution reports: each booked once, busts honoured, and CumQty(14) checked against what was
    received, so that a report the session lost is noticed. */
module Provider {
  import opened Common
  import opened FixStore
  import Orders

  /** What a report says: a trade, a bust of an earlier execution, a correction of one, a reject saying
      the order is already there, or anything else. */
  datatype Kind = Trade(quantity: real) | Bust(ref: string) | Correct(ref: string, corrected: Option<real>)
                | DuplicateReject | Other

  /** An execution report that is not a status reply. `status` is the order status it reads as, if any. */
  datatype Report = Report(cid: string, execId: string, digest: string, kind: Kind, cumQty: Option<real>,
                           status: Option<Orders.Status>, possResend: bool, at: int)
  {
    /** What it adds to the venue's total by itself. */
    function Fill(): Option<real> {
      match kind
      case Trade(quantity) => Some(quantity)
      case Correct(_, corrected) => corrected
      case _ => None
    }

    function Busts(): Option<string> {
      match kind
      case Bust(ref) => Some(ref)
      case Correct(ref, _) => Some(ref)
      case _ => None
    }

    /** Fills are of positive quantity; a fill of nothing is no fill. */
    predicate Valid() { Fill().Some? ==> Fill().value > 0.0 }

    function Key(): Key { (cid, execId) }
  }

  function OwnFill(r: Report): real { if r.Fill().Some? then r.Fill().value else 0.0 }

  /** Whether CumQty says a report on this order never arrived. A bust or correction moves it away from
      the fills received by design, so it is not asked. */
  predicate SaysLost(row: Option<OrderRow>, r: Report) {
    && row.Some? && r.Busts().None? && !r.kind.DuplicateReject? && r.cumQty.Some?
    && r.cumQty.value != row.value.filled + OwnFill(r)
  }

  function UpdatedRow(row: OrderRow, r: Report): OrderRow {
    if r.kind.DuplicateReject? then row else
    row.(status := if r.status.Some? then r.status.value else row.status,
         filled := if r.cumQty.Some? then r.cumQty.value
                   else if r.Fill().Some? && r.Busts().None? then row.filled + r.Fill().value
                   else row.filled)
  }

  /** A lost report resent late must not walk the order back: below what was booked, or out of its end. */
  function Preserved(row: OrderRow, updated: OrderRow, r: Report): OrderRow {
    updated.(
      filled := if updated.filled < row.filled + OwnFill(r) then row.filled + OwnFill(r) else updated.filled,
      status := if row.status.IsTerminal() && !updated.status.IsTerminal() then row.status else updated.status)
  }

  /** The state a report is applied to, and what it leaves. */
  datatype Books = Books(rows: map<string, OrderRow>, executions: Executions, quarantine: seq<Quarantined>)

  function RowOf(b: Books, cid: string): Option<OrderRow> {
    if cid in b.rows then Some(b.rows[cid]) else None
  }

  function RowAfter(row: Option<OrderRow>, r: Report): Option<OrderRow> {
    if row.None? then None
    else if SaysLost(row, r) && r.possResend then Some(Preserved(row.value, UpdatedRow(row.value, r), r))
    else Some(UpdatedRow(row.value, r))
  }

  function ExecutionOf(r: Report): Execution {
    Execution(r.cid, r.execId, r.digest, r.Fill(), false, r.at)
  }

  function BustKey(r: Report): Option<Key> {
    if r.Busts().Some? then Some((r.cid, r.Busts().value)) else None
  }

  function Halted(cid: string, reason: Reason): Quarantined { Quarantined(cid, reason, None) }

  /** One report: a repeat is dropped, a contradiction quarantined, anything else booked in one go. */
  function Applied(b: Books, r: Report): Books {
    if r.Key() in b.executions.at then
      if b.executions.at[r.Key()].digest == r.digest then b
      else b.(quarantine := b.quarantine + [Halted(r.cid, Contradiction)])
    else
      var row := RowOf(b, r.cid);
      Books(
        if row.Some? then b.rows[r.cid := RowAfter(row, r).value] else b.rows,
        Reported(b.executions, Some(ExecutionOf(r)), BustKey(r)),
        if SaysLost(row, r) then b.quarantine + [Halted(r.cid, ReportLost)] else b.quarantine)
  }

  function AppliedAll(b: Books, reports: seq<Report>): Books {
    if reports == [] then b else Applied(AppliedAll(b, reports[..|reports| - 1]), reports[|reports| - 1])
  }

  // ----- Exactly once -----

  lemma AppliedKeeps(b: Books, r: Report)
    requires b.executions.Valid()
    ensures Applied(b, r).executions.Valid() && Keeps(b.executions, Applied(b, r).executions)
    ensures r.Key() in Applied(b, r).executions.at
    ensures r.Key() in b.executions.at ==> Applied(b, r).executions == b.executions && Applied(b, r).rows == b.rows
  {
    ReportedKeeps(b.executions, Some(ExecutionOf(r)), BustKey(r));
    KeepsItself(b.executions);
    hide Keeps;
  }

  /** Over every history of reports, repeats and redeliveries after a crash: an execution, once booked, is
      booked for good, with the digest and the fill it was first booked with, and a busted one stays
      busted. No execution is booked twice: its key occurs once. */
  lemma {:induction false} BookedOnceForGood(b: Books, reports: seq<Report>)
    requires b.executions.Valid()
    ensures AppliedAll(b, reports).executions.Valid() && Keeps(b.executions, AppliedAll(b, reports).executions)
  {
    if reports == [] {
      KeepsItself(b.executions);
    } else {
      var init := reports[..|reports| - 1];
      BookedOnceForGood(b, init);
      hide Keeps, Applied;
      AppliedKeeps(AppliedAll(b, init), reports[|reports| - 1]);
      KeepsOn(b.executions, AppliedAll(b, init).executions, AppliedAll(b, reports).executions);
    }
  }

  /** Redelivery is harmless: a report applied before, whatever came between, changes nothing. */
  lemma RedeliveryChangesNothing(b: Books, r: Report, between: seq<Report>)
    requires b.executions.Valid() && r.Key() !in b.executions.at
    ensures Applied(AppliedAll(Applied(b, r), between), r) == AppliedAll(Applied(b, r), between)
  {
    AppliedKeeps(b, r);
    BookedDigest(b, r);
    BookedOnceForGood(Applied(b, r), between);
    hide AppliedAll, Reported;
  }

  lemma BookedDigest(b: Books, r: Report)
    requires r.Key() !in b.executions.at
    ensures r.Key() in Applied(b, r).executions.at && Applied(b, r).executions.at[r.Key()].digest == r.digest
  {
  }

  /** Whether an execution would be returned by the recovery query, from any time on. */
  predicate IsBookedFill(ex: Executions, key: Key) { key in ex.at && IsLive(ex.at[key]) }

  lemma BustedStaysOut(b: Books, key: Key, later: seq<Report>)
    requires b.executions.Valid() && key in b.executions.at && b.executions.at[key].busted
    ensures !IsBookedFill(AppliedAll(b, later).executions, key)
  {
    BookedOnceForGood(b, later);
    hide AppliedAll;
  }

  lemma UnknownFillIsBooked(b: Books, key: Key)
    requires key !in b.executions.at
    ensures !NeverBooked(b, key)
  {
    var fill := Report(key.0, key.1, "", Trade(1.0), None, None, false, 0);
    assert [fill][..0] == [] && AppliedAll(b, []) == b;
    assert AppliedAll(b, [fill]) == Applied(b, fill);
    assert fill.Key() == key;
    assert IsBookedFill(AppliedAll(b, [fill]).executions, key);
  }

  /** In no continuation does the recovery query return the execution. */
  ghost predicate NeverBooked(b: Books, key: Key) {
    forall later :: !IsBookedFill(AppliedAll(b, later).executions, key)
  }

  /** A busted execution never comes back, in any continuation, if and only if it was on record when its
      bust arrived. A bust that comes before its fill is not remembered. */
  lemma BustIsFinalIffKnown(b: Books, r: Report)
    requires b.executions.Valid() && r.Key() !in b.executions.at && r.Busts().Some?
    ensures NeverBooked(Applied(b, r), BustKey(r).value)
       <==> BustKey(r).value in b.executions.at || BustKey(r).value == r.Key()
  {
    var key, after := BustKey(r).value, Applied(b, r);
    AppliedKeeps(b, r);
    if key in b.executions.at || key == r.Key() {
      assert key in after.executions.at && after.executions.at[key].busted;
      forall later ensures !IsBookedFill(AppliedAll(after, later).executions, key) {
        BustedStaysOut(after, key, later);
      }
    } else {
      assert key !in after.executions.at;
      UnknownFillIsBooked(after, key);
    }
  }

  // ----- CumQty -----

  /** How a new report moves an order's total on record. */
  lemma TotalMoves(b: Books, r: Report, cid: string)
    requires b.executions.Valid() && r.Key() !in b.executions.at
    ensures r.cid != cid ==> Total(Applied(b, r).executions, cid) == Total(b.executions, cid)
    ensures r.Busts().None? ==>
      Total(Applied(b, r).executions, r.cid) == Total(b.executions, r.cid) + OwnFill(r)
  {
    var ex, e := b.executions, ExecutionOf(r);
    BookedKeeps(ex, e);
    BookedAddsFill(ex, e, cid);
    BookedAddsFill(ex, e, r.cid);
    if r.Busts().Some? {
      MarkedTakesFill(Booked(ex, e), BustKey(r).value, cid);
      assert r.cid != cid ==> LiveQuantity(Booked(ex, e), BustKey(r).value, cid) == 0.0;
    }
    hide Total, Booked, Marked;
  }

  /** A report of an order on record says how much of it the venue holds executed, and says so truly. */
  predicate Truthful(b: Books, r: Report) {
    r.Key() !in b.executions.at && !r.kind.DuplicateReject? ==>
      r.cumQty == Some(Total(Applied(b, r).executions, r.cid))
  }

  predicate AllTruthful(b: Books, reports: seq<Report>, cid: string) {
    forall i :: 0 <= i < |reports| && reports[i].cid == cid ==> Truthful(AppliedAll(b, reports[..i]), reports[i])
  }

  /** The row agrees with the record: what is filled is the sum of the fills not busted. */
  predicate Agrees(b: Books, cid: string) {
    cid in b.rows && b.rows[cid].filled == Total(b.executions, cid)
  }

  function LostRows(q: seq<Quarantined>, cid: string): nat {
    if q == [] then 0
    else LostRows(q[..|q| - 1], cid)
         + (if q[|q| - 1].cid == cid && q[|q| - 1].reason == ReportLost then 1 else 0)
  }

  lemma LostRowsOfAppend(q: seq<Quarantined>, row: Quarantined, cid: string)
    ensures LostRows(q + [row], cid) == LostRows(q, cid) + (if row.cid == cid && row.reason == ReportLost then 1 else 0)
  {
    assert (q + [row])[..|q|] == q;
  }

  lemma TruthfulStep(b: Books, r: Report, cid: string)
    requires b.executions.Valid() && Agrees(b, cid) && (r.cid == cid ==> Truthful(b, r))
    ensures Agrees(Applied(b, r), cid) && LostRows(Applied(b, r).quarantine, cid) == LostRows(b.quarantine, cid)
  {
    hide Total, LostRows, Applied;
    if r.Key() in b.executions.at {
      KnownMovesNothing(b, r, cid);
    } else {
      TotalMoves(b, r, cid);
      RowMoves(b, r, cid);
    }
  }

  lemma KnownMovesNothing(b: Books, r: Report, cid: string)
    requires r.Key() in b.executions.at
    ensures Applied(b, r).rows == b.rows && Applied(b, r).executions == b.executions
    ensures LostRows(Applied(b, r).quarantine, cid) == LostRows(b.quarantine, cid)
  {
    LostRowsOfAppend(b.quarantine, Halted(r.cid, Contradiction), cid);
    hide LostRows;
  }

  /** With a true CumQty on every report and none lost, the order's count is always the sum of its fills
      not busted, and nothing is ever quarantined as lost, whatever repeats and contradictions arrive. */
  lemma {:induction false} TruthfulHistoryAgrees(b: Books, reports: seq<Report>, cid: string)
    requires b.executions.Valid() && Agrees(b, cid) && AllTruthful(b, reports, cid)
    ensures Agrees(AppliedAll(b, reports), cid)
    ensures LostRows(AppliedAll(b, reports).quarantine, cid) == LostRows(b.quarantine, cid)
  {
    if reports != [] {
      var init, last := reports[..|reports| - 1], reports[|reports| - 1];
      assert AllTruthful(b, init, cid) by {
        forall i | 0 <= i < |init| && init[i].cid == cid ensures Truthful(AppliedAll(b, init[..i]), init[i]) {
          assert init[..i] == reports[..i] && init[i] == reports[i];
        }
      }
      TruthfulHistoryAgrees(b, init, cid);
      BookedOnceForGood(b, init);
      hide Applied, Agrees, LostRows, Truthful;
      assert reports[..|reports| - 1] == init;
      TruthfulStep(AppliedAll(b, init), last, cid);
    }
  }

  // ----- A lost report is noticed -----

  /** A report the venue sent, and whether it reached us or was lost on the way. */
  datatype Sent = Sent(report: Report, delivered: bool)

  /** The books after a history: of one that got everything, or of one that got what was delivered. */
  function Received(b: Books, history: seq<Sent>, everything: bool): Books {
    if history == [] then b else
    var before, last := Received(b, history[..|history| - 1], everything), history[|history| - 1];
    if everything || last.delivered then Applied(before, last.report) else before
  }

  /** What the venue holds executed of an order: the unbusted fills of everything it sent. */
  function VenueTotal(v: Books, history: seq<Sent>, cid: string): real {
    Total(Received(v, history, true).executions, cid)
  }

  /** Each report is one the venue has not sent before, and where it carries CumQty it says truly how much
      of the order is executed at the venue. */
  predicate TrueHistory(v: Books, history: seq<Sent>, cid: string) {
    forall i :: 0 <= i < |history| ==> TrueReport(v, history, i, cid)
  }

  predicate TrueReport(v: Books, history: seq<Sent>, i: nat, cid: string)
    requires i < |history|
  {
    var r := history[i].report;
    && r.Key() !in Received(v, history[..i], true).executions.at
    && (r.cid == cid && r.cumQty.Some? && !r.kind.DuplicateReject? ==>
          r.cumQty.value == VenueTotal(v, history[..i + 1], cid))
  }

  /** The row counts what the venue holds executed, though some of its reports may be on no record here. */
  ghost predicate InStep(v: Books, b: Books, cid: string) {
    && v.executions.Valid() && b.executions.Valid() && b.executions.at.Keys <= v.executions.at.Keys
    && cid in b.rows && b.rows[cid].filled == Total(v.executions, cid)
  }

  /** How far the last report of a history moved the venue's total. */
  function Effect(v: Books, history: seq<Sent>, cid: string): real
    requires history != []
  {
    VenueTotal(v, history, cid) - VenueTotal(v, history[..|history| - 1], cid)
  }

  /** How one report, and what it moved at the venue, changes what moved there and not in the row. A lost
      report widens the gap, and so does a bust or correction without CumQty, which the row does not
      follow. A report with CumQty closes it, but one flagged as a possible resend never lowers the row. */
  function UnseenAfter(gap: real, last: Sent, effect: real, cid: string): real {
    var r := last.report;
    if r.cid != cid then gap
    else if !last.delivered then gap + effect
    else if r.kind.DuplicateReject? then gap
    else if r.cumQty.None? then (if r.Busts().Some? then gap + effect else gap)
    else if r.Busts().None? && r.possResend && gap < 0.0 then gap
    else 0.0
  }

  /** What moved at the venue and not in the row. */
  function Unseen(v: Books, history: seq<Sent>, cid: string): real {
    if history == [] then 0.0
    else UnseenAfter(Unseen(v, history[..|history| - 1], cid), history[|history| - 1], Effect(v, history, cid), cid)
  }

  /** A new report moves the venue's total by its own fill, less what it busts. */
  lemma EffectOfReport(v: Books, r: Report, cid: string)
    requires v.executions.Valid() && r.Key() !in v.executions.at
    ensures r.cid != cid ==> Total(Applied(v, r).executions, cid) == Total(v.executions, cid)
    ensures r.cid == cid && r.Busts().None? ==>
      Total(Applied(v, r).executions, cid) == Total(v.executions, cid) + OwnFill(r)
  {
    TotalMoves(v, r, cid);
  }

  /** How a delivered report moves the row, CumQty or not. */
  lemma RowMoves(b: Books, r: Report, cid: string)
    requires cid in b.rows && r.Key() !in b.executions.at
    ensures cid in Applied(b, r).rows
    ensures var before, after := b.rows[cid].filled, Applied(b, r).rows[cid].filled;
            after == if r.cid != cid || r.kind.DuplicateReject? then before
                     else if r.cumQty.None? then (if r.Busts().Some? then before else before + OwnFill(r))
                     else if r.Busts().None? && r.possResend then Larger(r.cumQty.value, before + OwnFill(r))
                     else r.cumQty.value
    ensures LostRows(Applied(b, r).quarantine, cid) == LostRows(b.quarantine, cid)
      + (if r.cid == cid && SaysLost(Some(b.rows[cid]), r) then 1 else 0)
  {
    LostRowsOfAppend(b.quarantine, Halted(r.cid, ReportLost), cid);
    hide Reported, LostRows;
  }

  lemma ReceivedThen(b: Books, history: seq<Sent>, next: Sent, everything: bool)
    ensures Received(b, history + [next], everything)
         == if everything || next.delivered then Applied(Received(b, history, everything), next.report)
            else Received(b, history, everything)
  {
    hide Applied;
    assert (history + [next])[..|history|] == history;
  }

  lemma TrueInit(v: Books, history: seq<Sent>, n: nat, cid: string)
    requires TrueHistory(v, history, cid) && n <= |history|
    ensures TrueHistory(v, history[..n], cid)
  {
    hide Received, VenueTotal;
    forall i | 0 <= i < n ensures TrueReport(v, history[..n], i, cid) {
      assert TrueReport(v, history, i, cid);
      assert history[..n][..i] == history[..i] && history[..n][..i + 1] == history[..i + 1];
    }
  }

  /** One report more, lost or delivered, at books that have both sides valid. */
  lemma OneMore(venue: Books, own: Books, next: Sent, cid: string, gap: real)
    requires venue.executions.Valid() && own.executions.Valid() && cid in own.rows
    requires own.executions.at.Keys <= venue.executions.at.Keys && next.report.Key() !in venue.executions.at
    requires Total(venue.executions, cid) - own.rows[cid].filled == gap
    requires var r := next.report;
             r.cid == cid && r.cumQty.Some? && !r.kind.DuplicateReject? ==>
               r.cumQty.value == Total(Applied(venue, r).executions, cid)
    ensures var r, venue' := next.report, Applied(venue, next.report);
            var own' := if next.delivered then Applied(own, r) else own;
            var effect := Total(venue'.executions, cid) - Total(venue.executions, cid);
            && venue'.executions.Valid() && own'.executions.Valid() && cid in own'.rows
            && own'.executions.at.Keys <= venue'.executions.at.Keys
            && Total(venue'.executions, cid) - own'.rows[cid].filled == UnseenAfter(gap, next, effect, cid)
            && (r.cid == cid && r.Busts().None? && !r.kind.DuplicateReject? && r.cumQty.Some? ==>
                  (SaysLost(Some(own.rows[cid]), r) <==> gap != 0.0))
  {
    hide Applied, Total, LostRows, Keeps;
    var r := next.report;
    AppliedKeeps(venue, r);
    AppliedKeeps(own, r);
    AppliedKeys(venue, r);
    AppliedKeys(own, r);
    EffectOfReport(venue, r, cid);
    RowMoves(own, r, cid);
  }

  lemma AppliedKeys(b: Books, r: Report)
    ensures Applied(b, r).executions.at.Keys == b.executions.at.Keys + {r.Key()}
  {
  }

  /** The gap between the venue's total and the row is, at every point of a history, what went unseen. */
  lemma {:induction false} GapIsUnseen(v: Books, b: Books, history: seq<Sent>, cid: string)
    requires InStep(v, b, cid) && TrueHistory(v, history, cid)
    ensures var venue, own := Received(v, history, true), Received(b, history, false);
            && venue.executions.Valid() && own.executions.Valid() && cid in own.rows
            && own.executions.at.Keys <= venue.executions.at.Keys
            && VenueTotal(v, history, cid) - own.rows[cid].filled == Unseen(v, history, cid)
  {
    if history != [] {
      var n := |history| - 1;
      var init, last := history[..n], history[n];
      TrueInit(v, history, n, cid);
      GapIsUnseen(v, b, init, cid);
      assert TrueReport(v, history, n, cid);
      assert history[..n + 1] == history;
      hide Applied, Total, TrueHistory, InStep, UnseenAfter;
      OneMore(Received(v, init, true), Received(b, init, false), last, cid, Unseen(v, init, cid));
    }
  }

  /** Over every history in which reports are lost: the next report that carries CumQty, and is neither a
      bust, a correction nor a duplicate-order reject, is quarantined as telling of a loss if and only if
      what went unseen before it does not net to zero. */
  lemma LossIsNoticedIffUnseen(v: Books, b: Books, history: seq<Sent>, r: Report)
    requires InStep(v, b, r.cid) && TrueHistory(v, history + [Sent(r, true)], r.cid)
    requires r.cumQty.Some? && r.Busts().None? && !r.kind.DuplicateReject?
    ensures var before, after := Received(b, history, false), Received(b, history + [Sent(r, true)], false);
            LostRows(after.quarantine, r.cid)
            == LostRows(before.quarantine, r.cid) + (if Unseen(v, history, r.cid) != 0.0 then 1 else 0)
  {
    var all := history + [Sent(r, true)];
    NextIsTrue(v, history, Sent(r, true), r.cid);
    GapIsUnseen(v, b, history, r.cid);
    ReceivedThen(v, history, Sent(r, true), true);
    ReceivedThen(b, history, Sent(r, true), false);
    var venue, own := Received(v, history, true), Received(b, history, false);
    hide Applied, Total, TrueHistory, InStep, Unseen, Received, LostRows;
    OneMore(venue, own, Sent(r, true), r.cid, Unseen(v, history, r.cid));
    RowMoves(own, r, r.cid);
  }

  lemma NextIsTrue(v: Books, history: seq<Sent>, next: Sent, cid: string)
    requires TrueHistory(v, history + [next], cid)
    ensures TrueHistory(v, history, cid) && next.report.Key() !in Received(v, history, true).executions.at
    ensures var r := next.report;
            r.cid == cid && r.cumQty.Some? && !r.kind.DuplicateReject? ==>
              r.cumQty.value == Total(Applied(Received(v, history, true), r).executions, cid)
  {
    var all := history + [next];
    assert TrueReport(v, all, |history|, cid);
    TrueInit(v, all, |history|, cid);
    ReceivedThen(v, history, next, true);
    hide TrueHistory, Applied, Received, Total;
    assert all[..|history|] == history && all[..|history| + 1] == all;
  }

  /** What the lost reports of a history moved at the venue. */
  function NetLost(v: Books, history: seq<Sent>, cid: string): real {
    if history == [] then 0.0 else
    NetLost(v, history[..|history| - 1], cid)
    + (if history[|history| - 1].delivered then 0.0 else Effect(v, history, cid))
  }

  /** What its delivered busts and corrections moved, which the row follows only with CumQty. */
  function NetBusted(v: Books, history: seq<Sent>, cid: string): real {
    if history == [] then 0.0 else
    NetBusted(v, history[..|history| - 1], cid)
    + (if history[|history| - 1].delivered && history[|history| - 1].report.Busts().Some?
       then Effect(v, history, cid) else 0.0)
  }

  /** No delivered report on the order carries CumQty. */
  predicate Quiet(history: seq<Sent>, cid: string) {
    forall i :: 0 <= i < |history| && history[i].delivered && history[i].report.cid == cid ==>
      history[i].report.cumQty.None?
  }

  /** A report on another order moves nothing of this one. */
  lemma NoEffectOnOthers(v: Books, history: seq<Sent>, cid: string)
    requires history != [] && TrueHistory(v, history, cid) && history[|history| - 1].report.cid != cid
    requires Received(v, history[..|history| - 1], true).executions.Valid()
    ensures Effect(v, history, cid) == 0.0
  {
    var n := |history| - 1;
    TrueAt(v, history, n, cid);
    hide Applied, Total, TrueHistory;
    EffectOfReport(Received(v, history[..n], true), history[n].report, cid);
  }

  lemma QuietAfter(gap: real, last: Sent, effect: real, cid: string)
    requires last.report.cid != cid ==> effect == 0.0
    requires last.delivered && last.report.cid == cid ==> last.report.cumQty.None?
    ensures UnseenAfter(gap, last, effect, cid)
         == gap + (if last.delivered && last.report.Busts().None? then 0.0 else effect)
  {
  }

  lemma {:induction false} QuietUnseen(v: Books, history: seq<Sent>, cid: string)
    requires v.executions.Valid() && TrueHistory(v, history, cid) && Quiet(history, cid)
    ensures Unseen(v, history, cid) == NetLost(v, history, cid) + NetBusted(v, history, cid)
  {
    if history != [] {
      var n := |history| - 1;
      var init, r := history[..n], history[n].report;
      TrueInit(v, history, n, cid);
      assert Quiet(init, cid) && (history[n].delivered && r.cid == cid ==> r.cumQty.None?);
      hide TrueHistory, Received, Quiet, Effect, UnseenAfter;
      QuietUnseen(v, init, cid);
      VenueStaysValid(v, init);
      if r.cid != cid { NoEffectOnOthers(v, history, cid); }
      QuietAfter(Unseen(v, init, cid), history[n], Effect(v, history, cid), cid);
    }
  }

  lemma {:induction false} VenueStaysValid(v: Books, history: seq<Sent>)
    requires v.executions.Valid()
    ensures Received(v, history, true).executions.Valid()
  {
    if history != [] {
      VenueStaysValid(v, history[..|history| - 1]);
      hide Applied;
      AppliedKeeps(Received(v, history[..|history| - 1], true), history[|history| - 1].report);
    }
  }

  /** While nothing that arrives carries CumQty, what goes unseen is what the lost reports moved, together
      with what busts that arrived moved: the next report with CumQty is quarantined if and only if the
      two do not cancel. With no such bust, exactly when the lost reports do not net to zero. */
  lemma NextCumQtyReveals(v: Books, b: Books, history: seq<Sent>, r: Report)
    requires InStep(v, b, r.cid) && TrueHistory(v, history + [Sent(r, true)], r.cid) && Quiet(history, r.cid)
    requires r.cumQty.Some? && r.Busts().None? && !r.kind.DuplicateReject?
    ensures var before, after := Received(b, history, false), Received(b, history + [Sent(r, true)], false);
            LostRows(after.quarantine, r.cid) == LostRows(before.quarantine, r.cid)
            + (if NetLost(v, history, r.cid) + NetBusted(v, history, r.cid) != 0.0 then 1 else 0)
  {
    NextIsTrue(v, history, Sent(r, true), r.cid);
    hide TrueHistory, Received, LostRows, Unseen;
    QuietUnseen(v, history, r.cid);
    LossIsNoticedIffUnseen(v, b, history, r);
  }

  // ----- What a bust hides -----

  lemma {:induction false} ReceivedConcat(b: Books, first: seq<Sent>, second: seq<Sent>, everything: bool)
    ensures Received(b, first + second, everything) == Received(Received(b, first, everything), second, everything)
  {
    hide Applied;
    if second == [] {
      assert first + second == first;
    } else {
      var n := |second| - 1;
      assert (first + second)[..|first| + n] == first + second[..n];
      ReceivedConcat(b, first, second[..n], everything);
    }
  }

  /** The rest of a true history is true of the books the first part leaves. */
  lemma TrueRest(v: Books, first: seq<Sent>, second: seq<Sent>, cid: string)
    requires TrueHistory(v, first + second, cid)
    ensures TrueHistory(Received(v, first, true), second, cid)
  {
    hide Applied, Received, Total;
    forall i | 0 <= i < |second| ensures TrueReport(Received(v, first, true), second, i, cid) {
      var k := |first| + i;
      assert TrueReport(v, first + second, k, cid);
      assert (first + second)[..k] == first + second[..i] && (first + second)[..k + 1] == first + second[..i + 1];
      ReceivedConcat(v, first, second[..i], true);
      ReceivedConcat(v, first, second[..i + 1], true);
    }
  }

  /** Everything of the order arrives, and every bust and correction of it carries CumQty. */
  predicate NothingUnseen(history: seq<Sent>, cid: string) {
    forall i :: 0 <= i < |history| && history[i].report.cid == cid ==>
      history[i].delivered && (history[i].report.Busts().Some? ==> history[i].report.cumQty.Some?)
  }

  /** One report more of which nothing goes unseen. */
  lemma InStepStep(venue: Books, own: Books, last: Sent, cid: string)
    requires InStep(venue, own, cid) && last.report.Key() !in venue.executions.at && NothingUnseen([last], cid)
    requires var r := last.report;
             r.cid == cid && r.cumQty.Some? && !r.kind.DuplicateReject? ==>
               r.cumQty.value == Total(Applied(venue, r).executions, cid)
    ensures var own' := if last.delivered then Applied(own, last.report) else own;
            InStep(Applied(venue, last.report), own', cid)
            && LostRows(own'.quarantine, cid) == LostRows(own.quarantine, cid)
  {
    hide Applied, Total, LostRows;
    assert [last][0] == last;
    if last.report.cid != cid { EffectOfReport(venue, last.report, cid); }
    OneMore(venue, own, last, cid, 0.0);
    RowMoves(own, last.report, cid);
  }

  /** From books in step, a history of which nothing goes unseen raises no suspicion. */
  lemma {:induction false} InStepStays(v: Books, b: Books, history: seq<Sent>, cid: string)
    requires InStep(v, b, cid) && TrueHistory(v, history, cid) && NothingUnseen(history, cid)
    ensures InStep(Received(v, history, true), Received(b, history, false), cid)
    ensures LostRows(Received(b, history, false).quarantine, cid) == LostRows(b.quarantine, cid)
  {
    if history != [] {
      var n := |history| - 1;
      var init, last := history[..n], history[n];
      TrueInit(v, history, n, cid);
      assert NothingUnseen(init, cid) && NothingUnseen([last], cid);
      hide Applied, Total, TrueHistory, LostRows, NothingUnseen, InStep, Received;
      InStepStays(v, b, init, cid);
      assert history == init + [last];
      NextIsTrue(v, init, last, cid);
      ReceivedThen(v, init, last, true);
      ReceivedThen(b, init, last, false);
      InStepStep(Received(v, init, true), Received(b, init, false), last, cid);
    }
  }

  lemma BustPutsInStep(v: Books, b: Books, history: seq<Sent>, r: Report)
    requires InStep(v, b, r.cid) && TrueHistory(v, history + [Sent(r, true)], r.cid)
    requires r.Busts().Some? && r.cumQty.Some?
    ensures var first := history + [Sent(r, true)];
            && InStep(Received(v, first, true), Received(b, first, false), r.cid)
            && LostRows(Received(b, first, false).quarantine, r.cid)
               == LostRows(Received(b, history, false).quarantine, r.cid)
  {
    hide Applied, Total, TrueHistory, Unseen, Received, LostRows;
    NextIsTrue(v, history, Sent(r, true), r.cid);
    GapIsUnseen(v, b, history, r.cid);
    ReceivedThen(v, history, Sent(r, true), true);
    ReceivedThen(b, history, Sent(r, true), false);
    var venue, own := Received(v, history, true), Received(b, history, false);
    OneMore(venue, own, Sent(r, true), r.cid, Unseen(v, history, r.cid));
    RowMoves(own, r, r.cid);
  }

  /** A bust or correction with CumQty hides what was lost, for good: whatever went unseen before it, it
      is not quarantined and the row is the venue's total again. In no continuation of which nothing goes
      unseen is the loss ever noticed, and no report lost before is ever on record. */
  lemma BustHidesALoss(v: Books, b: Books, history: seq<Sent>, r: Report, later: seq<Sent>)
    requires InStep(v, b, r.cid) && TrueHistory(v, history + [Sent(r, true)] + later, r.cid)
    requires r.Busts().Some? && r.cumQty.Some? && NothingUnseen(later, r.cid)
    ensures var all := history + [Sent(r, true)] + later;
            var before, after := Received(b, history, false), Received(b, all, false);
            && LostRows(after.quarantine, r.cid) == LostRows(before.quarantine, r.cid)
            && r.cid in after.rows && after.rows[r.cid].filled == VenueTotal(v, all, r.cid)
            && (forall i :: 0 <= i < |history| && !history[i].delivered ==>
                  history[i].report.Key() !in after.executions.at)
  {
    var first := history + [Sent(r, true)];
    var all := first + later;
    assert all[..|first|] == first;
    hide Applied, Total, TrueHistory, Unseen, Received, LostRows, NothingUnseen;
    TrueInit(v, all, |first|, r.cid);
    TrueRest(v, first, later, r.cid);
    BustPutsInStep(v, b, history, r);
    InStepStays(Received(v, first, true), Received(b, first, false), later, r.cid);
    ReceivedConcat(v, first, later, true);
    ReceivedConcat(b, first, later, false);
    forall i | 0 <= i < |history| && !history[i].delivered
      ensures history[i].report.Key() !in Received(b, all, false).executions.at
    {
      assert all[i] == history[i];
      LostStaysOut(v, b, all, i, r.cid);
    }
  }

  /** A lost report is on no record, as long as the venue does not send it again. */
  lemma LostStaysOut(v: Books, b: Books, history: seq<Sent>, i: nat, cid: string)
    requires i < |history| && !history[i].delivered && TrueHistory(v, history, cid)
    requires b.executions.at.Keys <= v.executions.at.Keys
    ensures history[i].report.Key() !in Received(b, history, false).executions.at
  {
    var key := history[i].report.Key();
    hide Applied, Total;
    assert TrueReport(v, history, i, cid);
    KeysReceived(v, b, history[..i]);
    assert key !in Received(b, history[..i], false).executions.at;
    LostStaysOutUpTo(v, b, history, i, |history|, cid);
    assert history[..|history|] == history;
  }

  lemma {:induction false} LostStaysOutUpTo(v: Books, b: Books, history: seq<Sent>, i: nat, n: nat, cid: string)
    requires i < n <= |history| && !history[i].delivered && TrueHistory(v, history, cid)
    requires history[i].report.Key() !in Received(b, history[..i], false).executions.at
    ensures history[i].report.Key() !in Received(b, history[..n], false).executions.at
    ensures history[i].report.Key() in Received(v, history[..n], true).executions.at
  {
    var m := n - 1;
    assert history[..n][..m] == history[..m];
    hide Applied, Total, TrueHistory;
    AppliedKeys(Received(v, history[..m], true), history[m].report);
    AppliedKeys(Received(b, history[..m], false), history[m].report);
    if i < m {
      LostStaysOutUpTo(v, b, history, i, m, cid);
      assert TrueReport(v, history, m, cid) by { assert TrueHistory(v, history, cid); TrueAt(v, history, m, cid); }
    }
  }

  lemma TrueAt(v: Books, history: seq<Sent>, i: nat, cid: string)
    requires TrueHistory(v, history, cid) && i < |history|
    ensures TrueReport(v, history, i, cid)
  {
  }

  lemma {:induction false} KeysReceived(v: Books, b: Books, history: seq<Sent>)
    requires b.executions.at.Keys <= v.executions.at.Keys
    ensures Received(b, history, false).executions.at.Keys <= Received(v, history, true).executions.at.Keys
  {
    if history != [] {
      var n := |history| - 1;
      KeysReceived(v, b, history[..n]);
      hide Applied;
      AppliedKeys(Received(v, history[..n], true), history[n].report);
      AppliedKeys(Received(b, history[..n], false), history[n].report);
    }
  }

  /** A lost report resent late never lowers the count below what was booked, nor reopens an ended order. */
  lemma ResendNeverGoesBack(b: Books, r: Report)
    requires r.cid in b.rows && r.Key() !in b.executions.at && r.possResend && SaysLost(RowOf(b, r.cid), r)
    requires r.Valid()
    ensures var before, after := b.rows[r.cid], Applied(b, r).rows[r.cid];
            && after.filled >= before.filled + OwnFill(r)
            && (before.status.IsTerminal() ==> after.status.IsTerminal())
  {
    hide Reported;
  }

  // ----- The handler -----

  datatype Published = PublishedFill(execId: string) | PublishedBust(ref: string) | PublishedOther

  function EventsOf(r: Report): seq<Published> {
    match r.kind
    case Trade(_) => [PublishedFill(r.execId)]
    case Bust(ref) => [PublishedBust(ref)]
    case Correct(ref, corrected) => [PublishedBust(ref)] + (if corrected.Some? then [PublishedFill(r.execId)] else [])
    case DuplicateReject => []
    case Other => [PublishedOther]
  }

  /** What goes on to the order manager: only fills, when the report cannot be trusted otherwise. */
  function FillsOnly(events: seq<Published>): seq<Published> {
    if events == [] then [] else
    FillsOnly(events[..|events| - 1]) + (if events[|events| - 1].PublishedFill? then [events[|events| - 1]] else [])
  }

  class FixProvider {
    const store: MemoryFixStore
    var published: seq<Published>
    var haltedOrders: seq<string>

    constructor (store: MemoryFixStore)
      ensures this.store == store && published == [] && haltedOrders == []
    {
      this.store, published, haltedOrders := store, [], [];
    }

    ghost function Current(): Books
      reads this, store
    {
      Books(store.orders, store.executions, store.quarantine)
    }

    /** The report is committed to the store in one transaction, and only then published. */
    method ApplyReport(r: Report)
      requires store.Valid()
      modifies this`published, this`haltedOrders, store`orders, store`openOrders, store`executions, store`quarantine
      ensures store.Valid() && Current() == Applied(old(Current()), r)
      ensures var known := r.Key() in old(store.executions).at;
              var repeat := known && old(store.executions).at[r.Key()].digest == r.digest;
              var lost := !known && SaysLost(RowOf(old(Current()), r.cid), r);
              && published == old(published)
                   + (if repeat then [] else if known || lost then FillsOnly(EventsOf(r)) else EventsOf(r))
              && haltedOrders == old(haltedOrders) + (if (known && !repeat) || lost then [r.cid] else [])
    {
      hide Reported, FillsOnly, Keeps, RowAfter;
      var key := r.Key();
      if key in store.executions.at {
        if store.executions.at[key].digest == r.digest { return; }
        store.RecordReport(r.cid, None, true, None, None, Some(Halted(r.cid, Contradiction)));
        assert store.executions == Reported(old(store.executions), None, None) == old(store.executions) by {
          NothingReported(old(store.executions));
        }
        published := published + FillsOnly(EventsOf(r));
        haltedOrders := haltedOrders + [r.cid];
        return;
      }
      var row := if r.cid in store.orders then Some(store.orders[r.cid]) else None;
      var lost := SaysLost(row, r);
      var updated := RowAfter(row, r);
      var isOpen := updated.Some? && !updated.value.status.IsTerminal();
      store.RecordReport(r.cid, updated, isOpen, Some(ExecutionOf(r)), r.Busts(),
                         if lost then Some(Halted(r.cid, ReportLost)) else None);
      published := published + (if lost then FillsOnly(EventsOf(r)) else EventsOf(r));
      if lost { haltedOrders := haltedOrders + [r.cid]; }
      assert row.Some? <==> updated.Some? by { RowStays(row, r); }
    }
  }

  lemma NothingReported(ex: Executions)
    ensures Reported(ex, None, None) == ex
  {
  }

  lemma RowStays(row: Option<OrderRow>, r: Report)
    ensures row.Some? <==> RowAfter(row, r).Some?
  {
  }
}
