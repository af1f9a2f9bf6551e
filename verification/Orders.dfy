/** The order state machine: a pure reducer from events to state, which never raises on an event of
    its own order and never drops one. */
module Orders {
  import opened Common
  import opened Fills

  datatype Status =
    | PendingSubmit | Submitting | Unknown | Accepted | PartiallyFilled | PendingCancel | PendingReplace
    | Filled | Canceled | Rejected | Expired
  {
    predicate IsTerminal() { this in {Filled, Canceled, Rejected, Expired} }
  }

  datatype Request = Request(
    clientOrderId: string, symbol: string, side: Side, quantity: real, limitPrice: Option<real>)

  datatype Event =
    | SubmitIntent(cid: string, request: Request)
    | SendStarted(cid: string, sendRecordId: Option<string>)
    | Acknowledged(cid: string, venueOrderId: string)
    | RejectReport(cid: string, reason: string, code: Option<string>)
    | OutcomeUnknown(cid: string)
    | FillReport(cid: string, fill: Fill)
    | FillBusted(cid: string, fillId: string)
    | CancelRequested(cid: string)
    | CancelReport(cid: string)
    | CancelRejected(cid: string, reason: string, code: Option<string>)
    | ReplaceRequested(cid: string, quantity: Option<real>, limitPrice: Option<real>)
    | Replaced(cid: string, quantity: Option<real>, limitPrice: Option<real>, newVenueOrderId: Option<string>)
    | ReplaceRejected(cid: string)
    | ExpiryReport(cid: string)
    | Restated(cid: string, status: Status, newVenueOrderId: Option<string>)
  {
    /** What the event's own validation lets through. */
    predicate Valid() {
      match this
      case SubmitIntent(_, request) => request.quantity > 0.0 && request.clientOrderId == cid
      case FillReport(_, fill) => fill.quantity > 0.0
      case ReplaceRequested(_, quantity, limitPrice) =>
        (quantity.Some? ==> quantity.value > 0.0) && (quantity.Some? || limitPrice.Some?)
      case Replaced(_, quantity, _, _) => quantity.Some? ==> quantity.value > 0.0
      case _ => true
    }
  }

  /** What recovery and reconciliation record of an order whose send never started. */
  function NeverSent(cid: string): Event { RejectReport(cid, "the send never started; never sent", Some("NEVER_SENT")) }

  datatype Target = To(status: Status) | Working | Resumed

  const LIVE: set<Status> := {Submitting, Unknown, Accepted, PartiallyFilled, PendingCancel, PendingReplace}

  /** The lifecycle table: where an event leads from a status, or nothing for an illegal transition.
      Intents, fills, busts and restatements do not depend on it. */
  function Transition(e: Event, s: Status): Option<Target> {
    match e
    case SendStarted(_, _) => if s == PendingSubmit then Some(To(Submitting)) else None
    case Acknowledged(_, _) =>
      if s in {Submitting, Unknown} then Some(Working)
      else if s in {PendingSubmit, Rejected} then None else Some(To(s))
    case RejectReport(_, _, _) => if s in {Filled, Canceled, Expired} then None else Some(To(Rejected))
    case OutcomeUnknown(_) => if s in LIVE then Some(To(Unknown)) else None
    case CancelRequested(_) =>
      if s in {Accepted, PartiallyFilled, PendingCancel, PendingReplace} then Some(To(PendingCancel))
      else if s in {Submitting, Unknown} then Some(To(s)) else None
    case CancelReport(_) => if s in LIVE || s == Canceled then Some(To(Canceled)) else None
    case CancelRejected(_, _, _) =>
      if s == PendingCancel then Some(Resumed) else if s == PendingSubmit then None else Some(To(s))
    case ReplaceRequested(_, _, _) => if s in {Accepted, PartiallyFilled} then Some(To(PendingReplace)) else None
    case Replaced(_, _, _, _) =>
      if s in {PendingReplace, Unknown, Accepted, PartiallyFilled} then Some(Working)
      else if s == PendingCancel then Some(To(PendingCancel)) else None
    case ReplaceRejected(_) =>
      if s == PendingReplace then Some(Working)
      else if s in {PendingCancel, Unknown, Filled, Canceled, Expired} then Some(To(s)) else None
    case ExpiryReport(_) => if s in LIVE || s == Expired then Some(To(Expired)) else None
    case _ => None
  }

  datatype Anomaly =
    | DuplicateIntent
    | IllegalTransition(status: Status)
    | FillAfterBust(fillId: string)
    | FeeDisputed(fillId: string)
    | TermsDisputed(fillId: string)
    | FillMismatch(fillId: string)
    | Overfill(filled: real, ceiling: real)
    | FillBeforeSend(fillId: string)
    | FillAfterTerminal(fillId: string, status: Status)
    | UnknownBust(fillId: string)
    | RestatedTerminal(before: Status, after: Status)

  datatype OrderState = OrderState(
    request: Request,
    status: Status,
    quantity: real,
    limitPrice: Option<real>,
    venueOrderId: Option<string>,
    filledQuantity: real,
    filledNotional: real,
    fills: seq<Fill>,
    pendingQuantity: Option<real>,
    pendingLimitPrice: Option<real>,
    rejectReason: Option<string>,
    rejectCode: Option<string>,
    anomalies: seq<Anomaly>,
    bustedFillIds: set<string>,
    sendRecordId: Option<string>)
  {
    predicate IsOpen() { !status.IsTerminal() }

    /** The most this order may fill: while a replace is pending, either quantity may be live. */
    function Ceiling(): real {
      if pendingQuantity.Some? then Larger(quantity, pendingQuantity.value) else quantity
    }

    function LeavesQuantity(): (leaves: real)
      ensures leaves >= 0.0
    {
      if !IsOpen() then 0.0 else Larger(Ceiling() - filledQuantity, 0.0)
    }

    predicate HasPendingTerms() { pendingQuantity.Some? || pendingLimitPrice.Some? }

    function Note(a: Anomaly): OrderState { this.(anomalies := anomalies + [a]) }
  }

  /** What an order adds to the position in a symbol. */
  function Held(s: OrderState, symbol: string): real {
    if s.request.symbol == symbol then Signed(s.request.side, s.filledQuantity) else 0.0
  }

  function NewOrder(request: Request): OrderState {
    OrderState(request, PendingSubmit, request.quantity, request.limitPrice, None, 0.0, 0.0, [], None, None,
               None, None, [], {}, None)
  }

  function WorkingStatus(s: OrderState): Status {
    if s.filledQuantity >= s.quantity then Filled
    else if s.filledQuantity > 0.0 then PartiallyFilled else Accepted
  }

  function FindFill(fills: seq<Fill>, fillId: string): (i: nat)
    ensures i <= |fills|
    ensures i < |fills| ==> fills[i].fillId == fillId
    ensures forall j :: 0 <= j < i ==> fills[j].fillId != fillId
  {
    if fills == [] || fills[0].fillId == fillId then 0 else 1 + FindFill(fills[1..], fillId)
  }

  /** A second report of a fill already booked: identical, more detailed, or in dispute. */
  function ApplyKnownFill(s: OrderState, i: nat, fill: Fill): OrderState
    requires i < |s.fills|
  {
    var known := s.fills[i];
    if known == fill then s
    else if SameExecution(known, fill) then
      var merged := s.(fills := s.fills[i := MergedFill(known, fill)]);
      if FeesDiffer(known, fill) then merged.Note(FeeDisputed(fill.fillId)) else merged
    else s.Note(TermsDisputed(fill.fillId))
  }

  function ApplyNewFill(s: OrderState, fill: Fill): OrderState {
    var booked := s.(
      fills := s.fills + [fill],
      filledQuantity := s.filledQuantity + fill.quantity,
      filledNotional := s.filledNotional + Times(fill.price, fill.quantity));
    var matched :=
      if fill.symbol != s.request.symbol || fill.side != s.request.side
      then booked.Note(FillMismatch(fill.fillId)) else booked;
    var counted :=
      if matched.filledQuantity > matched.Ceiling()
      then matched.Note(Overfill(matched.filledQuantity, matched.Ceiling())) else matched;
    var noted :=
      if s.status == PendingSubmit then counted.Note(FillBeforeSend(fill.fillId))
      else if s.status in {Canceled, Expired, Rejected} then counted.Note(FillAfterTerminal(fill.fillId, s.status))
      else counted;
    if noted.filledQuantity >= noted.Ceiling() then noted.(status := Filled)
    else if s.status in {Accepted, Submitting} then noted.(status := PartiallyFilled)
    else noted
  }

  function ApplyFill(s: OrderState, fill: Fill): OrderState {
    if fill.fillId in s.bustedFillIds then s.Note(FillAfterBust(fill.fillId)) else
    var i := FindFill(s.fills, fill.fillId);
    if i < |s.fills| then ApplyKnownFill(s, i, fill) else ApplyNewFill(s, fill)
  }

  function Without(fills: seq<Fill>, fillId: string): seq<Fill> {
    if fills == [] then [] else
    var last := fills[|fills| - 1];
    Without(fills[..|fills| - 1], fillId) + (if last.fillId != fillId then [last] else [])
  }

  function ApplyBust(s: OrderState, fillId: string): OrderState {
    if fillId in s.bustedFillIds then s else
    var busted := s.(bustedFillIds := s.bustedFillIds + {fillId});
    var i := FindFill(s.fills, fillId);
    if i == |s.fills| then busted.Note(UnknownBust(fillId)) else
    var target := s.fills[i];
    var updated := busted.(
      fills := Without(s.fills, fillId),
      filledQuantity := s.filledQuantity - target.quantity,
      filledNotional := s.filledNotional - Times(target.price, target.quantity));
    if s.status == Filled then updated.(status := Unknown)
    else if s.status == PartiallyFilled && updated.filledQuantity == 0.0 then updated.(status := Accepted)
    else updated
  }

  function ApplyRestated(s: OrderState, status: Status, venueOrderId: Option<string>): OrderState {
    var noted := if !s.IsOpen() && s.status != status then s.Note(RestatedTerminal(s.status, status)) else s;
    noted.(status := status, venueOrderId := OrElse(venueOrderId, s.venueOrderId))
  }

  function ApplyTransition(s: OrderState, e: Event): OrderState {
    match Transition(e, s.status)
    case None => s.Note(IllegalTransition(s.status))
    case Some(To(status)) => s.(status := status)
    case Some(Working) => s.(status := WorkingStatus(s))
    case Some(Resumed) => s.(status := if s.HasPendingTerms() then PendingReplace else WorkingStatus(s))
  }

  /** A replace settling below what has filled is an overfill the fill did not see. */
  function NoteExposedOverfill(before: OrderState, after: OrderState): OrderState {
    if before.filledQuantity > before.Ceiling() || after.filledQuantity <= after.quantity then after
    else after.Note(Overfill(after.filledQuantity, after.quantity))
  }

  /** Python's `a or b or c` on optional quantities, where zero gives way like a missing one. */
  function FirstQuantity(a: Option<real>, b: Option<real>, c: real): real {
    if a.Some? && a.value != 0.0 then a.value else if b.Some? && b.value != 0.0 then b.value else c
  }

  function ApplyReplaced(s: OrderState, next: OrderState, quantity: Option<real>, limitPrice: Option<real>,
                         venueOrderId: Option<string>): OrderState {
    var terms := next.(
      quantity := FirstQuantity(quantity, s.pendingQuantity, s.quantity),
      limitPrice := if limitPrice.Some? then limitPrice
                    else if s.pendingLimitPrice.Some? then s.pendingLimitPrice else s.limitPrice,
      pendingQuantity := None,
      pendingLimitPrice := None,
      venueOrderId := OrElse(venueOrderId, s.venueOrderId));
    var noted := NoteExposedOverfill(s, terms);
    if next.status in {Accepted, PartiallyFilled, Filled} then noted.(status := WorkingStatus(noted)) else noted
  }

  /** One event, before pending terms are settled. A replace request or report that the status does
      not allow carries no terms; the other events leave their details even then. */
  function Dispatch(s: OrderState, e: Event): OrderState {
    var next := ApplyTransition(s, e);
    match e
    case SubmitIntent(_, _) => s.Note(DuplicateIntent)
    case FillReport(_, fill) => ApplyFill(s, fill)
    case FillBusted(_, fillId) => ApplyBust(s, fillId)
    case Restated(_, status, venueOrderId) => ApplyRestated(s, status, venueOrderId)
    case Acknowledged(_, venueOrderId) => next.(venueOrderId := Some(venueOrderId))
    case RejectReport(_, reason, code) => next.(rejectReason := Some(reason), rejectCode := code)
    case CancelRejected(_, reason, code) => next.(rejectReason := Some(reason), rejectCode := code)
    case SendStarted(_, sendRecordId) => next.(sendRecordId := sendRecordId)
    case ReplaceRequested(_, quantity, limitPrice) =>
      if Transition(e, s.status).None? then next
      else next.(pendingQuantity := quantity, pendingLimitPrice := limitPrice)
    case Replaced(_, quantity, limitPrice, venueOrderId) =>
      if Transition(e, s.status).None? then next
      else ApplyReplaced(s, next, quantity, limitPrice, venueOrderId)
    case ReplaceRejected(_) =>
      NoteExposedOverfill(s, next.(pendingQuantity := None, pendingLimitPrice := None))
    case OutcomeUnknown(_) => next
    case CancelRequested(_) => next
    case CancelReport(_) => next
    case ExpiryReport(_) => next
  }

  /** Requested terms last only while the outcome of the request is open. */
  function Settle(s: OrderState): OrderState {
    if s.status in {PendingCancel, PendingReplace, Unknown} || !s.HasPendingTerms() then s
    else s.(pendingQuantity := None, pendingLimitPrice := None)
  }

  function Apply(s: OrderState, e: Event): OrderState {
    Settle(Dispatch(s, e))
  }

  datatype OrderError = WrongOrder | NoIntent

  /** The reducer: the only event it refuses is one for another order. */
  function ApplyEvent(s: OrderState, e: Event): (r: Result<OrderState, OrderError>)
    ensures r.Err? <==> e.cid != s.request.clientOrderId
  {
    if e.cid != s.request.clientOrderId then Err(WrongOrder) else Ok(Apply(s, e))
  }

  function Fold(s: OrderState, events: seq<Event>): OrderState {
    if events == [] then s else Apply(Fold(s, events[..|events| - 1]), events[|events| - 1])
  }

  predicate AllValid(events: seq<Event>) { forall i :: 0 <= i < |events| ==> events[i].Valid() }

  // ----- Money -----

  function SumQuantity(fills: seq<Fill>): real {
    if fills == [] then 0.0 else SumQuantity(fills[..|fills| - 1]) + fills[|fills| - 1].quantity
  }

  function SumNotional(fills: seq<Fill>): real {
    if fills == [] then 0.0
    else SumNotional(fills[..|fills| - 1]) + Times(fills[|fills| - 1].price, fills[|fills| - 1].quantity)
  }

  function Ids(fills: seq<Fill>): set<string> {
    if fills == [] then {} else Ids(fills[..|fills| - 1]) + {fills[|fills| - 1].fillId}
  }

  /** Each fill was really traded, and no id occurs twice. */
  predicate SoundFills(fills: seq<Fill>) {
    fills == [] ||
    (var init, last := fills[..|fills| - 1], fills[|fills| - 1];
     SoundFills(init) && last.quantity > 0.0 && last.fillId !in Ids(init))
  }

  /** The running totals are the sums over the fills, each counted once and none of them busted. */
  predicate MoneyHolds(s: OrderState) {
    && s.filledQuantity == SumQuantity(s.fills)
    && s.filledNotional == SumNotional(s.fills)
    && SoundFills(s.fills)
    && Ids(s.fills) !! s.bustedFillIds
  }

  lemma AppendFacts(fills: seq<Fill>, f: Fill)
    ensures SumQuantity(fills + [f]) == SumQuantity(fills) + f.quantity
    ensures SumNotional(fills + [f]) == SumNotional(fills) + Times(f.price, f.quantity)
    ensures Ids(fills + [f]) == Ids(fills) + {f.fillId}
    ensures SoundFills(fills + [f]) <==> SoundFills(fills) && f.quantity > 0.0 && f.fillId !in Ids(fills)
  {
    hide Times;
    assert (fills + [f])[..|fills|] == fills;
  }

  lemma {:induction false} UpdateFacts(fills: seq<Fill>, i: nat, f: Fill)
    requires i < |fills| && SameExecution(f, fills[i]) && f.fillId == fills[i].fillId
    ensures SumQuantity(fills[i := f]) == SumQuantity(fills)
    ensures SumNotional(fills[i := f]) == SumNotional(fills)
    ensures Ids(fills[i := f]) == Ids(fills)
    ensures SoundFills(fills[i := f]) == SoundFills(fills)
  {
    hide Times;
    var n := |fills| - 1;
    if i < n {
      assert fills[i := f][..n] == fills[..n][i := f];
      UpdateFacts(fills[..n], i, f);
    } else {
      assert fills[i := f][..n] == fills[..n];
    }
  }

  lemma {:induction false} IdOf(fills: seq<Fill>, i: nat)
    requires i < |fills|
    ensures fills[i].fillId in Ids(fills)
    ensures SoundFills(fills) ==> fills[i].quantity > 0.0
  {
    if i < |fills| - 1 { IdOf(fills[..|fills| - 1], i); }
  }

  lemma {:induction false} IndexOf(fills: seq<Fill>, fillId: string) returns (i: nat)
    requires fillId in Ids(fills)
    ensures i < |fills| && fills[i].fillId == fillId
  {
    if fills[|fills| - 1].fillId == fillId { return |fills| - 1; }
    i := IndexOf(fills[..|fills| - 1], fillId);
  }

  /** The scan finds a fill exactly when its id is booked. */
  lemma FindFillFinds(fills: seq<Fill>, fillId: string)
    ensures FindFill(fills, fillId) < |fills| <==> fillId in Ids(fills)
  {
    hide FindFill, Ids;
    if fillId in Ids(fills) {
      var i := IndexOf(fills, fillId);
    } else if FindFill(fills, fillId) < |fills| {
      IdOf(fills, FindFill(fills, fillId));
    }
  }

  lemma {:induction false} WithoutFacts(fills: seq<Fill>, fillId: string)
    ensures Ids(Without(fills, fillId)) == Ids(fills) - {fillId}
    ensures SoundFills(fills) ==> SoundFills(Without(fills, fillId))
    ensures fillId !in Ids(fills) ==> Without(fills, fillId) == fills
  {
    if fills != [] {
      var init, last := fills[..|fills| - 1], fills[|fills| - 1];
      assert fills == init + [last];
      WithoutFacts(init, fillId);
      WithoutLast(init, last, fillId);
    }
  }

  lemma WithoutLast(init: seq<Fill>, last: Fill, fillId: string)
    requires Ids(Without(init, fillId)) == Ids(init) - {fillId}
    requires SoundFills(init) ==> SoundFills(Without(init, fillId))
    requires fillId !in Ids(init) ==> Without(init, fillId) == init
    ensures Ids(Without(init + [last], fillId)) == Ids(init + [last]) - {fillId}
    ensures SoundFills(init + [last]) ==> SoundFills(Without(init + [last], fillId))
    ensures fillId !in Ids(init + [last]) ==> Without(init + [last], fillId) == init + [last]
  {
    hide SoundFills, Ids, Without, SumQuantity, SumNotional, Times;
    WithoutAppend(init, last, fillId);
    AppendFacts(init, last);
    if last.fillId != fillId {
      AppendFacts(Without(init, fillId), last);
    }
  }

  lemma WithoutAppend(init: seq<Fill>, last: Fill, fillId: string)
    ensures Without(init + [last], fillId)
         == (if last.fillId != fillId then Without(init, fillId) + [last] else Without(init, fillId))
  {
    assert (init + [last])[..|init|] == init;
    assert Without(init, fillId) + [] == Without(init, fillId);
  }

  /** Taking a booked fill out takes its amounts out of the sums. */
  lemma {:induction false} SumsWithout(fills: seq<Fill>, i: nat)
    requires i < |fills| && SoundFills(fills)
    ensures SumQuantity(fills) == SumQuantity(Without(fills, fills[i].fillId)) + fills[i].quantity
    ensures SumNotional(fills)
         == SumNotional(Without(fills, fills[i].fillId)) + Times(fills[i].price, fills[i].quantity)
  {
    var init, last := fills[..|fills| - 1], fills[|fills| - 1];
    assert fills == init + [last];
    if i == |fills| - 1 {
      SumsWithoutLast(init, last);
    } else {
      SumsWithout(init, i);
      IdOf(init, i);
      SumsWithoutEarlier(init, last, fills[i]);
    }
  }

  lemma SumsWithoutLast(init: seq<Fill>, last: Fill)
    requires last.fillId !in Ids(init)
    ensures SumQuantity(init + [last]) == SumQuantity(Without(init + [last], last.fillId)) + last.quantity
    ensures SumNotional(init + [last])
         == SumNotional(Without(init + [last], last.fillId)) + Times(last.price, last.quantity)
  {
    hide *;
    WithoutAppend(init, last, last.fillId);
    WithoutFacts(init, last.fillId);
    AppendFacts(init, last);
  }

  lemma SumsWithoutEarlier(init: seq<Fill>, last: Fill, f: Fill)
    requires last.fillId != f.fillId
    requires SumQuantity(init) == SumQuantity(Without(init, f.fillId)) + f.quantity
    requires SumNotional(init) == SumNotional(Without(init, f.fillId)) + Times(f.price, f.quantity)
    ensures SumQuantity(init + [last]) == SumQuantity(Without(init + [last], f.fillId)) + f.quantity
    ensures SumNotional(init + [last]) == SumNotional(Without(init + [last], f.fillId)) + Times(f.price, f.quantity)
  {
    hide *;
    WithoutAppend(init, last, f.fillId);
    AppendFacts(init, last);
    AppendFacts(Without(init, f.fillId), last);
  }

  /** What one fill report does to the money: nothing, a detail of a booked fill, or one more fill. */
  lemma FillKeepsMoney(s: OrderState, fill: Fill)
    requires MoneyHolds(s) && fill.quantity > 0.0
    ensures MoneyHolds(ApplyFill(s, fill))
    ensures ApplyFill(s, fill).bustedFillIds == s.bustedFillIds
    ensures Ids(ApplyFill(s, fill).fills)
         == Ids(s.fills) + (if fill.fillId in s.bustedFillIds then {} else {fill.fillId})
  {
    hide Times, SumQuantity, SumNotional, Ids, SoundFills, MergedFill, FindFill, FeesDiffer;
    var i := FindFill(s.fills, fill.fillId);
    FindFillFinds(s.fills, fill.fillId);
    if i < |s.fills| {
      UpdateFacts(s.fills, i, MergedFill(s.fills[i], fill));
    } else {
      AppendFacts(s.fills, fill);
    }
  }

  lemma BustKeepsMoney(s: OrderState, fillId: string)
    requires MoneyHolds(s)
    ensures MoneyHolds(ApplyBust(s, fillId))
    ensures ApplyBust(s, fillId).bustedFillIds == s.bustedFillIds + {fillId}
    ensures Ids(ApplyBust(s, fillId).fills) == Ids(s.fills) - {fillId}
  {
    hide Times, SumQuantity, SumNotional, Ids, SoundFills, FindFill, Without;
    var i := FindFill(s.fills, fillId);
    FindFillFinds(s.fills, fillId);
    WithoutFacts(s.fills, fillId);
    if i < |s.fills| { SumsWithout(s.fills, i); }
  }

  predicate SameMoney(a: OrderState, b: OrderState) {
    && a.fills == b.fills && a.bustedFillIds == b.bustedFillIds
    && a.filledQuantity == b.filledQuantity && a.filledNotional == b.filledNotional
  }

  /** What was asked for stays what was asked for. */
  lemma ApplyKeepsRequest(s: OrderState, e: Event)
    ensures Apply(s, e).request == s.request
  {
    hide Times, Transition, MergedFill, FeesDiffer, FindFill, Without, WorkingStatus, FirstQuantity, OrElse;
    assert ApplyTransition(s, e).request == s.request;
    hide ApplyTransition;
  }

  /** Every other event leaves the money alone. */
  lemma OnlyFillsAndBustsMoveMoney(s: OrderState, e: Event)
    requires !e.FillReport? && !e.FillBusted?
    ensures SameMoney(Apply(s, e), s)
  {
    hide Transition, WorkingStatus, FirstQuantity, OrElse;
    assert SameMoney(ApplyTransition(s, e), s);
    hide ApplyTransition;
    assert SameMoney(Dispatch(s, e), s);
  }

  lemma SettleKeepsMoney(s: OrderState)
    ensures SameMoney(Settle(s), s) && Settle(s).anomalies == s.anomalies
  {
  }

  /** The reducer keeps its totals, whatever the event, and books and busts only what it is told. */
  lemma ApplyKeepsMoney(s: OrderState, e: Event)
    requires MoneyHolds(s) && e.Valid()
    ensures MoneyHolds(Apply(s, e))
    ensures Apply(s, e).bustedFillIds == s.bustedFillIds + (if e.FillBusted? then {e.fillId} else {})
    ensures Ids(Apply(s, e).fills)
         == (if e.FillReport? && e.fill.fillId !in s.bustedFillIds then Ids(s.fills) + {e.fill.fillId}
             else if e.FillBusted? then Ids(s.fills) - {e.fillId} else Ids(s.fills))
  {
    hide Ids, SumQuantity, SumNotional, SoundFills, ApplyFill, ApplyBust, ApplyTransition, Settle;
    SettleKeepsMoney(Dispatch(s, e));
    if e.FillReport? {
      FillKeepsMoney(s, e.fill);
    } else if e.FillBusted? {
      BustKeepsMoney(s, e.fillId);
    } else {
      OnlyFillsAndBustsMoveMoney(s, e);
    }
  }

  lemma NewFillOnlyNotes(s: OrderState, fill: Fill)
    ensures |s.anomalies| <= |ApplyNewFill(s, fill).anomalies|
    ensures ApplyNewFill(s, fill).anomalies[..|s.anomalies|] == s.anomalies
  {
    hide Times;
  }

  lemma MoneyEventsOnlyNote(s: OrderState, fill: Fill, fillId: string)
    ensures s.anomalies <= ApplyFill(s, fill).anomalies
    ensures s.anomalies <= ApplyBust(s, fillId).anomalies
  {
    NewFillOnlyNotes(s, fill);
    hide ApplyNewFill, Times, MergedFill, FeesDiffer, FindFill, Without, SameExecution;
  }

  lemma LifecycleOnlyNotes(s: OrderState, e: Event)
    requires !e.FillReport? && !e.FillBusted?
    ensures s.anomalies <= Dispatch(s, e).anomalies
  {
    hide Transition, WorkingStatus, FirstQuantity, OrElse;
    assert s.anomalies <= ApplyTransition(s, e).anomalies;
    hide ApplyTransition;
  }

  /** An order's anomalies are a log: no event ever takes one back. */
  lemma AnomaliesOnlyGrow(s: OrderState, e: Event)
    ensures s.anomalies <= Apply(s, e).anomalies
  {
    hide ApplyFill, ApplyBust, ApplyTransition, Settle;
    SettleKeepsMoney(Dispatch(s, e));
    if e.FillReport? {
      MoneyEventsOnlyNote(s, e.fill, "");
    } else if e.FillBusted? {
      MoneyEventsOnlyNote(s, Fill("", "", "", Buy, 0.0, 0.0, None, None, None, Undisclosed), e.fillId);
    } else {
      LifecycleOnlyNotes(s, e);
      hide Dispatch;
    }
  }

  function Reported(events: seq<Event>): set<string> {
    set i | 0 <= i < |events| && events[i].FillReport? :: events[i].fill.fillId
  }

  function Busted(events: seq<Event>): set<string> {
    set i | 0 <= i < |events| && events[i].FillBusted? :: events[i].fillId
  }

  lemma ReportedGrows(init: seq<Event>, e: Event)
    ensures Reported(init + [e]) == Reported(init) + (if e.FillReport? then {e.fill.fillId} else {})
    ensures Busted(init + [e]) == Busted(init) + (if e.FillBusted? then {e.fillId} else {})
  {
    var all := init + [e];
    assert all[|init|] == e;
    forall id | id in Reported(init) ensures id in Reported(all) {
      var i :| 0 <= i < |init| && init[i].FillReport? && init[i].fill.fillId == id;
      assert all[i] == init[i];
    }
    forall id | id in Busted(init) ensures id in Busted(all) {
      var i :| 0 <= i < |init| && init[i].FillBusted? && init[i].fillId == id;
      assert all[i] == init[i];
    }
  }

  /** However fills, repeats, busts and lifecycle events are interleaved, what is booked is exactly what
      was reported and not busted, each once, and the totals are the sums over it. */
  lemma {:induction false} BookedIsReportedMinusBusted(request: Request, events: seq<Event>)
    requires AllValid(events)
    ensures var s := Fold(NewOrder(request), events);
            && MoneyHolds(s)
            && s.bustedFillIds == Busted(events)
            && Ids(s.fills) == Reported(events) - Busted(events)
  {
    if events != [] {
      var init, e := events[..|events| - 1], events[|events| - 1];
      assert events == init + [e];
      BookedIsReportedMinusBusted(request, init);
      ReportedGrows(init, e);
      var s := Fold(NewOrder(request), init);
      assert e.Valid();
      hide Times, MoneyHolds, Reported, Busted, Dispatch, Ids, Apply;
      ApplyKeepsMoney(s, e);
      assert Fold(NewOrder(request), events) == Apply(s, e);
    }
  }

  /** Reports of one fill agree on what traded. */
  predicate ReportsAgree(events: seq<Event>, terms: string -> (real, real)) {
    forall i :: 0 <= i < |events| && events[i].FillReport? ==>
      terms(events[i].fill.fillId) == (events[i].fill.price, events[i].fill.quantity)
  }

  predicate HasTerms(fills: seq<Fill>, terms: string -> (real, real)) {
    fills == [] ||
    (var last := fills[|fills| - 1];
     terms(last.fillId) == (last.price, last.quantity) && HasTerms(fills[..|fills| - 1], terms))
  }

  lemma {:induction false} UpdateKeepsTerms(fills: seq<Fill>, i: nat, f: Fill, terms: string -> (real, real))
    requires i < |fills| && SameExecution(f, fills[i]) && f.fillId == fills[i].fillId && HasTerms(fills, terms)
    ensures HasTerms(fills[i := f], terms)
  {
    var n := |fills| - 1;
    if i < n {
      assert fills[i := f][..n] == fills[..n][i := f];
      UpdateKeepsTerms(fills[..n], i, f, terms);
    } else {
      assert fills[i := f][..n] == fills[..n];
    }
  }

  lemma {:induction false} WithoutKeepsTerms(fills: seq<Fill>, fillId: string, terms: string -> (real, real))
    requires HasTerms(fills, terms)
    ensures HasTerms(Without(fills, fillId), terms)
  {
    if fills != [] {
      var init, last := fills[..|fills| - 1], fills[|fills| - 1];
      WithoutKeepsTerms(init, fillId, terms);
      var kept := Without(init, fillId);
      assert (kept + [last])[..|kept|] == kept;
      if last.fillId == fillId { assert kept + [] == kept; }
    }
  }

  lemma {:induction false} TermsOf(fills: seq<Fill>, i: nat, terms: string -> (real, real))
    requires i < |fills| && HasTerms(fills, terms)
    ensures terms(fills[i].fillId) == (fills[i].price, fills[i].quantity)
  {
    if i < |fills| - 1 { TermsOf(fills[..|fills| - 1], i, terms); }
  }

  lemma FillKeepsTerms(s: OrderState, fill: Fill, terms: string -> (real, real))
    requires HasTerms(s.fills, terms) && terms(fill.fillId) == (fill.price, fill.quantity)
    ensures HasTerms(ApplyFill(s, fill).fills, terms)
  {
    hide Times, FindFill, MergedFill, FeesDiffer;
    var i := FindFill(s.fills, fill.fillId);
    if i < |s.fills| {
      UpdateKeepsTerms(s.fills, i, MergedFill(s.fills[i], fill), terms);
    } else {
      assert (s.fills + [fill])[..|s.fills|] == s.fills;
    }
  }

  lemma StepKeepsTerms(s: OrderState, e: Event, terms: string -> (real, real))
    requires HasTerms(s.fills, terms)
    requires e.FillReport? ==> terms(e.fill.fillId) == (e.fill.price, e.fill.quantity)
    ensures HasTerms(Apply(s, e).fills, terms)
  {
    hide HasTerms, ApplyFill, ApplyTransition, Settle, Without, FindFill, Times;
    SettleKeepsMoney(Dispatch(s, e));
    if e.FillReport? {
      FillKeepsTerms(s, e.fill, terms);
    } else if e.FillBusted? {
      WithoutKeepsTerms(s.fills, e.fillId, terms);
    } else {
      OnlyFillsAndBustsMoveMoney(s, e);
    }
  }

  lemma {:induction false} FoldKeepsTerms(request: Request, events: seq<Event>, terms: string -> (real, real))
    requires ReportsAgree(events, terms)
    ensures HasTerms(Fold(NewOrder(request), events).fills, terms)
  {
    if events != [] {
      var init := events[..|events| - 1];
      FoldKeepsTerms(request, init, terms);
      hide Apply, HasTerms;
      StepKeepsTerms(Fold(NewOrder(request), init), events[|events| - 1], terms);
    }
  }

  /** Sums over the same fills in another order are the same sums. */
  lemma {:induction false} SumsIgnoreOrder(a: seq<Fill>, b: seq<Fill>, terms: string -> (real, real))
    requires SoundFills(a) && SoundFills(b) && Ids(a) == Ids(b) && HasTerms(a, terms) && HasTerms(b, terms)
    ensures SumQuantity(a) == SumQuantity(b) && SumNotional(a) == SumNotional(b)
  {
    hide Times;
    if a == [] {
      assert b == [];
    } else {
      var init, last := a[..|a| - 1], a[|a| - 1];
      hide Without;
      var j := IndexOf(b, last.fillId);
      WithoutFacts(b, last.fillId);
      WithoutKeepsTerms(b, last.fillId, terms);
      SumsIgnoreOrder(init, Without(b, last.fillId), terms);
      SumsWithout(b, j);
      TermsOf(b, j, terms);
    }
  }

  /** Money does not depend on delivery order: two histories of one order that report and bust the same
      fills on the same terms end with the same quantity and notional filled. */
  lemma MoneyIgnoresDeliveryOrder(request: Request, first: seq<Event>, second: seq<Event>,
                                  terms: string -> (real, real))
    requires AllValid(first) && AllValid(second) && ReportsAgree(first, terms) && ReportsAgree(second, terms)
    requires Reported(first) - Busted(first) == Reported(second) - Busted(second)
    ensures var a, b := Fold(NewOrder(request), first), Fold(NewOrder(request), second);
            a.filledQuantity == b.filledQuantity && a.filledNotional == b.filledNotional
  {
    hide Fold, Reported, Busted, HasTerms, SoundFills, Ids, SumQuantity, SumNotional;
    BookedIsReportedMinusBusted(request, first);
    BookedIsReportedMinusBusted(request, second);
    FoldKeepsTerms(request, first, terms);
    FoldKeepsTerms(request, second, terms);
    SumsIgnoreOrder(Fold(NewOrder(request), first).fills, Fold(NewOrder(request), second).fills, terms);
  }

  // ----- Status -----

  /** What each status promises about the fill count, and where pending terms may be found. */
  predicate StatusHolds(s: OrderState) {
    && s.quantity > 0.0 && (s.pendingQuantity.Some? ==> s.pendingQuantity.value > 0.0)
    && (s.status == Accepted ==> s.filledQuantity == 0.0)
    && (s.status == PartiallyFilled ==> 0.0 < s.filledQuantity < s.quantity)
    && (s.status == Filled ==> s.filledQuantity >= s.quantity)
    && (s.HasPendingTerms() ==> s.status in {PendingCancel, PendingReplace, Unknown})
  }

  lemma {:induction false} SumIsPositive(fills: seq<Fill>)
    requires SoundFills(fills)
    ensures SumQuantity(fills) >= 0.0 && (fills != [] ==> SumQuantity(fills) > 0.0)
  {
    if fills != [] {
      SumIsPositive(fills[..|fills| - 1]);
    }
  }

  lemma FilledIsNotNegative(s: OrderState)
    requires MoneyHolds(s)
    ensures s.filledQuantity >= 0.0
  {
    SumIsPositive(s.fills);
  }

  lemma FillKeepsStatus(s: OrderState, fill: Fill)
    requires MoneyHolds(s) && StatusHolds(s) && fill.quantity > 0.0
    ensures StatusHolds(Settle(ApplyFill(s, fill)))
  {
    hide Times, MergedFill, FindFill, FeesDiffer, MoneyHolds, ApplyNewFill, ApplyKnownFill;
    FilledIsNotNegative(s);
    NewFillKeepsStatus(s, fill);
    var i := FindFill(s.fills, fill.fillId);
    if i < |s.fills| {
      KnownFillKeepsStatus(s, i, fill);
    }
  }

  lemma KnownFillKeepsStatus(s: OrderState, i: nat, fill: Fill)
    requires StatusHolds(s) && i < |s.fills|
    ensures StatusHolds(Settle(ApplyKnownFill(s, i, fill)))
  {
    hide MergedFill, FeesDiffer, SameExecution;
  }

  lemma NewFillKeepsStatus(s: OrderState, fill: Fill)
    requires s.filledQuantity >= 0.0 && StatusHolds(s) && fill.quantity > 0.0
    ensures StatusHolds(Settle(ApplyNewFill(s, fill)))
  {
    hide Times;
    var s' := ApplyNewFill(s, fill);
    assert s'.quantity == s.quantity && s'.pendingQuantity == s.pendingQuantity
        && s'.pendingLimitPrice == s.pendingLimitPrice && s'.filledQuantity == s.filledQuantity + fill.quantity;
    assert s'.status == (if s'.filledQuantity >= s.Ceiling() then Filled
                         else if s.status in {Accepted, Submitting} then PartiallyFilled else s.status);
    hide ApplyNewFill;
  }

  lemma BustKeepsStatus(s: OrderState, fillId: string)
    requires MoneyHolds(s) && StatusHolds(s)
    ensures StatusHolds(Settle(ApplyBust(s, fillId)))
  {
    BustKeepsMoney(s, fillId);
    FilledIsNotNegative(ApplyBust(s, fillId));
    var i := FindFill(s.fills, fillId);
    if i < |s.fills| { IdOf(s.fills, i); }
    hide Times, Without, FindFill, MoneyHolds, Ids, SoundFills, SumQuantity, SumNotional;
  }

  lemma TransitionKeepsStatus(s: OrderState, e: Event)
    requires s.filledQuantity >= 0.0 && StatusHolds(s)
    requires !e.Replaced? && !e.ReplaceRequested? && !e.ReplaceRejected?
    requires !e.FillReport? && !e.FillBusted? && !e.Restated? && !e.SubmitIntent?
    ensures StatusHolds(Settle(ApplyTransition(s, e)))
  {
  }

  lemma ReplaceRequestKeepsStatus(s: OrderState, e: Event)
    requires s.filledQuantity >= 0.0 && StatusHolds(s) && e.Valid() && e.ReplaceRequested?
    ensures StatusHolds(Apply(s, e))
  {
  }

  lemma ReplacedKeepsStatus(s: OrderState, e: Event)
    requires s.filledQuantity >= 0.0 && StatusHolds(s) && e.Valid() && e.Replaced?
    ensures StatusHolds(Apply(s, e))
  {
    hide OrElse;
  }

  lemma ReplaceRejectedKeepsStatus(s: OrderState, e: Event)
    requires s.filledQuantity >= 0.0 && StatusHolds(s) && e.ReplaceRejected?
    ensures StatusHolds(Apply(s, e))
  {
  }

  lemma LifecycleKeepsStatus(s: OrderState, e: Event)
    requires MoneyHolds(s) && StatusHolds(s) && e.Valid()
    requires !e.FillReport? && !e.FillBusted? && !e.Restated?
    ensures StatusHolds(Apply(s, e))
  {
    FilledIsNotNegative(s);
    hide MoneyHolds, StatusHolds;
    match e
    case Replaced(_, _, _, _) => ReplacedKeepsStatus(s, e);
    case ReplaceRequested(_, _, _) => ReplaceRequestKeepsStatus(s, e);
    case ReplaceRejected(_) => ReplaceRejectedKeepsStatus(s, e);
    case SubmitIntent(_, _) => NoteKeepsStatus(s, DuplicateIntent);
    case _ =>
      TransitionKeepsStatus(s, e);
      DetailsKeepStatus(s, e);
  }

  lemma NoteKeepsStatus(s: OrderState, a: Anomaly)
    requires StatusHolds(s)
    ensures StatusHolds(Settle(s.Note(a)))
  {
  }

  /** The details an event leaves beside its transition do not bear on the status. */
  lemma DetailsKeepStatus(s: OrderState, e: Event)
    requires !e.Replaced? && !e.ReplaceRequested? && !e.ReplaceRejected?
    requires !e.FillReport? && !e.FillBusted? && !e.Restated? && !e.SubmitIntent?
    ensures StatusHolds(Apply(s, e)) <==> StatusHolds(Settle(ApplyTransition(s, e)))
  {
    hide ApplyTransition, Transition;
  }

  lemma StepKeepsStatus(s: OrderState, e: Event)
    requires MoneyHolds(s) && StatusHolds(s) && e.Valid() && !e.Restated?
    ensures StatusHolds(Apply(s, e))
  {
    hide StatusHolds, MoneyHolds, ApplyFill, ApplyBust, ApplyTransition, Settle;
    if e.FillReport? {
      FillKeepsStatus(s, e.fill);
    } else if e.FillBusted? {
      BustKeepsStatus(s, e.fillId);
    } else {
      LifecycleKeepsStatus(s, e);
    }
  }

  /** In every run without restatements the status tells the truth about the fills. */
  lemma {:induction false} StatusTellsTheTruth(request: Request, events: seq<Event>)
    requires request.quantity > 0.0 && AllValid(events)
    requires forall i :: 0 <= i < |events| ==> !events[i].Restated?
    ensures StatusHolds(Fold(NewOrder(request), events))
  {
    if events != [] {
      var init, e := events[..|events| - 1], events[|events| - 1];
      StatusTellsTheTruth(request, init);
      BookedIsReportedMinusBusted(request, init);
      hide StatusHolds, MoneyHolds, Apply, Reported, Busted, Ids;
      StepKeepsStatus(Fold(NewOrder(request), init), e);
    }
  }

  /** Only a fill or a bust moves an ended order, and only a bust opens it again. */
  lemma TerminalIsLeftOnlyByMoney(s: OrderState, e: Event)
    requires !s.IsOpen() && !e.Restated? && Apply(s, e).status != s.status
    ensures || (e.FillReport? && Apply(s, e).status == Filled)
            || (e.FillBusted? && s.status == Filled && Apply(s, e).status == Unknown)
  {
    hide Times, FindFill, MergedFill, FeesDiffer, Without;
    if e.FillReport? {
      assert ApplyFill(s, e.fill).status in {s.status, Filled};
    } else if !e.FillBusted? {
      EndedStaysEnded(s, e);
    }
  }

  lemma EndedStaysEnded(s: OrderState, e: Event)
    requires !s.IsOpen() && !e.Restated? && !e.FillReport? && !e.FillBusted?
    ensures Apply(s, e).status == s.status
  {
    if !e.SubmitIntent? {
      assert Transition(e, s.status) in {None, Some(To(s.status))};
      assert ApplyTransition(s, e).status == s.status;
      hide Transition, ApplyTransition, FirstQuantity, OrElse;
    }
  }

  /** A started send is never forgotten: no event but the venue's own restatement leads back to an
      order that was not sent, and the record of the start ends it. */
  lemma SendIsNeverForgotten(s: OrderState, e: Event)
    requires !e.Restated? && Apply(s, e).status == PendingSubmit
    ensures s.status == PendingSubmit && !e.SendStarted?
  {
    hide Times, FindFill, MergedFill, FeesDiffer, Without;
    if e.FillReport? {
      assert ApplyFill(s, e.fill).status in {s.status, Filled, PartiallyFilled};
    } else if !e.FillBusted? && !e.SubmitIntent? {
      assert ApplyTransition(s, e).status == PendingSubmit ==> s.status == PendingSubmit && !e.SendStarted?;
      hide Transition, ApplyTransition, FirstQuantity, OrElse;
    }
  }

  // ----- Loops of the source -----

  /** The scan over the booked fills, as the source writes it. */
  method ApplyFillByScan(s: OrderState, fill: Fill) returns (updated: OrderState)
    ensures updated == ApplyFill(s, fill)
  {
    if fill.fillId in s.bustedFillIds {
      return s.Note(FillAfterBust(fill.fillId));
    }
    for index := 0 to |s.fills|
      invariant forall j :: 0 <= j < index ==> s.fills[j].fillId != fill.fillId
    {
      if s.fills[index].fillId == fill.fillId {
        return ApplyKnownFill(s, index, fill);
      }
    }
    updated := ApplyNewFill(s, fill);
  }

  /** Every order's state after a journalled history, or the event that has no intent. */
  function Replayed(events: seq<Event>): Result<map<string, OrderState>, OrderError> {
    if events == [] then Ok(map[]) else
    var e := events[|events| - 1];
    match Replayed(events[..|events| - 1])
    case Err(error) => Err(error)
    case Ok(orders) =>
      if e.SubmitIntent? && e.cid !in orders then Ok(orders[e.cid := NewOrder(e.request)])
      else if e.cid in orders then Ok(orders[e.cid := Apply(orders[e.cid], e)])
      else Err(NoIntent)
  }

  method Replay(events: seq<Event>) returns (r: Result<map<string, OrderState>, OrderError>)
    ensures r == Replayed(events)
  {
    var orders: map<string, OrderState> := map[];
    for i := 0 to |events|
      invariant Replayed(events[..i]) == Ok(orders)
    {
      var event := events[i];
      assert events[..i + 1][..i] == events[..i];
      if event.SubmitIntent? && event.cid !in orders {
        orders := orders[event.cid := NewOrder(event.request)];
      } else if event.cid in orders {
        orders := orders[event.cid := Apply(orders[event.cid], event)];
      } else {
        StuckAtMissingIntent(events, i + 1);
        return Err(NoIntent);
      }
    }
    assert events[..|events|] == events;
    r := Ok(orders);
  }

  lemma {:induction false} StuckAtMissingIntent(events: seq<Event>, n: nat)
    requires n <= |events| && Replayed(events[..n]) == Err(NoIntent)
    ensures Replayed(events) == Err(NoIntent)
  {
    if n < |events| {
      var init := events[..|events| - 1];
      assert init[..n] == events[..n];
      StuckAtMissingIntent(init, n);
    } else {
      assert events[..n] == events;
    }
  }

  /** The events of one order, in journal order. */
  function Of(cid: string, events: seq<Event>): seq<Event> {
    if events == [] then [] else
    Of(cid, events[..|events| - 1]) + (if events[|events| - 1].cid == cid then [events[|events| - 1]] else [])
  }

  /** Replay never mixes orders up: each one is its own first intent followed by its own events. */
  lemma {:induction false} ReplayIsPerOrder(events: seq<Event>, cid: string)
    requires Replayed(events).Ok?
    ensures cid in Replayed(events).value <==> Of(cid, events) != []
    ensures var own := Of(cid, events);
            own != [] ==>
              own[0].SubmitIntent? && Replayed(events).value[cid] == Fold(NewOrder(own[0].request), own[1..])
  {
    if events != [] {
      var init, e := events[..|events| - 1], events[|events| - 1];
      ReplayIsPerOrder(init, cid);
      var before, own := Of(cid, init), Of(cid, events);
      hide Of, Apply;
      if e.cid == cid && before != [] {
        FoldOfAppend(NewOrder(own[0].request), before[1..], e);
        assert own[1..] == before[1..] + [e];
        hide Fold;
        assert own[0] == before[0];
      } else {
        assert own == before || own == [e];
        assert own == [e] ==> own[1..] == [];
      }
    }
  }

  lemma FoldOfAppend(s: OrderState, init: seq<Event>, e: Event)
    ensures Fold(s, init + [e]) == Apply(Fold(s, init), e)
  {
    assert (init + [e])[..|init|] == init;
  }
}
