/** The position limit: a check on each submit and amend, meant to hold for every way the open orders
    can fill. One symbol, one net position, any number of orders. */
module Risk {
  import opened Common
  import opened Fills
  import opened Orders

  predicate On(s: OrderState, symbol: string, side: Side) {
    s.request.symbol == symbol && s.request.side == side
  }

  function Leaves(s: OrderState, symbol: string, side: Side): real {
    if On(s, symbol, side) then s.LeavesQuantity() else 0.0
  }

  /** What the open orders of one symbol and side may still execute. */
  function SumLeaves(orders: seq<OrderState>, symbol: string, side: Side): real {
    if orders == [] then 0.0
    else SumLeaves(orders[..|orders| - 1], symbol, side) + Leaves(orders[|orders| - 1], symbol, side)
  }

  method SumLeavesOf(orders: seq<OrderState>, symbol: string, side: Side) returns (result: real)
    ensures result == SumLeaves(orders, symbol, side)
  {
    result := 0.0;
    for i := 0 to |orders|
      invariant result == SumLeaves(orders[..i], symbol, side)
    {
      assert orders[..i + 1][..i] == orders[..i];
      if orders[i].request.symbol == symbol && orders[i].request.side == side {
        result := result + orders[i].LeavesQuantity();
      }
    }
    assert orders[..|orders|] == orders;
  }

  /** The open orders the check looks at, with the order being amended left out. */
  function OpenOrders(orders: seq<OrderState>, exclude: Option<nat>): seq<OrderState> {
    if orders == [] then [] else
    var last := |orders| - 1;
    OpenOrders(orders[..last], exclude)
    + (if orders[last].IsOpen() && exclude != Some(last) then [orders[last]] else [])
  }

  datatype Decision = Approved | Refused(reason: string)

  function CheckPosition(position: Option<real>, request: Request, openOrders: seq<OrderState>,
                         maxPosition: Option<real>): Decision {
    if maxPosition.None? then Approved
    else if position.None? then Refused("position unknown")
    else
      var p := position.value;
      var worst := p + Signed(request.side, SumLeaves(openOrders, request.symbol, request.side) + request.quantity);
      var flips := (worst > 0.0) != (p > 0.0) && worst != 0.0 && p != 0.0;
      var grows := Magnitude(worst) > Magnitude(p);
      if Magnitude(worst) > maxPosition.value && (grows || flips) then Refused("worst-case position") else Approved
  }

  /** From inside the limit the check is exactly the worst case staying inside it. */
  lemma ApprovalIsTheWorstCase(p: real, request: Request, openOrders: seq<OrderState>, limit: real)
    requires Magnitude(p) <= limit
    ensures CheckPosition(Some(p), request, openOrders, Some(limit)) == Approved
       <==> Magnitude(p + Signed(request.side, SumLeaves(openOrders, request.symbol, request.side) + request.quantity))
            <= limit
  {
  }

  datatype AmendError = NotWorking | NotAboveFilled | NothingLeft

  /** What would be live after an amend: the unfilled part, on the new terms. */
  function AmendedRequest(s: OrderState, quantity: Option<real>, limitPrice: Option<real>)
    : Result<Request, AmendError>
  {
    if s.status !in {Accepted, PartiallyFilled} then Err(NotWorking)
    else if quantity.Some? && quantity.value <= s.filledQuantity then Err(NotAboveFilled)
    else
      var total := if quantity.Some? then quantity.value else s.quantity;
      if total - s.filledQuantity <= 0.0 then Err(NothingLeft)
      else Ok(s.request.(
        quantity := total - s.filledQuantity,
        limitPrice := if limitPrice.Some? then limitPrice
                      else if s.limitPrice.Some? then s.limitPrice else s.request.limitPrice))
  }

  // ----- The position and its worst cases -----

  /** What this process's own fills add up to. */
  function FilledNet(orders: seq<OrderState>, symbol: string): real {
    if orders == [] then 0.0 else FilledNet(orders[..|orders| - 1], symbol) + Held(orders[|orders| - 1], symbol)
  }

  /** The limit on one symbol, and the position the process started from. */
  datatype Limit = Limit(symbol: string, baseline: real, maxPosition: real)

  /** A decision taken under the submit lock whose record is not written yet. */
  datatype Approval =
    | NoApproval
    | Submit(request: Request)
    | Amend(index: nat, quantity: Option<real>, limitPrice: Option<real>)

  datatype World = World(orders: seq<OrderState>, approval: Approval)

  function Position(w: World, limit: Limit): real { limit.baseline + FilledNet(w.orders, limit.symbol) }

  /** How much an approved amend may add to what its order can end with. */
  function Growth(s: OrderState, quantity: Option<real>): real {
    if quantity.Some? then Larger(quantity.value - s.filledQuantity - s.LeavesQuantity(), 0.0) else 0.0
  }

  /** What the approved decision adds to the open orders once it is recorded. */
  function Promised(w: World, symbol: string, side: Side): real {
    match w.approval
    case NoApproval => 0.0
    case Submit(request) => if request.symbol == symbol && request.side == side then request.quantity else 0.0
    case Amend(i, quantity, _) =>
      if i < |w.orders| && On(w.orders[i], symbol, side) then Growth(w.orders[i], quantity) else 0.0
  }

  /** However the open orders of either side fill, the position stays inside the limit. */
  predicate Within(w: World, limit: Limit) {
    && Position(w, limit) + SumLeaves(w.orders, limit.symbol, Buy) + Promised(w, limit.symbol, Buy) <= limit.maxPosition
    && -limit.maxPosition
       <= Position(w, limit) - SumLeaves(w.orders, limit.symbol, Sell) - Promised(w, limit.symbol, Sell)
  }

  // ----- What one event may do -----

  /** The quantity a replace report leaves the order with. */
  function ReplacedTo(s: OrderState, e: Event): real
    requires e.Replaced?
  {
    FirstQuantity(e.quantity, s.pendingQuantity, s.quantity)
  }

  /** The most the order can end filled at: what it has filled, and what it may still fill. */
  function Claim(s: OrderState): real { s.filledQuantity + s.LeavesQuantity() }

  /** The guard on what the venue reports: fills fit the order's leaves, no booked fill is busted, no
      ended order reopens with quantity left, and no replace settles above what the order may fill. */
  predicate Permitted(s: OrderState, e: Event) {
    match e
    case FillReport(_, fill) =>
      fill.fillId in s.bustedFillIds || fill.fillId in Ids(s.fills) || fill.quantity <= s.LeavesQuantity()
    case FillBusted(_, fillId) => fillId in s.bustedFillIds || fillId !in Ids(s.fills)
    case Restated(_, status, _) => s.IsOpen() || status.IsTerminal() || s.quantity <= s.filledQuantity
    case Replaced(_, _, _, _) =>
      Transition(e, s.status).None? || ReplacedTo(s, e) <= Larger(s.Ceiling(), s.filledQuantity)
    case _ => true
  }

  /** Pending terms are kept only while a request is open; every state the reducer leaves is settled. */
  predicate Settled(s: OrderState) { Settle(s) == s }

  predicate Shrinks(s: OrderState, s': OrderState) {
    s'.request == s.request && s.filledQuantity <= s'.filledQuantity && Claim(s') <= Claim(s)
  }

  lemma FillShrinksIff(s: OrderState, fill: Fill)
    requires fill.quantity > 0.0
    ensures Shrinks(s, Settle(ApplyFill(s, fill)))
       <==> fill.fillId in s.bustedFillIds || fill.fillId in Ids(s.fills) || fill.quantity <= s.LeavesQuantity()
  {
    FindFillFinds(s.fills, fill.fillId);
    hide FindFill, Ids, MergedFill, FeesDiffer, SameExecution, Times;
    NewFillMoves(s, fill);
    hide ApplyNewFill;
  }

  /** A new fill takes its quantity from the leaves. */
  lemma NewFillMoves(s: OrderState, fill: Fill)
    ensures var s' := ApplyNewFill(s, fill);
            && s'.request == s.request && s'.filledQuantity == s.filledQuantity + fill.quantity
            && s'.quantity == s.quantity && s'.pendingQuantity == s.pendingQuantity
            && s'.pendingLimitPrice == s.pendingLimitPrice
            && s'.status == (if s'.filledQuantity >= s.Ceiling() then Filled
                             else if s.status in {Accepted, Submitting} then PartiallyFilled else s.status)
  {
    hide Times;
  }

  lemma BustShrinksIff(s: OrderState, fillId: string)
    requires MoneyHolds(s) && Settled(s)
    ensures Shrinks(s, Settle(ApplyBust(s, fillId))) <==> fillId in s.bustedFillIds || fillId !in Ids(s.fills)
  {
    FindFillFinds(s.fills, fillId);
    var i := FindFill(s.fills, fillId);
    if i < |s.fills| { IdOf(s.fills, i); }
    hide FindFill, Ids, SumQuantity, SumNotional, SoundFills, Times, Without;
  }

  lemma RestatedShrinksIff(s: OrderState, e: Event)
    requires e.Restated? && Settled(s)
    ensures Shrinks(s, Apply(s, e)) <==> Permitted(s, e)
  {
    hide OrElse, Ids;
  }

  lemma ReplacedShrinksIff(s: OrderState, e: Event)
    requires e.Replaced? && Settled(s)
    ensures Shrinks(s, Apply(s, e)) <==> Permitted(s, e)
  {
    hide OrElse, FirstQuantity, Ids;
  }

  lemma OtherEventsShrink(s: OrderState, e: Event)
    requires !e.FillReport? && !e.FillBusted? && !e.Restated? && !e.Replaced? && !e.ReplaceRequested?
    requires Settled(s)
    ensures Shrinks(s, Apply(s, e))
  {
    hide OrElse, FirstQuantity;
    if e.SubmitIntent? {
    } else if s.IsOpen() {
      assert ApplyTransition(s, e).request == s.request;
      hide Transition;
    } else {
      EndedStaysEnded(s, e);
      OnlyFillsAndBustsMoveMoney(s, e);
      hide Transition;
    }
  }

  /** The guard is exact: an event leaves the order able to end nowhere it could not end before, with
      none of its fills taken back, if and only if it is permitted. */
  lemma PermittedIffShrinks(s: OrderState, e: Event)
    requires MoneyHolds(s) && Settled(s) && e.Valid() && !e.ReplaceRequested?
    ensures Shrinks(s, Apply(s, e)) <==> Permitted(s, e)
  {
    hide Shrinks, MoneyHolds, Settled, ApplyTransition, ApplyFill, ApplyBust, Ids;
    if e.FillReport? {
      FillShrinksIff(s, e.fill);
    } else if e.FillBusted? {
      BustShrinksIff(s, e.fillId);
    } else if e.Restated? {
      RestatedShrinksIff(s, e);
    } else if e.Replaced? {
      ReplacedShrinksIff(s, e);
    } else {
      OtherEventsShrink(s, e);
    }
  }

  // ----- Sums over the orders -----

  lemma {:induction false} SumsMove(orders: seq<OrderState>, i: nat, s': OrderState, symbol: string, side: Side)
    requires i < |orders|
    ensures SumLeaves(orders[i := s'], symbol, side)
         == SumLeaves(orders, symbol, side) - Leaves(orders[i], symbol, side) + Leaves(s', symbol, side)
    ensures FilledNet(orders[i := s'], symbol)
         == FilledNet(orders, symbol) - Held(orders[i], symbol) + Held(s', symbol)
  {
    hide Leaves, Held;
    var n := |orders| - 1;
    if i < n {
      assert orders[i := s'][..n] == orders[..n][i := s'];
      SumsMove(orders[..n], i, s', symbol, side);
    } else {
      assert orders[i := s'][..n] == orders[..n];
    }
  }

  lemma SumsExtend(orders: seq<OrderState>, s: OrderState, symbol: string, side: Side)
    ensures SumLeaves(orders + [s], symbol, side) == SumLeaves(orders, symbol, side) + Leaves(s, symbol, side)
    ensures FilledNet(orders + [s], symbol) == FilledNet(orders, symbol) + Held(s, symbol)
  {
    assert (orders + [s])[..|orders|] == orders;
  }

  /** Leaving ended orders out of the sum changes nothing, and leaving one order out takes its leaves. */
  lemma {:induction false} OpenOrdersSum(orders: seq<OrderState>, exclude: Option<nat>, symbol: string, side: Side)
    ensures SumLeaves(OpenOrders(orders, exclude), symbol, side)
         == SumLeaves(orders, symbol, side)
            - (if exclude.Some? && exclude.value < |orders| then Leaves(orders[exclude.value], symbol, side) else 0.0)
  {
    if orders != [] {
      var n := |orders| - 1;
      OpenOrdersSum(orders[..n], exclude, symbol, side);
      LastOpenOrder(OpenOrders(orders[..n], exclude), orders[n], exclude != Some(n), symbol, side);
      hide Leaves;
    }
  }

  lemma LastOpenOrder(kept: seq<OrderState>, last: OrderState, counts: bool, symbol: string, side: Side)
    ensures SumLeaves(kept + (if last.IsOpen() && counts then [last] else []), symbol, side)
         == SumLeaves(kept, symbol, side) + (if counts then Leaves(last, symbol, side) else 0.0)
  {
    hide SumLeaves, Leaves;
    EndedLeavesNothing(last, symbol, side);
    SumsExtend(kept, last, symbol, side);
    assert kept + [] == kept;
  }

  lemma EndedLeavesNothing(s: OrderState, symbol: string, side: Side)
    ensures !s.IsOpen() ==> Leaves(s, symbol, side) == 0.0
  {
  }

  lemma {:induction false} SumIsNotNegative(orders: seq<OrderState>, symbol: string, side: Side)
    ensures SumLeaves(orders, symbol, side) >= 0.0
  {
    if orders != [] { SumIsNotNegative(orders[..|orders| - 1], symbol, side); }
  }

  // ----- Runs -----

  datatype Step =
    | Approve(approval: Approval)
    | Record
    | Drop
    | Report(index: nat, event: Event)

  function CheckSubmit(w: World, request: Request, limit: Limit): Decision {
    CheckPosition(Some(Position(w, limit)), request, OpenOrders(w.orders, None), Some(limit.maxPosition))
  }

  function CheckAmend(w: World, i: nat, quantity: Option<real>, limitPrice: Option<real>, limit: Limit): Decision
    requires i < |w.orders|
  {
    match AmendedRequest(w.orders[i], quantity, limitPrice)
    case Err(_) => Refused("not amendable")
    case Ok(request) =>
      CheckPosition(Some(Position(w, limit)), request, OpenOrders(w.orders, Some(i)), Some(limit.maxPosition))
  }

  /** A submit or amend is approved one at a time, under the submit lock, by the check; what the venue
      reports about an order is one permitted event. Orders in other symbols are free. */
  predicate Enabled(w: World, step: Step, limit: Limit) {
    match step
    case Approve(NoApproval) => false
    case Approve(Submit(request)) =>
      && w.approval.NoApproval? && request.quantity > 0.0
      && (request.symbol == limit.symbol ==> CheckSubmit(w, request, limit) == Approved)
    case Approve(Amend(i, quantity, limitPrice)) =>
      && w.approval.NoApproval? && i < |w.orders|
      && (w.orders[i].request.symbol == limit.symbol ==> CheckAmend(w, i, quantity, limitPrice, limit) == Approved)
    case Record => !w.approval.NoApproval?
    case Drop => true
    case Report(i, e) =>
      i < |w.orders| && e.Valid() && !e.ReplaceRequested? && Permitted(w.orders[i], e)
  }

  function RecordApproval(w: World): World {
    match w.approval
    case NoApproval => w
    case Submit(request) => World(w.orders + [NewOrder(request)], NoApproval)
    case Amend(i, quantity, limitPrice) =>
      if i < |w.orders| then
        var event := ReplaceRequested(w.orders[i].request.clientOrderId, quantity, limitPrice);
        World(w.orders[i := Apply(w.orders[i], event)], NoApproval)
      else w
  }

  function Next(w: World, step: Step): World {
    match step
    case Approve(approval) => w.(approval := approval)
    case Record => RecordApproval(w)
    case Drop => w.(approval := NoApproval)
    case Report(i, e) => if i < |w.orders| then w.(orders := w.orders[i := Apply(w.orders[i], e)]) else w
  }

  predicate Sound(w: World, limit: Limit) {
    && Within(w, limit)
    && (forall i :: 0 <= i < |w.orders| ==> MoneyHolds(w.orders[i]) && Settled(w.orders[i]))
  }

  /** Recording or dropping nothing, the position itself is inside the limit. */
  lemma WithinBoundsPosition(w: World, limit: Limit)
    requires Within(w, limit)
    requires w.approval.Submit? ==> w.approval.request.quantity > 0.0
    ensures Magnitude(Position(w, limit)) <= limit.maxPosition
  {
    SumIsNotNegative(w.orders, limit.symbol, Buy);
    SumIsNotNegative(w.orders, limit.symbol, Sell);
  }

  lemma ApproveSubmitKeeps(w: World, request: Request, limit: Limit)
    requires Within(w, limit) && Enabled(w, Approve(Submit(request)), limit)
    ensures Within(w.(approval := Submit(request)), limit)
  {
    WithinBoundsPosition(w, limit);
    OpenOrdersSum(w.orders, None, limit.symbol, request.side);
    ApprovalIsTheWorstCase(Position(w, limit), request, OpenOrders(w.orders, None), limit.maxPosition);
    hide FilledNet, SumLeaves, OpenOrders, CheckPosition;
  }

  /** An approved amend leaves room for what its order may end with on the new terms. */
  lemma AmendFits(p: real, s: OrderState, request: Request, quantity: Option<real>, limitPrice: Option<real>,
                  sameSide: real, limit: real)
    requires AmendedRequest(s, quantity, limitPrice) == Ok(request)
    requires Magnitude(p + Signed(s.request.side, sameSide - s.LeavesQuantity() + request.quantity)) <= limit
    ensures s.request.side == Buy && p + sameSide <= limit ==> p + sameSide + Growth(s, quantity) <= limit
    ensures s.request.side == Sell && p - sameSide >= -limit ==> p - sameSide - Growth(s, quantity) >= -limit
  {
  }

  lemma ApproveAmendKeeps(w: World, i: nat, quantity: Option<real>, limitPrice: Option<real>, limit: Limit)
    requires Within(w, limit) && Enabled(w, Approve(Amend(i, quantity, limitPrice)), limit)
    ensures Within(w.(approval := Amend(i, quantity, limitPrice)), limit)
  {
    var s := w.orders[i];
    hide FilledNet, SumLeaves, OpenOrders, CheckPosition;
    if s.request.symbol == limit.symbol {
      var request := AmendedRequest(s, quantity, limitPrice).value;
      assert request.side == s.request.side && request.symbol == s.request.symbol;
      WithinBoundsPosition(w, limit);
      OpenOrdersSum(w.orders, Some(i), limit.symbol, s.request.side);
      ApprovalIsTheWorstCase(Position(w, limit), request, OpenOrders(w.orders, Some(i)), limit.maxPosition);
      AmendFits(Position(w, limit), s, request, quantity, limitPrice,
                SumLeaves(w.orders, limit.symbol, s.request.side), limit.maxPosition);
      hide AmendedRequest, Growth;
    }
  }

  lemma RecordSubmitKeeps(w: World, limit: Limit)
    requires Within(w, limit) && w.approval.Submit? && w.approval.request.quantity > 0.0
    ensures Within(RecordApproval(w), limit)
  {
    var s := NewOrder(w.approval.request);
    SumsExtend(w.orders, s, limit.symbol, Buy);
    SumsExtend(w.orders, s, limit.symbol, Sell);
    assert s.LeavesQuantity() == s.request.quantity;
    hide FilledNet, SumLeaves;
  }

  lemma ReplaceRequestGrowsAsApproved(s: OrderState, quantity: Option<real>, limitPrice: Option<real>)
    requires Settled(s)
    ensures var s' := Apply(s, ReplaceRequested(s.request.clientOrderId, quantity, limitPrice));
            && s'.request == s.request && s'.filledQuantity == s.filledQuantity
            && s'.LeavesQuantity() <= s.LeavesQuantity() + Growth(s, quantity)
  {
  }

  lemma RecordAmendKeeps(w: World, limit: Limit)
    requires Within(w, limit) && w.approval.Amend? && w.approval.index < |w.orders|
    requires Settled(w.orders[w.approval.index])
    ensures Within(RecordApproval(w), limit)
  {
    var i := w.approval.index;
    var s := w.orders[i];
    var event := ReplaceRequested(s.request.clientOrderId, w.approval.quantity, w.approval.limitPrice);
    ReplaceRequestGrowsAsApproved(s, w.approval.quantity, w.approval.limitPrice);
    SumsMove(w.orders, i, Apply(s, event), limit.symbol, Buy);
    SumsMove(w.orders, i, Apply(s, event), limit.symbol, Sell);
    hide FilledNet, SumLeaves, Apply, Settled, Growth;
  }

  /** An event that shrinks its order's claim shrinks both worst cases, an approved amend of it included. */
  lemma ReportKeeps(w: World, i: nat, s': OrderState, limit: Limit)
    requires Within(w, limit) && i < |w.orders| && Shrinks(w.orders[i], s')
    ensures Within(w.(orders := w.orders[i := s']), limit)
  {
    SumsMove(w.orders, i, s', limit.symbol, Buy);
    SumsMove(w.orders, i, s', limit.symbol, Sell);
    hide FilledNet, SumLeaves;
  }

  predicate WellFormed(approval: Approval) { approval.Submit? ==> approval.request.quantity > 0.0 }

  lemma ApplyStaysSettled(s: OrderState, e: Event)
    ensures Settled(Apply(s, e))
  {
    hide Dispatch;
  }

  lemma ReportStaysSound(w: World, i: nat, e: Event, limit: Limit)
    requires Sound(w, limit) && Enabled(w, Report(i, e), limit)
    ensures Sound(Next(w, Report(i, e)), limit)
  {
    var s := w.orders[i];
    hide MoneyHolds, Settled, Apply, Permitted, Shrinks, Within;
    PermittedIffShrinks(s, e);
    ApplyKeepsMoney(s, e);
    ApplyStaysSettled(s, e);
    ReportKeeps(w, i, Apply(s, e), limit);
  }

  lemma RecordStaysSound(w: World, limit: Limit)
    requires Sound(w, limit) && WellFormed(w.approval)
    ensures Sound(RecordApproval(w), limit)
  {
    match w.approval
    case NoApproval =>
    case Submit(request) =>
      RecordSubmitKeeps(w, limit);
      assert Settled(NewOrder(request)) && MoneyHolds(NewOrder(request));
    case Amend(i, quantity, limitPrice) =>
      hide MoneyHolds, Settled, Apply, Within;
      if i < |w.orders| {
        var event := ReplaceRequested(w.orders[i].request.clientOrderId, quantity, limitPrice);
        RecordAmendKeeps(w, limit);
        OnlyFillsAndBustsMoveMoney(w.orders[i], event);
        MoneyOfSame(w.orders[i], Apply(w.orders[i], event));
        ApplyStaysSettled(w.orders[i], event);
      }
  }

  lemma MoneyOfSame(s: OrderState, s': OrderState)
    requires MoneyHolds(s) && SameMoney(s', s)
    ensures MoneyHolds(s')
  {
  }

  lemma DropStaysWithin(w: World, limit: Limit)
    requires Within(w, limit) && WellFormed(w.approval)
    ensures Within(w.(approval := NoApproval), limit)
  {
  }

  lemma StepStaysSound(w: World, step: Step, limit: Limit)
    requires Sound(w, limit) && WellFormed(w.approval) && Enabled(w, step, limit)
    ensures Sound(Next(w, step), limit) && WellFormed(Next(w, step).approval)
  {
    hide MoneyHolds, Settled, Within;
    match step
    case Approve(NoApproval) =>
    case Approve(Submit(request)) => ApproveSubmitKeeps(w, request, limit);
    case Approve(Amend(i, quantity, limitPrice)) => ApproveAmendKeeps(w, i, quantity, limitPrice, limit);
    case Record => RecordStaysSound(w, limit);
    case Drop => DropStaysWithin(w, limit);
    case Report(i, e) => ReportStaysSound(w, i, e, limit);
  }

  function Run(w: World, steps: seq<Step>): World {
    if steps == [] then w else Next(Run(w, steps[..|steps| - 1]), steps[|steps| - 1])
  }

  predicate Admitted(w: World, steps: seq<Step>, limit: Limit) {
    steps == [] ||
    (var init := steps[..|steps| - 1];
     Admitted(w, init, limit) && Enabled(Run(w, init), steps[|steps| - 1], limit))
  }

  /** From a position inside the limit and no orders, every run of approved submits and amends, of their
      records written or failed, and of permitted reports in any order keeps both worst cases inside the
      limit, pending replaces and unknown orders included. */
  lemma {:induction false} LimitHoldsInEveryRun(steps: seq<Step>, limit: Limit)
    requires Magnitude(limit.baseline) <= limit.maxPosition
    requires Admitted(World([], NoApproval), steps, limit)
    ensures Sound(Run(World([], NoApproval), steps), limit)
    ensures WellFormed(Run(World([], NoApproval), steps).approval)
  {
    if steps != [] {
      LimitHoldsInEveryRun(steps[..|steps| - 1], limit);
      hide Sound, WellFormed, Next, Enabled;
      StepStaysSound(Run(World([], NoApproval), steps[..|steps| - 1]), steps[|steps| - 1], limit);
    }
  }

  /** So no order of fills can breach it: the position itself is inside the limit at every point. */
  lemma PositionNeverBreaches(steps: seq<Step>, limit: Limit)
    requires Magnitude(limit.baseline) <= limit.maxPosition
    requires Admitted(World([], NoApproval), steps, limit)
    ensures Magnitude(Position(Run(World([], NoApproval), steps), limit)) <= limit.maxPosition
  {
    LimitHoldsInEveryRun(steps, limit);
    hide Run, Admitted;
    WithinBoundsPosition(Run(World([], NoApproval), steps), limit);
  }

  // ----- Where the guard is needed -----

  lemma SumsOfOne(s: OrderState, symbol: string, side: Side)
    ensures SumLeaves([s], symbol, side) == Leaves(s, symbol, side) && FilledNet([s], symbol) == Held(s, symbol)
  {
    assert [] + [s] == [s];
    SumsExtend([], s, symbol, side);
  }

  predicate Alone(s: OrderState, limit: Limit) { Within(World([s], NoApproval), limit) }

  /** A limit that one order alone uses up on both sides: nothing is left for it to grow into. */
  function TightLimit(s: OrderState, upper: bool): Limit {
    var room := Magnitude(s.filledQuantity) + Magnitude(Claim(s));
    Limit(s.request.symbol,
          (if s.request.side == Buy then (if upper then room - Claim(s) else -room - s.filledQuantity)
           else (if upper then Claim(s) - room else room + s.filledQuantity)),
          room)
  }

  lemma AloneMeans(s: OrderState, limit: Limit)
    requires s.request.symbol == limit.symbol
    ensures Alone(s, limit) <==>
      if s.request.side == Buy
      then limit.baseline + Claim(s) <= limit.maxPosition && -limit.maxPosition <= limit.baseline + s.filledQuantity
      else limit.baseline - s.filledQuantity <= limit.maxPosition && -limit.maxPosition <= limit.baseline - Claim(s)
  {
    SumsOfOne(s, limit.symbol, Buy);
    SumsOfOne(s, limit.symbol, Sell);
    hide SumLeaves, FilledNet;
  }

  /** The guard cannot be weakened: an event keeps every limit its order was inside exactly when it is
      permitted. A bust of a booked fill, an ended order reopened, a fill above the leaves and a replace
      confirmed above the ceiling each breach some limit that held before. */
  lemma OnlyPermittedEventsKeepEveryLimit(s: OrderState, e: Event)
    requires MoneyHolds(s) && Settled(s) && e.Valid() && !e.ReplaceRequested?
    ensures (forall limit: Limit :: limit.symbol == s.request.symbol && Alone(s, limit) ==> Alone(Apply(s, e), limit))
       <==> Permitted(s, e)
  {
    var s' := Apply(s, e);
    PermittedIffShrinks(s, e);
    ApplyKeepsRequest(s, e);
    hide Apply, MoneyHolds, Settled, Permitted, Alone;
    if Permitted(s, e) {
      forall limit: Limit | limit.symbol == s.request.symbol && Alone(s, limit) ensures Alone(s', limit) {
        AloneMeans(s, limit);
        AloneMeans(s', limit);
      }
    } else {
      forall upper: bool ensures Alone(s, TightLimit(s, upper)) {
        AloneMeans(s, TightLimit(s, upper));
      }
      var upper := Claim(s') > Claim(s);
      AloneMeans(s', TightLimit(s, upper));
      assert !Alone(s', TightLimit(s, upper));
    }
  }

  /** A replace this process asked for can break the guard: once the outcome of an amend is unknown, an
      acknowledgement drops the pending quantity, though the replace may still go live at the venue. Its
      confirmation, permitted before, is then above what the limit was checked against. */
  lemma AckForgetsAPendingReplace(s: OrderState, venueOrderId: string, asked: real)
    requires s.status == Unknown && s.pendingQuantity == Some(asked)
    requires s.quantity < asked && s.filledQuantity < s.quantity
    requires s.quantity > 0.0 && s.filledQuantity >= 0.0
    ensures var cid := s.request.clientOrderId;
            var confirmed := Replaced(cid, Some(asked), None, None);
            var acked := Apply(s, Acknowledged(cid, venueOrderId));
            && Permitted(s, confirmed) && acked.IsOpen() && !Permitted(acked, confirmed)
            && Claim(Apply(acked, confirmed)) == asked && Claim(acked) == s.quantity
  {
    var cid := s.request.clientOrderId;
    var acked := Apply(s, Acknowledged(cid, venueOrderId));
    assert acked.status in {Accepted, PartiallyFilled} && acked.pendingQuantity == None
        && acked.quantity == s.quantity && acked.filledQuantity == s.filledQuantity;
  }

  // ----- A run that breaches the limit -----

  const START: World := World([], NoApproval)

  function Room(limit: Limit): real { limit.maxPosition - limit.baseline }

  function BuyOf(cid: string, limit: Limit): Request { Request(cid, limit.symbol, Buy, Room(limit) / 2.0, Some(1.0)) }

  function AcceptedOrder(request: Request): OrderState {
    NewOrder(request).(status := Accepted, venueOrderId := Some("v"))
  }

  /** Send an order the check approves, and have it acknowledged. */
  function Placing(request: Request, index: nat): seq<Step> {
    [Approve(Submit(request)), Record, Report(index, SendStarted(request.clientOrderId, None)),
     Report(index, Acknowledged(request.clientOrderId, "v"))]
  }

  /** Ask for an approved amend, lose sight of it, and have the order acknowledged. */
  function LosingAnAmend(cid: string, quantity: real): seq<Step> {
    [Approve(Amend(0, Some(quantity), None)), Record, Report(0, OutcomeUnknown(cid)), Report(0, Acknowledged(cid, "v"))]
  }

  /** Buy half the room, lose an amend to all of it, and buy the other half. */
  function ForgetfulSteps(limit: Limit): seq<Step> {
    Placing(BuyOf("a", limit), 0) + LosingAnAmend("a", Room(limit)) + Placing(BuyOf("b", limit), 1)
  }

  /** A full fill of each order. */
  function FillingSteps(limit: Limit): seq<Step> {
    [Report(0, FillReport("a", FillOf("a", limit.symbol, Room(limit)))),
     Report(1, FillReport("b", FillOf("b", limit.symbol, Room(limit) / 2.0)))]
  }

  function FillOf(cid: string, symbol: string, quantity: real): Fill {
    Fill("f", cid, symbol, Buy, 1.0, quantity, None, None, None, Undisclosed)
  }

  predicate Leads(w: World, steps: seq<Step>, w': World, limit: Limit) {
    Admitted(w, steps, limit) && Run(w, steps) == w'
  }

  lemma LeadsOn(w: World, steps: seq<Step>, mid: World, step: Step, limit: Limit)
    requires Leads(w, steps, mid, limit) && Enabled(mid, step, limit)
    ensures Leads(w, steps + [step], Next(mid, step), limit)
  {
    hide Enabled, Next;
    assert (steps + [step])[..|steps|] == steps;
  }

  lemma {:induction false} LeadsTogether(w: World, first: seq<Step>, mid: World, second: seq<Step>, w': World,
                                         limit: Limit)
    requires Leads(w, first, mid, limit) && Leads(mid, second, w', limit)
    ensures Leads(w, first + second, w', limit)
  {
    hide Enabled, Next;
    if second == [] {
      assert first + second == first;
    } else {
      var n := |second| - 1;
      LeadsTogether(w, first, mid, second[..n], Run(mid, second[..n]), limit);
      LeadsOn(w, first + second[..n], Run(mid, second[..n]), second[n], limit);
      assert first + second[..n] + [second[n]] == first + second;
    }
  }

  lemma FourSteps(w: World, s1: Step, s2: Step, s3: Step, s4: Step, limit: Limit)
    requires Enabled(w, s1, limit)
    requires var w1 := Next(w, s1);
             Enabled(w1, s2, limit) && Enabled(Next(w1, s2), s3, limit)
             && Enabled(Next(Next(w1, s2), s3), s4, limit)
    ensures Leads(w, [s1, s2, s3, s4], Next(Next(Next(Next(w, s1), s2), s3), s4), limit)
  {
    hide Enabled, Next;
    assert [] + [s1] == [s1] && [s1] + [s2] == [s1, s2] && [s1, s2] + [s3] == [s1, s2, s3];
    assert [s1, s2, s3] + [s4] == [s1, s2, s3, s4];
    assert Leads(w, [], w, limit);
    hide Leads;
    LeadsOn(w, [], w, s1, limit);
    LeadsOn(w, [s1], Next(w, s1), s2, limit);
    LeadsOn(w, [s1, s2], Next(Next(w, s1), s2), s3, limit);
    LeadsOn(w, [s1, s2, s3], Next(Next(Next(w, s1), s2), s3), s4, limit);
  }

  /** Reports that send a new order and acknowledge it. */
  lemma SentAndAccepted(request: Request)
    requires request.quantity > 0.0
    ensures var cid := request.clientOrderId;
            Apply(Apply(NewOrder(request), SendStarted(cid, None)), Acknowledged(cid, "v")) == AcceptedOrder(request)
  {
  }

  lemma PlacingLeads(orders: seq<OrderState>, request: Request, limit: Limit)
    requires request.quantity > 0.0 && CheckSubmit(World(orders, NoApproval), request, limit) == Approved
    ensures Leads(World(orders, NoApproval), Placing(request, |orders|),
                  World(orders + [AcceptedOrder(request)], NoApproval), limit)
  {
    var cid, n := request.clientOrderId, |orders|;
    var s0 := NewOrder(request);
    var s1 := Apply(s0, SendStarted(cid, None));
    SentAndAccepted(request);
    hide Apply, CheckSubmit;
    assert (orders + [s0])[n := s1] == orders + [s1];
    assert (orders + [s1])[n := AcceptedOrder(request)] == orders + [AcceptedOrder(request)];
    FourSteps(World(orders, NoApproval), Approve(Submit(request)), Record, Report(n, SendStarted(cid, None)),
              Report(n, Acknowledged(cid, "v")), limit);
  }

  /** An amend whose outcome was unknown is forgotten on the next acknowledgement. */
  lemma AmendIsForgotten(request: Request, quantity: real)
    requires request.quantity > 0.0
    ensures var cid := request.clientOrderId;
            var asked := Apply(AcceptedOrder(request), ReplaceRequested(cid, Some(quantity), None));
            && asked.pendingQuantity == Some(quantity)
            && Apply(Apply(asked, OutcomeUnknown(cid)), Acknowledged(cid, "v")) == AcceptedOrder(request)
  {
  }

  lemma LosingLeads(request: Request, quantity: real, limit: Limit)
    requires request.quantity > 0.0 && quantity > 0.0
    requires CheckAmend(World([AcceptedOrder(request)], NoApproval), 0, Some(quantity), None, limit) == Approved
    ensures var w := World([AcceptedOrder(request)], NoApproval);
            Leads(w, LosingAnAmend(request.clientOrderId, quantity), w, limit)
  {
    var w, cid := World([AcceptedOrder(request)], NoApproval), request.clientOrderId;
    AmendIsForgotten(request, quantity);
    hide Apply, CheckAmend;
    FourSteps(w, Approve(Amend(0, Some(quantity), None)), Record, Report(0, OutcomeUnknown(cid)),
              Report(0, Acknowledged(cid, "v")), limit);
  }

  lemma SumsOfTwo(s: OrderState, t: OrderState, symbol: string, side: Side)
    ensures SumLeaves([s, t], symbol, side) == Leaves(s, symbol, side) + Leaves(t, symbol, side)
    ensures FilledNet([s, t], symbol) == Held(s, symbol) + Held(t, symbol)
  {
    assert [s] + [t] == [s, t];
    SumsOfOne(s, symbol, side);
    SumsExtend([s], t, symbol, side);
  }

  /** The check approves each purchase, and the amend. */
  lemma PurchasesAreApproved(limit: Limit)
    requires Magnitude(limit.baseline) <= limit.maxPosition && limit.baseline < limit.maxPosition
    ensures CheckSubmit(START, BuyOf("a", limit), limit) == Approved
    ensures var w := World([AcceptedOrder(BuyOf("a", limit))], NoApproval);
            && CheckAmend(w, 0, Some(Room(limit)), None, limit) == Approved
            && CheckSubmit(w, BuyOf("b", limit), limit) == Approved
  {
    var a := AcceptedOrder(BuyOf("a", limit));
    SumsOfOne(a, limit.symbol, Buy);
    OpenOrdersSum([], None, limit.symbol, Buy);
    OpenOrdersSum([a], None, limit.symbol, Buy);
    OpenOrdersSum([a], Some(0), limit.symbol, Buy);
    assert a.LeavesQuantity() == Room(limit) / 2.0;
    hide OpenOrders, SumLeaves;
  }

  lemma ForgetfulRun(limit: Limit)
    requires Magnitude(limit.baseline) <= limit.maxPosition && limit.baseline < limit.maxPosition
    ensures Leads(START, ForgetfulSteps(limit),
                  World([AcceptedOrder(BuyOf("a", limit)), AcceptedOrder(BuyOf("b", limit))], NoApproval), limit)
  {
    PurchasesAreApproved(limit);
    var a, b := BuyOf("a", limit), BuyOf("b", limit);
    var w1 := World([AcceptedOrder(a)], NoApproval);
    var w2 := World([AcceptedOrder(a), AcceptedOrder(b)], NoApproval);
    hide Leads, CheckSubmit, CheckAmend, Placing, LosingAnAmend;
    assert [] + [AcceptedOrder(a)] == [AcceptedOrder(a)] && [AcceptedOrder(a)] + [AcceptedOrder(b)] == w2.orders;
    PlacingLeads([], a, limit);
    LosingLeads(a, Room(limit), limit);
    PlacingLeads([AcceptedOrder(a)], b, limit);
    LeadsTogether(START, Placing(a, 0), w1, LosingAnAmend("a", Room(limit)), w1, limit);
    LeadsTogether(START, Placing(a, 0) + LosingAnAmend("a", Room(limit)), w1, Placing(b, 1), w2, limit);
  }

  /** What each order comes to once the amend is confirmed and both fill. */
  lemma ConfirmedAndFilled(request: Request, quantity: real)
    requires request.quantity > 0.0 && quantity > 0.0 && request.side == Buy
    ensures var cid := request.clientOrderId;
            var s := Apply(AcceptedOrder(request), Replaced(cid, Some(quantity), None, None));
            var fill := FillOf(cid, request.symbol, quantity);
            && s.request == request && s.filledQuantity == 0.0 && s.LeavesQuantity() == quantity
            && Permitted(s, FillReport(cid, fill))
            && Held(Apply(s, FillReport(cid, fill)), request.symbol) == quantity
  {
    var s := Apply(AcceptedOrder(request), Replaced(request.clientOrderId, Some(quantity), None, None));
    assert s == AcceptedOrder(request).(quantity := quantity);
    assert s.fills == [] && s.bustedFillIds == {};
  }

  lemma AcceptedAndFilled(request: Request)
    requires request.quantity > 0.0 && request.side == Buy
    ensures var s, cid := AcceptedOrder(request), request.clientOrderId;
            var fill := FillOf(cid, request.symbol, request.quantity);
            && s.LeavesQuantity() == request.quantity && Permitted(s, FillReport(cid, fill))
            && Held(Apply(s, FillReport(cid, fill)), request.symbol) == request.quantity
  {
    assert AcceptedOrder(request).fills == [] && AcceptedOrder(request).bustedFillIds == {};
  }

  /** The limit can be breached, whatever it is, as long as there is room to buy: after a run of approved
      and permitted steps, well inside the limit, the venue confirms the very amend that was approved.
      That report alone is not permitted, since the amend was forgotten and its room given away. The worst
      case is then outside the limit, and with the fills that are still permitted so is the position. */
  lemma ForgottenReplaceBreaches(limit: Limit)
    requires Magnitude(limit.baseline) <= limit.maxPosition && limit.baseline < limit.maxPosition
    ensures var before := Run(START, ForgetfulSteps(limit));
            var confirmed := Replaced("a", Some(Room(limit)), None, None);
            var after := Next(before, Report(0, confirmed));
            && Admitted(START, ForgetfulSteps(limit), limit) && Within(before, limit)
            && Approve(Amend(0, Some(Room(limit)), None)) in ForgetfulSteps(limit)
            && |before.orders| == 2 && !Permitted(before.orders[0], confirmed)
            && !Within(after, limit)
            && Admitted(after, FillingSteps(limit), limit)
            && Position(Run(after, FillingSteps(limit)), limit) > limit.maxPosition
  {
    ForgetfulRun(limit);
    LimitHoldsInEveryRun(ForgetfulSteps(limit), limit);
    var before := Run(START, ForgetfulSteps(limit));
    assert LosingAnAmend("a", Room(limit))[0] == ForgetfulSteps(limit)[4];
    BreachAfter(before, limit);
  }

  lemma BreachAfter(before: World, limit: Limit)
    requires limit.baseline < limit.maxPosition
    requires before == World([AcceptedOrder(BuyOf("a", limit)), AcceptedOrder(BuyOf("b", limit))], NoApproval)
    ensures var confirmed := Replaced("a", Some(Room(limit)), None, None);
            var after := Next(before, Report(0, confirmed));
            && !Permitted(before.orders[0], confirmed) && !Within(after, limit)
            && Admitted(after, FillingSteps(limit), limit)
            && Position(Run(after, FillingSteps(limit)), limit) > limit.maxPosition
  {
    hide Apply, SumLeaves, FilledNet;
    var room, a, b := Room(limit), before.orders[0], before.orders[1];
    var confirmed := Replaced("a", Some(room), None, None);
    var after := Next(before, Report(0, confirmed));
    ConfirmedAndFilled(BuyOf("a", limit), room);
    AcceptedAndFilled(BuyOf("b", limit));
    var a', fillA := Apply(a, confirmed), FillReport("a", FillOf("a", limit.symbol, room));
    var fillB := FillReport("b", FillOf("b", limit.symbol, room / 2.0));
    var w1 := World([Apply(a', fillA), b], NoApproval);
    var w2 := World([Apply(a', fillA), Apply(b, fillB)], NoApproval);
    assert after == World([a', b], NoApproval);
    SumsOfTwo(a', b, limit.symbol, Buy);
    SumsOfTwo(w2.orders[0], w2.orders[1], limit.symbol, Buy);
    assert !Within(after, limit) && Position(w2, limit) > limit.maxPosition;
    hide Held, Leaves, Within;
    assert Next(after, Report(0, fillA)) == w1 && Next(w1, Report(1, fillB)) == w2;
    assert Enabled(after, Report(0, fillA), limit) && Enabled(w1, Report(1, fillB), limit);
    hide Enabled, Next, Permitted;
    assert Leads(after, [], after, limit);
    LeadsOn(after, [], after, Report(0, fillA), limit);
    LeadsOn(after, [Report(0, fillA)], w1, Report(1, fillB), limit);
    assert [] + [Report(0, fillA)] == [Report(0, fillA)];
    assert FillingSteps(limit) == [Report(0, fillA)] + [Report(1, fillB)];
  }
}
