/** Post-trade books: tax lots matched in place, realized P&L, and fees per currency.

    `ratio` is the one rounding operation of the modelled code, so the ledger takes it as an
    arbitrary function: the theorems account for whatever it rounds away. */
module Ledger {
  import opened Common
  import opened Fills

  datatype LotMethod = Fifo | Lifo | Average

  datatype Lot = Lot(quantity: real, price: real, openedBy: string)

  datatype RealizedTrade = RealizedTrade(
    quantity: real, openPrice: real, closePrice: real, pnl: real, openedBy: string, closedBy: string)

  datatype LedgerError = WrongSymbol | FeeWithoutCurrency | DifferentTerms | DifferentFee

  type Key = (string, string)

  function KeyOf(fill: Fill): Key { (fill.clientOrderId, fill.fillId) }

  function Smaller(a: real, b: real): real { if a < b then a else b }

  function SumQty(lots: seq<Lot>): real {
    if lots == [] then 0.0 else lots[0].quantity + SumQty(lots[1..])
  }

  function CostOf(lot: Lot): real { Times(lot.quantity, lot.price) }

  function SumCost(lots: seq<Lot>): real {
    if lots == [] then 0.0 else CostOf(lots[0]) + SumCost(lots[1..])
  }

  function SumPnl(trades: seq<RealizedTrade>): real {
    if trades == [] then 0.0 else trades[0].pnl + SumPnl(trades[1..])
  }

  lemma SumsOfConcat(a: seq<Lot>, b: seq<Lot>)
    ensures SumQty(a + b) == SumQty(a) + SumQty(b)
    ensures SumCost(a + b) == SumCost(a) + SumCost(b)
  {
    hide Times;
    if a == [] {
      assert a + b == b;
    } else {
      assert (a + b)[1..] == a[1..] + b;
      SumsOfConcat(a[1..], b);
    }
  }

  lemma SumPnlOfConcat(a: seq<RealizedTrade>, b: seq<RealizedTrade>)
    ensures SumPnl(a + b) == SumPnl(a) + SumPnl(b)
  {
    if a == [] {
      assert a + b == b;
    } else {
      assert (a + b)[1..] == a[1..] + b;
      SumPnlOfConcat(a[1..], b);
    }
  }

  // ----- Matching -----

  /** Every open lot is on the same side of the market, and none is empty. */
  predicate OneSided(lots: seq<Lot>) {
    && (forall i :: 0 <= i < |lots| ==> lots[i].quantity != 0.0)
    && (forall i, j :: 0 <= i < |lots| && 0 <= j < |lots| ==> (lots[i].quantity > 0.0) == (lots[j].quantity > 0.0))
  }

  predicate Opposes(lots: seq<Lot>, signed: real)
    requires lots != []
  {
    (lots[0].quantity > 0.0) != (signed > 0.0)
  }

  function LotIndex(lots: seq<Lot>, lifo: bool): (i: nat)
    requires lots != []
    ensures i < |lots|
  {
    if lifo then |lots| - 1 else 0
  }

  datatype Matched = Matched(lots: seq<Lot>, trades: seq<RealizedTrade>, remaining: real)

  /** One closing match of `remaining` at `price` against the lot the method picks. */
  function MatchOne(lots: seq<Lot>, remaining: real, price: real, closedBy: string, lifo: bool, multiplier: real)
    : Matched
    requires lots != []
  {
    var index := LotIndex(lots, lifo);
    var lot := lots[index];
    var matched := Smaller(Magnitude(remaining), Magnitude(lot.quantity));
    var closed := Signed(SideOf(lot.quantity), matched);
    var left := Magnitude(lot.quantity) - matched;
    Matched(
      if left == 0.0 then lots[..index] + lots[index + 1..]
      else lots[index := Lot(Signed(SideOf(lot.quantity), left), lot.price, lot.openedBy)],
      [RealizedTrade(matched, lot.price, price, Times(Times(closed, price - lot.price), multiplier), lot.openedBy,
                     closedBy)],
      if remaining < 0.0 then remaining + matched else remaining - matched)
  }

  function Match(lots: seq<Lot>, remaining: real, price: real, closedBy: string, lifo: bool, multiplier: real): Matched
    decreases |lots|, if remaining == 0.0 then 0 else 1
  {
    if remaining == 0.0 || lots == [] || !Opposes(lots, remaining) then Matched(lots, [], remaining) else
    var one := MatchOne(lots, remaining, price, closedBy, lifo, multiplier);
    var rest := Match(one.lots, one.remaining, price, closedBy, lifo, multiplier);
    Matched(rest.lots, one.trades + rest.trades, rest.remaining)
  }

  lemma SplitSums(lots: seq<Lot>, i: nat)
    requires i < |lots|
    ensures SumQty(lots) == SumQty(lots[..i]) + lots[i].quantity + SumQty(lots[i + 1..])
    ensures SumCost(lots) == SumCost(lots[..i]) + CostOf(lots[i]) + SumCost(lots[i + 1..])
  {
    hide Times;
    assert lots == lots[..i] + lots[i..];
    SumsOfConcat(lots[..i], lots[i..]);
    assert lots[i..][1..] == lots[i + 1..];
  }

  /** What one match takes off the lot it closes against. */
  function ClosedBy(lots: seq<Lot>, remaining: real, lifo: bool): real
    requires lots != []
  {
    var lot := lots[LotIndex(lots, lifo)];
    Signed(SideOf(lot.quantity), Smaller(Magnitude(remaining), Magnitude(lot.quantity)))
  }

  lemma ClosedIsPart(lots: seq<Lot>, remaining: real, lifo: bool)
    requires OneSided(lots) && lots != [] && remaining != 0.0 && Opposes(lots, remaining)
    ensures var lot, closed := lots[LotIndex(lots, lifo)], ClosedBy(lots, remaining, lifo);
            && Magnitude(closed) == Smaller(Magnitude(remaining), Magnitude(lot.quantity))
            && (lot.quantity > 0.0 ==> 0.0 < closed <= lot.quantity && closed <= -remaining)
            && (lot.quantity < 0.0 ==> lot.quantity <= closed < 0.0 && -remaining <= closed)
            && (closed == lot.quantity || closed == -remaining)
  {
  }

  /** The lots one match leaves: the picked lot without the closed part, or gone. */
  lemma MatchOneLots(lots: seq<Lot>, remaining: real, price: real, closedBy: string, lifo: bool, multiplier: real)
    requires OneSided(lots) && lots != [] && remaining != 0.0 && Opposes(lots, remaining)
    ensures var m := MatchOne(lots, remaining, price, closedBy, lifo, multiplier);
            var i, closed := LotIndex(lots, lifo), ClosedBy(lots, remaining, lifo);
            && m.remaining == remaining + closed
            && (m.remaining == 0.0 || |m.lots| < |lots|)
            && (closed == lots[i].quantity ==> m.lots == lots[..i] + lots[i + 1..])
            && (closed != lots[i].quantity ==>
                  m.lots == lots[i := Lot(lots[i].quantity - closed, lots[i].price, lots[i].openedBy)])
  {
    hide Times;
    ClosedIsPart(lots, remaining, lifo);
  }

  lemma MatchOneStaysOneSided(lots: seq<Lot>, remaining: real, price: real, closedBy: string, lifo: bool,
                              multiplier: real)
    requires OneSided(lots) && lots != [] && remaining != 0.0 && Opposes(lots, remaining)
    ensures var m := MatchOne(lots, remaining, price, closedBy, lifo, multiplier);
            OneSided(m.lots) && (m.remaining != 0.0 ==> (m.remaining > 0.0) == (remaining > 0.0))
  {
    hide Times;
    ClosedIsPart(lots, remaining, lifo);
    MatchOneLots(lots, remaining, price, closedBy, lifo, multiplier);
  }

  lemma MatchOneMoves(lots: seq<Lot>, remaining: real, price: real, closedBy: string, lifo: bool, multiplier: real)
    requires OneSided(lots) && lots != [] && remaining != 0.0 && Opposes(lots, remaining)
    ensures var m := MatchOne(lots, remaining, price, closedBy, lifo, multiplier);
            var closed := ClosedBy(lots, remaining, lifo);
            && SumQty(m.lots) == SumQty(lots) - closed
            && SumCost(m.lots) == SumCost(lots) - Times(closed, lots[LotIndex(lots, lifo)].price)
            && SumPnl(m.trades) == Times(Times(closed, price - lots[LotIndex(lots, lifo)].price), multiplier)
  {
    hide Times;
    var i, closed := LotIndex(lots, lifo), ClosedBy(lots, remaining, lifo);
    MatchOneLots(lots, remaining, price, closedBy, lifo, multiplier);
    ReducingALot(lots, i, closed);
    var m := MatchOne(lots, remaining, price, closedBy, lifo, multiplier);
    assert SumPnl(m.trades) == m.trades[0].pnl + SumPnl(m.trades[1..]);
  }

  lemma ReducingALot(lots: seq<Lot>, i: nat, closed: real)
    requires i < |lots|
    ensures var lot := lots[i];
            var reduced := lots[i := Lot(lot.quantity - closed, lot.price, lot.openedBy)];
            && SumQty(reduced) == SumQty(lots) - closed
            && SumCost(reduced) == SumCost(lots) - Times(closed, lot.price)
            && (closed == lot.quantity ==>
                  && SumQty(lots[..i] + lots[i + 1..]) == SumQty(lots) - closed
                  && SumCost(lots[..i] + lots[i + 1..]) == SumCost(lots) - Times(closed, lot.price))
  {
    hide Times;
    var lot := lots[i];
    var reduced := lots[i := Lot(lot.quantity - closed, lot.price, lot.openedBy)];
    SplitSums(lots, i);
    SplitSums(reduced, i);
    assert reduced[..i] == lots[..i] && reduced[i + 1..] == lots[i + 1..];
    TimesDistributes(lot.quantity, closed, lot.price);
    SumsOfConcat(lots[..i], lots[i + 1..]);
  }

  lemma TimesDistributes(a: real, b: real, c: real)
    ensures Times(a + b, c) == Times(a, c) + Times(b, c)
    ensures Times(a - b, c) == Times(a, c) - Times(b, c)
    ensures Times(c, a + b) == Times(c, a) + Times(c, b)
    ensures Times(c, a - b) == Times(c, a) - Times(c, b)
    ensures Times(a, c) == Times(c, a)
  {
  }

  /** P&L that closing at `price` should realize, given what happened to quantity and cost. */
  function Gain(price: real, quantity: real, cost: real, multiplier: real): real {
    Times(Times(price, quantity) - cost, multiplier)
  }

  lemma GainAdds(price: real, q1: real, q2: real, c1: real, c2: real, multiplier: real)
    ensures Gain(price, q1, c1, multiplier) + Gain(price, q2, c2, multiplier)
         == Gain(price, q1 + q2, c1 + c2, multiplier)
  {
    hide Times;
    TimesDistributes(q1, q2, price);
    TimesDistributes(Times(price, q1) - c1, Times(price, q2) - c2, multiplier);
  }

  lemma ZeroGain(price: real, multiplier: real)
    ensures Gain(price, 0.0, 0.0, multiplier) == 0.0
  {
  }

  lemma GainOfOne(closed: real, price: real, open: real, multiplier: real)
    ensures Times(Times(closed, price - open), multiplier) == Gain(price, closed, Times(closed, open), multiplier)
  {
    hide Times;
    TimesDistributes(price, open, closed);
    TimesDistributes(price, closed, closed);
    TimesDistributes(closed, 0.0, price);
  }

  lemma GainComposes(price: real, open: real, closed: real, q0: real, q1: real, q2: real,
                     c0: real, c1: real, c2: real, multiplier: real)
    requires q0 - q1 == closed && c0 - c1 == Times(closed, open)
    ensures Times(Times(closed, price - open), multiplier) + Gain(price, q1 - q2, c1 - c2, multiplier)
         == Gain(price, q0 - q2, c0 - c2, multiplier)
  {
    hide Times, Gain;
    GainOfOne(closed, price, open, multiplier);
    GainAdds(price, q0 - q1, q1 - q2, c0 - c1, c1 - c2, multiplier);
    assert (q0 - q1) + (q1 - q2) == q0 - q2 && (c0 - c1) + (c1 - c2) == c0 - c2;
  }

  /** Closing against `lots` came to `m`: what is open moved by what was closed, and realized its gain. */
  predicate Realizes(lots: seq<Lot>, remaining: real, price: real, multiplier: real, m: Matched) {
    && OneSided(m.lots)
    && SumQty(m.lots) + m.remaining == SumQty(lots) + remaining
    && SumPnl(m.trades) == Gain(price, SumQty(lots) - SumQty(m.lots), SumCost(lots) - SumCost(m.lots), multiplier)
    && (m.remaining != 0.0 ==> m.lots == [] || !Opposes(m.lots, m.remaining))
  }

  /** One match, and the rest. */
  lemma MatchOneThenRest(lots: seq<Lot>, remaining: real, price: real, closedBy: string, lifo: bool, multiplier: real,
                         rest: Matched)
    requires OneSided(lots) && lots != [] && remaining != 0.0 && Opposes(lots, remaining)
    requires var one := MatchOne(lots, remaining, price, closedBy, lifo, multiplier);
             Realizes(one.lots, one.remaining, price, multiplier, rest)
    ensures var one := MatchOne(lots, remaining, price, closedBy, lifo, multiplier);
            Realizes(lots, remaining, price, multiplier, Matched(rest.lots, one.trades + rest.trades, rest.remaining))
  {
    hide Times, MatchOne, Gain, SumQty, SumCost, SumPnl;
    var one := MatchOne(lots, remaining, price, closedBy, lifo, multiplier);
    MatchOneMoves(lots, remaining, price, closedBy, lifo, multiplier);
    MatchOneLots(lots, remaining, price, closedBy, lifo, multiplier);
    SumPnlOfConcat(one.trades, rest.trades);
    GainComposes(price, lots[LotIndex(lots, lifo)].price, ClosedBy(lots, remaining, lifo),
                 SumQty(lots), SumQty(one.lots), SumQty(rest.lots),
                 SumCost(lots), SumCost(one.lots), SumCost(rest.lots), multiplier);
  }

  /** Closing realizes exactly the price moved on the quantity closed, whichever lots it picks. */
  lemma {:induction false} MatchConserves(lots: seq<Lot>, remaining: real, price: real, closedBy: string, lifo: bool,
                                          multiplier: real)
    requires OneSided(lots)
    ensures Realizes(lots, remaining, price, multiplier, Match(lots, remaining, price, closedBy, lifo, multiplier))
    decreases |lots|, if remaining == 0.0 then 0 else 1
  {
    hide MatchOne, OneSided, Opposes, Realizes;
    if remaining != 0.0 && lots != [] && Opposes(lots, remaining) {
      var one := MatchOne(lots, remaining, price, closedBy, lifo, multiplier);
      MatchOneLots(lots, remaining, price, closedBy, lifo, multiplier);
      MatchOneStaysOneSided(lots, remaining, price, closedBy, lifo, multiplier);
      MatchConserves(one.lots, one.remaining, price, closedBy, lifo, multiplier);
      MatchOneThenRest(lots, remaining, price, closedBy, lifo, multiplier,
                       Match(one.lots, one.remaining, price, closedBy, lifo, multiplier));
    } else {
      NothingToClose(lots, remaining, price, multiplier);
    }
  }

  lemma NothingToClose(lots: seq<Lot>, remaining: real, price: real, multiplier: real)
    requires OneSided(lots) && !(remaining != 0.0 && lots != [] && Opposes(lots, remaining))
    ensures Realizes(lots, remaining, price, multiplier, Matched(lots, [], remaining))
  {
    hide Times, SumQty, SumCost, OneSided, Gain;
    ZeroGain(price, multiplier);
  }

  lemma MatchOneShrinks(lots: seq<Lot>, remaining: real, price: real, closedBy: string, lifo: bool, multiplier: real)
    requires lots != []
    ensures var m, i := MatchOne(lots, remaining, price, closedBy, lifo, multiplier), LotIndex(lots, lifo);
            || m.lots == lots[..i] + lots[i + 1..]   // the lot was used up
            || (|m.lots| == |lots| && m.remaining == 0.0 && m.lots[..i] == lots[..i] && m.lots[i + 1..] == lots[i + 1..]
                && m.lots[i].price == lots[i].price && m.lots[i].openedBy == lots[i].openedBy)
  {
    hide Times;
  }

  /** FIFO keeps the newest lots and LIFO the oldest. At most the lot at the cut is reduced, and it
      keeps its price and its opener. */
  predicate KeepsRightLots(lots: seq<Lot>, kept: seq<Lot>, lifo: bool) {
    && |kept| <= |lots|
    && (kept != [] && lifo ==>
          var last := |kept| - 1;
          && kept[..last] == lots[..last]
          && kept[last].price == lots[last].price && kept[last].openedBy == lots[last].openedBy)
    && (kept != [] && !lifo ==>
          var cut := |lots| - |kept|;
          && kept[1..] == lots[cut + 1..]
          && kept[0].price == lots[cut].price && kept[0].openedBy == lots[cut].openedBy)
  }

  lemma KeepingComposes(lots: seq<Lot>, mid: seq<Lot>, kept: seq<Lot>, lifo: bool)
    requires KeepsRightLots(lots, mid, lifo) && KeepsRightLots(mid, kept, lifo)
    ensures KeepsRightLots(lots, kept, lifo)
  {
    if kept != [] {
      if lifo {
        var last := |kept| - 1;
        assert kept[..last] == mid[..last] == lots[..last];
        if last < |mid| - 1 { assert mid[last] == mid[..|mid| - 1][last] == lots[last]; }
      } else {
        var cut, cut' := |lots| - |mid|, |mid| - |kept|;
        if cut' > 0 {
          assert mid[cut'] == mid[1..][cut' - 1] == lots[cut + 1..][cut' - 1];
          assert mid[cut' + 1..] == mid[1..][cut'..] == lots[cut + 1..][cut'..];
        }
      }
    }
  }

  lemma {:induction false} MatchKeepsTheRightLots(lots: seq<Lot>, remaining: real, price: real, closedBy: string,
                                                  lifo: bool, multiplier: real)
    ensures KeepsRightLots(lots, Match(lots, remaining, price, closedBy, lifo, multiplier).lots, lifo)
    decreases |lots|, if remaining == 0.0 then 0 else 1
  {
    if remaining != 0.0 && lots != [] && Opposes(lots, remaining) {
      var one := MatchOne(lots, remaining, price, closedBy, lifo, multiplier);
      MatchOneShrinks(lots, remaining, price, closedBy, lifo, multiplier);
      hide MatchOne;
      assert KeepsRightLots(lots, one.lots, lifo);
      hide KeepsRightLots;
      MatchKeepsTheRightLots(one.lots, one.remaining, price, closedBy, lifo, multiplier);
      var kept := Match(one.lots, one.remaining, price, closedBy, lifo, multiplier).lots;
      KeepingComposes(lots, one.lots, kept, lifo);
    }
  }

  // ----- The books -----

  datatype Books = Books(
    lots: seq<Lot>,
    trades: seq<RealizedTrade>,
    fees: map<string, real>,
    unknownFees: int,
    symbol: Option<string>,
    seen: map<Key, Fill>)

  const EMPTY: Books := Books([], [], map[], 0, None, map[])

  datatype Rules = Rules(lotMethod: LotMethod, multiplier: real, ratio: (real, real) -> real)

  predicate FeeLacksCurrency(fill: Fill) {
    fill.fee.Some? && fill.fee.value != 0.0 && fill.feeCurrency.None?
  }

  function FeeIn(fees: map<string, real>, currency: string): real {
    if currency in fees then fees[currency] else 0.0
  }

  function WithFee(fees: map<string, real>, fill: Fill): map<string, real> {
    if fill.fee.Some? && fill.feeCurrency.Some?
    then fees[fill.feeCurrency.value := FeeIn(fees, fill.feeCurrency.value) + fill.fee.value]
    else fees
  }

  function Collapsed(lots: seq<Lot>, ratio: (real, real) -> real): seq<Lot> {
    var quantity := SumQty(lots);
    if quantity == 0.0 || |lots| <= 1 then lots
    else [Lot(quantity, ratio(SumCost(lots), quantity), lots[0].openedBy)]
  }

  function MergeReport(b: Books, known: Fill, report: Fill): (Books, Result<seq<RealizedTrade>, LedgerError>) {
    if !SameExecution(known, report) then (b, Err(DifferentTerms)) else
    if FeesDiffer(known, report) then (b, Err(DifferentFee)) else
    var merged := MergedFill(known, report);
    if FeeLacksCurrency(merged) then (b, Err(FeeWithoutCurrency)) else
    var b' := b.(seen := b.seen[KeyOf(report) := merged]);
    if known.fee.None? && merged.fee.Some?
    then (b'.(unknownFees := b.unknownFees - 1, fees := WithFee(b.fees, merged)), Ok([]))
    else (b', Ok([]))
  }

  function BookFill(rules: Rules, b: Books, fill: Fill): (Books, seq<RealizedTrade>) {
    var m := Match(StartLots(rules, b.lots), SignedQuantity(fill), fill.price, fill.fillId,
                   rules.lotMethod == Lifo, rules.multiplier);
    (b.(lots := WithResidual(m, fill.price, fill.fillId),
        trades := b.trades + m.trades,
        seen := b.seen[KeyOf(fill) := fill],
        fees := WithFee(b.fees, fill),
        unknownFees := if fill.fee.None? then b.unknownFees + 1 else b.unknownFees),
     m.trades)
  }

  /** A refused fill can still bind the ledger to its instrument: that happens first. */
  function ApplyFill(rules: Rules, b: Books, fill: Fill): (Books, Result<seq<RealizedTrade>, LedgerError>) {
    if KeyOf(fill) in b.seen then MergeReport(b, b.seen[KeyOf(fill)], fill) else
    if b.symbol.Some? && b.symbol.value != fill.symbol then (b, Err(WrongSymbol)) else
    var bound := b.(symbol := Some(fill.symbol));
    if FeeLacksCurrency(fill) then (bound, Err(FeeWithoutCurrency)) else
    var (b', closing) := BookFill(rules, bound, fill);
    (b', Ok(closing))
  }

  function Run(rules: Rules, fills: seq<Fill>): Books {
    if fills == [] then EMPTY else
    ApplyFill(rules, Run(rules, fills[..|fills| - 1]), fills[|fills| - 1]).0
  }

  // ----- What was booked, told without lots -----

  /** The distinct executions of the ledger's instrument, each with every detail reported of it. */
  datatype Intake = Intake(symbol: Option<string>, booked: seq<Fill>)

  function Find(booked: seq<Fill>, key: Key): (i: nat)
    ensures i <= |booked|
    ensures i < |booked| ==> KeyOf(booked[i]) == key
    ensures forall j :: 0 <= j < i ==> KeyOf(booked[j]) != key
  {
    if booked == [] || KeyOf(booked[0]) == key then 0 else 1 + Find(booked[1..], key)
  }

  function TakeIn(t: Intake, fill: Fill): Intake {
    var i := Find(t.booked, KeyOf(fill));
    if i < |t.booked| then
      var merged := MergedFill(t.booked[i], fill);
      if !SameExecution(t.booked[i], fill) || FeesDiffer(t.booked[i], fill) || FeeLacksCurrency(merged) then t
      else t.(booked := t.booked[i := merged])
    else if t.symbol.Some? && t.symbol.value != fill.symbol then t
    else if FeeLacksCurrency(fill) then t.(symbol := Some(fill.symbol))
    else Intake(Some(fill.symbol), t.booked + [fill])
  }

  function TakenIn(fills: seq<Fill>): Intake {
    if fills == [] then Intake(None, []) else TakeIn(TakenIn(fills[..|fills| - 1]), fills[|fills| - 1])
  }

  function NetQty(booked: seq<Fill>): real {
    if booked == [] then 0.0
    else NetQty(booked[..|booked| - 1]) + SignedQuantity(booked[|booked| - 1])
  }

  function NetCash(booked: seq<Fill>): real {
    if booked == [] then 0.0
    else var last := booked[|booked| - 1];
         NetCash(booked[..|booked| - 1]) + Times(SignedQuantity(last), last.price)
  }

  function FeesPaid(booked: seq<Fill>, currency: string): real {
    if booked == [] then 0.0
    else FeesPaid(booked[..|booked| - 1], currency) + FeeOf(booked[|booked| - 1], currency)
  }

  function FeeOf(fill: Fill, currency: string): real {
    if fill.fee.Some? && fill.feeCurrency == Some(currency) then fill.fee.value else 0.0
  }

  function FeesUnreported(booked: seq<Fill>): int {
    if booked == [] then 0
    else FeesUnreported(booked[..|booked| - 1]) + (if booked[|booked| - 1].fee.None? then 1 else 0)
  }

  /** How far the books' cost has moved from the cash paid by rounding average prices. */
  function Drift(rules: Rules, fills: seq<Fill>): real {
    if fills == [] then 0.0 else
    var init, fill := fills[..|fills| - 1], fills[|fills| - 1];
    var lots := Run(rules, init).lots;
    if |TakenIn(fills).booked| > |TakenIn(init).booked|
    then Drift(rules, init) + SumCost(StartLots(rules, lots)) - SumCost(lots)
    else Drift(rules, init)
  }

  predicate SeenIsBooked(seen: map<Key, Fill>, booked: seq<Fill>) {
    && (forall i :: 0 <= i < |booked| ==> KeyOf(booked[i]) in seen && seen[KeyOf(booked[i])] == booked[i])
    && (forall i, j :: 0 <= i < j < |booked| ==> KeyOf(booked[i]) != KeyOf(booked[j]))
    && (forall k :: k in seen ==> Find(booked, k) < |booked|)
  }

  ghost predicate FeesAreBooked(b: Books, booked: seq<Fill>) {
    && (forall c :: FeeIn(b.fees, c) == FeesPaid(booked, c))
    && b.unknownFees == FeesUnreported(booked)
    && (forall i :: 0 <= i < |booked| ==> !FeeLacksCurrency(booked[i]))
  }

  lemma MergeKeepsTotals(booked: seq<Fill>, i: nat, merged: Fill)
    requires i < |booked| && SameExecution(merged, booked[i])
    ensures NetQty(booked[i := merged]) == NetQty(booked)
    ensures NetCash(booked[i := merged]) == NetCash(booked)
    ensures FeesUnreported(booked[i := merged])
         == FeesUnreported(booked) + (if merged.fee.None? then 1 else 0) - (if booked[i].fee.None? then 1 else 0)
    ensures forall c :: FeesPaid(booked[i := merged], c) == FeesPaid(booked, c) + FeeOf(merged, c) - FeeOf(booked[i], c)
  {
    hide Times;
    var n := |booked| - 1;
    var init := booked[..n];
    var updated := booked[i := merged];
    if i == n {
      assert updated[..n] == init;
    } else {
      assert updated[..n] == init[i := merged];
      MergeKeepsTotals(init, i, merged);
    }
    forall c ensures FeesPaid(updated, c) == FeesPaid(booked, c) + FeeOf(merged, c) - FeeOf(booked[i], c) {
      assert FeesPaid(updated, c) == FeesPaid(updated[..n], c) + FeeOf(updated[n], c);
    }
  }

  lemma FindIsStable(booked: seq<Fill>, i: nat, merged: Fill, k: Key)
    requires i < |booked| && KeyOf(merged) == KeyOf(booked[i])
    ensures Find(booked[i := merged], k) == Find(booked, k)
  {
    if i > 0 && KeyOf(booked[0]) != k {
      assert booked[i := merged][1..] == booked[1..][i - 1 := merged];
      FindIsStable(booked[1..], i - 1, merged, k);
    } else if i == 0 {
      assert booked[i := merged][1..] == booked[1..];
    }
  }

  lemma SeenFacts(seen: map<Key, Fill>, booked: seq<Fill>, key: Key)
    requires SeenIsBooked(seen, booked)
    ensures key in seen <==> Find(booked, key) < |booked|
    ensures key in seen ==> seen[key] == booked[Find(booked, key)]
  {
  }

  lemma NothingBooked()
    ensures SeenIsBooked(EMPTY.seen, []) && FeesAreBooked(EMPTY, [])
  {
  }

  lemma SymbolIsNotInvolved(b: Books, booked: seq<Fill>, symbol: Option<string>)
    requires FeesAreBooked(b, booked)
    ensures FeesAreBooked(b.(symbol := symbol), booked)
  {
  }

  /** The books and the plain list of distinct executions never disagree on what is known. */
  lemma {:induction false} SeenMatchesIntake(rules: Rules, fills: seq<Fill>)
    ensures var b, t := Run(rules, fills), TakenIn(fills);
            SeenIsBooked(b.seen, t.booked) && FeesAreBooked(b, t.booked) && b.symbol == t.symbol
  {
    hide Times, Match, Collapsed, SeenIsBooked, FeesAreBooked;
    if fills == [] {
      NothingBooked();
    } else {
      var init, fill := fills[..|fills| - 1], fills[|fills| - 1];
      SeenMatchesIntake(rules, init);
      var b, t := Run(rules, init), TakenIn(init);
      SeenFacts(b.seen, t.booked, KeyOf(fill));
      SymbolIsNotInvolved(b, t.booked, Some(fill.symbol));
      if KeyOf(fill) in b.seen {
        IntakeMerges(b, t, fill, Find(t.booked, KeyOf(fill)));
      } else if !FeeLacksCurrency(fill) {
        NewFillIsBooked(rules, b.(symbol := Some(fill.symbol)), t.booked, fill);
      }
    }
  }

  lemma {:induction false} FindAfterAppend(booked: seq<Fill>, fill: Fill, k: Key)
    ensures Find(booked + [fill], k)
         == if Find(booked, k) < |booked| then Find(booked, k)
            else if KeyOf(fill) == k then |booked| else |booked| + 1
  {
    if booked != [] && KeyOf(booked[0]) != k {
      assert (booked + [fill])[1..] == booked[1..] + [fill];
      FindAfterAppend(booked[1..], fill, k);
    }
  }

  lemma SeenAfterAppend(seen: map<Key, Fill>, booked: seq<Fill>, fill: Fill)
    requires SeenIsBooked(seen, booked) && KeyOf(fill) !in seen
    ensures SeenIsBooked(seen[KeyOf(fill) := fill], booked + [fill])
  {
    forall k | k in seen[KeyOf(fill) := fill] ensures Find(booked + [fill], k) < |booked + [fill]| {
      FindAfterAppend(booked, fill, k);
    }
  }

  lemma FeesAfterAppend(fees: map<string, real>, booked: seq<Fill>, fill: Fill, c: string)
    requires FeeIn(fees, c) == FeesPaid(booked, c)
    ensures FeeIn(WithFee(fees, fill), c) == FeesPaid(booked + [fill], c)
  {
    assert (booked + [fill])[..|booked|] == booked;
  }

  lemma NewFillIsBooked(rules: Rules, b: Books, booked: seq<Fill>, fill: Fill)
    requires SeenIsBooked(b.seen, booked) && FeesAreBooked(b, booked)
    requires KeyOf(fill) !in b.seen && !FeeLacksCurrency(fill)
    ensures var b' := BookFill(rules, b, fill).0;
            SeenIsBooked(b'.seen, booked + [fill]) && FeesAreBooked(b', booked + [fill])
  {
    hide Times, Match, Collapsed, SeenIsBooked, WithFee, FeeIn, FeesPaid;
    SeenAfterAppend(b.seen, booked, fill);
    assert (booked + [fill])[..|booked|] == booked;
    forall c ensures FeeIn(WithFee(b.fees, fill), c) == FeesPaid(booked + [fill], c) {
      FeesAfterAppend(b.fees, booked, fill, c);
    }
  }

  lemma SeenAfterMerge(seen: map<Key, Fill>, booked: seq<Fill>, i: nat, merged: Fill)
    requires SeenIsBooked(seen, booked) && i < |booked| && KeyOf(merged) == KeyOf(booked[i])
    ensures SeenIsBooked(seen[KeyOf(merged) := merged], booked[i := merged])
  {
    var booked' := booked[i := merged];
    assert forall j :: 0 <= j < |booked| ==> KeyOf(booked'[j]) == KeyOf(booked[j]);
    forall k | k in seen[KeyOf(merged) := merged] ensures Find(booked', k) < |booked'| {
      FindIsStable(booked, i, merged, k);
    }
  }

  /** A merge moves a fee only when the first report named none. */
  lemma MergedFee(known: Fill, report: Fill, c: string)
    requires !FeesDiffer(known, report)
    requires !FeeLacksCurrency(known) && !FeeLacksCurrency(MergedFill(known, report))
    ensures known.fee.Some? ==> FeeOf(MergedFill(known, report), c) == FeeOf(known, c)
    ensures known.fee.None? ==> FeeOf(known, c) == 0.0
    ensures MergedFill(known, report).fee.None? ==> FeeOf(MergedFill(known, report), c) == 0.0
  {
  }

  lemma FeesAfterMerge(b: Books, booked: seq<Fill>, i: nat, report: Fill)
    requires i < |booked| && FeesAreBooked(b, booked)
    requires SameExecution(booked[i], report) && !FeesDiffer(booked[i], report)
    requires !FeeLacksCurrency(MergedFill(booked[i], report))
    ensures FeesAreBooked(MergeReport(b, booked[i], report).0, booked[i := MergedFill(booked[i], report)])
  {
    hide MergedFill, FeesPaid, FeesUnreported;
    var known, merged := booked[i], MergedFill(booked[i], report);
    var b' := MergeReport(b, known, report).0;
    MergeKeepsTotals(booked, i, merged);
    forall c ensures FeeIn(b'.fees, c) == FeesPaid(booked[i := merged], c) {
      MergedFee(known, report, c);
      assert FeesPaid(booked[i := merged], c) == FeesPaid(booked, c) + FeeOf(merged, c) - FeeOf(known, c);
    }
  }

  lemma IntakeMerges(b: Books, t: Intake, fill: Fill, i: nat)
    requires SeenIsBooked(b.seen, t.booked) && FeesAreBooked(b, t.booked)
    requires i == Find(t.booked, KeyOf(fill)) && i < |t.booked|
    ensures KeyOf(fill) in b.seen
    ensures var b' := MergeReport(b, b.seen[KeyOf(fill)], fill).0;
            SeenIsBooked(b'.seen, TakeIn(t, fill).booked) && FeesAreBooked(b', TakeIn(t, fill).booked)
  {
    SeenFacts(b.seen, t.booked, KeyOf(fill));
    hide SeenIsBooked, FeesAreBooked, MergedFill, SameExecution, FeesDiffer, FeeLacksCurrency, WithFee;
    var known := t.booked[i];
    var merged := MergedFill(known, fill);
    if SameExecution(known, fill) && !FeesDiffer(known, fill) && !FeeLacksCurrency(merged) {
      SeenAfterMerge(b.seen, t.booked, i, merged);
      FeesAfterMerge(b, t.booked, i, fill);
    }
  }

  lemma CollapseKeepsQuantity(lots: seq<Lot>, ratio: (real, real) -> real)
    requires OneSided(lots)
    ensures OneSided(Collapsed(lots, ratio)) && SumQty(Collapsed(lots, ratio)) == SumQty(lots)
  {
    hide Times;
    if |lots| > 1 && SumQty(lots) != 0.0 {
      var one := Collapsed(lots, ratio);
      assert SumQty(one) == one[0].quantity + SumQty(one[1..]);
    }
  }

  /** What a closing trade does not match opens a lot of its own. */
  function WithResidual(m: Matched, price: real, openedBy: string): seq<Lot> {
    if m.remaining != 0.0 then m.lots + [Lot(m.remaining, price, openedBy)] else m.lots
  }

  lemma ResidualOpensLot(m: Matched, price: real, openedBy: string)
    requires OneSided(m.lots) && (m.remaining != 0.0 ==> m.lots == [] || !Opposes(m.lots, m.remaining))
    ensures var lots := WithResidual(m, price, openedBy);
            && OneSided(lots)
            && SumQty(lots) == SumQty(m.lots) + m.remaining
            && SumCost(lots) == SumCost(m.lots) + Times(m.remaining, price)
  {
    hide Times;
    ZeroTimes(price);
    var residual := [Lot(m.remaining, price, openedBy)];
    SumsOfConcat(m.lots, residual);
    assert SumQty(residual) == m.remaining + SumQty(residual[1..]);
    assert SumCost(residual) == Times(m.remaining, price) + SumCost(residual[1..]);
  }

  lemma ZeroTimes(x: real)
    ensures Times(0.0, x) == 0.0
  {
  }

  lemma ConservationStep(price: real, q0: real, q1: real, remaining: real, signed: real,
                         c: real, c0: real, c1: real, c2: real, cash: real, drift: real, multiplier: real)
    requires q1 + remaining == q0 + signed
    requires c2 == c1 + Times(remaining, price)
    ensures Times(c - cash - drift, multiplier) + Gain(price, q0 - q1, c0 - c1, multiplier)
         == Times(c2 - (cash + Times(signed, price)) - (drift + c0 - c), multiplier)
  {
    hide Times;
    var moved := Times(price, q0 - q1);
    assert q0 - q1 == remaining - signed;
    TimesDistributes(remaining, signed, price);
    TimesDistributes(signed, remaining, price);
    assert moved == Times(price, remaining - signed);
    assert (c - cash - drift) + (moved - (c0 - c1)) == c2 - (cash + Times(signed, price)) - (drift + c0 - c);
    TimesDistributes(c - cash - drift, moved - (c0 - c1), multiplier);
  }

  function StartLots(rules: Rules, lots: seq<Lot>): seq<Lot> {
    if rules.lotMethod == Average then Collapsed(lots, rules.ratio) else lots
  }

  /** One new fill moves position, cash and realized P&L together. */
  lemma BookFillConserves(rules: Rules, b: Books, fill: Fill, net: real, cash: real, drift: real)
    requires OneSided(b.lots) && SumQty(b.lots) == net
    requires SumPnl(b.trades) == Times(SumCost(b.lots) - cash - drift, rules.multiplier)
    ensures var b' := BookFill(rules, b, fill).0;
            && OneSided(b'.lots)
            && SumQty(b'.lots) == net + SignedQuantity(fill)
            && SumPnl(b'.trades)
               == Times(SumCost(b'.lots) - (cash + Times(SignedQuantity(fill), fill.price))
                        - (drift + SumCost(StartLots(rules, b.lots)) - SumCost(b.lots)), rules.multiplier)
  {
    hide Times, Match, Collapsed, Gain, WithResidual, SumPnl;
    CollapseKeepsQuantity(b.lots, rules.ratio);
    var start, signed := StartLots(rules, b.lots), SignedQuantity(fill);
    var m := Match(start, signed, fill.price, fill.fillId, rules.lotMethod == Lifo, rules.multiplier);
    MatchConserves(start, signed, fill.price, fill.fillId, rules.lotMethod == Lifo, rules.multiplier);
    SumPnlOfConcat(b.trades, m.trades);
    ResidualOpensLot(m, fill.price, fill.fillId);
    ConservationStep(fill.price, SumQty(start), SumQty(m.lots), m.remaining, signed, SumCost(b.lots), SumCost(start),
                     SumCost(m.lots), SumCost(WithResidual(m, fill.price, fill.fillId)), cash, drift, rules.multiplier);
    var b' := BookFill(rules, b, fill).0;
    assert b'.lots == WithResidual(m, fill.price, fill.fillId) && b'.trades == b.trades + m.trades;
  }

  /** Lots, realized P&L and the drift so far agree with what was booked. */
  predicate Conserved(rules: Rules, b: Books, booked: seq<Fill>, drift: real) {
    && OneSided(b.lots)
    && SumQty(b.lots) == NetQty(booked)
    && SumPnl(b.trades) == Times(SumCost(b.lots) - NetCash(booked) - drift, rules.multiplier)
  }

  lemma ConservedByOne(rules: Rules, b: Books, t: Intake, fill: Fill, drift: real)
    requires Conserved(rules, b, t.booked, drift) && SeenIsBooked(b.seen, t.booked) && b.symbol == t.symbol
    ensures var booked' := TakeIn(t, fill).booked;
            Conserved(rules, ApplyFill(rules, b, fill).0, booked',
                      if |booked'| > |t.booked| then drift + SumCost(StartLots(rules, b.lots)) - SumCost(b.lots)
                      else drift)
  {
    SeenFacts(b.seen, t.booked, KeyOf(fill));
    hide *;
    if KeyOf(fill) in b.seen {
      MergeConserves(rules, b, t, fill, drift);
    } else {
      NewFillConserves(rules, b, t, fill, drift);
    }
  }

  lemma MergeConserves(rules: Rules, b: Books, t: Intake, fill: Fill, drift: real)
    requires Conserved(rules, b, t.booked, drift) && Find(t.booked, KeyOf(fill)) < |t.booked|
    requires KeyOf(fill) in b.seen
    ensures Conserved(rules, ApplyFill(rules, b, fill).0, TakeIn(t, fill).booked, drift)
    ensures |TakeIn(t, fill).booked| == |t.booked|
  {
    hide BookFill, SumPnl, SumCost, SumQty, NetQty, NetCash, OneSided;
    var i := Find(t.booked, KeyOf(fill));
    MergeKeepsTotals(t.booked, i, MergedFill(t.booked[i], fill));
  }

  lemma NewFillConserves(rules: Rules, b: Books, t: Intake, fill: Fill, drift: real)
    requires Conserved(rules, b, t.booked, drift) && Find(t.booked, KeyOf(fill)) == |t.booked|
    requires KeyOf(fill) !in b.seen && b.symbol == t.symbol
    ensures var booked' := TakeIn(t, fill).booked;
            Conserved(rules, ApplyFill(rules, b, fill).0, booked',
                      if |booked'| > |t.booked| then drift + SumCost(StartLots(rules, b.lots)) - SumCost(b.lots)
                      else drift)
  {
    hide Times, BookFill, SumPnl, SumCost, SumQty, StartLots, NetQty, NetCash, OneSided, FeeLacksCurrency;
    if (b.symbol.None? || b.symbol.value == fill.symbol) && !FeeLacksCurrency(fill) {
      NetOfAppend(t.booked, fill);
      BookFillConserves(rules, b.(symbol := Some(fill.symbol)), fill, NetQty(t.booked), NetCash(t.booked), drift);
    }
  }

  /** For every sequence of reports, repeats and refused ones included: open lots are nonzero and on
      one side, the position is the signed sum of the distinct fills, and realized P&L is the open
      cost less the cash paid, less only what rounding average prices moved. */
  lemma {:induction false} LedgerConserves(rules: Rules, fills: seq<Fill>)
    ensures var b, booked := Run(rules, fills), TakenIn(fills).booked;
            && OneSided(b.lots)
            && SumQty(b.lots) == NetQty(booked)
            && SumPnl(b.trades) == Times(SumCost(b.lots) - NetCash(booked) - Drift(rules, fills), rules.multiplier)
  {
    hide Times, ApplyFill, TakeIn, SumPnl, SumCost, SumQty, StartLots, NetQty, NetCash, OneSided;
    if fills == [] {
      EmptyBooks(rules);
    } else {
      var init, fill := fills[..|fills| - 1], fills[|fills| - 1];
      LedgerConserves(rules, init);
      SeenMatchesIntake(rules, init);
      ConservedByOne(rules, Run(rules, init), TakenIn(init), fill, Drift(rules, init));
    }
  }

  lemma EmptyBooks(rules: Rules)
    ensures var b := Run(rules, []);
            && OneSided(b.lots) && SumQty(b.lots) == NetQty([])
            && SumPnl(b.trades) == Times(SumCost(b.lots) - NetCash([]) - 0.0, rules.multiplier)
  {
  }

  lemma NetOfAppend(booked: seq<Fill>, fill: Fill)
    ensures NetQty(booked + [fill]) == NetQty(booked) + SignedQuantity(fill)
    ensures NetCash(booked + [fill]) == NetCash(booked) + Times(SignedQuantity(fill), fill.price)
  {
    hide Times;
    assert (booked + [fill])[..|booked|] == booked;
  }

  /** Realized plus unrealized P&L of the books at `mark`. */
  function TotalPnl(rules: Rules, fills: seq<Fill>, mark: real): real {
    var b := Run(rules, fills);
    SumPnl(b.trades) + Times(Times(SumQty(b.lots), mark) - SumCost(b.lots), rules.multiplier)
  }

  /** Total P&L at any mark depends on the fills alone, never on the lots. */
  lemma TotalPnlIgnoresLots(rules: Rules, fills: seq<Fill>, mark: real)
    ensures TotalPnl(rules, fills, mark)
         == Times(Times(NetQty(TakenIn(fills).booked), mark) - NetCash(TakenIn(fills).booked) - Drift(rules, fills),
                  rules.multiplier)
  {
    hide Times, SumPnl, SumCost, SumQty, Drift, Run, TakenIn, NetQty, NetCash;
    LedgerConserves(rules, fills);
    var b, booked := Run(rules, fills), TakenIn(fills).booked;
    AddMark(SumCost(b.lots), NetCash(booked), Drift(rules, fills), Times(SumQty(b.lots), mark), rules.multiplier);
  }

  lemma AddMark(cost: real, cash: real, drift: real, value: real, multiplier: real)
    ensures Times(cost - cash - drift, multiplier) + Times(value - cost, multiplier)
         == Times(value - cash - drift, multiplier)
  {
    hide Times;
    TimesDistributes(cost - cash - drift, value - cost, multiplier);
    assert (cost - cash - drift) + (value - cost) == value - cash - drift;
  }

  lemma {:induction false} NoDriftUnlessAverage(rules: Rules, fills: seq<Fill>)
    requires rules.lotMethod != Average
    ensures Drift(rules, fills) == 0.0
  {
    hide Times;
    if fills != [] {
      NoDriftUnlessAverage(rules, fills[..|fills| - 1]);
    }
  }

  /** The one quotient that averaging takes, if it takes one, loses nothing. */
  predicate AverageIsExact(lots: seq<Lot>, ratio: (real, real) -> real) {
    var quantity := SumQty(lots);
    |lots| > 1 && quantity != 0.0 ==> Times(ratio(SumCost(lots), quantity), quantity) == SumCost(lots)
  }

  /** Whether report `k` is a new fill that the books average their lots for. */
  predicate TakesAverage(rules: Rules, fills: seq<Fill>, k: nat)
    requires k < |fills|
  {
    rules.lotMethod == Average && |TakenIn(fills[..k + 1]).booked| > |TakenIn(fills[..k]).booked|
  }

  /** Every quotient this run takes is exact, the last one included. */
  predicate AveragesAreExact(rules: Rules, fills: seq<Fill>) {
    forall k: nat :: k < |fills| && TakesAverage(rules, fills, k) ==>
      AverageIsExact(Run(rules, fills[..k]).lots, rules.ratio)
  }

  predicate NeverDrifts(rules: Rules, fills: seq<Fill>) {
    forall k: nat :: k <= |fills| ==> Drift(rules, fills[..k]) == 0.0
  }

  lemma CollapseCosts(lots: seq<Lot>, ratio: (real, real) -> real)
    ensures SumCost(Collapsed(lots, ratio)) == SumCost(lots) <==> AverageIsExact(lots, ratio)
  {
    hide Times;
    if |lots| > 1 && SumQty(lots) != 0.0 {
      var one := Collapsed(lots, ratio);
      assert SumCost(one) == CostOf(one[0]) + SumCost(one[1..]);
      TimesDistributes(SumQty(lots), 0.0, one[0].price);
    }
  }

  /** One report more: no new drift exactly when its quotient, if it takes one, is exact. */
  lemma DriftMoves(rules: Rules, fills: seq<Fill>, k: nat)
    requires k < |fills|
    ensures Drift(rules, fills[..k + 1]) == Drift(rules, fills[..k])
       <==> (TakesAverage(rules, fills, k) ==> AverageIsExact(Run(rules, fills[..k]).lots, rules.ratio))
  {
    assert fills[..k + 1][..k] == fills[..k];
    CollapseCosts(Run(rules, fills[..k]).lots, rules.ratio);
    hide Times, Run, TakenIn, Collapsed, AverageIsExact, SumCost;
  }

  /** The books never drift if and only if every quotient the run takes is exact: a single rounded
      average already shows in the books right after it. */
  lemma {:induction false} NoDriftIffExact(rules: Rules, fills: seq<Fill>)
    ensures NeverDrifts(rules, fills) <==> AveragesAreExact(rules, fills)
  {
    hide Run, TakesAverage, AverageIsExact, Drift;
    forall k: nat | k < |fills|
      ensures Drift(rules, fills[..k + 1]) == Drift(rules, fills[..k])
         <==> (TakesAverage(rules, fills, k) ==> AverageIsExact(Run(rules, fills[..k]).lots, rules.ratio))
    {
      DriftMoves(rules, fills, k);
    }
    if AveragesAreExact(rules, fills) {
      forall k: nat | k <= |fills| ensures Drift(rules, fills[..k]) == 0.0 { NoDriftUpTo(rules, fills, k); }
    } else {
      var k: nat :| k < |fills| && TakesAverage(rules, fills, k)
                    && !AverageIsExact(Run(rules, fills[..k]).lots, rules.ratio);
      assert Drift(rules, fills[..k + 1]) != 0.0 || Drift(rules, fills[..k]) != 0.0;
    }
  }

  lemma {:induction false} NoDriftUpTo(rules: Rules, fills: seq<Fill>, k: nat)
    requires AveragesAreExact(rules, fills) && k <= |fills|
    ensures Drift(rules, fills[..k]) == 0.0
  {
    if k > 0 {
      NoDriftUpTo(rules, fills, k - 1);
      DriftMoves(rules, fills, k - 1);
      hide Run, TakesAverage, AverageIsExact, Drift;
    } else {
      assert fills[..0] == [];
    }
  }

  /** Books of the same reports under two lot methods are worth the same at every mark, provided the
      quotients each of them takes are exact. */
  lemma MethodsAgreeOnTotalPnl(rules: Rules, other: LotMethod, fills: seq<Fill>, mark: real)
    requires AveragesAreExact(rules, fills) && AveragesAreExact(rules.(lotMethod := other), fills)
    ensures TotalPnl(rules, fills, mark) == TotalPnl(rules.(lotMethod := other), fills, mark)
  {
    hide Times, TotalPnl, Run, TakenIn, NetQty, NetCash, AveragesAreExact;
    var rules' := rules.(lotMethod := other);
    assert fills[..|fills|] == fills;
    TotalPnlIgnoresLots(rules, fills, mark);
    TotalPnlIgnoresLots(rules', fills, mark);
    NoDriftUpTo(rules, fills, |fills|);
    NoDriftUpTo(rules', fills, |fills|);
  }

  /** And only then: average books agree with FIFO books after every report, at any mark, if and only if
      every quotient they took is exact. */
  lemma AverageAgreesIffExact(rules: Rules, fills: seq<Fill>, mark: real)
    requires rules.lotMethod == Average && rules.multiplier != 0.0
    ensures (forall k: nat :: k <= |fills| ==>
               TotalPnl(rules, fills[..k], mark) == TotalPnl(rules.(lotMethod := Fifo), fills[..k], mark))
       <==> AveragesAreExact(rules, fills)
  {
    hide Times, TotalPnl, Run, TakenIn, NetQty, NetCash, AveragesAreExact, Drift;
    var fifo := rules.(lotMethod := Fifo);
    forall k: nat | k <= |fills|
      ensures TotalPnl(rules, fills[..k], mark) == TotalPnl(fifo, fills[..k], mark) <==> Drift(rules, fills[..k]) == 0.0
    {
      TotalPnlIgnoresLots(rules, fills[..k], mark);
      TotalPnlIgnoresLots(fifo, fills[..k], mark);
      NoDriftUnlessAverage(fifo, fills[..k]);
      var booked := TakenIn(fills[..k]).booked;
      SameProduct(Times(NetQty(booked), mark) - NetCash(booked), Drift(rules, fills[..k]), rules.multiplier);
    }
    NoDriftIffExact(rules, fills);
  }

  lemma SameProduct(value: real, drift: real, multiplier: real)
    requires multiplier != 0.0
    ensures Times(value - drift, multiplier) == Times(value - 0.0, multiplier) <==> drift == 0.0
  {
    TimesDistributes(value, drift, multiplier);
  }

  /** FIFO and LIFO agree with no assumption on rounding at all. */
  lemma FifoAndLifoAgree(rules: Rules, fills: seq<Fill>, mark: real)
    ensures TotalPnl(rules.(lotMethod := Fifo), fills, mark) == TotalPnl(rules.(lotMethod := Lifo), fills, mark)
  {
    hide Times, TotalPnl, Run, TakenIn, NetQty, NetCash;
    var fifo, lifo := rules.(lotMethod := Fifo), rules.(lotMethod := Lifo);
    TotalPnlIgnoresLots(fifo, fills, mark);
    TotalPnlIgnoresLots(lifo, fills, mark);
    NoDriftUnlessAverage(fifo, fills);
    NoDriftUnlessAverage(lifo, fills);
  }

  // ----- The ledger object -----

  class PositionLedger {
    const rules: Rules
    var lots: seq<Lot>
    var realizedTrades: seq<RealizedTrade>
    var fees: map<string, real>
    var fillsWithUnknownFee: int
    var symbol: Option<string>
    var seen: map<Key, Fill>

    constructor (rules: Rules)
      ensures View() == EMPTY && this.rules == rules
    {
      this.rules := rules;
      lots, realizedTrades, fees, fillsWithUnknownFee, symbol, seen := [], [], map[], 0, None, map[];
    }

    ghost function View(): Books
      reads this
    {
      Books(lots, realizedTrades, fees, fillsWithUnknownFee, symbol, seen)
    }

    method Quantity() returns (result: real)
      ensures result == SumQty(lots)
    {
      result := 0.0;
      for i := 0 to |lots|
        invariant result == SumQty(lots[..i])
      {
        assert lots[..i + 1] == lots[..i] + [lots[i]];
        SumsOfConcat(lots[..i], [lots[i]]);
        result := result + lots[i].quantity;
      }
      assert lots[..|lots|] == lots;
    }

    method CostBasis() returns (result: real)
      ensures result == SumCost(lots)
    {
      result := 0.0;
      for i := 0 to |lots|
        invariant result == SumCost(lots[..i])
      {
        assert lots[..i + 1] == lots[..i] + [lots[i]];
        SumsOfConcat(lots[..i], [lots[i]]);
        result := result + CostOf(lots[i]);
      }
      assert lots[..|lots|] == lots;
    }

    method RealizedPnl() returns (result: real)
      ensures result == SumPnl(realizedTrades)
    {
      result := 0.0;
      for i := 0 to |realizedTrades|
        invariant result == SumPnl(realizedTrades[..i])
      {
        assert realizedTrades[..i + 1] == realizedTrades[..i] + [realizedTrades[i]];
        SumPnlOfConcat(realizedTrades[..i], [realizedTrades[i]]);
        result := result + realizedTrades[i].pnl;
      }
      assert realizedTrades[..|realizedTrades|] == realizedTrades;
    }

    method CollapseToAverage()
      modifies this`lots
      ensures lots == Collapsed(old(lots), rules.ratio)
    {
      var quantity := Quantity();
      if quantity == 0.0 || |lots| <= 1 { return; }
      var cost := CostBasis();
      lots := [Lot(quantity, rules.ratio(cost, quantity), lots[0].openedBy)];
    }

    /** Book `fill`; returns the closing matches it produced. */
    method Apply(fill: Fill) returns (r: Result<seq<RealizedTrade>, LedgerError>)
      modifies this
      ensures (View(), r) == ApplyFill(rules, old(View()), fill)
    {
      var key := KeyOf(fill);
      if key in seen {
        r := MergeInto(key, seen[key], fill);
        return;
      }
      if symbol.None? {
        symbol := Some(fill.symbol);
      } else if fill.symbol != symbol.value {
        return Err(WrongSymbol);
      }
      if FeeLacksCurrency(fill) { return Err(FeeWithoutCurrency); }
      seen := seen[key := fill];
      if fill.fee.None? {
        fillsWithUnknownFee := fillsWithUnknownFee + 1;
      } else {
        fees := WithFee(fees, fill);
      }
      if rules.lotMethod == Average && lots != [] { CollapseToAverage(); }
      var closing, remaining := CloseAgainst(SignedQuantity(fill), fill.price, fill.fillId);
      if remaining != 0.0 {
        lots := lots + [Lot(remaining, fill.price, fill.fillId)];
      }
      realizedTrades := realizedTrades + closing;
      r := Ok(closing);
    }

    /** The matching loop: consume open lots until nothing is left to close or nothing opposes. */
    method CloseAgainst(signed: real, price: real, closedBy: string)
      returns (closing: seq<RealizedTrade>, remaining: real)
      modifies this`lots
      ensures Matched(lots, closing, remaining)
           == Match(old(lots), signed, price, closedBy, rules.lotMethod == Lifo, rules.multiplier)
    {
      hide MatchOne, Times, Signed, Magnitude, Smaller;
      closing, remaining := [], signed;
      while remaining != 0.0 && lots != [] && Opposes(lots, remaining)
        invariant var rest := Match(lots, remaining, price, closedBy, rules.lotMethod == Lifo, rules.multiplier);
                  Match(old(lots), signed, price, closedBy, rules.lotMethod == Lifo, rules.multiplier)
                  == Matched(rest.lots, closing + rest.trades, rest.remaining)
        decreases |lots|, if remaining == 0.0 then 0 else 1
      {
        ghost var before := closing;
        MatchOneShrinks(lots, remaining, price, closedBy, rules.lotMethod == Lifo, rules.multiplier);
        ghost var one := MatchOne(lots, remaining, price, closedBy, rules.lotMethod == Lifo, rules.multiplier);
        var trade, left := CloseOne(remaining, price, closedBy);
        assert one == Matched(lots, [trade], left);
        closing, remaining := closing + [trade], left;
        ghost var rest := Match(lots, remaining, price, closedBy, rules.lotMethod == Lifo, rules.multiplier);
        assert before + ([trade] + rest.trades) == closing + rest.trades;
      }
    }

    method CloseOne(remaining: real, price: real, closedBy: string) returns (trade: RealizedTrade, rest: real)
      requires lots != []
      modifies this`lots
      ensures Matched(lots, [trade], rest)
           == MatchOne(old(lots), remaining, price, closedBy, rules.lotMethod == Lifo, rules.multiplier)
    {
      hide Times, Signed, Magnitude, Smaller;
      var index := if rules.lotMethod == Lifo then |lots| - 1 else 0;
      var lot := lots[index];
      var matched := Smaller(Magnitude(remaining), Magnitude(lot.quantity));
      var pnl := Times(Times(Signed(SideOf(lot.quantity), matched), price - lot.price), rules.multiplier);
      trade := RealizedTrade(matched, lot.price, price, pnl, lot.openedBy, closedBy);
      var left := Magnitude(lot.quantity) - matched;
      if left == 0.0 {
        lots := lots[..index] + lots[index + 1..];
      } else {
        lots := lots[index := Lot(Signed(SideOf(lot.quantity), left), lot.price, lot.openedBy)];
      }
      rest := if remaining < 0.0 then remaining + matched else remaining - matched;
    }

    method MergeInto(key: Key, known: Fill, report: Fill) returns (r: Result<seq<RealizedTrade>, LedgerError>)
      requires key == KeyOf(report)
      modifies this
      ensures (View(), r) == MergeReport(old(View()), known, report)
    {
      if !SameExecution(known, report) { return Err(DifferentTerms); }
      if FeesDiffer(known, report) { return Err(DifferentFee); }
      var merged := MergedFill(known, report);
      if FeeLacksCurrency(merged) { return Err(FeeWithoutCurrency); }
      seen := seen[key := merged];
      if known.fee.None? && merged.fee.Some? {
        fillsWithUnknownFee := fillsWithUnknownFee - 1;
        fees := WithFee(fees, merged);
      }
      r := Ok([]);
    }
  }
}
