/** The order manager's state: orders and the two indexes kept beside them, rebuilt from the journal and
    never apart from it, across failed writes and their retries. */
module Manager {
  import opened Common
  import opened Fills
  import opened Orders

  predicate Keyed(orders: map<string, OrderState>) {
    forall cid :: cid in orders ==> orders[cid].request.clientOrderId == cid
  }

  /** The index of orders that may still execute: exactly those, in their current state. */
  ghost predicate IndexesOpen(open: map<string, OrderState>, orders: map<string, OrderState>) {
    forall cid {:trigger cid in open} {:trigger cid in orders} ::
      (cid in open <==> cid in orders && orders[cid].IsOpen()) && (cid in open ==> open[cid] == orders[cid])
  }

  /** The signed sum of what the listed orders have filled. */
  function NetOver(ids: seq<string>, orders: map<string, OrderState>, symbol: string): real {
    if ids == [] then 0.0 else
    var last := ids[|ids| - 1];
    NetOver(ids[..|ids| - 1], orders, symbol) + (if last in orders then Held(orders[last], symbol) else 0.0)
  }

  function NetAt(net: map<string, real>, symbol: string): real {
    if symbol in net then net[symbol] else 0.0
  }

  /** Each order once, in the order they were first stored. */
  ghost predicate Lists(ids: seq<string>, orders: map<string, OrderState>) {
    NoRepeats(ids) && forall cid :: cid in ids <==> cid in orders
  }

  ghost predicate SumsFills(net: map<string, real>, ids: seq<string>, orders: map<string, OrderState>) {
    forall symbol :: NetAt(net, symbol) == NetOver(ids, orders, symbol)
  }

  /** One order changes: the sum moves by what it holds now less what it held. */
  lemma {:induction false} NetMoves(ids: seq<string>, orders: map<string, OrderState>, cid: string, s: OrderState,
                                    symbol: string)
    requires NoRepeats(ids)
    ensures NetOver(ids, orders[cid := s], symbol)
         == NetOver(ids, orders, symbol)
            + (if cid in ids then Held(s, symbol) - (if cid in orders then Held(orders[cid], symbol) else 0.0) else 0.0)
  {
    hide Held;
    if ids != [] {
      var init, last := ids[..|ids| - 1], ids[|ids| - 1];
      NetMoves(init, orders, cid, s, symbol);
      assert ids == init + [last];
      if last == cid {
        forall i | 0 <= i < |init| ensures init[i] != cid { assert ids[i] == init[i]; }
        assert cid !in init;
      }
    }
  }

  lemma NetExtends(ids: seq<string>, cid: string, orders: map<string, OrderState>, symbol: string)
    ensures NetOver(ids + [cid], orders, symbol)
         == NetOver(ids, orders, symbol) + (if cid in orders then Held(orders[cid], symbol) else 0.0)
  {
    assert (ids + [cid])[..|ids|] == ids;
  }

  /** The update the store makes keeps the sums, whether the order is new or known. */
  lemma StoreKeepsSums(net: map<string, real>, ids: seq<string>, orders: map<string, OrderState>, s: OrderState,
                       net': map<string, real>, ids': seq<string>)
    requires SumsFills(net, ids, orders) && Lists(ids, orders)
    requires var cid := s.request.clientOrderId;
             && (cid in orders ==> orders[cid].request == s.request)
             && ids' == (if cid in orders then ids else ids + [cid])
             && var change := s.filledQuantity - (if cid in orders then orders[cid].filledQuantity else 0.0);
                net' == if change != 0.0
                        then net[s.request.symbol := NetAt(net, s.request.symbol) + Signed(s.request.side, change)]
                        else net
    ensures SumsFills(net', ids', orders[s.request.clientOrderId := s])
    ensures Lists(ids', orders[s.request.clientOrderId := s])
  {
    var cid := s.request.clientOrderId;
    forall symbol ensures NetAt(net', symbol) == NetOver(ids', orders[cid := s], symbol) {
      assert NetAt(net, symbol) == NetOver(ids, orders, symbol);
      NetMoves(ids, orders, cid, s, symbol);
      if cid !in orders {
        NetExtends(ids, cid, orders[cid := s], symbol);
      }
    }
  }

  lemma {:induction false} NetWithout(ids: seq<string>, j: nat, orders: map<string, OrderState>, symbol: string)
    requires j < |ids|
    ensures NetOver(ids, orders, symbol)
         == NetOver(ids[..j] + ids[j + 1..], orders, symbol)
            + (if ids[j] in orders then Held(orders[ids[j]], symbol) else 0.0)
  {
    hide Held;
    var n := |ids| - 1;
    if j == n {
      assert ids[..j] + ids[j + 1..] == ids[..n];
    } else {
      NetWithout(ids[..n], j, orders, symbol);
      assert (ids[..j] + ids[j + 1..])[..n - 1] == ids[..n][..j] + ids[..n][j + 1..];
    }
  }

  lemma NothingListed(a: seq<string>, b: seq<string>)
    requires forall cid :: cid in b ==> cid in a
    ensures a == [] ==> b == []
  {
    if b != [] { assert b[0] in a; }
  }

  lemma NoRepeatsWithout(ids: seq<string>, j: nat)
    requires NoRepeats(ids) && j < |ids|
    ensures NoRepeats(ids[..j] + ids[j + 1..]) && ids[j] !in ids[..j] + ids[j + 1..]
  {
    var rest := ids[..j] + ids[j + 1..];
    forall i | 0 <= i < |rest| ensures rest[i] == ids[if i < j then i else i + 1] && rest[i] != ids[j] { }
  }

  /** The sum does not depend on the order in which the orders are listed. */
  lemma {:induction false} NetIgnoresListing(a: seq<string>, b: seq<string>, orders: map<string, OrderState>,
                                             symbol: string)
    requires NoRepeats(a) && NoRepeats(b) && (forall cid :: cid in a <==> cid in b)
    ensures NetOver(a, orders, symbol) == NetOver(b, orders, symbol)
  {
    NothingListed(a, b);
    if a != [] {
      var init, last := a[..|a| - 1], a[|a| - 1];
      assert last in a;
      var j :| 0 <= j < |b| && b[j] == last;
      var rest := b[..j] + b[j + 1..];
      NetWithout(b, j, orders, symbol);
      hide NetOver;
      assert a == init + [last] && b == b[..j] + [last] + b[j + 1..];
      NoRepeatsWithout(b, j);
      assert NoRepeats(init) && last !in init;
      forall cid ensures cid in init <==> cid in rest {
        assert cid in a <==> cid in init || cid == last;
        assert cid in b <==> cid in rest || cid == last;
      }
      NetIgnoresListing(init, rest, orders, symbol);
      NetExtends(init, last, orders, symbol);
    }
  }

  /** Both indexes are determined by the orders, so a restart that replays the same events answers every
      query as the process before it did. */
  lemma IndexesAreDetermined(orders: map<string, OrderState>, open: map<string, OrderState>,
                             open': map<string, OrderState>,
                             net: map<string, real>, net': map<string, real>, ids: seq<string>, ids': seq<string>)
    requires IndexesOpen(open, orders) && IndexesOpen(open', orders)
    requires Lists(ids, orders) && Lists(ids', orders) && SumsFills(net, ids, orders) && SumsFills(net', ids', orders)
    ensures open == open' && forall symbol :: NetAt(net, symbol) == NetAt(net', symbol)
  {
    forall cid ensures cid in open <==> cid in open' {
      assert cid in orders || cid !in orders;
    }
    forall symbol ensures NetAt(net, symbol) == NetAt(net', symbol) {
      NetIgnoresListing(ids, ids', orders, symbol);
    }
  }

  lemma StoreKeepsOpen(open: map<string, OrderState>, orders: map<string, OrderState>, s: OrderState)
    requires IndexesOpen(open, orders)
    ensures var cid := s.request.clientOrderId;
            IndexesOpen(if s.IsOpen() then open[cid := s] else open - {cid}, orders[cid := s])
  {
  }

  lemma StoreKeepsKeyed(orders: map<string, OrderState>, s: OrderState)
    requires Keyed(orders)
    ensures Keyed(orders[s.request.clientOrderId := s])
  {
  }

  /** An intent on record is for the order it names; parsing a stored event checks it. */
  predicate IntentsMatch(events: seq<Event>) {
    forall i :: 0 <= i < |events| && events[i].SubmitIntent? ==> events[i].request.clientOrderId == events[i].cid
  }

  /** The reducer hands back the very state it was given: an execution or a bust reported again. Every other
      event makes a new one, even where nothing in it differs. */
  predicate HandsBack(s: OrderState, e: Event) {
    && Settle(s) == s
    && ((e.FillReport? && e.fill.fillId !in s.bustedFillIds && FindFill(s.fills, e.fill.fillId) < |s.fills|
         && s.fills[FindFill(s.fills, e.fill.fillId)] == e.fill)
        || (e.FillBusted? && e.fillId in s.bustedFillIds))
  }

  /** So it is; and what it hands back, the journal would replay to the same. */
  lemma HandedBackIsTheSame(s: OrderState, e: Event)
    requires HandsBack(s, e)
    ensures Apply(s, e) == s
  {
  }

  /** What became of an event: applied, dropped as out of date, or refused by the journal. */
  datatype Outcome = Recorded(state: OrderState) | Stale(state: OrderState) | Refused

  /** What recovery records of an order, if anything. */
  function SettlingEvent(s: OrderState, cid: string): Option<Event> {
    if s.status == PendingSubmit then Some(NeverSent(cid))
    else if s.status == Submitting then Some(OutcomeUnknown(cid))
    else None
  }

  /** What becomes of an order over a restart. */
  function Settled(s: OrderState): OrderState {
    match SettlingEvent(s, s.request.clientOrderId)
    case None => s
    case Some(event) => Apply(s, event)
  }

  /** After a restart no order is pending or submitting: one was refused, the other is unknown. */
  lemma NothingIsLeftUnsettled(s: OrderState)
    ensures s.status == PendingSubmit ==> Settled(s).status == Rejected && Settled(s).rejectCode == Some("NEVER_SENT")
    ensures s.status == Submitting ==> Settled(s).status == Unknown
    ensures s.status !in {PendingSubmit, Submitting} ==> Settled(s) == s
  {
  }

  lemma SettlingIsOneEvent(s: OrderState, cid: string)
    requires s.request.clientOrderId == cid
    ensures match SettlingEvent(s, cid)
            case None => Settled(s) == s
            case Some(event) => Settled(s) == Apply(s, event) && event.cid == cid && !event.SubmitIntent?
  {
  }

  function NextStamps(stamps: map<string, nat>, cid: string, handedBack: bool): map<string, nat> {
    if cid !in stamps then stamps[cid := 0] else if handedBack then stamps else stamps[cid := stamps[cid] + 1]
  }

  /** An anomaly that stops trading: the books were wrong. */
  predicate Halting(a: Anomaly) {
    match a
    case Overfill(_, _) | TermsDisputed(_) | FillBeforeSend(_) | FillMismatch(_) => true
    case FillAfterTerminal(_, status) => status == Rejected
    case _ => false
  }

  predicate HaltsFrom(anomalies: seq<Anomaly>, from: nat) {
    exists k :: from <= k < |anomalies| && Halting(anomalies[k])
  }

  /** An event that gives its order an anomaly of that kind. */
  predicate Halts(orders: map<string, OrderState>, e: Event) {
    e.cid in orders && HaltsFrom(Apply(orders[e.cid], e).anomalies, |orders[e.cid].anomalies|)
  }

  /** The event at `i` halts, as replay finds it. */
  predicate HaltsAt(journal: seq<Event>, i: nat)
    requires i < |journal|
  {
    Replayed(journal[..i]).Ok? && Halts(Replayed(journal[..i]).value, journal[i])
  }

  method FindHalting(anomalies: seq<Anomaly>, from: nat) returns (found: bool)
    requires from <= |anomalies|
    ensures found <==> HaltsFrom(anomalies, from)
  {
    found := false;
    for k := from to |anomalies|
      invariant found <==> exists j :: from <= j < k && Halting(anomalies[j])
    {
      if Halting(anomalies[k]) { found := true; }
    }
  }

  class OrderManager {
    var journal: seq<Event>
    var orders: map<string, OrderState>
    var open: map<string, OrderState>
    var filledNet: map<string, real>
    var unjournalled: seq<Event>
    var journalFailed: bool
    /** Which state object an order holds: the code compares states by identity. */
    var stamps: map<string, nat>
    ghost var ids: seq<string>

    ghost predicate Indexed()
      reads this
    {
      && Keyed(orders) && IndexesOpen(open, orders) && Lists(ids, orders) && SumsFills(filledNet, ids, orders)
      && stamps.Keys == orders.Keys
    }

    /** What has happened: the journalled events, then those waiting for the journal. */
    ghost function Log(): seq<Event>
      reads this
    {
      journal + unjournalled
    }

    /** Memory is the journal. */
    ghost predicate Valid()
      reads this
    {
      Indexed() && Replayed(Log()) == Ok(orders)
    }

    /** A process that has opened a journal and not yet replayed it. */
    constructor (journal: seq<Event>)
      ensures this.journal == journal && orders == map[] && unjournalled == [] && !journalFailed && Indexed()
    {
      this.journal := journal;
      orders, open, filledNet, unjournalled, journalFailed, stamps := map[], map[], map[], [], false, map[];
      ids := [];
    }

    /** The one place order state changes; `handedBack` says that the state is the one already held. */
    method Store(state: OrderState, handedBack: bool)
      requires Indexed()
      requires state.request.clientOrderId in orders ==> orders[state.request.clientOrderId].request == state.request
      modifies this`orders, this`open, this`filledNet, this`ids, this`stamps
      ensures Indexed() && orders == old(orders)[state.request.clientOrderId := state]
      ensures stamps == NextStamps(old(stamps), state.request.clientOrderId, handedBack)
    {
      hide NetOver, NoRepeats, Held, NetAt, IndexesOpen, Lists, SumsFills, Keyed;
      var cid, symbol := state.request.clientOrderId, state.request.symbol;
      var filledBefore := if cid in orders then orders[cid].filledQuantity else 0.0;
      ghost var ids' := if cid in orders then ids else ids + [cid];
      var net' := filledNet;
      var change := state.filledQuantity - filledBefore;
      if change != 0.0 {
        net' := filledNet[symbol := NetAt(filledNet, symbol) + Signed(state.request.side, change)];
      }
      StoreKeepsSums(filledNet, ids, orders, state, net', ids');
      StoreKeepsOpen(open, orders, state);
      StoreKeepsKeyed(orders, state);
      orders := orders[cid := state];
      if state.IsOpen() { open := open[cid := state]; } else { open := open - {cid}; }
      filledNet, ids := net', ids';
      stamps := NextStamps(stamps, cid, handedBack);
    }

    method NetPosition(baseline: Option<map<string, real>>, symbol: string) returns (net: Option<real>)
      requires Indexed()
      ensures net.Some? <==> baseline.Some?
      ensures net.Some? ==> net.value == NetAt(baseline.value, symbol) + NetOver(ids, orders, symbol)
    {
      if baseline.None? { return None; }
      net := Some(NetAt(baseline.value, symbol) + NetAt(filledNet, symbol));
    }

    /** Write what a failed journal missed, first and in order. `budget` is how many appends succeed. */
    method WriteUnjournalled(budget: nat) returns (left: Option<nat>)
      modifies this`journal, this`unjournalled
      ensures Log() == old(Log()) && old(journal) <= journal
      ensures left.Some? <==> |old(unjournalled)| <= budget
      ensures left.Some? ==> unjournalled == [] && left.value == budget - |old(unjournalled)|
      ensures left.None? ==> |journal| == |old(journal)| + budget
    {
      var remaining := budget;
      while |unjournalled| > 0
        invariant Log() == old(Log()) && old(journal) <= journal
        invariant |journal| - |old(journal)| == budget - remaining == |old(unjournalled)| - |unjournalled|
        decreases |unjournalled|
      {
        if remaining == 0 { return None; }
        journal := journal + [unjournalled[0]];
        assert old(Log()) == journal + unjournalled[1..];
        unjournalled := unjournalled[1..];
        remaining := remaining - 1;
      }
      left := Some(remaining);
    }

    /** Journal and apply one event, atomically with respect to other events. A conclusion drawn from an
        older state is dropped, even if the order has come back to the same values since; a durable event
        the journal refuses changes no order; any other event reaches memory and waits for the journal. */
    method RecordNow(event: Event, durable: bool, onlyIf: Option<nat>, budget: nat) returns (r: Outcome)
      requires Valid()
      requires if event.SubmitIntent?
               then event.cid !in orders && event.request.clientOrderId == event.cid && onlyIf.None?
               else event.cid in orders
      modifies this
      ensures Valid() && old(journal) <= journal
      ensures r.Stale? <==> onlyIf.Some? && old(stamps)[event.cid] != onlyIf.value
      ensures r.Stale? ==> r.state == old(orders)[event.cid]
      ensures r.Refused? <==> !r.Stale? && durable && budget <= |old(unjournalled)|
      ensures r.Recorded? ==>
        && r.state == (if event.SubmitIntent? then NewOrder(event.request) else Apply(old(orders)[event.cid], event))
        && orders == old(orders)[event.cid := r.state] && Log() == old(Log()) + [event]
        && (durable ==> journal == Log())
      ensures r.Recorded? && !event.SubmitIntent? && HandsBack(old(orders)[event.cid], event) ==>
        r.state == old(orders)[event.cid] && orders == old(orders)
      ensures r.Recorded? ==>
        stamps == NextStamps(old(stamps), event.cid,
                             !event.SubmitIntent? && HandsBack(old(orders)[event.cid], event))
      ensures !r.Recorded? ==> orders == old(orders) && stamps == old(stamps) && Log() == old(Log())
      ensures journalFailed <==> old(journalFailed) || (r.Recorded? && budget <= |old(unjournalled)|)
    {
      hide Apply, Replayed, NetOver, Lists, SumsFills, IndexesOpen, HandsBack;
      if onlyIf.Some? && stamps[event.cid] != onlyIf.value {
        return Stale(orders[event.cid]);
      }
      var left := WriteUnjournalled(budget);
      if left.None? || left.value == 0 {
        if durable { return Refused; }
        unjournalled := unjournalled + [event];
        journalFailed := true;
        assert Log() == old(Log()) + [event];
      } else {
        journal := journal + [event];
        assert Log() == old(Log()) + [event];
      }
      var state: OrderState;
      var handedBack := false;
      if event.SubmitIntent? {
        state := NewOrder(event.request);
      } else {
        ApplyKeepsRequest(orders[event.cid], event);
        state := Apply(orders[event.cid], event);
        handedBack := HandsBack(orders[event.cid], event);
        if handedBack { HandedBackIsTheSame(orders[event.cid], event); }
      }
      ReplayedExtends(old(Log()), event);
      Store(state, handedBack);
      r := Recorded(state);
    }

    /** The background retry of what the journal missed. */
    method RetryUnjournalled(budget: nat)
      requires Valid()
      modifies this`journal, this`unjournalled
      ensures Valid() && Log() == old(Log()) && old(journal) <= journal
      ensures |old(unjournalled)| <= budget ==> journal == Log()
    {
      var left := WriteUnjournalled(budget);
    }

    /** Apply one journalled event to memory; refuses an event with no intent, or an intent for another order. */
    method ReplayEvent(event: Event) returns (ok: bool, halts: bool)
      requires Indexed()
      modifies this`orders, this`open, this`filledNet, this`ids, this`stamps
      ensures ok <==> Replayable(old(orders), event)
      ensures ok ==> (halts <==> Halts(old(orders), event))
      ensures Indexed()
      ensures orders == (if !ok then old(orders) else After(old(orders), event))
    {
      hide Apply, NetOver, Lists, SumsFills, IndexesOpen, HaltsFrom;
      ok, halts := false, false;
      if event.SubmitIntent? && event.request.clientOrderId != event.cid { return; }
      if event.SubmitIntent? && event.cid !in orders {
        Store(NewOrder(event.request), false);
      } else if event.cid !in orders {
        return;
      } else {
        var prior := orders[event.cid];
        ApplyKeepsRequest(prior, event);
        AnomaliesOnlyGrow(prior, event);
        var state := Apply(prior, event);
        Store(state, HandsBack(prior, event));
        halts := FindHalting(state.anomalies, |prior.anomalies|);
      }
      ok := true;
    }

    /** Rebuild from the journal, not on top of old memory. A halt is due when the last event that halts came
        after the newest record of the kill switch, before which there are `covered` events: the old process
        died between the two. */
    method Recover(covered: nat) returns (ok: bool, haltDue: bool)
      modifies this
      ensures journal == old(journal) && (ok <==> Replayed(journal).Ok? && IntentsMatch(journal))
      ensures ok ==> Valid() && unjournalled == []
      ensures ok ==> (haltDue <==> exists i :: covered <= i < |journal| && HaltsAt(journal, i))
    {
      orders, open, filledNet, unjournalled, ids, stamps := map[], map[], map[], [], [], map[];
      assert Indexed();
      NothingReplayed(journal);
      ok, haltDue := false, false;
      var halting: Option<nat> := None;
      hide Replayed, IntentsMatch, After, NetOver, Lists, SumsFills, IndexesOpen, Keyed, Replayable, Halts, HaltsAt,
           LastHalting, Apply;
      assert LastHalting(journal, 0, None) by { NoneHaltsYet(journal); }
      for i := 0 to |journal|
        invariant journal == old(journal) && unjournalled == [] && Indexed()
        invariant Replayed(journal[..i]) == Ok(orders) && IntentsMatch(journal[..i])
        invariant LastHalting(journal, i, halting)
      {
        ReplayPrefix(journal, i, orders);
        var applied, halts := ReplayEvent(journal[i]);
        if !applied { return; }
        LastHaltingGrows(journal, i, halting);
        if halts { halting := Some(i); }
      }
      HaltIsDue(journal, halting, covered);
      assert journal[..|journal|] == journal && Log() == journal;
      ok, haltDue := true, halting.Some? && halting.value >= covered;
    }

    method SettleOne(cid: string, budget: nat)
      requires Valid() && cid in orders
      modifies this
      ensures Valid() && old(journal) <= journal && old(Log()) <= Log()
      ensures orders == old(orders)[cid := Settled(old(orders)[cid])]
    {
      hide Apply, Replayed, NetOver, Lists, SumsFills, IndexesOpen, HandsBack, Settled;
      assert orders[cid].request.clientOrderId == cid;
      SettlingIsOneEvent(orders[cid], cid);
      var event := SettlingEvent(orders[cid], cid);
      if event.Some? {
        var outcome := RecordNow(event.value, false, None, budget);
      }
    }

    /** What a restart records about the orders it found unsettled, once memory is rebuilt: those pending
        were never sent, and what became of those submitting died with the old process. */
    method SettleRecovered(budgets: string -> nat)
      requires Valid()
      modifies this
      ensures Valid() && old(journal) <= journal && old(Log()) <= Log()
      ensures orders.Keys == old(orders).Keys
      ensures forall cid :: cid in orders ==>
        orders[cid] == Settled(old(orders)[cid]) && orders[cid].status !in {PendingSubmit, Submitting}
    {
      hide Replayed, Lists, SumsFills, IndexesOpen, Keyed, Settled, Apply, HandsBack, NetOver;
      ghost var before := orders;
      var todo := orders.Keys;
      while todo != {}
        invariant Valid() && old(journal) <= journal && old(Log()) <= Log()
        invariant orders.Keys == before.Keys && todo <= orders.Keys
        invariant forall cid :: cid in orders ==>
          orders[cid] == if cid in todo then before[cid] else Settled(before[cid])
        decreases |todo|
      {
        var cid :| cid in todo;
        todo := todo - {cid};
        SettleOne(cid, budgets(cid));
      }
      forall cid | cid in orders ensures orders[cid].status !in {PendingSubmit, Submitting} {
        NothingIsLeftUnsettled(before[cid]);
      }
    }
  }

  /** Of the first `n` events, the last one that halts. */
  predicate LastHalting(journal: seq<Event>, n: nat, halting: Option<nat>)
    requires n <= |journal|
  {
    match halting
    case None => forall i :: 0 <= i < n ==> !HaltsAt(journal, i)
    case Some(k) => k < n && HaltsAt(journal, k) && forall i :: k < i < n ==> !HaltsAt(journal, i)
  }

  lemma NoneHaltsYet(journal: seq<Event>)
    ensures LastHalting(journal, 0, None)
  {
  }

  lemma LastHaltingGrows(journal: seq<Event>, i: nat, halting: Option<nat>)
    requires i < |journal| && LastHalting(journal, i, halting) && Replayed(journal[..i]).Ok?
    ensures LastHalting(journal, i + 1,
                        if Halts(Replayed(journal[..i]).value, journal[i]) then Some(i) else halting)
  {
    hide HaltsAt, Halts, Replayed;
    HaltsAsReplayed(journal, i);
  }

  lemma HaltsAsReplayed(journal: seq<Event>, i: nat)
    requires i < |journal| && Replayed(journal[..i]).Ok?
    ensures HaltsAt(journal, i) <==> Halts(Replayed(journal[..i]).value, journal[i])
  {
    hide Halts, Replayed;
  }

  lemma HaltIsDue(journal: seq<Event>, halting: Option<nat>, covered: nat)
    requires LastHalting(journal, |journal|, halting)
    ensures halting.Some? && halting.value >= covered
       <==> exists i :: covered <= i < |journal| && HaltsAt(journal, i)
  {
    hide HaltsAt;
  }

  predicate HaltedOnRecord(journal: seq<Event>, cid: string) {
    exists i :: 0 <= i < |journal| && journal[i].cid == cid && HaltsAt(journal, i)
  }

  /** An order carries a halting anomaly exactly when an event of its own on record raised one: what recovery
      looks at is all there is to find. */
  lemma {:induction false} HaltingAnomaliesAreOnRecord(journal: seq<Event>, cid: string)
    requires Replayed(journal).Ok?
    ensures var orders := Replayed(journal).value;
            cid in orders && HaltsFrom(orders[cid].anomalies, 0) <==> HaltedOnRecord(journal, cid)
  {
    if journal != [] {
      var n := |journal| - 1;
      var before, e := journal[..n], journal[n];
      var orders := Replayed(before).value;
      HaltingAnomaliesAreOnRecord(before, cid);
      HaltedOnRecordGrows(journal, cid);
      if e.cid == cid && cid in orders {
        AnomaliesOnlyGrow(orders[cid], e);
        NewAnomaliesHalt(orders[cid].anomalies, Apply(orders[cid], e).anomalies);
      }
      hide Apply, HaltsFrom, HaltedOnRecord;
      assert !HaltsFrom([], 0) by { NoneHalts(); }
    }
  }

  lemma NoneHalts()
    ensures !HaltsFrom([], 0)
  {
  }

  lemma HaltedOnRecordGrows(journal: seq<Event>, cid: string)
    requires journal != []
    ensures var n := |journal| - 1;
            HaltedOnRecord(journal, cid)
            <==> HaltedOnRecord(journal[..n], cid) || (journal[n].cid == cid && HaltsAt(journal, n))
  {
    hide *;
    var n := |journal| - 1;
    var before := journal[..n];
    if HaltedOnRecord(before, cid) {
      var i := WhereHalted(before, cid);
      PrefixHaltsAlike(journal, n, i);
      HaltedThere(journal, cid, i);
    }
    if journal[n].cid == cid && HaltsAt(journal, n) { HaltedThere(journal, cid, n); }
    if HaltedOnRecord(journal, cid) {
      var i := WhereHalted(journal, cid);
      if i < n {
        PrefixHaltsAlike(journal, n, i);
        HaltedThere(before, cid, i);
      }
    }
  }

  lemma WhereHalted(journal: seq<Event>, cid: string) returns (i: nat)
    requires HaltedOnRecord(journal, cid)
    ensures i < |journal| && journal[i].cid == cid && HaltsAt(journal, i)
  {
    hide HaltsAt;
    i :| i < |journal| && journal[i].cid == cid && HaltsAt(journal, i);
  }

  lemma HaltedThere(journal: seq<Event>, cid: string, i: nat)
    requires i < |journal| && journal[i].cid == cid && HaltsAt(journal, i)
    ensures HaltedOnRecord(journal, cid)
  {
    hide HaltsAt;
  }

  lemma PrefixHaltsAlike(journal: seq<Event>, n: nat, i: nat)
    requires i < n <= |journal|
    ensures HaltsAt(journal[..n], i) <==> HaltsAt(journal, i)
  {
    hide Replayed, Halts;
    assert journal[..n][..i] == journal[..i];
  }

  lemma NewAnomaliesHalt(a: seq<Anomaly>, b: seq<Anomaly>)
    requires a <= b
    ensures HaltsFrom(b, 0) <==> HaltsFrom(a, 0) || HaltsFrom(b, |a|)
  {
  }

  lemma NothingReplayed(journal: seq<Event>)
    ensures Replayed(journal[..0]) == Ok(map[]) && IntentsMatch(journal[..0])
  {
  }

  /** One event is replayed, or the whole journal cannot be. */
  lemma ReplayPrefix(journal: seq<Event>, i: nat, orders: map<string, OrderState>)
    requires i < |journal| && Replayed(journal[..i]) == Ok(orders) && IntentsMatch(journal[..i])
    ensures if Replayable(orders, journal[i])
            then Replayed(journal[..i + 1]) == Ok(After(orders, journal[i])) && IntentsMatch(journal[..i + 1])
            else !(Replayed(journal).Ok? && IntentsMatch(journal))
  {
    hide Replayed, After, IntentsMatch, Apply;
    var event := journal[i];
    assert journal[..i + 1] == journal[..i] + [event];
    ReplayedExtends(journal[..i], event);
    IntentsMatchExtends(journal, i);
    if !Replayable(orders, event) && !event.SubmitIntent? { StuckAtMissingIntent(journal, i + 1); }
  }

  lemma IntentsMatchExtends(journal: seq<Event>, i: nat)
    requires i < |journal| && IntentsMatch(journal[..i])
    ensures var matches := journal[i].SubmitIntent? ==> journal[i].request.clientOrderId == journal[i].cid;
            (IntentsMatch(journal[..i + 1]) <==> matches) && (IntentsMatch(journal) ==> matches)
  {
    assert journal[..i + 1][i] == journal[i];
    assert forall k :: 0 <= k < i ==> journal[..i + 1][k] == journal[..i][k];
  }

  /** An event replay accepts: an intent for the order it names, or an event of a known order. */
  predicate Replayable(orders: map<string, OrderState>, event: Event) {
    if event.SubmitIntent? then event.request.clientOrderId == event.cid else event.cid in orders
  }

  /** The orders after one more replayed event. */
  function After(orders: map<string, OrderState>, e: Event): map<string, OrderState> {
    if e.SubmitIntent? && e.cid !in orders then orders[e.cid := NewOrder(e.request)]
    else if e.cid in orders then orders[e.cid := Apply(orders[e.cid], e)]
    else orders
  }

  lemma ReplayedExtends(events: seq<Event>, e: Event)
    requires Replayed(events).Ok?
    ensures Replayed(events + [e]) ==
      (if e.SubmitIntent? || e.cid in Replayed(events).value
       then Ok(After(Replayed(events).value, e)) else Err(NoIntent))
  {
    hide Apply;
    assert (events + [e])[..|events|] == events;
  }
}
