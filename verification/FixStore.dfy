/** What a FIX session must remember: sequence numbers and sent messages, orders, and every execution it
    was told of. The store in memory is the specification of the one on disk. */
module FixStore {
  import opened Common
  import Orders

  /** What is remembered of an order. */
  datatype OrderRow = OrderRow(filled: real, status: Orders.Status, quantity: real, wireId: string)

  type Key = (string, string)

  /** One execution report that was not a status: its content's digest, and what it filled if anything. */
  datatype Execution = Execution(
    cid: string, execId: string, digest: string, fill: Option<real>, busted: bool, latest: int)

  datatype Quarantined = Quarantined(cid: string, reason: Reason, releasedBy: Option<string>)

  datatype Reason = ReportLost | Contradiction | Unapplied

  datatype StoredMessage = StoredMessage(seqNo: nat, msgType: string, sendingTime: int, body: string)

  /** The executions on record, with the order in which they were first booked. */
  datatype Executions = Executions(keys: seq<Key>, at: map<Key, Execution>)
  {
    ghost predicate Valid() {
      && (forall i, j :: 0 <= i < j < |keys| ==> keys[i] != keys[j])
      && (forall k :: k in keys <==> k in at)
      && (forall k :: k in at ==> k == (at[k].cid, at[k].execId))
    }
  }

  function Booked(ex: Executions, e: Execution): Executions {
    var key := (e.cid, e.execId);
    if key in ex.at then ex else Executions(ex.keys + [key], ex.at[key := e])
  }

  function Marked(ex: Executions, key: Key): Executions {
    if key in ex.at then ex.(at := ex.at[key := ex.at[key].(busted := true)]) else ex
  }

  /** A report's effect on the executions: book it unless known, then mark what it busts. */
  function Reported(ex: Executions, e: Option<Execution>, bust: Option<Key>): Executions {
    var booked := if e.Some? then Booked(ex, e.value) else ex;
    if bust.Some? then Marked(booked, bust.value) else booked
  }

  predicate IsLive(e: Execution) { e.fill.Some? && !e.busted }

  function FillsSince(ex: Executions, since: int): seq<Execution>
    requires forall i :: 0 <= i < |ex.keys| ==> ex.keys[i] in ex.at
  {
    LiveAmong(ex.keys, ex.at, since)
  }

  function LiveAmong(keys: seq<Key>, at: map<Key, Execution>, since: int): seq<Execution>
    requires forall i :: 0 <= i < |keys| ==> keys[i] in at
  {
    if keys == [] then [] else
    var e := at[keys[|keys| - 1]];
    LiveAmong(keys[..|keys| - 1], at, since) + (if IsLive(e) && e.latest >= since then [e] else [])
  }

  /** What one execution adds to an order's total. */
  function LiveQuantity(ex: Executions, key: Key, cid: string): real {
    if key in ex.at && key.0 == cid && IsLive(ex.at[key]) then ex.at[key].fill.value else 0.0
  }

  function SumLive(keys: seq<Key>, ex: Executions, cid: string): real {
    if keys == [] then 0.0
    else SumLive(keys[..|keys| - 1], ex, cid) + LiveQuantity(ex, keys[|keys| - 1], cid)
  }

  /** The sum of an order's fills that were not busted. */
  function Total(ex: Executions, cid: string): real { SumLive(ex.keys, ex, cid) }

  // ----- Exactly once -----

  /** Nothing on record is ever lost, rebooked, rewritten or unbusted. */
  predicate Keeps(ex: Executions, ex': Executions) {
    forall k :: k in ex.at ==>
      && k in ex'.at && ex'.at[k].digest == ex.at[k].digest && ex'.at[k].fill == ex.at[k].fill
      && (ex.at[k].busted ==> ex'.at[k].busted)
  }

  lemma BookedKeeps(ex: Executions, e: Execution)
    requires ex.Valid()
    ensures Booked(ex, e).Valid() && Keeps(ex, Booked(ex, e)) && ex.keys <= Booked(ex, e).keys
  {
    if (e.cid, e.execId) !in ex.at { assert (e.cid, e.execId) !in ex.keys; }
  }

  lemma MarkedKeeps(ex: Executions, key: Key)
    requires ex.Valid()
    ensures Marked(ex, key).Valid() && Keeps(ex, Marked(ex, key)) && ex.keys == Marked(ex, key).keys
  {
  }

  lemma KeepsOn(a: Executions, b: Executions, c: Executions)
    requires Keeps(a, b) && Keeps(b, c)
    ensures Keeps(a, c)
  {
  }

  lemma ReportedKeeps(ex: Executions, e: Option<Execution>, bust: Option<Key>)
    requires ex.Valid()
    ensures Reported(ex, e, bust).Valid() && Keeps(ex, Reported(ex, e, bust)) && ex.keys <= Reported(ex, e, bust).keys
  {
    var booked := if e.Some? then Booked(ex, e.value) else ex;
    if e.Some? { BookedKeeps(ex, e.value); }
    if bust.Some? {
      MarkedKeeps(booked, bust.value);
      hide Keeps, Booked, Marked;
      KeepsItself(ex);
      KeepsOn(ex, booked, Reported(ex, e, bust));
    }
  }

  lemma KeepsItself(ex: Executions)
    ensures Keeps(ex, ex)
  {
  }

  lemma {:induction false} LiveAmongIsExact(keys: seq<Key>, at: map<Key, Execution>, since: int, e: Execution)
    requires forall i :: 0 <= i < |keys| ==> keys[i] in at
    ensures e in LiveAmong(keys, at, since)
       <==> exists i :: 0 <= i < |keys| && at[keys[i]] == e && IsLive(e) && e.latest >= since
  {
    if keys != [] {
      var init, last := keys[..|keys| - 1], keys[|keys| - 1];
      LiveAmongIsExact(init, at, since, e);
      if exists i :: 0 <= i < |init| && at[init[i]] == e && IsLive(e) && e.latest >= since {
        var i :| 0 <= i < |init| && at[init[i]] == e && IsLive(e) && e.latest >= since;
        assert keys[i] == init[i];
      }
      if exists i :: 0 <= i < |keys| && at[keys[i]] == e && IsLive(e) && e.latest >= since {
        var i :| 0 <= i < |keys| && at[keys[i]] == e && IsLive(e) && e.latest >= since;
        assert i < |init| ==> init[i] == keys[i];
        assert i == |init| ==> keys[i] == last;
      }
      var tail := if IsLive(at[last]) && at[last].latest >= since then [at[last]] else [];
      assert e in LiveAmong(keys, at, since) <==> e in LiveAmong(init, at, since) || e in tail;
    }
  }

  /** The recovery query returns exactly the fills on record that were not busted, from the time asked. */
  lemma FillsSinceIsExact(ex: Executions, since: int, e: Execution)
    requires ex.Valid()
    ensures e in FillsSince(ex, since)
       <==> (e.cid, e.execId) in ex.at && ex.at[(e.cid, e.execId)] == e && IsLive(e) && e.latest >= since
  {
    LiveAmongIsExact(ex.keys, ex.at, since, e);
    if (e.cid, e.execId) in ex.at {
      assert (e.cid, e.execId) in ex.keys;
      var i :| 0 <= i < |ex.keys| && ex.keys[i] == (e.cid, e.execId);
      assert ex.at[ex.keys[i]] == ex.at[(e.cid, e.execId)];
    }
  }

  // ----- Totals -----

  lemma {:induction false} SumUnmoved(keys: seq<Key>, ex: Executions, ex': Executions, cid: string)
    requires forall k :: k in keys ==> LiveQuantity(ex', k, cid) == LiveQuantity(ex, k, cid)
    ensures SumLive(keys, ex', cid) == SumLive(keys, ex, cid)
  {
    hide LiveQuantity;
    if keys != [] {
      var init, last := keys[..|keys| - 1], keys[|keys| - 1];
      assert keys == init + [last];
      SumUnmoved(init, ex, ex', cid);
    }
  }

  /** Booking a new execution adds what it filled to its order's total, and to no other. */
  lemma BookedAddsFill(ex: Executions, e: Execution, cid: string)
    requires ex.Valid() && (e.cid, e.execId) !in ex.at && !e.busted
    ensures Total(Booked(ex, e), cid) == Total(ex, cid) + (if e.cid == cid && e.fill.Some? then e.fill.value else 0.0)
  {
    var key, ex' := (e.cid, e.execId), Booked(ex, e);
    assert key !in ex.keys;
    SumUnmoved(ex.keys, ex, ex', cid);
    assert ex'.keys[..|ex.keys|] == ex.keys;
  }

  lemma {:induction false} SumWithoutOne(keys: seq<Key>, ex: Executions, ex': Executions, key: Key, cid: string)
    requires forall i, j :: 0 <= i < j < |keys| ==> keys[i] != keys[j]
    requires forall k :: k in keys && k != key ==> LiveQuantity(ex', k, cid) == LiveQuantity(ex, k, cid)
    ensures SumLive(keys, ex', cid)
         == SumLive(keys, ex, cid)
            - (if key in keys then LiveQuantity(ex, key, cid) - LiveQuantity(ex', key, cid) else 0.0)
  {
    hide LiveQuantity;
    if keys != [] {
      var init, last := keys[..|keys| - 1], keys[|keys| - 1];
      assert keys == init + [last];
      forall k | k in init && k != key ensures LiveQuantity(ex', k, cid) == LiveQuantity(ex, k, cid) {
        assert k in keys;
      }
      SumWithoutOne(init, ex, ex', key, cid);
      assert last == key ==> key !in init;
    }
  }

  /** Marking an execution busted takes what it filled out of its order's total, once. */
  lemma MarkedTakesFill(ex: Executions, key: Key, cid: string)
    requires ex.Valid()
    ensures Total(Marked(ex, key), cid) == Total(ex, cid) - LiveQuantity(ex, key, cid)
  {
    if key in ex.at {
      SumWithoutOne(ex.keys, ex, Marked(ex, key), key, cid);
    }
  }

  // ----- The store -----

  class MemoryFixStore {
    var nextOut: nat
    var nextIn: nat
    var messages: map<nat, StoredMessage>
    var orders: map<string, OrderRow>
    var openOrders: set<string>
    var wire: map<string, string>
    var executions: Executions
    var quarantine: seq<Quarantined>

    constructor ()
      ensures Valid() && nextOut == 1 && nextIn == 1 && messages == map[] && orders == map[] && openOrders == {}
      ensures wire == map[] && executions == Executions([], map[]) && quarantine == []
    {
      nextOut, nextIn, messages, orders, openOrders, wire := 1, 1, map[], map[], {}, map[];
      executions, quarantine := Executions([], map[]), [];
    }

    ghost predicate Valid()
      reads this
    {
      && executions.Valid() && openOrders <= orders.Keys && nextOut >= 1
      && (forall seqNo :: seqNo in messages ==> seqNo < nextOut && messages[seqNo].seqNo == seqNo)
    }

    /** Consume the next outbound number, storing the message under it. */
    method AllocateOutbound(message: Option<StoredMessage>) returns (seqNo: nat)
      requires Valid()
      modifies this`nextOut, this`messages
      ensures Valid() && seqNo == old(nextOut) && nextOut == seqNo + 1 && seqNo !in old(messages)
      ensures messages == (if message.Some? then old(messages)[seqNo := message.value.(seqNo := seqNo)]
                           else old(messages))
    {
      seqNo := nextOut;
      if message.Some? { messages := messages[seqNo := message.value.(seqNo := seqNo)]; }
      nextOut := seqNo + 1;
    }

    /** Begin a new FIX session: numbers start over, and so do stored messages. Orders and executions stay. */
    method ResetSequences()
      requires Valid()
      modifies this`nextOut, this`nextIn, this`messages
      ensures Valid() && nextOut == 1 && nextIn == 1 && messages == map[]
    {
      nextOut, nextIn, messages := 1, 1, map[];
    }

    method PutOrder(cid: string, row: OrderRow, isOpen: bool)
      requires Valid()
      modifies this`orders, this`openOrders
      ensures Valid() && orders == old(orders)[cid := row]
      ensures openOrders == (if isOpen then old(openOrders) + {cid} else old(openOrders) - {cid})
    {
      orders := orders[cid := row];
      openOrders := if isOpen then openOrders + {cid} else openOrders - {cid};
    }

    /** Forget an order and every wire id that leads to it. */
    method DeleteOrder(cid: string)
      requires Valid()
      modifies this`orders, this`openOrders, this`wire
      ensures Valid() && orders == old(orders) - {cid} && openOrders == old(openOrders) - {cid}
      ensures forall w :: w in wire <==> w in old(wire) && old(wire)[w] != cid
      ensures forall w :: w in wire ==> wire[w] == old(wire)[w]
    {
      orders, openOrders := orders - {cid}, openOrders - {cid};
      wire := map w | w in wire && wire[w] != cid :: wire[w];
    }

    /** One transaction: the order, the execution, the bust and the quarantine together. */
    method RecordReport(cid: string, row: Option<OrderRow>, isOpen: bool, execution: Option<Execution>,
                        bust: Option<string>, halted: Option<Quarantined>)
      requires Valid()
      modifies this`orders, this`openOrders, this`executions, this`quarantine
      ensures Valid() && Keeps(old(executions), executions)
      ensures orders == (if row.Some? then old(orders)[cid := row.value] else old(orders))
      ensures executions == Reported(old(executions), execution, if bust.Some? then Some((cid, bust.value)) else None)
      ensures quarantine == old(quarantine) + (if halted.Some? then [halted.value] else [])
    {
      if row.Some? { PutOrder(cid, row.value, isOpen); }
      ReportedKeeps(executions, execution, if bust.Some? then Some((cid, bust.value)) else None);
      if execution.Some? {
        var key := (execution.value.cid, execution.value.execId);
        if key !in executions.at {
          executions := Executions(executions.keys + [key], executions.at[key := execution.value]);
        }
      }
      if bust.Some? && (cid, bust.value) in executions.at {
        var known := executions.at[(cid, bust.value)];
        executions := executions.(at := executions.at[(cid, bust.value) := known.(busted := true)]);
      }
      if halted.Some? { quarantine := quarantine + [halted.value]; }
    }

    method UnbustedFills(since: int) returns (fills: seq<Execution>)
      requires Valid()
      ensures fills == FillsSince(executions, since)
    {
      fills := [];
      for i := 0 to |executions.keys|
        invariant fills == LiveAmong(executions.keys[..i], executions.at, since)
      {
        var e := executions.at[executions.keys[i]];
        assert executions.keys[..i + 1][..i] == executions.keys[..i];
        if e.fill.Some? && !e.busted && e.latest >= since {
          fills := fills + [e];
        }
      }
      assert executions.keys[..|executions.keys|] == executions.keys;
    }
  }
}
