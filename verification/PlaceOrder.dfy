/** One NewOrderSingle per order id: concurrent callers, a store that fails, timeouts and cancellations
    that leave a store call running, sequence resets and crashes. Every step ends at an await. */
module PlaceOrder {
  import opened Common

  /** A call of `place_order` at the await it is suspended on, or a store call that outlives its caller.
      `Looking` and `Remembering` hold the records lock. `Saving` is a report or a request rewriting a
      row it loaded. */
  datatype Phase =
    | Looking(cid: string)
    | Remembering(cid: string)
    | Sending(cid: string)
    | Allocating(cid: string)
    | Waiting(cid: string)
    | Deleting(cid: string)
    | OrphanRemember(cid: string)
    | OrphanAllocate(cid: string)
    | OrphanDelete(cid: string)
    | Saving(cid: string)
  {
    /** Holding a row it wrote, and free to send the order or to take the row back. */
    predicate Claims() { Sending? || Allocating? || Deleting? || OrphanAllocate? || OrphanDelete? }

    predicate HoldsLock() { Looking? || Remembering? }
  }

  /** The store's rows and the messages it could resend; the volatile tasks and lock; and two ghosts: the
      order id of every D message ever allocated, and which task holds an unsent row. */
  datatype World = World(rows: set<string>, messages: seq<string>, tasks: map<nat, Phase>, lock: Option<nat>,
                         log: seq<string>, claims: map<string, nat>)

  datatype Step =
    | Call(t: nat, cid: string)
    | Execute(t: nat, ok: bool)
    | TrySend(t: nat, ready: bool)
    | Answer(t: nat)
    | Cancel(t: nat)
    | Save(t: nat, cid: string)
    | ResetSequences
    | Crash

  predicate Possible(w: World, step: Step) {
    match step
    case Call(t, _) => t !in w.tasks && w.lock.None?
    case Execute(t, _) => t in w.tasks && !w.tasks[t].Sending? && !w.tasks[t].Waiting?
    case TrySend(t, _) => t in w.tasks && w.tasks[t].Sending?
    case Answer(t) => t in w.tasks && w.tasks[t].Waiting?
    case Cancel(t) => t in w.tasks
    case Save(t, cid) => t !in w.tasks && cid in w.rows
    case ResetSequences => true
    case Crash => true
  }

  function Moved(w: World, t: nat, phase: Phase): World { w.(tasks := w.tasks[t := phase]) }

  function Ended(w: World, t: nat): World { w.(tasks := w.tasks - {t}) }

  function Unlocked(w: World): World { w.(lock := None) }

  /** A store call completes. `ok` is whether the store could do it. */
  function Executed(w: World, t: nat, ok: bool): World
    requires Possible(w, Execute(t, ok))
  {
    match w.tasks[t]
    case Looking(cid) =>
      // Already sent on this store, or the store cannot be read: refused.
      if !ok || cid in w.rows then Unlocked(Ended(w, t)) else Moved(w, t, Remembering(cid))
    case Remembering(cid) =>
      if !ok then Unlocked(Ended(w, t))
      else Unlocked(Moved(w, t, Sending(cid))).(rows := w.rows + {cid}, claims := w.claims[cid := t])
    case Allocating(cid) =>
      if ok
      then Moved(w, t, Waiting(cid)).(log := w.log + [cid], messages := w.messages + [cid],
                                      claims := w.claims - {cid})
      else Moved(w, t, Deleting(cid))
    case Deleting(cid) =>
      if ok then Ended(w, t).(rows := w.rows - {cid}, claims := w.claims - {cid})
      else Ended(w, t).(claims := w.claims - {cid})
    case OrphanRemember(cid) => if ok then Ended(w, t).(rows := w.rows + {cid}) else Ended(w, t)
    case OrphanAllocate(cid) =>
      if ok then Ended(w, t).(log := w.log + [cid], messages := w.messages + [cid], claims := w.claims - {cid})
      else Ended(w, t).(claims := w.claims - {cid})
    case OrphanDelete(cid) =>
      if ok then Ended(w, t).(rows := w.rows - {cid}, claims := w.claims - {cid})
      else Ended(w, t).(claims := w.claims - {cid})
    case Saving(cid) => if ok then Ended(w, t).(rows := w.rows + {cid}) else Ended(w, t)
    case Sending(_) => w
    case Waiting(_) => w
  }

  /** The caller is cancelled, or its wait times out: its store call, if any, still runs, and its row stays. */
  function Cancelled(w: World, t: nat): World
    requires t in w.tasks
  {
    match w.tasks[t]
    case Looking(_) => Unlocked(Ended(w, t))
    case Remembering(cid) => Unlocked(Moved(w, t, OrphanRemember(cid)))
    case Sending(cid) => Ended(w, t).(claims := w.claims - {cid})
    case Allocating(cid) => Moved(w, t, OrphanAllocate(cid))
    case Deleting(cid) => Moved(w, t, OrphanDelete(cid))
    case Waiting(_) => Ended(w, t)
    case _ => w
  }

  function Next(w: World, step: Step): World
    requires Possible(w, step)
  {
    match step
    case Call(t, cid) => Moved(w, t, Looking(cid)).(lock := Some(t))
    case Execute(t, ok) => Executed(w, t, ok)
    case TrySend(t, ready) =>
      var cid := w.tasks[t].cid;
      Moved(w, t, if ready then Allocating(cid) else Deleting(cid))
    case Answer(t) => Ended(w, t)
    case Cancel(t) => Cancelled(w, t)
    case Save(t, cid) => Moved(w, t, Saving(cid))
    case ResetSequences => w.(messages := [])
    case Crash => w.(tasks := map[], lock := None, claims := map[])
  }

  // ----- The invariant -----

  predicate TaskOk(w: World, t: nat)
    requires t in w.tasks
  {
    var phase := w.tasks[t];
    && (phase.Claims() ==> phase.cid in w.claims && w.claims[phase.cid] == t)
    && (phase.HoldsLock() ==> w.lock == Some(t))
    && (phase.Remembering? ==> phase.cid !in w.claims && phase.cid !in w.log)
  }

  predicate Inv(w: World) {
    && (forall t :: t in w.tasks ==> TaskOk(w, t))
    && (forall cid :: cid in w.log ==> cid in w.rows)
    && NoRepeats(w.log)
    && (forall cid :: cid in w.claims ==> cid in w.rows && cid !in w.log && w.claims[cid] in w.tasks
                                          && w.tasks[w.claims[cid]].Claims() && w.tasks[w.claims[cid]].cid == cid)
    && (w.lock.Some? ==> w.lock.value in w.tasks && w.tasks[w.lock.value].HoldsLock())
  }

  /** Two tasks never claim one order. */
  lemma ClaimIsUnique(w: World, t: nat, u: nat)
    requires Inv(w) && t in w.tasks && u in w.tasks && w.tasks[t].Claims() && w.tasks[u].Claims()
    requires w.tasks[t].cid == w.tasks[u].cid
    ensures t == u
  {
    assert TaskOk(w, t) && TaskOk(w, u);
  }

  /** The other tasks stay sound while one ends or moves on, if what they claim and the lock they hold do. */
  lemma OthersStay(w: World, w': World, t: nat)
    requires Inv(w) && t in w.tasks
    requires forall u :: u != t ==> (u in w'.tasks <==> u in w.tasks) && (u in w.tasks ==> w'.tasks[u] == w.tasks[u])
    requires forall cid :: cid in w.claims && w.claims[cid] != t ==> cid in w'.claims && w'.claims[cid] == w.claims[cid]
    requires w'.lock == w.lock || w.lock == Some(t)
    requires forall u :: u in w.tasks && u != t && w.tasks[u].Remembering? ==>
      w.tasks[u].cid !in w'.claims && w.tasks[u].cid !in w'.log
    ensures forall u :: u in w'.tasks && u != t ==> TaskOk(w', u)
  {
    forall u | u in w'.tasks && u != t ensures TaskOk(w', u) { assert TaskOk(w, u); }
  }

  /** Looking an order up and remembering it: done under the lock, by one task at a time. */
  lemma RememberingKeeps(w: World, t: nat, ok: bool)
    requires Inv(w) && t in w.tasks && (w.tasks[t].Looking? || w.tasks[t].Remembering?)
    ensures Inv(Executed(w, t, ok))
  {
    hide NoRepeats;
    var w' := Executed(w, t, ok);
    assert TaskOk(w, t);
    forall u | u in w.tasks && u != t ensures !w.tasks[u].HoldsLock() { assert TaskOk(w, u); }
    OthersStay(w, w', t);
  }

  /** Sending it: the message is allocated, or the claim goes on to be given up. */
  lemma AllocatingKeeps(w: World, t: nat, ok: bool)
    requires Inv(w) && t in w.tasks && (w.tasks[t].Allocating? || w.tasks[t].OrphanAllocate?)
    ensures Inv(Executed(w, t, ok))
  {
    var w', cid := Executed(w, t, ok), w.tasks[t].cid;
    assert TaskOk(w, t);
    forall u | u in w.tasks && u != t && w.tasks[u].Remembering?
      ensures w.tasks[u].cid !in w.claims && w.tasks[u].cid !in w.log
    {
      assert TaskOk(w, u);
    }
    OthersStay(w, w', t);
  }

  /** Giving it up, and rows written by themselves. */
  lemma ReleasingKeeps(w: World, t: nat, ok: bool)
    requires Inv(w) && t in w.tasks
    requires w.tasks[t].Deleting? || w.tasks[t].OrphanDelete? || w.tasks[t].OrphanRemember? || w.tasks[t].Saving?
    ensures Inv(Executed(w, t, ok))
  {
    var w' := Executed(w, t, ok);
    assert TaskOk(w, t);
    hide NoRepeats;
    forall u | u in w.tasks && u != t && w.tasks[u].Remembering?
      ensures w.tasks[u].cid !in w.claims && w.tasks[u].cid !in w.log
    {
      assert TaskOk(w, u);
    }
    OthersStay(w, w', t);
  }

  lemma ExecuteKeeps(w: World, t: nat, ok: bool)
    requires Inv(w) && Possible(w, Execute(t, ok))
    ensures Inv(Executed(w, t, ok))
  {
    hide Inv, Executed;
    match w.tasks[t]
    case Looking(_) => RememberingKeeps(w, t, ok);
    case Remembering(_) => RememberingKeeps(w, t, ok);
    case Allocating(_) => AllocatingKeeps(w, t, ok);
    case OrphanAllocate(_) => AllocatingKeeps(w, t, ok);
    case Deleting(_) => ReleasingKeeps(w, t, ok);
    case OrphanDelete(_) => ReleasingKeeps(w, t, ok);
    case OrphanRemember(_) => ReleasingKeeps(w, t, ok);
    case Saving(_) => ReleasingKeeps(w, t, ok);
  }

  lemma CancelKeeps(w: World, t: nat)
    requires Inv(w) && t in w.tasks
    ensures Inv(Cancelled(w, t))
  {
    var w' := Cancelled(w, t);
    assert TaskOk(w, t);
    forall u | u in w'.tasks ensures TaskOk(w', u) {
      if u != t {
        assert TaskOk(w, u);
        if w.tasks[u].Claims() && w.tasks[t].Claims() && w.tasks[u].cid == w.tasks[t].cid { ClaimIsUnique(w, t, u); }
      }
    }
  }

  lemma StepKeeps(w: World, step: Step)
    requires Inv(w) && Possible(w, step)
    ensures Inv(Next(w, step))
  {
    hide NoRepeats;
    match step
    case Execute(t, ok) => ExecuteKeeps(w, t, ok);
    case Cancel(t) => CancelKeeps(w, t);
    case Call(t, cid) => JoinKeeps(w, t, Looking(cid), Some(t));
    case Save(t, cid) => JoinKeeps(w, t, Saving(cid), w.lock);
    case TrySend(t, ready) => TrySendKeeps(w, t, ready);
    case Answer(t) => AnswerKeeps(w, t);
    case ResetSequences => ResetKeeps(w);
    case Crash =>
  }

  lemma JoinKeeps(w: World, t: nat, phase: Phase, lock: Option<nat>)
    requires Inv(w) && t !in w.tasks && (phase.Looking? || phase.Saving?)
    requires phase.Looking? ==> w.lock.None? && lock == Some(t)
    requires phase.Saving? ==> lock == w.lock
    ensures Inv(Moved(w, t, phase).(lock := lock))
  {
    var w' := Moved(w, t, phase).(lock := lock);
    forall u | u in w'.tasks ensures TaskOk(w', u) {
      if u != t { assert TaskOk(w, u); }
    }
  }

  lemma TrySendKeeps(w: World, t: nat, ready: bool)
    requires Inv(w) && Possible(w, TrySend(t, ready))
    ensures Inv(Next(w, TrySend(t, ready)))
  {
    var w' := Next(w, TrySend(t, ready));
    forall u | u in w'.tasks ensures TaskOk(w', u) { assert TaskOk(w, u); }
  }

  lemma AnswerKeeps(w: World, t: nat)
    requires Inv(w) && Possible(w, Answer(t))
    ensures Inv(Next(w, Answer(t)))
  {
    var w' := Next(w, Answer(t));
    forall u | u in w'.tasks ensures TaskOk(w', u) { assert TaskOk(w, u); }
  }

  lemma ResetKeeps(w: World)
    requires Inv(w)
    ensures Inv(Next(w, ResetSequences))
  {
    forall u | u in w.tasks ensures TaskOk(Next(w, ResetSequences), u) { assert TaskOk(w, u); }
  }

  /** A run; a step that is not possible where it comes is skipped. */
  function Run(w: World, steps: seq<Step>): World {
    if steps == [] then w else
    var before := Run(w, steps[..|steps| - 1]);
    if Possible(before, steps[|steps| - 1]) then Next(before, steps[|steps| - 1]) else before
  }

  const NEW_STORE := World({}, [], map[], None, [], map[])

  lemma {:induction false} RunKeeps(w: World, steps: seq<Step>)
    requires Inv(w)
    ensures Inv(Run(w, steps)) && w.log <= Run(w, steps).log
  {
    if steps != [] {
      RunKeeps(w, steps[..|steps| - 1]);
      var before, last := Run(w, steps[..|steps| - 1]), steps[|steps| - 1];
      if Possible(before, last) {
        LogGrows(before, last);
        hide Inv, Next, Possible;
        StepKeeps(before, last);
      }
    }
  }

  lemma LogGrows(w: World, step: Step)
    requires Possible(w, step)
    ensures w.log <= Next(w, step).log
  {
  }

  /** Over every run of concurrent callers, session drops, store failures, cancellations, sequence resets
      and restarts: at most one D message is ever allocated for an order id, and an order with one keeps
      its row for good. So a missing row proves the order was never sent from this store. */
  lemma OneNewOrderPerId(steps: seq<Step>, later: seq<Step>)
    ensures var w := Run(NEW_STORE, steps);
            && NoRepeats(w.log)
            && (forall cid :: cid in w.log ==> cid in w.rows && cid in Run(w, later).rows)
            && (forall cid :: cid !in w.rows ==> cid !in w.log)
  {
    assert Inv(NEW_STORE);
    RunKeeps(NEW_STORE, steps);
    RunKeeps(Run(NEW_STORE, steps), later);
    hide Run;
  }

  /** The guarantee is not idle: a first call on a fresh id goes out if nothing stops it. */
  lemma FirstCallIsSent(cid: string)
    ensures exists steps :: Run(NEW_STORE, steps).log == [cid]
  {
    RunThen([], Call(0, cid));
    var a := [] + [Call(0, cid)];
    assert Run(NEW_STORE, a).tasks == map[0 := Looking(cid)];
    RunThen(a, Execute(0, true));
    var b := a + [Execute(0, true)];
    assert Run(NEW_STORE, b).tasks == map[0 := Remembering(cid)];
    RunThen(b, Execute(0, true));
    var c := b + [Execute(0, true)];
    assert Run(NEW_STORE, c).tasks == map[0 := Sending(cid)];
    RunThen(c, TrySend(0, true));
    var d := c + [TrySend(0, true)];
    assert Run(NEW_STORE, d).tasks == map[0 := Allocating(cid)] && Run(NEW_STORE, d).log == [];
    RunThen(d, Execute(0, true));
    assert Run(NEW_STORE, d + [Execute(0, true)]).log == [cid];
  }

  lemma RunThen(steps: seq<Step>, step: Step)
    ensures Run(NEW_STORE, steps + [step]) ==
      if Possible(Run(NEW_STORE, steps), step) then Next(Run(NEW_STORE, steps), step) else Run(NEW_STORE, steps)
  {
    hide Possible, Next;
    assert (steps + [step])[..|steps|] == steps;
  }
}
