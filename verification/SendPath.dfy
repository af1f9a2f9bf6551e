/** Sending an order: the write-ahead protocol from intent to venue call, run by any number of processes
    on one journal, with crashes and recovery at any point. Every step ends at an await of the source. */
module SendPath {
  import opened Common
  import opened Fills
  import opened Orders

  /** How far one submit has come. `Checked` holds the submit lock until its intent is learned. */
  datatype Phase =
    | Checked(request: Request)
    | IntentWritten(request: Request)
    | Ready
    | Deciding
    | StartWritten
    | Started
    | Called

  /** The volatile memory of one process. `toClose` are the orders recovery found unsent and has yet to
      close, `listed` those a reconciliation pass found so, and `waiting` the events a failed journal
      missed, in order. */
  datatype Proc = Proc(
    orders: map<string, OrderState>,
    tasks: map<string, Phase>,
    lock: bool,
    started: bool,
    toClose: set<string>,
    listed: set<string>,
    waiting: seq<Event>)

  /** The steps of a process. `ok` and `written` say whether the journal takes what is written, and
      `refusal` why a send was stopped in time, if it was. */
  datatype Action =
    | Begin(request: Request)
    | WriteIntent(cid: string, ok: bool)
    | LearnIntent(cid: string)
    | Stop(cid: string, code: string, written: bool)
    | Decide(cid: string, refusal: Option<string>, written: bool)
    | WriteStart(cid: string, ok: bool, code: string, written: bool)
    | LearnStart(cid: string)
    | Abandon(cid: string)
    | Place(cid: string, refusal: Option<string>, written: bool)
    | Finish(event: Event, written: bool)
    | Observe(event: Event, written: bool)
    | CancelUnsent(cid: string, written: bool)
    | CloseUnsent(cid: string, written: bool)
    | CloseListed(cid: string, written: bool)
    | WriteLate
    | Open
    | ListPending

  datatype Step = Act(p: nat, action: Action) | StartUp(p: nat) | Crash(p: nat)

  /** What one action does: the process after it, the event it journals, and the venue call it makes. */
  datatype Effect = Effect(proc: Proc, wrote: Option<Event>, call: Option<string>)

  /** The codes under which a process records that it did not send. */
  const OWN_CODES: set<string> := {"CANCELED_BEFORE_SEND", "KILL_SWITCH", "JOURNAL_UNREADABLE", "NEVER_SENT"}

  function Refusal(cid: string, code: string): Event {
    RejectReport(cid, "stopped before the order was sent", Some(code))
  }

  function StartEvent(cid: string): Event { SendStarted(cid, None) }

  function Pending(orders: map<string, OrderState>): set<string> {
    set cid | cid in orders && orders[cid].status == PendingSubmit
  }

  function Learned(P: Proc, e: Event): Proc {
    if e.cid in P.orders then P.(orders := P.orders[e.cid := Apply(P.orders[e.cid], e)]) else P
  }

  function Without(P: Proc, cid: string): Proc { P.(tasks := P.tasks - {cid}) }

  /** Record an event that need not be durable: memory learns it even when the journal fails, and then it
      waits to be written. */
  function Record(P: Proc, e: Event, written: bool): Effect {
    var learned := Learned(P, e);
    if written then Effect(learned, Some(e), None) else Effect(learned.(waiting := P.waiting + [e]), None, None)
  }

  /** Whether a submit of an order is under way and has not yet called the venue. */
  predicate BeforeCall(P: Proc, cid: string) { cid in P.tasks && !P.tasks[cid].Called? }

  /** The venue, the user and reconciliation report on known orders. They journal no intents and no
      starts, and a restatement is never of an order whose call is still to come nor back to one not sent. */
  predicate MayObserve(P: Proc, e: Event) {
    && e.cid in P.orders && !e.SubmitIntent? && !e.SendStarted?
    && (e.Restated? ==> !BeforeCall(P, e.cid) && e.status != PendingSubmit)
  }

  /** What the venue call comes back with. */
  predicate IsAnswer(e: Event) { e.Acknowledged? || e.RejectReport? || e.OutcomeUnknown? }

  predicate HasPhase(P: Proc, cid: string, phase: Phase) { cid in P.tasks && P.tasks[cid] == phase && cid in P.orders }

  /** An event can be written only once what waits before it is. */
  predicate CanWrite(P: Proc, written: bool) { written ==> P.waiting == [] }

  predicate Enabled(P: Proc, a: Action) {
    match a
    case Begin(request) =>
      P.started && !P.lock && request.clientOrderId !in P.orders && request.clientOrderId !in P.tasks
    case WriteIntent(cid, ok) => cid in P.tasks && P.tasks[cid].Checked? && CanWrite(P, ok)
    case LearnIntent(cid) => cid in P.tasks && P.tasks[cid].IntentWritten?
    case Stop(cid, code, written) => HasPhase(P, cid, Ready) && code in OWN_CODES && CanWrite(P, written)
    case Decide(cid, refusal, written) =>
      HasPhase(P, cid, Ready) && (refusal.Some? ==> refusal.value in OWN_CODES) && CanWrite(P, written)
    case WriteStart(cid, ok, code, written) =>
      HasPhase(P, cid, Deciding) && code in OWN_CODES && CanWrite(P, ok) && CanWrite(P, written)
    case LearnStart(cid) => HasPhase(P, cid, StartWritten)
    case Abandon(cid) => HasPhase(P, cid, Started)
    case Place(cid, refusal, written) =>
      HasPhase(P, cid, Started) && (refusal.Some? ==> refusal.value in OWN_CODES) && CanWrite(P, written)
    case Finish(e, written) => HasPhase(P, e.cid, Called) && IsAnswer(e) && CanWrite(P, written)
    case Observe(e, written) => MayObserve(P, e) && CanWrite(P, written)
    case CancelUnsent(cid, written) =>
      P.started && cid in Pending(P.orders) && cid !in P.tasks && CanWrite(P, written)
    case CloseUnsent(cid, written) => cid in P.toClose && cid in P.orders && CanWrite(P, written)
    case CloseListed(cid, written) => cid in P.listed && cid in P.orders && cid !in P.tasks && CanWrite(P, written)
    case WriteLate => P.waiting != []
    case Open => P.toClose == {}
    case ListPending => P.started
  }

  /** One action. `intents` are the ids the journal already holds an intent for. A send stopped before its
      start is on record is refused while its order is pending; one whose caller is cancelled while the
      start is written is abandoned where it is. */
  function Do(P: Proc, a: Action, intents: set<string>): Effect
    requires Enabled(P, a)
  {
    match a
    case Begin(request) =>
      Effect(P.(tasks := P.tasks[request.clientOrderId := Checked(request)], lock := true), None, None)
    case WriteIntent(cid, ok) =>
      var request := P.tasks[cid].request;
      if ok && cid !in intents
      then Effect(P.(tasks := P.tasks[cid := IntentWritten(request)]), Some(SubmitIntent(cid, request)), None)
      else Effect(Without(P, cid).(lock := false), None, None)
    case LearnIntent(cid) =>
      var order := NewOrder(P.tasks[cid].request);
      Effect(P.(orders := P.orders[cid := order], tasks := P.tasks[cid := Ready], lock := false), None, None)
    case Stop(cid, code, written) => CloseIfPending(P, cid, code, written)
    case Decide(cid, refusal, written) =>
      if P.orders[cid].status != PendingSubmit then Effect(Without(P, cid), None, None)
      else if refusal.Some? then Record(Without(P, cid), Refusal(cid, refusal.value), written)
      else Effect(P.(tasks := P.tasks[cid := Deciding]), None, None)
    case WriteStart(cid, ok, code, written) =>
      if ok then Effect(P.(tasks := P.tasks[cid := StartWritten]), Some(StartEvent(cid)), None)
      else CloseIfPending(P, cid, code, written)
    case LearnStart(cid) =>
      var learned := Learned(P, StartEvent(cid));
      if learned.orders[cid].status == Submitting
      then Effect(learned.(tasks := P.tasks[cid := Started]), None, None)
      else Effect(Without(learned, cid), None, None)
    case Abandon(cid) => Effect(Without(P, cid), None, None)
    case Place(cid, refusal, written) =>
      if refusal.Some? then Record(Without(P, cid), Refusal(cid, refusal.value), written)
      else Effect(P.(tasks := P.tasks[cid := Called]), None, Some(cid))
    case Finish(e, written) => Record(Without(P, e.cid), e, written)
    case Observe(e, written) => Record(P, e, written)
    case CancelUnsent(cid, written) => Record(P, Refusal(cid, "CANCELED_BEFORE_SEND"), written)
    case CloseUnsent(cid, written) => Record(P.(toClose := P.toClose - {cid}), NeverSent(cid), written)
    case CloseListed(cid, written) => Record(P.(listed := P.listed - {cid}), NeverSent(cid), written)
    case WriteLate => Effect(P.(waiting := P.waiting[1..]), Some(P.waiting[0]), None)
    case Open => Effect(P.(started := true), None, None)
    case ListPending => Effect(P.(listed := Pending(P.orders)), None, None)
  }

  /** The send path ends before anything went out. */
  function CloseIfPending(P: Proc, cid: string, code: string, written: bool): Effect
    requires cid in P.orders
  {
    if P.orders[cid].status == PendingSubmit then Record(Without(P, cid), Refusal(cid, code), written)
    else Effect(Without(P, cid), None, None)
  }

  // ----- The world -----

  /** The durable journal, the processes, and two ghosts: who journalled each intent, and every venue
      call ever made, in order. */
  datatype World = World(journal: seq<Event>, procs: map<nat, Proc>, owner: map<string, nat>, calls: seq<string>)

  function Intents(journal: seq<Event>): set<string> {
    if journal == [] then {} else
    var last := journal[|journal| - 1];
    Intents(journal[..|journal| - 1]) + (if last.SubmitIntent? then {last.cid} else {})
  }

  function Starts(journal: seq<Event>): set<string> {
    if journal == [] then {} else
    var last := journal[|journal| - 1];
    Starts(journal[..|journal| - 1]) + (if last.SendStarted? then {last.cid} else {})
  }

  /** No order id has two intents on record. */
  predicate OneIntentEach(journal: seq<Event>) {
    journal == [] ||
    (var init, last := journal[..|journal| - 1], journal[|journal| - 1];
     OneIntentEach(init) && (last.SubmitIntent? ==> last.cid !in Intents(init)))
  }

  function Recovered(orders: map<string, OrderState>): Proc {
    Proc(orders, map[], false, false, Pending(orders), {}, [])
  }

  predicate Possible(w: World, step: Step) {
    match step
    case Act(p, a) => p in w.procs && Enabled(w.procs[p], a)
    case StartUp(p) => p !in w.procs && Replayed(w.journal).Ok?
    case Crash(p) => p in w.procs
  }

  function Landed(w: World, p: nat, effect: Effect): World {
    World(
      if effect.wrote.Some? then w.journal + [effect.wrote.value] else w.journal,
      w.procs[p := effect.proc],
      if effect.wrote.Some? && effect.wrote.value.SubmitIntent? then w.owner[effect.wrote.value.cid := p] else w.owner,
      if effect.call.Some? then w.calls + [effect.call.value] else w.calls)
  }

  function Next(w: World, step: Step): World
    requires Possible(w, step)
  {
    match step
    case Act(p, a) => Landed(w, p, Do(w.procs[p], a, Intents(w.journal)))
    case StartUp(p) => w.(procs := w.procs[p := Recovered(Replayed(w.journal).value)])
    case Crash(p) => w.(procs := w.procs - {p})
  }

  // ----- The invariant -----

  predicate TaskOk(p: nat, P: Proc, cid: string, starts: set<string>, calls: seq<string>, owner: map<string, nat>)
    requires cid in P.tasks
  {
    var phase := P.tasks[cid];
    if phase.Checked? then phase.request.clientOrderId == cid && cid !in P.orders
    else
      && cid in owner && owner[cid] == p
      && (phase.IntentWritten? <==> cid !in P.orders)
      && (phase.StartWritten? || phase.Started? || phase.Called? ==> cid in starts)
      && (phase.Started? || phase.Called? ==> P.orders[cid].status != PendingSubmit)
      && (phase.Called? <==> cid in calls)
  }

  /** A pending order of a process that has started is its own and was never called for; one that has not
      is still closing those it recovered. */
  predicate OrderOk(p: nat, P: Proc, cid: string, calls: seq<string>, owner: map<string, nat>)
    requires cid in P.orders
  {
    && cid in owner
    && (P.orders[cid].status == PendingSubmit ==>
          if P.started then owner[cid] == p && cid !in calls else cid in P.toClose)
  }

  predicate ListedOk(p: nat, P: Proc, cid: string, owner: map<string, nat>) {
    cid in P.orders && cid in owner && owner[cid] == p
  }

  predicate WaitingOk(e: Event, owner: map<string, nat>) {
    !e.SubmitIntent? && !e.SendStarted? && e.cid in owner && (e.Restated? ==> e.status != PendingSubmit)
  }

  predicate ProcOk(p: nat, P: Proc, starts: set<string>, calls: seq<string>, owner: map<string, nat>) {
    && (forall cid :: cid in P.tasks ==> TaskOk(p, P, cid, starts, calls, owner))
    && (forall cid :: cid in P.orders ==> OrderOk(p, P, cid, calls, owner))
    && (forall cid :: cid in P.listed ==> ListedOk(p, P, cid, owner))
    && (forall i :: 0 <= i < |P.waiting| ==> WaitingOk(P.waiting[i], owner))
    && (if P.started then P.toClose == {} else P.tasks == map[] && P.listed == {})
  }

  /** The journal can be replayed, knows exactly the orders with an intent, and never has an order the
      venue restated as not sent. */
  predicate Replayable(journal: seq<Event>) {
    && Replayed(journal).Ok? && Replayed(journal).value.Keys == Intents(journal)
    && (forall i :: 0 <= i < |journal| && journal[i].Restated? ==> journal[i].status != PendingSubmit)
  }

  predicate JournalOk(w: World) {
    OneIntentEach(w.journal) && Replayable(w.journal) && w.owner.Keys == Intents(w.journal)
  }

  predicate CallsOk(w: World) {
    && (forall cid :: cid in w.calls ==> cid in Starts(w.journal) && cid in w.owner)
    && NoRepeats(w.calls)
  }

  predicate ProcsOk(w: World) {
    forall p :: p in w.procs ==> ProcOk(p, w.procs[p], Starts(w.journal), w.calls, w.owner)
  }

  predicate WorldOk(w: World) { JournalOk(w) && CallsOk(w) && ProcsOk(w) }

  lemma JournalGrows(journal: seq<Event>, e: Event)
    ensures Intents(journal + [e]) == Intents(journal) + (if e.SubmitIntent? then {e.cid} else {})
    ensures Starts(journal + [e]) == Starts(journal) + (if e.SendStarted? then {e.cid} else {})
    ensures OneIntentEach(journal + [e]) <==> OneIntentEach(journal) && (e.SubmitIntent? ==> e.cid !in Intents(journal))
  {
    assert (journal + [e])[..|journal|] == journal;
  }

  lemma ReplayableGrows(journal: seq<Event>, e: Event)
    requires Replayable(journal) && (e.SubmitIntent? <==> e.cid !in Intents(journal))
    requires e.Restated? ==> e.status != PendingSubmit
    ensures Replayable(journal + [e])
  {
    var all := journal + [e];
    assert all[..|journal|] == journal;
    hide Apply;
    forall i | 0 <= i < |all| && all[i].Restated? ensures all[i].status != PendingSubmit {
      if i < |journal| { assert all[i] == journal[i]; }
    }
    assert Replayed(all).Ok?;
    JournalGrows(journal, e);
  }

  /** What an action may do to the rest of the world. */
  predicate EffectOk(w: World, p: nat, effect: Effect) {
    && (effect.wrote.Some? ==>
          && (effect.wrote.value.SubmitIntent? <==> effect.wrote.value.cid !in w.owner)
          && (effect.wrote.value.Restated? ==> effect.wrote.value.status != PendingSubmit))
    && (effect.call.Some? ==>
          effect.call.value in w.owner && w.owner[effect.call.value] == p
          && effect.call.value !in w.calls && effect.call.value in Starts(w.journal))
    && var after := Landed(w, p, effect);
       ProcOk(p, effect.proc, Starts(after.journal), after.calls, after.owner)
  }

  /** A process is not disturbed by another's writes, nor by calls for orders another one journalled. */
  lemma OthersUndisturbed(q: nat, Q: Proc, starts: set<string>, calls: seq<string>, owner: map<string, nat>,
                          starts': set<string>, calls': seq<string>, owner': map<string, nat>)
    requires ProcOk(q, Q, starts, calls, owner)
    requires starts <= starts' && forall cid :: cid in owner ==> cid in owner' && owner'[cid] == owner[cid]
    requires forall cid :: cid in calls ==> cid in calls'
    requires forall cid :: cid in calls' && cid !in calls ==> !(cid in owner && owner[cid] == q)
    ensures ProcOk(q, Q, starts', calls', owner')
  {
    forall cid | cid in Q.tasks ensures TaskOk(q, Q, cid, starts', calls', owner') {
      assert TaskOk(q, Q, cid, starts, calls, owner);
    }
    forall cid | cid in Q.orders ensures OrderOk(q, Q, cid, calls', owner') {
      assert OrderOk(q, Q, cid, calls, owner);
    }
    forall cid | cid in Q.listed ensures ListedOk(q, Q, cid, owner') {
      assert ListedOk(q, Q, cid, owner);
    }
    forall i | 0 <= i < |Q.waiting| ensures WaitingOk(Q.waiting[i], owner') {
      assert WaitingOk(Q.waiting[i], owner);
    }
  }

  lemma LandedKeepsJournal(w: World, p: nat, effect: Effect)
    requires JournalOk(w) && EffectOk(w, p, effect)
    ensures JournalOk(Landed(w, p, effect)) && Starts(w.journal) <= Starts(Landed(w, p, effect).journal)
    ensures forall cid :: cid in w.owner ==>
      cid in Landed(w, p, effect).owner && Landed(w, p, effect).owner[cid] == w.owner[cid]
  {
    hide Intents, Starts, OneIntentEach, ProcOk, Replayable;
    if effect.wrote.Some? {
      var e := effect.wrote.value;
      assert (e.SubmitIntent? <==> e.cid !in w.owner) && (e.Restated? ==> e.status != PendingSubmit);
      hide EffectOk;
      assert e.cid in w.owner <==> e.cid in Intents(w.journal);
      JournalGrows(w.journal, e);
      ReplayableGrows(w.journal, e);
      if e.SubmitIntent? { assert w.owner[e.cid := p].Keys == w.owner.Keys + {e.cid}; }
    }
  }

  lemma LandedKeepsCalls(w: World, p: nat, effect: Effect)
    requires CallsOk(w) && EffectOk(w, p, effect)
    requires Starts(w.journal) <= Starts(Landed(w, p, effect).journal)
    requires forall cid :: cid in w.owner ==> cid in Landed(w, p, effect).owner
    ensures CallsOk(Landed(w, p, effect))
  {
    hide Intents, Starts, OneIntentEach, ProcOk;
    if effect.call.Some? { assert (w.calls + [effect.call.value])[..|w.calls|] == w.calls; }
  }

  lemma LandedKeeps(w: World, p: nat, effect: Effect)
    requires WorldOk(w) && EffectOk(w, p, effect)
    ensures WorldOk(Landed(w, p, effect))
  {
    LandedKeepsJournal(w, p, effect);
    LandedKeepsCalls(w, p, effect);
    hide Intents, Starts, OneIntentEach, ProcOk, Replayable, JournalOk, CallsOk;
    var after := Landed(w, p, effect);
    forall q | q in after.procs ensures ProcOk(q, after.procs[q], Starts(after.journal), after.calls, after.owner) {
      if q != p {
        OthersUndisturbed(q, w.procs[q], Starts(w.journal), w.calls, w.owner,
                          Starts(after.journal), after.calls, after.owner);
      }
    }
  }

  /** No event but a venue restatement leads back to an order that was not sent. */
  lemma NotUnsentAgain(s: OrderState, e: Event)
    requires e.Restated? ==> e.status != PendingSubmit
    ensures Apply(s, e).status == PendingSubmit ==> s.status == PendingSubmit && !e.SendStarted?
  {
    if e.Restated? {
      hide Times, OrElse;
    } else if Apply(s, e).status == PendingSubmit {
      SendIsNeverForgotten(s, e);
    }
  }

  predicate Tidy(w: World, p: nat)
    requires p in w.procs
  {
    ProcOk(p, w.procs[p], Starts(w.journal), w.calls, w.owner)
  }

  /** An action that concerns one order leaves the others as they are. */
  ghost predicate Touches(P: Proc, P': Proc, cid: string) {
    && (forall c :: c != cid ==> (c in P'.tasks <==> c in P.tasks) && (c in P'.orders <==> c in P.orders))
    && (forall c :: c != cid && c in P'.tasks ==> P'.tasks[c] == P.tasks[c])
    && (forall c :: c != cid && c in P'.orders ==> P'.orders[c] == P.orders[c])
    && P'.started == P.started && (P'.tasks != map[] ==> P.started)
    && P'.listed <= P.listed && P'.toClose <= P.toClose && P.toClose - P'.toClose <= {cid}
  }

  /** The other orders stay sound beside it. */
  lemma RestIsSound(p: nat, P: Proc, P': Proc, cid: string, starts: set<string>, calls: seq<string>,
                    owner: map<string, nat>, starts': set<string>, calls': seq<string>, owner': map<string, nat>)
    requires ProcOk(p, P, starts, calls, owner) && Touches(P, P', cid)
    requires starts <= starts' && forall c :: c in owner ==> c in owner' && owner'[c] == owner[c]
    requires forall c :: c != cid ==> (c in calls' <==> c in calls)
    requires cid in P'.tasks ==> TaskOk(p, P', cid, starts', calls', owner')
    requires cid in P'.orders ==> OrderOk(p, P', cid, calls', owner')
    requires cid in P'.listed ==> cid in P'.orders
    requires forall i :: 0 <= i < |P'.waiting| ==> WaitingOk(P'.waiting[i], owner')
    ensures ProcOk(p, P', starts', calls', owner')
  {
    forall c | c in P'.tasks ensures TaskOk(p, P', c, starts', calls', owner') {
      if c != cid { assert TaskOk(p, P, c, starts, calls, owner); }
    }
    forall c | c in P'.orders ensures OrderOk(p, P', c, calls', owner') {
      if c != cid {
        assert OrderOk(p, P, c, calls, owner);
        assert c !in P.toClose - P'.toClose;
      }
    }
    forall c | c in P'.listed ensures ListedOk(p, P', c, owner') {
      assert ListedOk(p, P, c, owner);
    }
  }

  /** And such an action is sound if it is so at its order. */
  lemma SubjectOk(w: World, p: nat, effect: Effect, cid: string)
    requires p in w.procs && Tidy(w, p) && Touches(w.procs[p], effect.proc, cid)
    requires effect.wrote.Some? ==>
      && effect.wrote.value.cid == cid && (effect.wrote.value.SubmitIntent? <==> cid !in w.owner)
      && (effect.wrote.value.Restated? ==> effect.wrote.value.status != PendingSubmit)
    requires effect.call.Some? ==>
      effect.call.value == cid && cid in w.owner && w.owner[cid] == p && cid !in w.calls && cid in Starts(w.journal)
    requires var P', after := effect.proc, Landed(w, p, effect);
             && (cid in P'.tasks ==> TaskOk(p, P', cid, Starts(after.journal), after.calls, after.owner))
             && (cid in P'.orders ==> OrderOk(p, P', cid, after.calls, after.owner))
             && (cid in P'.listed ==> cid in P'.orders)
             && (forall i :: 0 <= i < |P'.waiting| ==> WaitingOk(P'.waiting[i], after.owner))
    ensures EffectOk(w, p, effect)
  {
    hide Intents, Starts, OneIntentEach, Replayable, ProcOk, TaskOk, OrderOk, WaitingOk, Touches;
    var after := Landed(w, p, effect);
    if effect.wrote.Some? { JournalGrows(w.journal, effect.wrote.value); }
    RestIsSound(p, w.procs[p], effect.proc, cid, Starts(w.journal), w.calls, w.owner,
                Starts(after.journal), after.calls, after.owner);
  }

  /** What is known of the order an action concerns. */
  lemma AtSubject(w: World, p: nat, cid: string)
    requires p in w.procs && Tidy(w, p)
    ensures var P := w.procs[p];
            && (cid in P.tasks ==> P.started && TaskOk(p, P, cid, Starts(w.journal), w.calls, w.owner))
            && (cid in P.orders ==> OrderOk(p, P, cid, w.calls, w.owner))
            && (cid in P.listed ==> P.started && ListedOk(p, P, cid, w.owner))
            && (if P.started then P.toClose == {} else P.tasks == map[] && P.listed == {})
            && (forall i :: 0 <= i < |P.waiting| ==> WaitingOk(P.waiting[i], w.owner))
  {
    hide Starts;
  }

  /** Recording an ordinary event, the order's task done or not and its entries dropped or not. */
  lemma RecordOk(w: World, p: nat, P': Proc, e: Event, written: bool)
    requires p in w.procs && Tidy(w, p) && e.cid in w.procs[p].orders && !e.SubmitIntent? && !e.SendStarted?
    requires e.Restated? ==> e.status != PendingSubmit
    requires P'.orders == w.procs[p].orders && P'.waiting == w.procs[p].waiting && Touches(w.procs[p], P', e.cid)
    requires e.cid in P'.tasks ==> e.cid in w.procs[p].tasks && P'.tasks[e.cid] == w.procs[p].tasks[e.cid]
    requires P'.toClose == w.procs[p].toClose || Apply(P'.orders[e.cid], e).status != PendingSubmit
    ensures EffectOk(w, p, Record(P', e, written))
  {
    hide Apply, Intents, Starts, OneIntentEach, Replayable, ProcOk, EffectOk, Tidy;
    var effect := Record(P', e, written);
    AtSubject(w, p, e.cid);
    NotUnsentAgain(P'.orders[e.cid], e);
    if written { JournalGrows(w.journal, e); }
    SubjectOk(w, p, effect, e.cid);
  }

  lemma BeginOk(w: World, p: nat, request: Request)
    requires p in w.procs && Tidy(w, p) && Enabled(w.procs[p], Begin(request))
    ensures EffectOk(w, p, Do(w.procs[p], Begin(request), Intents(w.journal)))
  {
    hide Intents, Starts, OneIntentEach, Replayable, ProcOk, EffectOk;
    AtSubject(w, p, request.clientOrderId);
    SubjectOk(w, p, Do(w.procs[p], Begin(request), Intents(w.journal)), request.clientOrderId);
  }

  lemma WriteIntentOk(w: World, p: nat, cid: string, ok: bool)
    requires p in w.procs && Tidy(w, p) && Enabled(w.procs[p], WriteIntent(cid, ok))
    requires w.owner.Keys == Intents(w.journal) && CallsOk(w)
    ensures EffectOk(w, p, Do(w.procs[p], WriteIntent(cid, ok), Intents(w.journal)))
  {
    hide Intents, Starts, OneIntentEach, ProcOk, Replayable, EffectOk;
    var effect := Do(w.procs[p], WriteIntent(cid, ok), Intents(w.journal));
    AtSubject(w, p, cid);
    if effect.wrote.Some? {
      assert cid !in w.owner.Keys;
      JournalGrows(w.journal, effect.wrote.value);
    }
    SubjectOk(w, p, effect, cid);
  }

  lemma LearnIntentOk(w: World, p: nat, cid: string)
    requires p in w.procs && Tidy(w, p) && Enabled(w.procs[p], LearnIntent(cid))
    ensures EffectOk(w, p, Do(w.procs[p], LearnIntent(cid), Intents(w.journal)))
  {
    hide Intents, Starts, OneIntentEach, ProcOk, Replayable, EffectOk;
    AtSubject(w, p, cid);
    SubjectOk(w, p, Do(w.procs[p], LearnIntent(cid), Intents(w.journal)), cid);
  }

  /** The task of an order ends, or goes on to a phase that asks no more of it, and nothing is written. */
  lemma TaskMovesOk(w: World, p: nat, cid: string, next: Option<Phase>)
    requires p in w.procs && Tidy(w, p) && cid in w.procs[p].tasks && cid in w.procs[p].orders
    requires next.Some? ==> next.value.Deciding? && w.procs[p].tasks[cid].Ready?
    ensures var P := w.procs[p];
            var P' := if next.Some? then P.(tasks := P.tasks[cid := next.value]) else Without(P, cid);
            EffectOk(w, p, Effect(P', None, None))
  {
    var P := w.procs[p];
    var P' := if next.Some? then P.(tasks := P.tasks[cid := next.value]) else Without(P, cid);
    AtSubject(w, p, cid);
    hide Intents, Starts, OneIntentEach, ProcOk, Replayable, EffectOk;
    SubjectOk(w, p, Effect(P', None, None), cid);
  }

  /** The send path records a refusal, or only ends. */
  lemma CloseOk(w: World, p: nat, cid: string, code: string, written: bool)
    requires p in w.procs && Tidy(w, p) && cid in w.procs[p].tasks && cid in w.procs[p].orders
    ensures EffectOk(w, p, CloseIfPending(w.procs[p], cid, code, written))
    ensures EffectOk(w, p, Record(Without(w.procs[p], cid), Refusal(cid, code), written))
  {
    AtSubject(w, p, cid);
    hide Intents, Starts, OneIntentEach, ProcOk, Replayable, EffectOk, Apply, Record, Tidy;
    RecordOk(w, p, Without(w.procs[p], cid), Refusal(cid, code), written);
    TaskMovesOk(w, p, cid, None);
  }

  lemma DecideOk(w: World, p: nat, cid: string, refusal: Option<string>, written: bool)
    requires p in w.procs && Tidy(w, p) && Enabled(w.procs[p], Decide(cid, refusal, written))
    ensures EffectOk(w, p, Do(w.procs[p], Decide(cid, refusal, written), Intents(w.journal)))
  {
    hide Intents, Starts, OneIntentEach, ProcOk, Replayable, EffectOk, Apply, Record, Tidy;
    if refusal.Some? { CloseOk(w, p, cid, refusal.value, written); }
    TaskMovesOk(w, p, cid, None);
    TaskMovesOk(w, p, cid, Some(Deciding));
  }

  lemma WriteStartOk(w: World, p: nat, cid: string, ok: bool, code: string, written: bool)
    requires p in w.procs && Tidy(w, p) && Enabled(w.procs[p], WriteStart(cid, ok, code, written))
    ensures EffectOk(w, p, Do(w.procs[p], WriteStart(cid, ok, code, written), Intents(w.journal)))
  {
    hide Intents, Starts, OneIntentEach, ProcOk, Replayable, EffectOk, Apply, CloseIfPending;
    AtSubject(w, p, cid);
    JournalGrows(w.journal, StartEvent(cid));
    if ok {
      SubjectOk(w, p, Do(w.procs[p], WriteStart(cid, ok, code, written), Intents(w.journal)), cid);
    } else {
      CloseOk(w, p, cid, code, written);
    }
  }

  lemma LearnStartOk(w: World, p: nat, cid: string)
    requires p in w.procs && Tidy(w, p) && Enabled(w.procs[p], LearnStart(cid))
    ensures EffectOk(w, p, Do(w.procs[p], LearnStart(cid), Intents(w.journal)))
  {
    hide Intents, Starts, OneIntentEach, ProcOk, Apply, Replayable, EffectOk;
    AtSubject(w, p, cid);
    NotUnsentAgain(w.procs[p].orders[cid], StartEvent(cid));
    SubjectOk(w, p, Do(w.procs[p], LearnStart(cid), Intents(w.journal)), cid);
  }

  lemma PlaceOk(w: World, p: nat, cid: string, refusal: Option<string>, written: bool)
    requires p in w.procs && Tidy(w, p) && Enabled(w.procs[p], Place(cid, refusal, written))
    ensures EffectOk(w, p, Do(w.procs[p], Place(cid, refusal, written), Intents(w.journal)))
  {
    AtSubject(w, p, cid);
    hide Intents, Starts, OneIntentEach, ProcOk, Apply, Replayable, EffectOk, Record;
    if refusal.Some? {
      CloseOk(w, p, cid, refusal.value, written);
    } else {
      SubjectOk(w, p, Do(w.procs[p], Place(cid, refusal, written), Intents(w.journal)), cid);
    }
  }

  /** Closing an order as never sent, from either list, or cancelling one that no task is sending. */
  lemma ClosingOk(w: World, p: nat, toClose: set<string>, listed: set<string>, e: Event, written: bool)
    requires p in w.procs && Tidy(w, p) && e.cid in w.procs[p].orders && e.RejectReport?
    requires toClose <= w.procs[p].toClose <= toClose + {e.cid} && listed <= w.procs[p].listed
    ensures EffectOk(w, p, Record(w.procs[p].(toClose := toClose, listed := listed), e, written))
  {
    AtSubject(w, p, e.cid);
    assert Apply(w.procs[p].orders[e.cid], e).status != PendingSubmit;
    assert w.procs[p].tasks != map[] ==> w.procs[p].started;
    hide Intents, Starts, OneIntentEach, ProcOk, Apply, Replayable, EffectOk, Record, Tidy;
    RecordOk(w, p, w.procs[p].(toClose := toClose, listed := listed), e, written);
  }

  lemma ObserveOk(w: World, p: nat, e: Event, written: bool)
    requires p in w.procs && Tidy(w, p) && MayObserve(w.procs[p], e)
    ensures EffectOk(w, p, Record(w.procs[p], e, written))
  {
    assert w.procs[p].tasks != map[] ==> w.procs[p].started;
    hide Intents, Starts, OneIntentEach, ProcOk, Apply, Replayable, EffectOk, Record, Tidy;
    RecordOk(w, p, w.procs[p], e, written);
  }

  lemma FinishOk(w: World, p: nat, e: Event, written: bool)
    requires p in w.procs && Tidy(w, p) && Enabled(w.procs[p], Finish(e, written))
    ensures EffectOk(w, p, Record(Without(w.procs[p], e.cid), e, written))
  {
    assert w.procs[p].tasks != map[] ==> w.procs[p].started;
    hide Intents, Starts, OneIntentEach, ProcOk, Apply, Replayable, EffectOk, Record, Tidy;
    RecordOk(w, p, Without(w.procs[p], e.cid), e, written);
  }

  lemma WriteLateOk(w: World, p: nat)
    requires p in w.procs && Tidy(w, p) && w.procs[p].waiting != []
    ensures EffectOk(w, p, Do(w.procs[p], WriteLate, Intents(w.journal)))
  {
    var P, e := w.procs[p], w.procs[p].waiting[0];
    var P' := P.(waiting := P.waiting[1..]);
    assert WaitingOk(e, w.owner);
    JournalGrows(w.journal, e);
    hide Intents, Starts, OneIntentEach, Replayable;
    SameProcOk(p, P, P', Starts(w.journal), w.calls, w.owner);
    hide ProcOk;
  }

  /** Memory that only changes what is open, listed or waiting. */
  lemma SameProcOk(p: nat, P: Proc, P': Proc, starts: set<string>, calls: seq<string>, owner: map<string, nat>)
    requires ProcOk(p, P, starts, calls, owner)
    requires P'.orders == P.orders && P'.tasks == P.tasks && P'.toClose == P.toClose
    requires P'.started == P.started || (P'.started && P.toClose == {})
    requires P'.listed == P.listed || (P.started && P'.listed == Pending(P.orders))
    requires forall i :: 0 <= i < |P'.waiting| ==> P'.waiting[i] in P.waiting
    ensures ProcOk(p, P', starts, calls, owner)
  {
    forall cid | cid in P'.tasks ensures TaskOk(p, P', cid, starts, calls, owner) {
      assert TaskOk(p, P, cid, starts, calls, owner);
    }
    forall cid | cid in P'.orders ensures OrderOk(p, P', cid, calls, owner) {
      assert OrderOk(p, P, cid, calls, owner);
    }
    forall cid | cid in P'.listed ensures ListedOk(p, P', cid, owner) {
      if P'.listed == P.listed { assert ListedOk(p, P, cid, owner); } else { assert OrderOk(p, P, cid, calls, owner); }
    }
  }

  lemma FlagsOk(w: World, p: nat, P': Proc)
    requires p in w.procs && Tidy(w, p)
    requires || (P' == w.procs[p].(started := true) && w.procs[p].toClose == {})
             || (P' == w.procs[p].(listed := Pending(w.procs[p].orders)) && w.procs[p].started)
    ensures EffectOk(w, p, Effect(P', None, None))
  {
    hide Intents, Starts, OneIntentEach, Replayable;
    SameProcOk(p, w.procs[p], P', Starts(w.journal), w.calls, w.owner);
    hide ProcOk;
  }

  /** The steps of the send path. */
  predicate IsSending(a: Action) {
    || a.Begin? || a.WriteIntent? || a.LearnIntent? || a.Stop? || a.Decide? || a.WriteStart? || a.LearnStart?
    || a.Abandon? || a.Place? || a.Finish?
  }

  lemma SendingOk(w: World, p: nat, a: Action)
    requires WorldOk(w) && p in w.procs && Enabled(w.procs[p], a) && IsSending(a)
    ensures EffectOk(w, p, Do(w.procs[p], a, Intents(w.journal)))
  {
    assert Tidy(w, p);
    hide WorldOk, EffectOk, Intents, Apply, Tidy, Record, CloseIfPending;
    match a
    case Begin(request) => BeginOk(w, p, request);
    case WriteIntent(cid, ok) => WriteIntentOk(w, p, cid, ok);
    case LearnIntent(cid) => LearnIntentOk(w, p, cid);
    case Stop(cid, code, written) => CloseOk(w, p, cid, code, written);
    case Decide(cid, refusal, written) => DecideOk(w, p, cid, refusal, written);
    case WriteStart(cid, ok, code, written) => WriteStartOk(w, p, cid, ok, code, written);
    case LearnStart(cid) => LearnStartOk(w, p, cid);
    case Abandon(cid) => TaskMovesOk(w, p, cid, None);
    case Place(cid, refusal, written) => PlaceOk(w, p, cid, refusal, written);
    case Finish(e, written) => FinishOk(w, p, e, written);
  }

  lemma ActionOk(w: World, p: nat, a: Action)
    requires WorldOk(w) && p in w.procs && Enabled(w.procs[p], a)
    ensures EffectOk(w, p, Do(w.procs[p], a, Intents(w.journal)))
  {
    var P := w.procs[p];
    assert Tidy(w, p);
    hide WorldOk, EffectOk, Intents, Apply, Tidy, Record, CloseIfPending;
    match a
    case Observe(e, written) => ObserveOk(w, p, e, written);
    case CancelUnsent(cid, written) =>
      ClosingOk(w, p, P.toClose, P.listed, Refusal(cid, "CANCELED_BEFORE_SEND"), written);
    case CloseUnsent(cid, written) => ClosingOk(w, p, P.toClose - {cid}, P.listed, NeverSent(cid), written);
    case CloseListed(cid, written) => ClosingOk(w, p, P.toClose, P.listed - {cid}, NeverSent(cid), written);
    case WriteLate => WriteLateOk(w, p);
    case Open => FlagsOk(w, p, P.(started := true));
    case ListPending => FlagsOk(w, p, P.(listed := Pending(P.orders)));
    case _ => SendingOk(w, p, a);
  }

  lemma RecoveredOk(w: World, p: nat)
    requires JournalOk(w)
    ensures ProcOk(p, Recovered(Replayed(w.journal).value), Starts(w.journal), w.calls, w.owner)
  {
    hide Replayed, Intents, Starts, OneIntentEach;
    assert forall cid :: cid in Replayed(w.journal).value ==> cid in w.owner.Keys;
  }

  lemma StepKeeps(w: World, step: Step)
    requires WorldOk(w) && Possible(w, step)
    ensures WorldOk(Next(w, step))
  {
    match step
    case Act(p, a) =>
      hide WorldOk, EffectOk, Do, Enabled;
      ActionOk(w, p, a);
      LandedKeeps(w, p, Do(w.procs[p], a, Intents(w.journal)));
    case StartUp(p) =>
      RecoveredOk(w, p);
      hide ProcOk, Replayed, Intents, Starts, OneIntentEach, Replayable;
    case Crash(p) =>
      hide ProcOk, Intents, Starts, OneIntentEach, Replayable;
  }

  /** A run; a step that is not possible where it comes is skipped. */
  function Run(w: World, steps: seq<Step>): World {
    if steps == [] then w else
    var before := Run(w, steps[..|steps| - 1]);
    if Possible(before, steps[|steps| - 1]) then Next(before, steps[|steps| - 1]) else before
  }

  lemma {:induction false} RunKeeps(w: World, steps: seq<Step>)
    requires WorldOk(w)
    ensures WorldOk(Run(w, steps))
  {
    if steps != [] {
      RunKeeps(w, steps[..|steps| - 1]);
      hide WorldOk, Next, Possible;
      var before := Run(w, steps[..|steps| - 1]);
      if Possible(before, steps[|steps| - 1]) { StepKeeps(before, steps[|steps| - 1]); }
    }
  }

  const NOTHING := World([], map[], map[], [])

  lemma NothingIsOk()
    ensures WorldOk(NOTHING)
  {
    assert Replayed([]) == Ok(map[]);
    assert forall p :: p !in NOTHING.procs;
  }

  /** Send at most once: over every run of submits, cancels, restarts and crashes, by any number of
      processes, the venue is called at most once for an order id, and only with that id's intent and
      start of sending on the journal, where no id has two intents. */
  lemma SentAtMostOnce(steps: seq<Step>)
    ensures var w := Run(NOTHING, steps);
            && (forall i, j :: 0 <= i < j < |w.calls| ==> w.calls[i] != w.calls[j])
            && (forall cid :: cid in w.calls ==> cid in Intents(w.journal) && cid in Starts(w.journal))
            && OneIntentEach(w.journal)
  {
    NothingIsOk();
    RunKeeps(NOTHING, steps);
    var w := Run(NOTHING, steps);
    hide Run, Intents, Starts, OneIntentEach, ProcOk, Replayable;
  }

  // ----- Recovery's verdict -----

  /** Whether a process may still call the venue for an order: a submit of its own past the intent, with
      nothing on the order that will make it give up. */
  predicate CanSend(P: Proc, cid: string) {
    cid in P.tasks &&
    match P.tasks[cid]
    case Checked(_) => false
    case IntentWritten(_) => true
    case Ready => cid in P.orders && P.orders[cid].status == PendingSubmit
    case Deciding => cid in P.orders && P.orders[cid].status in {PendingSubmit, Submitting}
    case StartWritten => cid in P.orders && P.orders[cid].status in {PendingSubmit, Submitting}
    case Started => true
    case Called => false
  }

  predicate Sendable(w: World, cid: string) { exists p :: p in w.procs && CanSend(w.procs[p], cid) }

  /** No event makes an order `SUBMITTING` that was not pending or submitting before, a venue
      restatement aside. */
  lemma OnlyStartsSubmit(s: OrderState, e: Event)
    requires !e.Restated? && Apply(s, e).status == Submitting
    ensures s.status in {PendingSubmit, Submitting}
  {
    hide Times, FindFill, MergedFill, FeesDiffer, Without;
    if e.FillReport? {
      assert ApplyFill(s, e.fill).status in {s.status, Filled, PartiallyFilled};
    } else if !e.FillBusted? && !e.SubmitIntent? {
      assert ApplyTransition(s, e).status == Submitting ==> s.status in {PendingSubmit, Submitting};
      hide Transition, ApplyTransition, FirstQuantity, OrElse;
    }
  }

  /** A step that records no report moves only its own order's phase, and never from unable to send to
      able. */
  lemma TaskStepCannotSend(P: Proc, a: Action, intents: set<string>, cid: string)
    requires Enabled(P, a) && cid in intents && !CanSend(P, cid)
    requires a.Begin? || a.WriteIntent? || a.LearnIntent? || a.LearnStart? || a.Abandon? || a.WriteLate? || a.Open?
          || a.ListPending?
    ensures !CanSend(Do(P, a, intents).proc, cid) && Do(P, a, intents).call != Some(cid)
  {
    hide Apply;
    if a.LearnStart? && a.cid == cid { OnlyStartsSubmitHere(P.orders[cid]); }
  }

  lemma RecordingCannotSend(P: Proc, P': Proc, e: Event, written: bool, cid: string)
    requires !CanSend(P, cid) && !e.SubmitIntent? && !e.SendStarted?
    requires e.Restated? ==> !BeforeCall(P', e.cid) && e.status != PendingSubmit
    requires P'.orders == P.orders && P'.tasks.Keys <= P.tasks.Keys
    requires cid in P'.tasks ==> P'.tasks[cid] == P.tasks[cid]
    requires cid in P.tasks && !P.tasks[cid].Checked? && !P.tasks[cid].IntentWritten? ==> cid in P.orders
    ensures !CanSend(Record(P', e, written).proc, cid) && Record(P', e, written).call.None?
  {
    hide Apply, CanSend;
    ObservedCannotSend(P, Record(P', e, written).proc, e, cid);
  }

  /** The same where a send is stopped before its start is on record. */
  lemma StopCannotSend(P: Proc, c: string, code: string, written: bool, cid: string)
    requires c in P.orders && !CanSend(P, cid)
    requires cid in P.tasks && !P.tasks[cid].Checked? && !P.tasks[cid].IntentWritten? ==> cid in P.orders
    ensures var effect := CloseIfPending(P, c, code, written); !CanSend(effect.proc, cid) && effect.call.None?
    ensures var effect := Record(Without(P, c), Refusal(c, code), written);
            !CanSend(effect.proc, cid) && effect.call.None?
    ensures !CanSend(Without(P, c), cid)
  {
    hide Apply, Record;
    RecordingCannotSend(P, Without(P, c), Refusal(c, code), written, cid);
  }

  predicate StaysUnable(P: Proc, effect: Effect, cid: string) {
    !CanSend(P, cid) ==> !CanSend(effect.proc, cid) && effect.call != Some(cid)
  }

  lemma DecideCannotSend(P: Proc, a: Action, intents: set<string>, cid: string)
    requires a.Decide? && Enabled(P, a) && !CanSend(P, cid)
    requires cid in P.tasks && !P.tasks[cid].Checked? && !P.tasks[cid].IntentWritten? ==> cid in P.orders
    ensures StaysUnable(P, Do(P, a, intents), cid)
  {
    StopCannotSend(P, a.cid, if a.refusal.Some? then a.refusal.value else "", a.written, cid);
    hide Apply, Record;
  }

  lemma WriteStartCannotSend(P: Proc, a: Action, intents: set<string>, cid: string)
    requires a.WriteStart? && Enabled(P, a) && !CanSend(P, cid)
    requires cid in P.tasks && !P.tasks[cid].Checked? && !P.tasks[cid].IntentWritten? ==> cid in P.orders
    ensures StaysUnable(P, Do(P, a, intents), cid)
  {
    StopCannotSend(P, a.cid, a.code, a.written, cid);
    hide Apply, Record, CloseIfPending;
  }

  lemma PlaceCannotSend(P: Proc, a: Action, intents: set<string>, cid: string)
    requires a.Place? && Enabled(P, a) && !CanSend(P, cid)
    requires cid in P.tasks && !P.tasks[cid].Checked? && !P.tasks[cid].IntentWritten? ==> cid in P.orders
    ensures StaysUnable(P, Do(P, a, intents), cid)
  {
    StopCannotSend(P, a.cid, if a.refusal.Some? then a.refusal.value else "", a.written, cid);
    hide Apply, Record;
  }

  lemma RefusableStepCannotSend(P: Proc, a: Action, intents: set<string>, cid: string)
    requires Enabled(P, a) && !CanSend(P, cid) && (a.Stop? || a.Decide? || a.WriteStart? || a.Place?)
    requires cid in P.tasks && !P.tasks[cid].Checked? && !P.tasks[cid].IntentWritten? ==> cid in P.orders
    ensures !CanSend(Do(P, a, intents).proc, cid) && Do(P, a, intents).call != Some(cid)
  {
    hide Apply, Record, CloseIfPending, CanSend;
    match a
    case Stop(c, code, written) => StopCannotSend(P, c, code, written, cid);
    case Decide(_, _, _) => DecideCannotSend(P, a, intents, cid); hide Do;
    case WriteStart(_, _, _, _) => WriteStartCannotSend(P, a, intents, cid); hide Do;
    case Place(_, _, _) => PlaceCannotSend(P, a, intents, cid); hide Do;
  }

  /** The same where a report is recorded. */
  lemma ReportCannotSend(P: Proc, a: Action, intents: set<string>, cid: string)
    requires Enabled(P, a) && !CanSend(P, cid)
    requires a.Finish? || a.Observe? || a.CancelUnsent? || a.CloseUnsent? || a.CloseListed?
    requires cid in P.tasks && !P.tasks[cid].Checked? && !P.tasks[cid].IntentWritten? ==> cid in P.orders
    ensures !CanSend(Do(P, a, intents).proc, cid) && Do(P, a, intents).call != Some(cid)
  {
    hide Apply, Record, CanSend;
    match a
    case Finish(e, written) => RecordingCannotSend(P, Without(P, e.cid), e, written, cid);
    case Observe(e, written) => RecordingCannotSend(P, P, e, written, cid);
    case CancelUnsent(c, written) => RecordingCannotSend(P, P, Refusal(c, "CANCELED_BEFORE_SEND"), written, cid);
    case CloseUnsent(c, written) =>
      RecordingCannotSend(P, P.(toClose := P.toClose - {c}), NeverSent(c), written, cid);
    case CloseListed(c, written) =>
      RecordingCannotSend(P, P.(listed := P.listed - {c}), NeverSent(c), written, cid);
  }

  /** Once a process cannot send an order whose intent is on record, nothing it does changes that, and it
      does not call the venue for it. */
  lemma CannotSendStays(w: World, p: nat, a: Action, cid: string)
    requires WorldOk(w) && p in w.procs && Enabled(w.procs[p], a)
    requires cid in Intents(w.journal) && !CanSend(w.procs[p], cid)
    ensures var effect := Do(w.procs[p], a, Intents(w.journal));
            !CanSend(effect.proc, cid) && effect.call != Some(cid)
  {
    hide Apply, Intents, Starts, OneIntentEach, Replayable, JournalOk, CallsOk, Do, Enabled, CanSend;
    var P, intents := w.procs[p], Intents(w.journal);
    if cid in P.tasks { assert TaskOk(p, P, cid, Starts(w.journal), w.calls, w.owner); }
    hide ProcOk, WorldOk, ProcsOk;
    if a.Stop? || a.Decide? || a.WriteStart? || a.Place? {
      RefusableStepCannotSend(P, a, intents, cid);
    } else if a.Finish? || a.Observe? || a.CancelUnsent? || a.CloseUnsent? || a.CloseListed? {
      ReportCannotSend(P, a, intents, cid);
    } else {
      TaskStepCannotSend(P, a, intents, cid);
    }
  }

  lemma OnlyStartsSubmitHere(s: OrderState)
    requires s.status !in {PendingSubmit, Submitting}
    ensures forall cid :: Apply(s, StartEvent(cid)).status != Submitting
  {
    forall cid ensures Apply(s, StartEvent(cid)).status != Submitting {
      hide Apply;
      if Apply(s, StartEvent(cid)).status == Submitting { OnlyStartsSubmit(s, StartEvent(cid)); }
    }
  }

  lemma ObservedCannotSend(P: Proc, P': Proc, e: Event, cid: string)
    requires !CanSend(P, cid) && !e.SubmitIntent? && !e.SendStarted?
    requires e.Restated? ==> !BeforeCall(P', e.cid) && e.status != PendingSubmit
    requires P'.orders == Learned(P, e).orders && P'.tasks.Keys <= P.tasks.Keys
    requires cid in P'.tasks ==> P'.tasks[cid] == P.tasks[cid]
    requires cid in P.tasks && !P.tasks[cid].Checked? && !P.tasks[cid].IntentWritten? ==> cid in P.orders
    ensures !CanSend(P', cid)
  {
    hide Apply;
    if cid == e.cid && cid in P.orders && !e.Restated? {
      NotUnsentAgain(P.orders[cid], e);
      if Apply(P.orders[cid], e).status == Submitting { OnlyStartsSubmit(P.orders[cid], e); }
    }
  }

  lemma UnsendableStays(w: World, step: Step, cid: string)
    requires WorldOk(w) && Possible(w, step) && cid in Intents(w.journal) && !Sendable(w, cid)
    ensures cid in Intents(Next(w, step).journal) && !Sendable(Next(w, step), cid)
    ensures cid in Next(w, step).calls <==> cid in w.calls
  {
    match step
    case Act(p, a) =>
      CannotSendStays(w, p, a, cid);
      var effect := Do(w.procs[p], a, Intents(w.journal));
      if effect.wrote.Some? { JournalGrows(w.journal, effect.wrote.value); }
      hide WorldOk, CanSend, Do, Enabled, Intents;
    case StartUp(p) => hide WorldOk, Replayed, Intents;
    case Crash(p) => hide WorldOk, CanSend, Intents;
  }

  lemma {:induction false} UnsendableForever(w: World, steps: seq<Step>, cid: string)
    requires WorldOk(w) && cid in Intents(w.journal) && !Sendable(w, cid)
    ensures cid in Intents(Run(w, steps).journal) && !Sendable(Run(w, steps), cid)
    ensures cid in Run(w, steps).calls <==> cid in w.calls
  {
    if steps != [] {
      var before, last := Run(w, steps[..|steps| - 1]), steps[|steps| - 1];
      UnsendableForever(w, steps[..|steps| - 1], cid);
      RunKeeps(w, steps[..|steps| - 1]);
      hide WorldOk, Sendable, Intents, Next, Possible;
      if Possible(before, last) { UnsendableStays(before, last, cid); }
    }
  }

  /** An order is unsent by the record exactly when no start of sending is on it. */
  lemma {:induction false} PendingMeansNoStart(events: seq<Event>, cid: string)
    requires Replayed(events).Ok? && cid in Replayed(events).value
    requires Replayed(events).value[cid].status == PendingSubmit
    requires forall i :: 0 <= i < |events| && events[i].Restated? ==> events[i].status != PendingSubmit
    ensures cid !in Starts(events) && cid in Intents(events)
  {
    var init, e := events[..|events| - 1], events[|events| - 1];
    var before := Replayed(init).value;
    hide Apply;
    if e.cid == cid && cid in before { NotUnsentAgain(before[cid], e); }
    if cid in before && before[cid].status == PendingSubmit { PendingMeansNoStart(init, cid); } else {
      NoStartBeforeIntent(init, cid);
    }
  }

  /** Replay refuses an event before its intent, so an order it does not know has no start on record. */
  lemma {:induction false} NoStartBeforeIntent(events: seq<Event>, cid: string)
    requires Replayed(events).Ok? && cid !in Replayed(events).value
    ensures cid !in Starts(events)
  {
    if events != [] { NoStartBeforeIntent(events[..|events| - 1], cid); }
  }

  /** Whatever happened, a restart can replay the journal: no event is on record before its intent. */
  lemma RecoveryCanReplay(steps: seq<Step>)
    ensures Replayed(Run(NOTHING, steps).journal).Ok?
  {
    NothingIsOk();
    RunKeeps(NOTHING, steps);
    hide Run, Replayed;
  }

  lemma {:induction false} RunConcat(w: World, a: seq<Step>, b: seq<Step>)
    ensures Run(w, a + b) == Run(Run(w, a), b)
  {
    hide Next, Possible;
    if b == [] {
      assert a + b == a;
    } else {
      var init, last := b[..|b| - 1], b[|b| - 1];
      RunConcat(w, a, init);
      assert (a + b)[..|a + b| - 1] == a + init && (a + b)[|a + b| - 1] == last;
    }
  }

  lemma RunFirst(w: World, step: Step, rest: seq<Step>)
    requires Possible(w, step)
    ensures Run(w, [step] + rest) == Run(Next(w, step), rest)
  {
    assert [step][..0] == [];
    hide Next, Possible;
    RunConcat(w, [step], rest);
  }

  /** One order's submit on one process: its phase, and its status in that process's memory. */
  predicate At(w: World, q: nat, cid: string, phase: Phase, status: Status) {
    && q in w.procs && cid in w.procs[q].tasks && w.procs[q].tasks[cid] == phase
    && cid in w.procs[q].orders && w.procs[q].orders[cid].status == status
  }

  /** What a submit going its way on process `q` leaves alone. */
  predicate OthersSame(w: World, w': World, q: nat) {
    && (forall p :: p in w.procs && p != q ==> p in w'.procs && w'.procs[p] == w.procs[p])
    && q in w.procs && q in w'.procs
    && w'.procs[q].listed == w.procs[q].listed && w'.procs[q].started == w.procs[q].started
  }

  /** Steps of the send path and of writing late: nothing is heard from the venue. */
  predicate OwnSteps(steps: seq<Step>) {
    forall i :: 0 <= i < |steps| && steps[i].Act? ==> !steps[i].action.Observe? && !steps[i].action.Finish?
  }

  lemma StepToReady(w: World, q: nat, cid: string)
    requires q in w.procs && cid in w.procs[q].tasks && w.procs[q].tasks[cid].IntentWritten?
    ensures Possible(w, Act(q, LearnIntent(cid)))
    ensures var w' := Next(w, Act(q, LearnIntent(cid)));
            At(w', q, cid, Ready, PendingSubmit) && OthersSame(w, w', q) && w'.calls == w.calls
  {
    hide Intents;
  }

  lemma StepToDeciding(w: World, q: nat, cid: string)
    requires At(w, q, cid, Ready, PendingSubmit)
    ensures Possible(w, Act(q, Decide(cid, None, false)))
    ensures var w' := Next(w, Act(q, Decide(cid, None, false)));
            At(w', q, cid, Deciding, PendingSubmit) && OthersSame(w, w', q) && w'.calls == w.calls
  {
    hide Intents, Apply;
  }

  function WriteStartStep(q: nat, cid: string): Step { Act(q, WriteStart(cid, true, "NEVER_SENT", false)) }

  lemma StepToStartWritten(w: World, q: nat, cid: string, status: Status)
    requires At(w, q, cid, Deciding, status) && w.procs[q].waiting == []
    ensures Possible(w, WriteStartStep(q, cid))
    ensures var w' := Next(w, WriteStartStep(q, cid));
            At(w', q, cid, StartWritten, status) && OthersSame(w, w', q) && w'.calls == w.calls
            && w'.procs[q].waiting == w.procs[q].waiting
  {
    hide Intents, Apply;
  }

  /** At the point of the call, with nothing waiting for the journal. */
  predicate Poised(w: World, q: nat, cid: string) {
    && At(w, q, cid, Started, Submitting) && w.procs[q].waiting == [] && !w.procs[q].orders[cid].HasPendingTerms()
  }

  lemma StepToStarted(w: World, q: nat, cid: string, status: Status)
    requires At(w, q, cid, StartWritten, status) && status in {PendingSubmit, Submitting} && w.procs[q].waiting == []
    ensures Possible(w, Act(q, LearnStart(cid)))
    ensures var w' := Next(w, Act(q, LearnStart(cid)));
            Poised(w', q, cid) && OthersSame(w, w', q) && w'.calls == w.calls
  {
    var s := Apply(w.procs[q].orders[cid], StartEvent(cid));
    assert s.status == Submitting && !s.HasPendingTerms();
    hide Intents, Apply;
  }

  lemma StepToCalled(w: World, q: nat, cid: string)
    requires At(w, q, cid, Started, Submitting)
    ensures Possible(w, Act(q, Place(cid, None, false)))
    ensures var w' := Next(w, Act(q, Place(cid, None, false)));
            At(w', q, cid, Called, Submitting) && OthersSame(w, w', q) && w'.calls == w.calls + [cid]
            && w'.procs[q] == w.procs[q].(tasks := w.procs[q].tasks[cid := Called])
  {
    hide Intents, Apply;
  }

  lemma StepToLessWaiting(w: World, q: nat)
    requires q in w.procs && w.procs[q].waiting != []
    ensures Possible(w, Act(q, WriteLate))
    ensures var w', P := Next(w, Act(q, WriteLate)), w.procs[q];
            w'.procs == w.procs[q := P.(waiting := P.waiting[1..])] && w'.calls == w.calls
  {
    hide Intents, Apply;
  }

  /** What waits for the journal is written, and nothing else changes. */
  lemma Flush(w: World, q: nat) returns (steps: seq<Step>)
    requires WorldOk(w) && q in w.procs
    ensures OwnSteps(steps)
    ensures var w' := Run(w, steps);
            WorldOk(w') && w'.procs == w.procs[q := w.procs[q].(waiting := [])] && w'.calls == w.calls
    decreases |w.procs[q].waiting|
  {
    hide WorldOk, Run, Next, Possible;
    var P := w.procs[q];
    if P.waiting == [] {
      steps := [];
      RunOfNothing(w);
      assert P == P.(waiting := []);
    } else {
      var late := Act(q, WriteLate);
      StepToLessWaiting(w, q);
      StepKeeps(w, late);
      var rest := Flush(Next(w, late), q);
      steps := [late] + rest;
      RunFirst(w, late, rest);
    }
  }

  /** A submit that has decided to send gets to the point of the call if nothing stops it. */
  lemma DecidedGetsStarted(w: World, q: nat, cid: string, status: Status) returns (steps: seq<Step>)
    requires WorldOk(w) && At(w, q, cid, Deciding, status) && status in {PendingSubmit, Submitting}
    ensures var w' := Run(w, steps);
            Poised(w', q, cid) && OthersSame(w, w', q) && w'.calls == w.calls
    ensures OwnSteps(steps)
  {
    hide WorldOk, Run, Next, Possible;
    var flushing := Flush(w, q);
    var w1 := Run(w, flushing);
    assert At(w1, q, cid, Deciding, status) && w1.procs[q].waiting == [] && OthersSame(w, w1, q);
    StepToStartWritten(w1, q, cid, status);
    hide At, Poised;
    var w2 := Next(w1, WriteStartStep(q, cid));
    StepToStarted(w2, q, cid, status);
    var w3 := Next(w2, Act(q, LearnStart(cid)));
    RunOfNothing(w3);
    RunFirst(w2, Act(q, LearnStart(cid)), []);
    RunFirst(w1, WriteStartStep(q, cid), [Act(q, LearnStart(cid))] + []);
    var starting := [WriteStartStep(q, cid)] + ([Act(q, LearnStart(cid))] + []);
    RunConcat(w, flushing, starting);
    steps := flushing + starting;
  }

  lemma ReadyGetsStarted(w: World, q: nat, cid: string) returns (steps: seq<Step>)
    requires WorldOk(w) && At(w, q, cid, Ready, PendingSubmit)
    ensures var w' := Run(w, steps);
            Poised(w', q, cid) && OthersSame(w, w', q) && w'.calls == w.calls
    ensures OwnSteps(steps)
  {
    hide Next, Possible, At, WorldOk, Run, Poised;
    var decide := Act(q, Decide(cid, None, false));
    StepToDeciding(w, q, cid);
    StepKeeps(w, decide);
    var rest := DecidedGetsStarted(Next(w, decide), q, cid, PendingSubmit);
    RunFirst(w, decide, rest);
    steps := [decide] + rest;
  }

  /** Where a submit can be that may still send a pending order. */
  lemma WhereSendable(w: World, q: nat, cid: string)
    requires WorldOk(w) && q in w.procs && CanSend(w.procs[q], cid) && cid !in Starts(w.journal)
    ensures cid in w.procs[q].tasks
    ensures || w.procs[q].tasks[cid].IntentWritten?
            || At(w, q, cid, Ready, PendingSubmit)
            || At(w, q, cid, Deciding, PendingSubmit) || At(w, q, cid, Deciding, Submitting)
  {
    hide Starts, Intents, JournalOk, CallsOk;
    assert TaskOk(q, w.procs[q], cid, Starts(w.journal), w.calls, w.owner);
    hide ProcOk;
  }

  /** While some process can still send a pending order, there is a way to the point of the call. */
  lemma SendableGetsStarted(w: World, q: nat, cid: string) returns (steps: seq<Step>)
    requires WorldOk(w) && q in w.procs && CanSend(w.procs[q], cid) && cid !in Starts(w.journal)
    ensures var w' := Run(w, steps);
            Poised(w', q, cid) && OthersSame(w, w', q) && w'.calls == w.calls
    ensures OwnSteps(steps)
  {
    hide WorldOk, Run, Next, Possible, Starts, At, CanSend, Poised;
    WhereSendable(w, q, cid);
    if w.procs[q].tasks[cid].IntentWritten? {
      var learn := Act(q, LearnIntent(cid));
      StepToReady(w, q, cid);
      StepKeeps(w, learn);
      var rest := ReadyGetsStarted(Next(w, learn), q, cid);
      RunFirst(w, learn, rest);
      steps := [learn] + rest;
    } else if At(w, q, cid, Ready, PendingSubmit) {
      steps := ReadyGetsStarted(w, q, cid);
    } else if At(w, q, cid, Deciding, PendingSubmit) {
      steps := DecidedGetsStarted(w, q, cid, PendingSubmit);
    } else {
      steps := DecidedGetsStarted(w, q, cid, Submitting);
    }
  }

  /** From there the call is one step away. */
  lemma StartedIsCalled(w: World, before: seq<Step>, q: nat, cid: string) returns (steps: seq<Step>)
    requires OwnSteps(before) && At(Run(w, before), q, cid, Started, Submitting) && OthersSame(w, Run(w, before), q)
    ensures var w' := Run(w, steps);
            At(w', q, cid, Called, Submitting) && OthersSame(w, w', q) && cid in w'.calls
    ensures OwnSteps(steps)
  {
    var place := Act(q, Place(cid, None, false));
    StepToCalled(Run(w, before), q, cid);
    hide Next, Possible, Run;
    RunFirst(Run(w, before), place, []);
    RunOfNothing(Next(Run(w, before), place));
    RunConcat(w, before, [place] + []);
    steps := before + ([place] + []);
  }

  /** What recovery will close as never sent, were it to read the journal now. */
  predicate FoundUnsent(w: World, cid: string) {
    Replayed(w.journal).Ok? && cid in Pending(Replayed(w.journal).value)
  }

  /** Recovery is right exactly when no live process can still send the order. An order it finds unsent
      was never called for, and it stays that way in every continuation if and only if no process on
      the journal has its submit still under way. An order whose start is on record is never found. */
  lemma NeverSentIsFinalIffUnsendable(before: seq<Step>, cid: string)
    requires FoundUnsent(Run(NOTHING, before), cid)
    ensures var w := Run(NOTHING, before);
            && cid !in Starts(w.journal) && cid !in w.calls
            && ((forall steps :: cid !in Run(w, steps).calls) <==> !Sendable(w, cid))
  {
    var w := Run(NOTHING, before);
    NothingIsOk();
    RunKeeps(NOTHING, before);
    hide Run;
    PendingMeansNoStart(w.journal, cid);
    hide Starts, Intents, Replayed, OneIntentEach, ProcOk;
    if Sendable(w, cid) {
      var q :| q in w.procs && CanSend(w.procs[q], cid);
      hide WorldOk, CanSend;
      var before' := SendableGetsStarted(w, q, cid);
      var steps := StartedIsCalled(w, before', q, cid);
      assert cid in Run(w, steps).calls;
    } else {
      forall steps ensures cid !in Run(w, steps).calls {
        hide WorldOk, Sendable;
        UnsendableForever(w, steps, cid);
      }
    }
  }

  // ----- Where the verdict is wrong -----

  function FirstOrder(request: Request): seq<Step> {
    var write := Act(0, WriteIntent(request.clientOrderId, true));
    [StartUp(0)] + ([Act(0, Open)] + ([Act(0, Begin(request))] + ([write] + [])))
  }

  /** One process starts on an empty journal and writes its first intent. */
  lemma FirstIntent(request: Request)
    ensures var w, cid := Run(NOTHING, FirstOrder(request)), request.clientOrderId;
            && w.journal == [SubmitIntent(cid, request)]
            && 0 in w.procs && cid in w.procs[0].tasks && w.procs[0].tasks[cid] == IntentWritten(request)
            && w.procs[0].started
  {
    var cid := request.clientOrderId;
    var w1 := Next(NOTHING, StartUp(0));
    assert Pending(map[]) == {};
    assert Possible(w1, Act(0, Open));
    var w2 := Next(w1, Act(0, Open));
    assert Possible(w2, Act(0, Begin(request)));
    var w3 := Next(w2, Act(0, Begin(request)));
    assert Possible(w3, Act(0, WriteIntent(cid, true)));
    var w4 := Next(w3, Act(0, WriteIntent(cid, true)));
    assert w4.journal == [SubmitIntent(cid, request)];
    assert w4.procs[0].started && w4.procs[0].tasks[cid] == IntentWritten(request);
    hide Next, Possible;
    RunFirst(w3, Act(0, WriteIntent(cid, true)), []);
    RunFirst(w2, Act(0, Begin(request)), [Act(0, WriteIntent(cid, true))] + []);
    RunFirst(w1, Act(0, Open), [Act(0, Begin(request))] + ([Act(0, WriteIntent(cid, true))] + []));
    RunFirst(NOTHING, StartUp(0),
             [Act(0, Open)] + ([Act(0, Begin(request))] + ([Act(0, WriteIntent(cid, true))] + [])));
  }

  /** Two processes on one journal: the second starts while the first is between its intent and its
      start, so recovery finds the order unsent, and the order can still be sent. */
  lemma RecoveryCanRaceASender(request: Request)
    ensures var w := Run(NOTHING, FirstOrder(request));
            && FoundUnsent(w, request.clientOrderId) && Sendable(w, request.clientOrderId)
            && exists steps :: request.clientOrderId in Run(w, steps).calls
  {
    var w, cid := Run(NOTHING, FirstOrder(request)), request.clientOrderId;
    FirstIntent(request);
    hide Run, FirstOrder;
    assert w.journal[..0] == [];
    assert Replayed(w.journal) == Ok(map[cid := NewOrder(request)]);
    assert CanSend(w.procs[0], cid);
    hide CanSend;
    NeverSentIsFinalIffUnsendable(FirstOrder(request), cid);
  }

  // ----- What reconciliation concludes -----

  /** A pending order of a process that has started, with no submit of it under way, was never called for
      and never will be: so much a process can tell from its own memory. */
  lemma ClosingAPendingOrderIsRight(before: seq<Step>, p: nat, cid: string, after: seq<Step>)
    requires p in Run(NOTHING, before).procs
    requires var P := Run(NOTHING, before).procs[p]; P.started && cid in Pending(P.orders) && cid !in P.tasks
    ensures cid !in Run(Run(NOTHING, before), after).calls
  {
    NothingIsOk();
    RunKeeps(NOTHING, before);
    var w := Run(NOTHING, before);
    hide Run, Starts, Replayed, OneIntentEach, Intents;
    assert OrderOk(p, w.procs[p], cid, w.calls, w.owner);
    NobodyElseSends(w, p, cid);
    hide ProcOk, WorldOk;
    UnsendableForever(w, after, cid);
  }

  /** Only the process that journalled an order's intent can send it. */
  lemma NobodyElseSends(w: World, p: nat, cid: string)
    requires WorldOk(w) && p in w.procs && cid !in w.procs[p].tasks && cid in w.owner && w.owner[cid] == p
    ensures cid in Intents(w.journal) && !Sendable(w, cid)
  {
    hide Starts, Intents, Replayable, OneIntentEach;
    assert cid in w.owner.Keys;
    forall q | q in w.procs ensures !CanSend(w.procs[q], cid) {
      if cid in w.procs[q].tasks {
        assert TaskOk(q, w.procs[q], cid, Starts(w.journal), w.calls, w.owner);
      }
    }
    hide CanSend, ProcOk;
  }

  predicate HasOwnCode(s: OrderState) { s.rejectCode.Some? && s.rejectCode.value in OWN_CODES }

  /** Refused by the process itself, before it was sent. */
  predicate Refused(s: OrderState) { s.status == Rejected && HasOwnCode(s) }

  predicate NamesOwnCode(e: Event) {
    (e.RejectReport? || e.CancelRejected?) && e.code.Some? && e.code.value in OWN_CODES
  }

  /** Of this order the venue speaks only once it was called for it, and not in the process's own words. */
  predicate Honest(w: World, step: Step, id: string) {
    match step
    case Act(_, Observe(e, _)) => e.cid == id ==> id in w.calls && !NamesOwnCode(e)
    case Act(_, Finish(e, _)) => e.cid == id ==> !NamesOwnCode(e)
    case _ => true
  }

  predicate HonestRun(w: World, steps: seq<Step>, id: string) {
    steps == [] ||
    (var init, last := steps[..|steps| - 1], steps[|steps| - 1];
     HonestRun(w, init, id) && (Possible(Run(w, init), last) ==> Honest(Run(w, init), last, id)))
  }

  /** What the memory of a listed order says of its send: in its own task's hands it is as the task left
      it; with no task it is pending, started and abandoned, or refused; and only a sent order is heard of. */
  predicate SendOk(P: Proc, cid: string, calls: seq<string>) {
    cid in P.orders &&
    var s := P.orders[cid];
    if cid in calls then !HasOwnCode(s)
    else if cid in P.tasks then
      !HasOwnCode(s) && s.status == (if P.tasks[cid].Started? then Submitting else PendingSubmit)
    else s.status in {PendingSubmit, Submitting} || Refused(s)
  }

  predicate HonestProc(P: Proc, calls: seq<string>, id: string) {
    && (id in P.orders && P.started && P.orders[id].status == PendingSubmit ==> !HasOwnCode(P.orders[id]))
    && (id in P.listed ==> SendOk(P, id, calls))
  }

  lemma RestIsHonest(P: Proc, P': Proc, cid: string, calls: seq<string>, calls': seq<string>, id: string)
    requires HonestProc(P, calls, id) && Touches(P, P', cid) && forall c :: c != cid ==> (c in calls' <==> c in calls)
    requires cid == id ==>
      && (id in P'.orders && P'.started && P'.orders[id].status == PendingSubmit ==> !HasOwnCode(P'.orders[id]))
      && (id in P'.listed ==> SendOk(P', id, calls'))
    ensures HonestProc(P', calls', id)
  {
    hide HasOwnCode;
  }

  /** The process's own refusal of an order that was not sent marks it refused. */
  lemma RefusalRefuses(s: OrderState, e: Event)
    requires e.RejectReport? && NamesOwnCode(e) && s.status in {PendingSubmit, Submitting}
    ensures Refused(Apply(s, e))
  {
  }

  lemma CodeMoves(s: OrderState, e: Event)
    requires !HasOwnCode(s) && !NamesOwnCode(e)
    ensures !HasOwnCode(Apply(s, e))
  {
    hide Times, FindFill, MergedFill, FeesDiffer, FirstQuantity, OrElse, Transition;
    if e.FillReport? {
      assert ApplyFill(s, e.fill).rejectCode == s.rejectCode;
    } else if e.FillBusted? {
      assert ApplyBust(s, e.fillId).rejectCode == s.rejectCode;
    } else if !e.SubmitIntent? && !e.Restated? {
      assert ApplyTransition(s, e).rejectCode == s.rejectCode;
      hide ApplyTransition;
    }
  }

  /** Recording a report, the order's task done or not and its entry dropped or not. */
  lemma RecordHonest(P: Proc, P': Proc, e: Event, written: bool, calls: seq<string>, id: string)
    requires HonestProc(P, calls, id) && e.cid in P.orders && P'.orders == P.orders && Touches(P, P', e.cid)
    requires e.cid == id ==> Apply(P.orders[id], e).status != PendingSubmit
    requires e.cid == id && id in P'.listed ==>
      var s' := Apply(P.orders[id], e);
      if id in calls then !HasOwnCode(s') else id !in P'.tasks && Refused(s')
    ensures HonestProc(Record(P', e, written).proc, calls, id)
  {
    hide Apply, HasOwnCode;
    RestIsHonest(P, Record(P', e, written).proc, e.cid, calls, calls, id);
  }

  lemma ListedIsOk(P: Proc, calls: seq<string>, id: string)
    requires HonestProc(P, calls, id) && id in P.listed
    ensures SendOk(P, id, calls)
  {
  }

  /** A send stopped before its call: the order is refused, or its task only ends. */
  lemma StopHonest(P: Proc, cid: string, code: string, written: bool, calls: seq<string>, id: string)
    requires HonestProc(P, calls, id) && cid in P.tasks && cid in P.orders && cid !in calls
    requires P.started && code in OWN_CODES
    ensures HonestProc(CloseIfPending(P, cid, code, written).proc, calls, id)
    ensures HonestProc(Record(Without(P, cid), Refusal(cid, code), written).proc, calls, id)
    ensures HonestProc(Without(P, cid), calls, id)
  {
    var s, e := P.orders[cid], Refusal(cid, code);
    if cid == id && id in P.listed {
      ListedIsOk(P, calls, id);
      RefusalRefuses(s, e);
    }
    assert Apply(s, e).status != PendingSubmit;
    RestIsHonest(P, Without(P, cid), cid, calls, calls, id);
    hide Apply, Record, HonestProc, HasOwnCode;
    RecordHonest(P, Without(P, cid), e, written, calls, id);
  }

  lemma RefusalHonest(w: World, p: nat, a: Action, id: string)
    requires WorldOk(w) && p in w.procs && Enabled(w.procs[p], a) && HonestProc(w.procs[p], w.calls, id)
    requires (a.Decide? || a.Place?) && a.refusal.Some?
    ensures var effect := Do(w.procs[p], a, Intents(w.journal));
            HonestProc(effect.proc, w.calls, id) && effect.call.None?
  {
    hide HonestProc, Starts, HasOwnCode, NamesOwnCode, Answered;
    var P := w.procs[p];
    AtSubject(w, p, a.cid);
    hide WorldOk, Apply;
    StopHonest(P, a.cid, a.refusal.value, a.written, w.calls, id);
  }

  lemma SendingHonest(w: World, p: nat, a: Action, id: string)
    requires WorldOk(w) && p in w.procs && Enabled(w.procs[p], a) && IsSending(a) && !a.Finish?
    requires HonestProc(w.procs[p], w.calls, id)
    ensures var effect := Do(w.procs[p], a, Intents(w.journal));
            HonestProc(effect.proc, if effect.call.Some? then w.calls + [effect.call.value] else w.calls, id)
  {
    hide Starts, Record, CloseIfPending, HonestProc, Answered, Honest;
    var P, calls := w.procs[p], w.calls;
    var cid := if a.Begin? then a.request.clientOrderId else a.cid;
    AtSubject(w, p, cid);
    if (a.Decide? || a.Place?) && a.refusal.Some? {
      RefusalHonest(w, p, a, id);
    } else if a.Stop? || (a.WriteStart? && !a.ok) {
      ClosingCallsNothing(P, cid, a.code, a.written);
      StopHonest(P, cid, a.code, a.written, calls, id);
    } else if a.Begin? || a.WriteIntent? {
      StartingHonest(P, a, Intents(w.journal), calls, id);
      hide Do;
    } else {
      MovingHonest(P, a, Intents(w.journal), calls, id);
      hide Do;
    }
  }

  lemma ClosingCallsNothing(P: Proc, cid: string, code: string, written: bool)
    requires cid in P.orders
    ensures CloseIfPending(P, cid, code, written).call.None?
  {
    hide Apply;
  }

  predicate Unrefused(a: Action) {
    || a.LearnIntent? || a.LearnStart? || a.Abandon?
    || (a.WriteStart? && a.ok) || ((a.Decide? || a.Place?) && a.refusal.None?)
  }

  /** A step of the send path that refuses nothing. */
  lemma MovingHonest(P: Proc, a: Action, intents: set<string>, calls: seq<string>, id: string)
    requires Enabled(P, a) && HonestProc(P, calls, id) && P.started && Unrefused(a)
    requires a.cid !in calls && (a.LearnIntent? ==> a.cid !in P.orders)
    ensures var effect := Do(P, a, intents);
            HonestProc(effect.proc, if effect.call.Some? then calls + [effect.call.value] else calls, id)
  {
    hide Apply, HasOwnCode, HonestProc, Record, CloseIfPending;
    var effect := Do(P, a, intents);
    var calls' := if effect.call.Some? then calls + [effect.call.value] else calls;
    if id in P.listed { ListedIsOk(P, calls, id); }
    if a.LearnStart? { CodeMovesOnStart(P.orders[a.cid], a.cid); }
    PendingIsClean(P, calls, id);
    RestIsHonest(P, effect.proc, a.cid, calls, calls', id);
  }

  /** Before its intent is on record an order is no one's, so the steps up to there concern no listed one. */
  lemma StartingHonest(P: Proc, a: Action, intents: set<string>, calls: seq<string>, id: string)
    requires Enabled(P, a) && HonestProc(P, calls, id) && P.started && (a.Begin? || a.WriteIntent?)
    requires (if a.Begin? then a.request.clientOrderId else a.cid) !in P.orders
    ensures HonestProc(Do(P, a, intents).proc, calls, id) && Do(P, a, intents).call.None?
  {
    var cid := if a.Begin? then a.request.clientOrderId else a.cid;
    hide Apply, HasOwnCode, HonestProc, Record, CloseIfPending;
    if id in P.listed { ListedIsOk(P, calls, id); }
    RestIsHonest(P, Do(P, a, intents).proc, cid, calls, calls, id);
  }

  lemma PendingIsClean(P: Proc, calls: seq<string>, id: string)
    requires HonestProc(P, calls, id)
    ensures id in P.orders && P.started && P.orders[id].status == PendingSubmit ==> !HasOwnCode(P.orders[id])
    ensures forall request :: !HasOwnCode(NewOrder(request))
  {
  }

  lemma CodeMovesOnStart(s: OrderState, cid: string)
    ensures HasOwnCode(Apply(s, StartEvent(cid))) <==> HasOwnCode(s)
    ensures s.status == PendingSubmit ==> Apply(s, StartEvent(cid)).status == Submitting
    ensures Apply(s, StartEvent(cid)).status != PendingSubmit
  {
  }

  /** An order closed by a cancel is refused; one closed from a list is no longer listed. */
  lemma CloseHonest(P: Proc, P': Proc, e: Event, written: bool, calls: seq<string>, id: string)
    requires HonestProc(P, calls, id) && e.RejectReport? && NamesOwnCode(e)
    requires e.cid in P.orders && P'.orders == P.orders && Touches(P, P', e.cid)
    requires e.cid in P'.listed ==>
      P.orders[e.cid].status == PendingSubmit && e.cid !in calls && e.cid !in P'.tasks
    ensures HonestProc(Record(P', e, written).proc, calls, id)
  {
    if e.cid in P'.listed { RefusalRefuses(P.orders[e.cid], e); }
    assert Apply(P.orders[e.cid], e).status != PendingSubmit;
    hide Record, HonestProc, Apply, HasOwnCode;
    RecordHonest(P, P', e, written, calls, id);
  }

  lemma CancelHonest(w: World, p: nat, cid: string, written: bool, id: string)
    requires WorldOk(w) && p in w.procs && HonestProc(w.procs[p], w.calls, id)
    requires Enabled(w.procs[p], CancelUnsent(cid, written))
    ensures HonestProc(Do(w.procs[p], CancelUnsent(cid, written), {}).proc, w.calls, id)
  {
    AtSubject(w, p, cid);
    OwnWords(cid);
    hide WorldOk, Starts, Record, HonestProc, Apply, ProcOk, NamesOwnCode;
    CloseHonest(w.procs[p], w.procs[p], Refusal(cid, "CANCELED_BEFORE_SEND"), written, w.calls, id);
  }

  lemma CloseListedHonest(w: World, p: nat, cid: string, written: bool, id: string)
    requires WorldOk(w) && p in w.procs && HonestProc(w.procs[p], w.calls, id)
    requires Enabled(w.procs[p], CloseListed(cid, written))
    ensures HonestProc(Do(w.procs[p], CloseListed(cid, written), {}).proc, w.calls, id)
  {
    AtSubject(w, p, cid);
    OwnWords(cid);
    hide WorldOk, Starts, Record, HonestProc, Apply, ProcOk, NamesOwnCode;
    var P := w.procs[p];
    CloseHonest(P, P.(listed := P.listed - {cid}), NeverSent(cid), written, w.calls, id);
  }

  lemma CloseUnsentHonest(w: World, p: nat, cid: string, written: bool, id: string)
    requires WorldOk(w) && p in w.procs && HonestProc(w.procs[p], w.calls, id)
    requires Enabled(w.procs[p], CloseUnsent(cid, written))
    ensures HonestProc(Do(w.procs[p], CloseUnsent(cid, written), {}).proc, w.calls, id)
  {
    AtSubject(w, p, cid);
    hide WorldOk, Starts, HonestProc, Apply, ProcOk;
    NotStarted(Do(w.procs[p], CloseUnsent(cid, written), {}).proc, w.calls, id);
  }

  lemma OwnWords(cid: string)
    ensures NamesOwnCode(NeverSent(cid)) && NamesOwnCode(Refusal(cid, "CANCELED_BEFORE_SEND"))
  {
  }

  /** What is heard about an order, of this one only once it was sent; its task done or not. */
  lemma HeardHonest(P: Proc, P': Proc, e: Event, written: bool, calls: seq<string>, id: string)
    requires HonestProc(P, calls, id) && P'.orders == P.orders && Touches(P, P', e.cid) && e.cid in P.orders
    requires e.cid == id ==> P.orders[id].status != PendingSubmit && !NamesOwnCode(e) && id in calls
    requires e.Restated? ==> e.status != PendingSubmit
    ensures HonestProc(Record(P', e, written).proc, calls, id)
  {
    var s := P.orders[e.cid];
    if id in P.listed { ListedIsOk(P, calls, id); }
    if e.cid == id && !HasOwnCode(s) { CodeMoves(s, e); }
    NotUnsentAgain(s, e);
    hide Record, HonestProc, Apply, HasOwnCode;
    RecordHonest(P, P', e, written, calls, id);
  }

  lemma ReportHonest(w: World, p: nat, a: Action, id: string)
    requires WorldOk(w) && p in w.procs && Enabled(w.procs[p], a) && HonestProc(w.procs[p], w.calls, id)
    requires (a.Observe? || a.Finish?) && Honest(w, Act(p, a), id)
    ensures HonestProc(Do(w.procs[p], a, Intents(w.journal)).proc, w.calls, id)
  {
    hide Starts, HonestProc, Apply, NamesOwnCode, Answered;
    var P, e := w.procs[p], a.event;
    AtSubject(w, p, e.cid);
    hide WorldOk, Intents, ProcOk;
    var P' := if a.Finish? then Without(P, e.cid) else P;
    if P.started {
      hide Record;
      HeardHonest(P, P', e, a.written, w.calls, id);
    } else {
      NotStarted(Record(P', e, a.written).proc, w.calls, id);
    }
  }

  lemma NotStarted(P: Proc, calls: seq<string>, id: string)
    requires !P.started && P.listed == {}
    ensures HonestProc(P, calls, id)
  {
  }

  /** Opening, listing and writing late. */
  lemma FlagsHonest(w: World, p: nat, a: Action, id: string)
    requires WorldOk(w) && p in w.procs && Enabled(w.procs[p], a) && HonestProc(w.procs[p], w.calls, id)
    requires a.Open? || a.ListPending? || a.WriteLate?
    ensures HonestProc(Do(w.procs[p], a, Intents(w.journal)).proc, w.calls, id)
  {
    AtSubject(w, p, id);
    hide WorldOk, Intents, Starts, HasOwnCode, ProcOk;
  }

  lemma ActHonest(w: World, p: nat, a: Action, id: string)
    requires WorldOk(w) && p in w.procs && Enabled(w.procs[p], a) && Honest(w, Act(p, a), id)
    requires HonestProc(w.procs[p], w.calls, id)
    ensures var effect := Do(w.procs[p], a, Intents(w.journal));
            HonestProc(effect.proc, if effect.call.Some? then w.calls + [effect.call.value] else w.calls, id)
  {
    if IsSending(a) && !a.Finish? {
      SendingHonest(w, p, a, id);
    } else {
      assert Do(w.procs[p], a, Intents(w.journal)).call.None?;
      assert !a.WriteIntent? ==> Do(w.procs[p], a, Intents(w.journal)) == Do(w.procs[p], a, {});
      hide WorldOk, HonestProc, Do, Intents, Enabled;
      match a
      case Finish(_, _) => ReportHonest(w, p, a, id);
      case Observe(_, _) => ReportHonest(w, p, a, id);
      case CancelUnsent(cid, written) => CancelHonest(w, p, cid, written, id);
      case CloseListed(cid, written) => CloseListedHonest(w, p, cid, written, id);
      case CloseUnsent(cid, written) => CloseUnsentHonest(w, p, cid, written, id);
      case Open => FlagsHonest(w, p, a, id);
      case ListPending => FlagsHonest(w, p, a, id);
      case WriteLate => FlagsHonest(w, p, a, id);
    }
  }

  /** Calls for orders another process journalled do not concern a process. */
  lemma OthersHonest(q: nat, Q: Proc, w: World, cid: string, id: string)
    requires ProcOk(q, Q, Starts(w.journal), w.calls, w.owner) && HonestProc(Q, w.calls, id)
    requires cid in w.owner && w.owner[cid] != q
    ensures HonestProc(Q, w.calls + [cid], id)
  {
    hide Starts, HasOwnCode;
    if id in Q.listed { assert ListedOk(q, Q, id, w.owner) && SendOk(Q, id, w.calls); }
  }

  // ----- What is on record of an answer -----

  /** The venue's answer to the call for an order. */
  predicate Answers(e: Event, id: string) { e.cid == id && IsAnswer(e) && !NamesOwnCode(e) }

  predicate Answered(events: seq<Event>, id: string) { exists i :: 0 <= i < |events| && Answers(events[i], id) }

  /** On the journal, or waiting for it. */
  predicate OnRecord(journal: seq<Event>, P: Proc, id: string) { Answered(journal, id) || Answered(P.waiting, id) }

  lemma AnsweredGrows(events: seq<Event>, e: Event, id: string)
    ensures Answered(events + [e], id) <==> Answered(events, id) || Answers(e, id)
  {
    hide Answers;
    var all := events + [e];
    if Answered(events, id) {
      var i :| 0 <= i < |events| && Answers(events[i], id);
      assert all[i] == events[i];
    }
    if Answers(e, id) { assert all[|events|] == e; }
    if Answered(all, id) {
      var i :| 0 <= i < |all| && Answers(all[i], id);
      if i < |events| { assert events[i] == all[i]; }
    }
  }

  lemma AnsweredFirst(events: seq<Event>, id: string)
    requires events != []
    ensures Answered(events, id) <==> Answers(events[0], id) || Answered(events[1..], id)
  {
    hide Answers;
    if Answered(events[1..], id) {
      var i :| 0 <= i < |events[1..]| && Answers(events[1..][i], id);
      assert events[i + 1] == events[1..][i];
    }
    if Answered(events, id) {
      var i :| 0 <= i < |events| && Answers(events[i], id);
      if i > 0 { assert events[1..][i - 1] == events[i]; }
    }
  }

  function JournalAfter(journal: seq<Event>, effect: Effect): seq<Event> {
    if effect.wrote.Some? then journal + [effect.wrote.value] else journal
  }

  /** Recording an event puts it on record, written or not, and takes nothing off. */
  lemma RecordAnswers(journal: seq<Event>, P: Proc, e: Event, written: bool, id: string)
    ensures var effect := Record(P, e, written);
            && (OnRecord(JournalAfter(journal, effect), effect.proc, id)
                <==> OnRecord(journal, P, id) || Answers(e, id))
            && (Answered(journal, id) ==> Answered(JournalAfter(journal, effect), id))
  {
    AnsweredGrows(journal, e, id);
    AnsweredGrows(P.waiting, e, id);
    hide Answered, Answers, Apply;
  }

  /** A step that neither hears from the venue nor closes anything records no answer. */
  lemma SendingAnswers(w: World, P: Proc, a: Action, id: string)
    requires Enabled(P, a) && IsSending(a) && !a.Finish?
    ensures var effect := Do(P, a, Intents(w.journal));
            && (OnRecord(JournalAfter(w.journal, effect), effect.proc, id) <==> OnRecord(w.journal, P, id))
            && (Answered(w.journal, id) ==> Answered(JournalAfter(w.journal, effect), id))
  {
    var journal, effect := w.journal, Do(P, a, Intents(w.journal));
    hide Answered, Apply, Intents;
    if a.WriteIntent? || (a.WriteStart? && a.ok) {
      if effect.wrote.Some? { AnsweredGrows(journal, effect.wrote.value, id); }
      assert effect.proc.waiting == P.waiting;
    } else if a.Stop? || a.WriteStart? {
      RefusalAnswers(journal, P, a.cid, a.code, a.written, id);
      hide Record;
    } else if (a.Decide? || a.Place?) && a.refusal.Some? {
      RefusalAnswers(journal, P, a.cid, a.refusal.value, a.written, id);
      hide Record;
    } else {
      assert effect.proc.waiting == P.waiting && effect.wrote.None?;
    }
  }

  lemma RefusalAnswers(journal: seq<Event>, P: Proc, cid: string, code: string, written: bool, id: string)
    requires code in OWN_CODES
    ensures var effect := Record(Without(P, cid), Refusal(cid, code), written);
            && (OnRecord(JournalAfter(journal, effect), effect.proc, id) <==> OnRecord(journal, P, id))
            && (Answered(journal, id) ==> Answered(JournalAfter(journal, effect), id))
    ensures OnRecord(journal, Without(P, cid), id) <==> OnRecord(journal, P, id)
  {
    RecordAnswers(journal, Without(P, cid), Refusal(cid, code), written, id);
    hide Answered, Record;
  }

  /** What any action puts on record of an answer: what it heard. */
  lemma ActAnswers(w: World, p: nat, a: Action, id: string)
    requires p in w.procs && Enabled(w.procs[p], a)
    ensures var P, effect := w.procs[p], Do(w.procs[p], a, Intents(w.journal));
            && (OnRecord(JournalAfter(w.journal, effect), effect.proc, id)
                <==> OnRecord(w.journal, P, id) || ((a.Observe? || a.Finish?) && Answers(a.event, id)))
            && (Answered(w.journal, id) ==> Answered(JournalAfter(w.journal, effect), id))
  {
    var P, journal := w.procs[p], w.journal;
    if IsSending(a) && !a.Finish? {
      SendingAnswers(w, P, a, id);
    } else {
      hide Answered, Apply, Intents, Answers;
      match a
      case Finish(e, written) => RecordAnswers(journal, Without(P, e.cid), e, written, id); hide Record;
      case Observe(e, written) => RecordAnswers(journal, P, e, written, id); hide Record;
      case CancelUnsent(cid, written) => OwnWordsAnswer(journal, P, P, cid, written, id); hide Record;
      case CloseUnsent(cid, written) =>
        OwnWordsAnswer(journal, P, P.(toClose := P.toClose - {cid}), cid, written, id); hide Record;
      case CloseListed(cid, written) =>
        OwnWordsAnswer(journal, P, P.(listed := P.listed - {cid}), cid, written, id); hide Record;
      case WriteLate =>
        AnsweredGrows(journal, P.waiting[0], id);
        AnsweredFirst(P.waiting, id);
      case Open =>
      case ListPending =>
    }
  }

  lemma OwnWordsAnswer(journal: seq<Event>, P: Proc, P': Proc, cid: string, written: bool, id: string)
    requires P'.waiting == P.waiting
    ensures var effect := Record(P', NeverSent(cid), written);
            && (OnRecord(JournalAfter(journal, effect), effect.proc, id) <==> OnRecord(journal, P, id))
            && (Answered(journal, id) ==> Answered(JournalAfter(journal, effect), id))
    ensures var effect := Record(P', Refusal(cid, "CANCELED_BEFORE_SEND"), written);
            && (OnRecord(JournalAfter(journal, effect), effect.proc, id) <==> OnRecord(journal, P, id))
            && (Answered(journal, id) ==> Answered(JournalAfter(journal, effect), id))
  {
    OwnWords(cid);
    RecordAnswers(journal, P', NeverSent(cid), written, id);
    RecordAnswers(journal, P', Refusal(cid, "CANCELED_BEFORE_SEND"), written, id);
    hide Answered, Record, NamesOwnCode;
  }

  /** An answer on record is of an order that was sent; and a listed order that was sent, with its submit
      done, has its answer on record with its process. */
  predicate AnswersOk(journal: seq<Event>, P: Proc, calls: seq<string>, id: string) {
    && (OnRecord(journal, P, id) ==> id in calls)
    && (id in P.listed && id !in P.tasks && id in calls ==> OnRecord(journal, P, id))
  }

  lemma ActKeepsAnswers(w: World, p: nat, a: Action, id: string)
    requires WorldOk(w) && p in w.procs && Enabled(w.procs[p], a) && Honest(w, Act(p, a), id)
    requires AnswersOk(w.journal, w.procs[p], w.calls, id)
    ensures var effect := Do(w.procs[p], a, Intents(w.journal));
            AnswersOk(JournalAfter(w.journal, effect), effect.proc,
                      if effect.call.Some? then w.calls + [effect.call.value] else w.calls, id)
  {
    ActAnswers(w, p, a, id);
    AtSubject(w, p, id);
    hide WorldOk, ProcOk, Intents, Starts, OnRecord, NamesOwnCode;
    var P := w.procs[p];
    if a.Finish? || a.Observe? {
      HeardTasks(P, a, w, id);
      hide Do;
    } else {
      assert PhaseOk(P, w.calls, id);
      hide Do, Enabled, PhaseOk;
      TasksMove(P, a, Intents(w.journal), w.calls, id);
    }
  }

  /** What a report does to the task and the entry of an order. */
  lemma HeardTasks(P: Proc, a: Action, w: World, id: string)
    requires Enabled(P, a) && (a.Finish? || a.Observe?)
    ensures var effect := Do(P, a, Intents(w.journal));
            && effect.call.None? && effect.proc.listed == P.listed
            && effect.proc.tasks == (if a.Finish? then P.tasks - {a.event.cid} else P.tasks)
  {
    hide Apply;
  }

  /** What is known of an order in whatever phase, where it matters to its task and its entry. */
  predicate PhaseOk(P: Proc, calls: seq<string>, id: string) {
    && (id in P.tasks && (P.tasks[id].Checked? || P.tasks[id].IntentWritten?) ==> id !in P.orders)
    && (id in P.tasks && id in calls && !P.tasks[id].Called? ==> id !in P.orders)
    && (id in P.orders && P.started && P.orders[id].status == PendingSubmit ==> id !in calls)
    && (id in P.listed ==> id in P.orders)
  }

  /** Only an order that was not sent loses its task or becomes listed. */
  predicate OnlyUnsentMoves(P: Proc, effect: Effect, calls: seq<string>, id: string) {
    var calls' := if effect.call.Some? then calls + [effect.call.value] else calls;
    && (id in calls ==> id in calls')
    && (id in effect.proc.listed && id !in effect.proc.tasks && id in calls' ==>
          id in P.listed && id !in P.tasks && id in calls)
  }

  lemma StopShape(P: Proc, cid: string, code: string, written: bool)
    requires cid in P.orders
    ensures var effect := Record(Without(P, cid), Refusal(cid, code), written);
            effect.proc.tasks == P.tasks - {cid} && effect.proc.listed == P.listed && effect.call.None?
    ensures var effect := CloseIfPending(P, cid, code, written);
            effect.proc.tasks == P.tasks - {cid} && effect.proc.listed == P.listed && effect.call.None?
  {
    hide Apply;
  }

  /** A step of the send path ends no task that has called, and leaves a task behind where it calls. */
  lemma SendingShape(P: Proc, a: Action, intents: set<string>, id: string)
    requires Enabled(P, a) && IsSending(a) && !a.Finish?
    ensures var effect := Do(P, a, intents);
            && effect.proc.listed == P.listed
            && (effect.call == Some(id) ==> id in effect.proc.tasks)
            && (id in P.tasks && id !in effect.proc.tasks ==> !P.tasks[id].Called?)
  {
    if a.Stop? || a.WriteStart? {
      StopShape(P, a.cid, a.code, a.written);
    } else if (a.Decide? || a.Place?) && a.refusal.Some? {
      StopShape(P, a.cid, a.refusal.value, a.written);
    }
    hide Apply, Record, CloseIfPending;
  }

  lemma SendingMoves(P: Proc, a: Action, intents: set<string>, calls: seq<string>, id: string)
    requires Enabled(P, a) && IsSending(a) && !a.Finish? && PhaseOk(P, calls, id)
    ensures OnlyUnsentMoves(P, Do(P, a, intents), calls, id)
  {
    SendingShape(P, a, intents, id);
    hide Do, Enabled;
  }

  lemma TasksMove(P: Proc, a: Action, intents: set<string>, calls: seq<string>, id: string)
    requires Enabled(P, a) && !a.Finish? && !a.Observe? && PhaseOk(P, calls, id)
    ensures OnlyUnsentMoves(P, Do(P, a, intents), calls, id)
  {
    if IsSending(a) {
      SendingMoves(P, a, intents, calls, id);
    } else {
      hide Apply;
      var effect := Do(P, a, intents);
      assert effect.call.None? && effect.proc.tasks == P.tasks;
    }
  }

  lemma OthersKeepAnswers(q: nat, Q: Proc, w: World, effect: Effect, id: string)
    requires ProcOk(q, Q, Starts(w.journal), w.calls, w.owner) && AnswersOk(w.journal, Q, w.calls, id)
    requires effect.call.Some? ==> effect.call.value in w.owner && w.owner[effect.call.value] != q
    requires Answered(w.journal, id) ==> Answered(JournalAfter(w.journal, effect), id)
    requires var calls' := if effect.call.Some? then w.calls + [effect.call.value] else w.calls;
             Answered(JournalAfter(w.journal, effect), id) ==> id in calls'
    ensures AnswersOk(JournalAfter(w.journal, effect), Q,
                      if effect.call.Some? then w.calls + [effect.call.value] else w.calls, id)
  {
    hide Starts, Answered;
    if id in Q.listed { assert ListedOk(q, Q, id, w.owner); }
  }

  // ----- Runs -----

  predicate HonestOk(w: World, id: string) {
    && (forall p :: p in w.procs ==>
          HonestProc(w.procs[p], w.calls, id) && AnswersOk(w.journal, w.procs[p], w.calls, id))
    && (Answered(w.journal, id) ==> id in w.calls)
  }

  lemma StepStaysHonest(w: World, step: Step, id: string)
    requires WorldOk(w) && HonestOk(w, id) && Possible(w, step) && Honest(w, step, id)
    ensures HonestOk(Next(w, step), id)
  {
    hide HonestProc, AnswersOk, Answered, Intents, Starts, ProcOk, JournalOk, CallsOk;
    var w' := Next(w, step);
    match step
    case Act(p, a) =>
      ActHonest(w, p, a, id);
      ActAnswers(w, p, a, id);
      ActKeepsAnswers(w, p, a, id);
      ActionOk(w, p, a);
      hide Do, Enabled;
      var effect := Do(w.procs[p], a, Intents(w.journal));
      JournalIsAnswered(JournalAfter(w.journal, effect), effect.proc, w'.calls, id);
      forall q | q in w'.procs
        ensures HonestProc(w'.procs[q], w'.calls, id) && AnswersOk(w'.journal, w'.procs[q], w'.calls, id)
      {
        if q != p {
          OthersKeepAnswers(q, w.procs[q], w, effect, id);
          if effect.call.Some? { OthersHonest(q, w.procs[q], w, effect.call.value, id); }
        }
      }
    case StartUp(p) =>
      NotStarted(Recovered(Replayed(w.journal).value), w.calls, id);
      NothingWaits(w, Recovered(Replayed(w.journal).value), id);
    case Crash(p) =>
  }

  lemma JournalIsAnswered(journal: seq<Event>, P: Proc, calls: seq<string>, id: string)
    requires AnswersOk(journal, P, calls, id)
    ensures Answered(journal, id) ==> id in calls
  {
  }

  lemma NothingWaits(w: World, P: Proc, id: string)
    requires P.waiting == [] && P.listed == {} && (Answered(w.journal, id) ==> id in w.calls)
    ensures AnswersOk(w.journal, P, w.calls, id)
  {
  }

  lemma {:induction false} HonestRunKeeps(w: World, steps: seq<Step>, id: string)
    requires WorldOk(w) && HonestOk(w, id) && HonestRun(w, steps, id)
    ensures WorldOk(Run(w, steps)) && HonestOk(Run(w, steps), id)
  {
    if steps != [] {
      hide WorldOk, HonestOk, Next, Possible, Honest;
      var before, last := Run(w, steps[..|steps| - 1]), steps[|steps| - 1];
      HonestRunKeeps(w, steps[..|steps| - 1], id);
      if Possible(before, last) {
        StepKeeps(before, last);
        StepStaysHonest(before, last, id);
      }
    }
  }

  lemma HonestRunIsOk(before: seq<Step>, id: string)
    requires HonestRun(NOTHING, before, id)
    ensures WorldOk(Run(NOTHING, before)) && HonestOk(Run(NOTHING, before), id)
  {
    NothingIsOk();
    assert HonestOk(NOTHING, id);
    HonestRunKeeps(NOTHING, before, id);
  }

  /** A listed order with no submit of it under way is never sent in any continuation exactly when it has
      not been sent yet. */
  lemma UncalledIsFinal(w: World, p: nat, cid: string)
    requires WorldOk(w) && p in w.procs && cid in w.procs[p].listed && cid !in w.procs[p].tasks
    ensures (forall after :: cid !in Run(w, after).calls) <==> cid !in w.calls
  {
    AtSubject(w, p, cid);
    hide Run, WorldOk, ProcOk, Starts, Intents;
    RunOfNothing(w);
    if cid !in w.calls {
      NobodyElseSends(w, p, cid);
      forall after ensures cid !in Run(w, after).calls { UnsendableForever(w, after, cid); }
    } else {
      assert cid in Run(w, []).calls;
    }
  }

  /** Reconciliation closes a listed order without looking at it again. In every run in which the venue
      speaks of this order only once it was sent it, and with no submit of the order in the way: the
      verdict that it was never sent, and never will be, is right if and only if no answer to its call is
      on the journal or waiting to be written there. */
  lemma StaleVerdictIsRightIff(before: seq<Step>, p: nat, cid: string)
    requires HonestRun(NOTHING, before, cid) && p in Run(NOTHING, before).procs
    requires cid in Run(NOTHING, before).procs[p].listed && cid !in Run(NOTHING, before).procs[p].tasks
    ensures var w := Run(NOTHING, before);
            (forall after :: cid !in Run(w, after).calls)
            <==> !Answered(w.journal, cid) && !Answered(w.procs[p].waiting, cid)
  {
    HonestRunIsOk(before, cid);
    hide Run, HonestRun, WorldOk, HonestProc, Answered;
    assert AnswersOk(Run(NOTHING, before).journal, Run(NOTHING, before).procs[p], Run(NOTHING, before).calls, cid);
    UncalledIsFinal(Run(NOTHING, before), p, cid);
  }

  /** By the memory of the order alone: unless the order is only known to have been started, the verdict is
      right if and only if the order is still pending or the process has refused it itself. */
  lemma MemoryTellsUnlessStarted(before: seq<Step>, p: nat, cid: string)
    requires HonestRun(NOTHING, before, cid) && p in Run(NOTHING, before).procs
    requires var P := Run(NOTHING, before).procs[p];
             cid in P.listed && cid !in P.tasks && cid in P.orders && P.orders[cid].status != Submitting
    ensures var w := Run(NOTHING, before);
            var s := w.procs[p].orders[cid];
            (forall after :: cid !in Run(w, after).calls) <==> s.status == PendingSubmit || Refused(s)
  {
    HonestRunIsOk(before, cid);
    var w := Run(NOTHING, before);
    hide Run, HonestRun, AnswersOk;
    AtSubject(w, p, cid);
    hide WorldOk;
    ListedIsOk(w.procs[p], w.calls, cid);
    UncalledIsFinal(w, p, cid);
  }

  // ----- Where a listed order is closed wrongly -----

  /** A listed order, sent since and live in memory, with its submit done. */
  predicate StaleEntry(w: World, q: nat, cid: string) {
    && q in w.procs && cid in w.procs[q].listed && cid !in w.procs[q].tasks
    && cid in w.procs[q].orders && w.procs[q].orders[cid].status in LIVE - {Submitting}
  }

  /** In every such run the order was sent. The close does not look again: it makes the order a rejected
      one in memory, and on the journal too, at once or once the journal takes what waits for it. */
  lemma StaleListRejectsASentOrder(before: seq<Step>, q: nat, cid: string)
    requires HonestRun(NOTHING, before, cid) && StaleEntry(Run(NOTHING, before), q, cid)
    ensures var w := Run(NOTHING, before);
            var written := w.procs[q].waiting == [];
            var close := Act(q, CloseListed(cid, written));
            && cid in w.calls && Possible(w, close)
            && var w' := Next(w, close);
               && cid in w'.calls && q in w'.procs && cid in w'.procs[q].orders
               && w'.procs[q].orders[cid].status == Rejected
               && (if written then w'.journal == w.journal + [NeverSent(cid)]
                   else w'.procs[q].waiting == w.procs[q].waiting + [NeverSent(cid)])
  {
    HonestRunIsOk(before, cid);
    hide Run, WorldOk, HonestOk, StaleEntry, HonestRun;
    StaleWasSent(Run(NOTHING, before), q, cid);
    ClosingRejects(Run(NOTHING, before), q, cid);
  }

  lemma StaleWasSent(w: World, q: nat, cid: string)
    requires HonestOk(w, cid) && StaleEntry(w, q, cid)
    ensures q in w.procs && cid in w.calls
  {
    hide AnswersOk, Answered;
    ListedIsOk(w.procs[q], w.calls, cid);
  }

  lemma ClosingRejects(w: World, q: nat, cid: string)
    requires StaleEntry(w, q, cid)
    ensures var written := w.procs[q].waiting == [];
            var close := Act(q, CloseListed(cid, written));
            && Possible(w, close)
            && var w' := Next(w, close);
               && w'.calls == w.calls && q in w'.procs && cid in w'.procs[q].orders
               && w'.procs[q].orders[cid].status == Rejected
               && (if written then w'.journal == w.journal + [NeverSent(cid)]
                   else w'.procs[q].waiting == w.procs[q].waiting + [NeverSent(cid)])
  {
    assert Apply(w.procs[q].orders[cid], NeverSent(cid)).status == Rejected;
    hide Intents, Apply;
  }

  lemma {:induction false} OwnStepsAreHonest(w: World, steps: seq<Step>, id: string)
    requires OwnSteps(steps)
    ensures HonestRun(w, steps, id)
  {
    hide Next, Possible, Run;
    if steps != [] { OwnStepsAreHonest(w, steps[..|steps| - 1], id); }
  }

  lemma HonestThen(w: World, steps: seq<Step>, step: Step, id: string)
    requires HonestRun(w, steps, id) && Possible(Run(w, steps), step) && Honest(Run(w, steps), step, id)
    ensures HonestRun(w, steps + [step], id) && Run(w, steps + [step]) == Next(Run(w, steps), step)
  {
    hide Next, Possible, Honest;
    assert (steps + [step])[..|steps|] == steps;
  }

  lemma StepToListed(w: World, q: nat, cid: string)
    requires At(w, q, cid, Ready, PendingSubmit) && w.procs[q].started
    ensures Possible(w, Act(q, ListPending))
    ensures var w' := Next(w, Act(q, ListPending));
            At(w', q, cid, Ready, PendingSubmit) && cid in w'.procs[q].listed
  {
    hide Intents;
  }

  lemma OwnThen(first: Step, rest: seq<Step>)
    requires OwnSteps([first]) && OwnSteps(rest)
    ensures OwnSteps([first] + rest)
  {
    assert [first][0] == first;
  }

  /** From its intent, a first order's submit gets to the point of the call, with the list taken on the way. */
  lemma IntentIsListed(w: World, request: Request) returns (steps: seq<Step>)
    requires WorldOk(w) && 0 in w.procs && request.clientOrderId in w.procs[0].tasks && w.procs[0].started
    requires w.procs[0].tasks[request.clientOrderId] == IntentWritten(request)
    ensures OwnSteps(steps)
    ensures var w', cid := Run(w, steps), request.clientOrderId; Poised(w', 0, cid) && cid in w'.procs[0].listed
  {
    var cid := request.clientOrderId;
    hide Run, WorldOk, Next, Possible, At, Poised;
    var learn, list := Act(0, LearnIntent(cid)), Act(0, ListPending);
    StepToReady(w, 0, cid);
    StepKeeps(w, learn);
    StepToListed(Next(w, learn), 0, cid);
    StepKeeps(Next(w, learn), list);
    assert OwnSteps([list]) && OwnSteps([learn]);
    hide OwnSteps;
    var rest := ReadyGetsStarted(Next(Next(w, learn), list), 0, cid);
    RunFirst(Next(w, learn), list, rest);
    RunFirst(w, learn, [list] + rest);
    OwnThen(list, rest);
    OwnThen(learn, [list] + rest);
    steps := [learn] + ([list] + rest);
  }

  /** The list can be taken while an order's submit is between its intent and its call. */
  lemma ListedWhileSending(request: Request) returns (steps: seq<Step>)
    ensures OwnSteps(steps)
    ensures var w, cid := Run(NOTHING, steps), request.clientOrderId;
            WorldOk(w) && Poised(w, 0, cid) && cid in w.procs[0].listed
  {
    FirstIntent(request);
    NothingIsOk();
    hide Run, WorldOk, At, Poised;
    RunKeeps(NOTHING, FirstOrder(request));
    var rest := IntentIsListed(Run(NOTHING, FirstOrder(request)), request);
    RunConcat(NOTHING, FirstOrder(request), rest);
    steps := FirstOrder(request) + rest;
    RunKeeps(NOTHING, steps);
  }

  lemma StepToAnswerUnknown(w: World, q: nat, cid: string)
    requires At(w, q, cid, Called, Submitting) && w.procs[q].waiting == [] && cid in w.procs[q].listed
    ensures Possible(w, Act(q, Finish(OutcomeUnknown(cid), true)))
    ensures var w', P := Next(w, Act(q, Finish(OutcomeUnknown(cid), true))), w.procs[q];
            && StaleEntry(w', q, cid) && w'.calls == w.calls
            && w'.procs[q] == P.(orders := P.orders[cid := Apply(P.orders[cid], OutcomeUnknown(cid))],
                                 tasks := P.tasks - {cid})
  {
    assert Apply(w.procs[q].orders[cid], OutcomeUnknown(cid)).status == Unknown;
    hide Intents, Apply;
  }

  /** The call is made, and its answer lost. */
  lemma CallAnswerUnknown(w: World, q: nat, cid: string)
    requires Poised(w, q, cid) && cid in w.procs[q].listed
    ensures var place, finish := Act(q, Place(cid, None, false)), Act(q, Finish(OutcomeUnknown(cid), true));
            && Possible(w, place) && Possible(Next(w, place), finish)
            && var w', P := Next(Next(w, place), finish), w.procs[q];
               && StaleEntry(w', q, cid) && cid in w'.calls
               && w'.procs[q] == P.(orders := P.orders[cid := Apply(P.orders[cid], OutcomeUnknown(cid))],
                                    tasks := P.tasks - {cid})
  {
    var P := w.procs[q];
    StepToCalled(w, q, cid);
    assert P.tasks[cid := Called] - {cid} == P.tasks - {cid};
    hide Next, Possible, StaleEntry, Apply;
    StepToAnswerUnknown(Next(w, Act(q, Place(cid, None, false))), q, cid);
  }

  /** A run gets there: the list is taken between an order's intent and its send. */
  lemma StaleListIsReachable(request: Request) returns (steps: seq<Step>)
    ensures var w, cid := Run(NOTHING, steps), request.clientOrderId;
            HonestRun(NOTHING, steps, cid) && StaleEntry(w, 0, cid) && cid in w.calls
  {
    var sending := ListedWhileSending(request);
    steps := AnswerIsLost(sending, request.clientOrderId);
  }

  lemma AnswerIsLost(sending: seq<Step>, cid: string) returns (steps: seq<Step>)
    requires OwnSteps(sending) && Poised(Run(NOTHING, sending), 0, cid)
    requires cid in Run(NOTHING, sending).procs[0].listed
    ensures var w, P := Run(NOTHING, steps), Run(NOTHING, sending).procs[0];
            && HonestRun(NOTHING, steps, cid) && StaleEntry(w, 0, cid) && cid in w.calls
            && w.procs[0] == P.(orders := P.orders[cid := Apply(P.orders[cid], OutcomeUnknown(cid))],
                                tasks := P.tasks - {cid})
  {
    var w1 := Run(NOTHING, sending);
    var place, finish := Act(0, Place(cid, None, false)), Act(0, Finish(OutcomeUnknown(cid), true));
    CallAnswerUnknown(w1, 0, cid);
    assert Honest(Next(w1, place), finish, cid) && Honest(w1, place, cid);
    OwnStepsAreHonest(NOTHING, sending, cid);
    hide Next, Possible, Poised, OwnSteps, StaleEntry, Honest, Apply, Run;
    HonestThen(NOTHING, sending, place, cid);
    HonestThen(NOTHING, sending + [place], finish, cid);
    steps := sending + [place] + [finish];
  }

  /** What is listed and in no submit's hands, and only known to have been started. */
  predicate OnlyStarted(w: World, q: nat, cid: string) {
    && q in w.procs && cid in w.procs[q].listed && cid !in w.procs[q].tasks
    && cid in w.procs[q].orders && w.procs[q].orders[cid].status == Submitting
  }

  lemma StepToAbandoned(w: World, q: nat, cid: string)
    requires Poised(w, q, cid) && cid in w.procs[q].listed
    ensures Possible(w, Act(q, Abandon(cid)))
    ensures var w', P := Next(w, Act(q, Abandon(cid))), w.procs[q];
            OnlyStarted(w', q, cid) && w'.procs[q] == P.(tasks := P.tasks - {cid})
  {
    hide Intents, Apply;
  }

  /** A venue that reports an order as not yet accepted takes the unknown answer back. */
  lemma UnknownThenRestated(s: OrderState, cid: string)
    requires s.status == Submitting && !s.HasPendingTerms()
    ensures Apply(Apply(s, OutcomeUnknown(cid)), Restated(cid, Submitting, None)) == s
  {
  }

  lemma StepToRestated(w: World, P: Proc, cid: string)
    requires StaleEntry(w, 0, cid) && cid in P.orders && P.waiting == [] && cid in P.listed
    requires P.orders[cid].status == Submitting && !P.orders[cid].HasPendingTerms()
    requires w.procs[0] == P.(orders := P.orders[cid := Apply(P.orders[cid], OutcomeUnknown(cid))],
                              tasks := P.tasks - {cid})
    ensures var restate := Act(0, Observe(Restated(cid, Submitting, None), true));
            && Possible(w, restate) && Next(w, restate).calls == w.calls
            && 0 in Next(w, restate).procs && Next(w, restate).procs[0] == P.(tasks := P.tasks - {cid})
  {
    UnknownThenRestated(P.orders[cid], cid);
    assert P.orders[cid := P.orders[cid]] == P.orders;
    hide Intents, Apply;
  }

  /** Why the record has to be read: memory cannot tell. A cancelled caller leaves an order that is never
      sent; and a venue that answers for another and reports it as not yet accepted leaves the process with
      the very same memory, and the order sent. */
  lemma StartedTellsNothing(request: Request) returns (unsent: seq<Step>, sent: seq<Step>)
    ensures var cid, w, v := request.clientOrderId, Run(NOTHING, unsent), Run(NOTHING, sent);
            && HonestRun(NOTHING, unsent, cid) && HonestRun(NOTHING, sent, cid)
            && OnlyStarted(w, 0, cid) && 0 in v.procs && w.procs[0] == v.procs[0]
            && cid in v.calls && forall after :: cid !in Run(w, after).calls
  {
    var cid := request.clientOrderId;
    var sending := ListedWhileSending(request);
    OwnStepsAreHonest(NOTHING, sending, cid);
    var abandon, restate := Act(0, Abandon(cid)), Act(0, Observe(Restated(cid, Submitting, None), true));
    var w1 := Run(NOTHING, sending);
    StepToAbandoned(w1, 0, cid);
    HonestThen(NOTHING, sending, abandon, cid);
    AbandonedIsNeverSent(w1, cid);
    unsent := sending + [abandon];
    var known := AnswerIsLost(sending, cid);
    hide WorldOk, OwnSteps, Run, HonestRun, Next, Possible, Apply;
    StepToRestated(Run(NOTHING, known), w1.procs[0], cid);
    HonestThen(NOTHING, known, restate, cid);
    sent := known + [restate];
  }

  lemma AbandonedIsNeverSent(w: World, cid: string)
    requires WorldOk(w) && Poised(w, 0, cid)
    ensures Possible(w, Act(0, Abandon(cid)))
    ensures forall after :: cid !in Run(Next(w, Act(0, Abandon(cid))), after).calls
  {
    var w' := Next(w, Act(0, Abandon(cid)));
    StepKeeps(w, Act(0, Abandon(cid)));
    AtSubject(w, 0, cid);
    assert cid !in w'.procs[0].tasks && w'.owner == w.owner && w'.calls == w.calls by { hide Intents; }
    hide WorldOk, Next, Run, Intents;
    NobodyElseSends(w', 0, cid);
    forall after ensures cid !in Run(w', after).calls { UnsendableForever(w', after, cid); }
  }

  lemma RunOfNothing(w: World)
    ensures Run(w, []) == w
  {
  }
}
