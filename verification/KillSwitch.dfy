/** The kill switch in one process: memory that flips at once, a record that follows, and a journal other
    processes append to. Every step ends at an await; the journal executor answers in the order asked. */
module KillSwitch {
  import opened Common
  import opened Journal

  datatype Want = Want(reason: string, operator: string, cancelOpen: bool)

  /** An engage memory holds and the journal does not have yet. The id stands for object identity. */
  datatype Payload = Payload(id: nat, reason: string, operator: Option<string>, cancelOpen: bool)

  /** `version` counts assignments to `kill`, so that two equal states set at different times differ. */
  datatype Mem = Mem(kill: KillState, version: nat, unrecorded: Option<Payload>, engaging: nat, lock: bool, nextId: nat)

  function SetKill(m: Mem, kill: KillState): Mem { m.(kill := kill, version := m.version + 1) }

  /** A coroutine at the await it is suspended on. */
  datatype Task =
    | Settling(before: KillState, want: Want)
    | SettleReading(before: KillState, want: Want)
    | SettleVerifying(before: KillState, want: Want, durable: KillState)
    | WantLock(own: bool)
    | Recording(own: bool, payload: Payload)
    | Returning
    | Releasing(reason: string, operator: string)
    | MergeReading(send: bool)
    | MergeVerifying(send: bool, version: nat, durable: KillState, read: nat)
  {
    /** Part of an engage that has not returned, as opposed to the background loop's retry. */
    predicate IsEngage() {
      Settling? || SettleReading? || SettleVerifying? || Returning? || (WantLock? && own) || (Recording? && own)
    }

    /** Waiting on a call to the journal. */
    predicate Asks() {
      SettleReading? || SettleVerifying? || Recording? || Releasing? || MergeReading? || MergeVerifying?
    }

    /** An engage that has not yet settled what it changes. */
    predicate Undecided() { Settling? || SettleReading? || SettleVerifying? }
  }

  /** What the executor found: a state with the number of rows it was read from, and the last row number
      at that moment. */
  datatype Reply = State(state: KillState, read: nat) | Verified(intact: bool) | Appended(seqNo: int) | Failed

  datatype Answer = Answer(task: Task, reply: Reply, stamp: int)

  /** `idle` waits on the event loop, `asked` on the executor in order, `answered` to be resumed in order.
      `heard` is the last row number the process has an answer about, and `passed` holds, for every send
      let through, how many rows its own read of the journal saw. */
  datatype World = World(rows: seq<KillRow>, mem: Mem, idle: seq<Task>, asked: seq<Task>, answered: seq<Answer>,
                         heard: int, passed: seq<nat>)

  datatype Step =
    | Engage(want: Want)
    | BeginSettle(i: nat)
    | TakeLock(i: nat)
    | Return(i: nat)
    | LoopRecord
    | AskMerge(send: bool)
    | AskRelease(reason: string, operator: string)
    | Execute(ok: bool, seqNo: int, intact: bool)
    | Deliver
    | Elsewhere(row: KillRow)

  function Last(rows: seq<KillRow>): int { if rows == [] then 0 else rows[|rows| - 1].seqNo }

  function Removed<T>(s: seq<T>, i: nat): seq<T>
    requires i < |s|
  {
    s[..i] + s[i + 1..]
  }

  datatype Judgement = Keep | Take | MustVerify

  /** Whether a state read from the journal replaces one in memory. A release newer than an engaged
      memory is only believed on an intact chain. */
  function Newer(memory: KillState, durable: KillState): Judgement {
    if durable.seqNo < memory.seqNo then Keep
    else if durable.seqNo == memory.seqNo then
      if durable.engaged && durable.cancelOpen && !memory.cancelOpen then Take else Keep
    else if durable.engaged || !memory.engaged then Take
    else MustVerify
  }

  /** The state an engage starts from: memory on the way in if another engage waits to be recorded, memory
      now if another engage or a release decided meanwhile, else what was read. */
  function Outranking(m: Mem, before: KillState, pending: bool, read: KillState): KillState {
    if pending then before
    else if m.unrecorded.Some? || m.kill.seqNo > read.seqNo then m.kill else read
  }

  /** What an engage changes, once it has `read` the journal or found a pending engage on the way in. */
  function Decide(m: Mem, before: KillState, want: Want, pending: bool, read: KillState): (Mem, Task) {
    var current := Outranking(m, before, pending, read);
    if current.engaged && (current.cancelOpen || !want.cancelOpen) then
      (if pending then m else SetKill(m, current), Returning)
    else
      var reason := if current.engaged then current.reason else want.reason;
      var operator := if current.engaged then current.operator else Some(want.operator);
      (SetKill(m, KillState(true, reason, operator, current.seqNo, want.cancelOpen)).(
         unrecorded := Some(Payload(m.nextId, reason, operator, want.cancelOpen)), nextId := m.nextId + 1),
       WantLock(true))
  }

  /** Engaging keeps the original reason and operator and can only widen the action: what stands cancels
      open orders if it did before or is asked to now. */
  lemma EngageOnlyWidens(m: Mem, before: KillState, want: Want, read: KillState)
    ensures var current, kill := Outranking(m, before, false, read), Decide(m, before, want, false, read).0.kill;
            && kill.engaged && kill.seqNo == current.seqNo
            && (kill.cancelOpen <==> want.cancelOpen || (current.engaged && current.cancelOpen))
            && (current.engaged ==> kill.reason == current.reason && kill.operator == current.operator)
            && (!current.engaged ==> kill.reason == want.reason && kill.operator == Some(want.operator))
  {
  }

  /** A send whose merge is done is let through if memory is not engaged. */
  function Passed(w: World, send: bool, read: nat): World {
    if send && !w.mem.kill.engaged then w.(passed := w.passed + [read]) else w
  }

  function EngageRow(p: Payload, seqNo: int): KillRow {
    KillRow(seqNo, true, Some(Detail(p.operator, p.reason, p.cancelOpen)))
  }

  function ReleaseRow(reason: string, operator: string, seqNo: int): KillRow {
    KillRow(seqNo, false, Some(Detail(Some(operator), reason, false)))
  }

  predicate Possible(w: World, step: Step) {
    match step
    case Engage(_) => true
    case BeginSettle(i) => i < |w.idle| && w.idle[i].Settling?
    case TakeLock(i) => i < |w.idle| && w.idle[i].WantLock? && !w.mem.lock
    case Return(i) => i < |w.idle| && w.idle[i].Returning? && w.mem.engaging > 0
    case LoopRecord => true
    case AskMerge(_) => true
    case AskRelease(reason, operator) =>
      NamesOperator(Detail(Some(operator), "", false)) && NamesOperator(Detail(Some(reason), "", false))
    case Execute(_, seqNo, _) => w.asked != [] && w.asked[0].Asks() && seqNo > Last(w.rows)
    case Deliver => w.answered != []
    case Elsewhere(row) => row.seqNo > Last(w.rows)
  }

  function Executed(w: World, ok: bool, seqNo: int, intact: bool): World
    requires w.asked != []
  {
    var task := w.asked[0];
    var rows :=
      if ok && task.Recording? then w.rows + [EngageRow(task.payload, seqNo)]
      else if ok && task.Releasing? then w.rows + [ReleaseRow(task.reason, task.operator, seqNo)]
      else w.rows;
    var reply :=
      if !ok then Failed
      else if task.Recording? || task.Releasing? then Appended(seqNo)
      else if task.SettleVerifying? || task.MergeVerifying? then Verified(intact)
      else State(KillFold(w.rows), |w.rows|);
    w.(rows := rows, asked := w.asked[1..], answered := w.answered + [Answer(task, reply, Last(rows))])
  }

  /** An engage that has its reading of the journal: it decides, then records or returns. */
  function Settled(w: World, before: KillState, want: Want, pending: bool, read: KillState): World {
    var (mem, task) := Decide(w.mem, before, want, pending, read);
    w.(mem := mem, idle := w.idle + [task])
  }

  function ResumeSettle(w: World, before: KillState, want: Want, durable: KillState): World {
    match Newer(before, durable)
    case Keep => Settled(w, before, want, false, before)
    case Take => Settled(w, before, want, false, durable)
    case MustVerify => w.(asked := w.asked + [SettleVerifying(before, want, durable)])
  }

  function ResumeMerge(w: World, send: bool, durable: KillState, read: nat): World {
    if w.mem.unrecorded.Some? || (w.mem.engaging > 0 && !durable.engaged) then Passed(w, send, read)
    else match Newer(w.mem.kill, durable)
      case Keep => Passed(w, send, read)
      case Take => Passed(w.(mem := SetKill(w.mem, durable)), send, read)
      case MustVerify => w.(asked := w.asked + [MergeVerifying(send, w.mem.version, durable, read)])
  }

  function ResumeMergeVerified(w: World, send: bool, version: nat, durable: KillState, read: nat): World {
    if w.mem.engaging == 0 && version == w.mem.version && w.mem.unrecorded.None?
    then Passed(w.(mem := SetKill(w.mem, durable)), send, read)
    else Passed(w, send, read)
  }

  function ResumeRecord(w: World, own: bool, payload: Payload, reply: Reply): World {
    var mem := w.mem.(lock := false);
    var recorded :=
      if reply.Appended? && mem.unrecorded.Some? && mem.unrecorded.value.id == payload.id
      then SetKill(mem, KillState(true, payload.reason, payload.operator, reply.seqNo, payload.cancelOpen))
           .(unrecorded := None)
      else mem;
    w.(mem := recorded, idle := if own then w.idle + [Returning] else w.idle)
  }

  function ResumeRelease(w: World, reason: string, operator: string, reply: Reply): World {
    if reply.Appended?
    then w.(mem := SetKill(w.mem, KillState(false, reason, Some(operator), reply.seqNo, false)).(unrecorded := None))
    else w
  }

  /** The first answer wakes its coroutine, which runs to its next await. */
  function Delivered(w: World): World
    requires w.answered != []
  {
    var a := w.answered[0];
    var v := w.(answered := w.answered[1..], heard := a.stamp);
    match a.task
    case SettleReading(before, want) =>
      if a.reply.State? then ResumeSettle(v, before, want, a.reply.state)
      else Settled(v, before, want, false, before)
    case SettleVerifying(before, want, durable) =>
      Settled(v, before, want, false, if a.reply == Verified(true) then durable else before)
    case Recording(own, payload) => ResumeRecord(v, own, payload, a.reply)
    case Releasing(reason, operator) => ResumeRelease(v, reason, operator, a.reply)
    case MergeReading(send) => if a.reply.State? then ResumeMerge(v, send, a.reply.state, a.reply.read) else v
    case MergeVerifying(send, version, durable, read) =>
      if a.reply == Verified(true) then ResumeMergeVerified(v, send, version, durable, read)
      else if a.reply == Verified(false) then Passed(v, send, read)
      else v
    case Settling(_, _) => v
    case WantLock(_) => v
    case Returning => v
  }

  function Next(w: World, step: Step): World
    requires Possible(w, step)
  {
    match step
    case Engage(want) =>
      var before := w.mem.kill;
      var flipped :=
        if before.engaged then w.mem
        else SetKill(w.mem, KillState(true, want.reason, Some(want.operator), before.seqNo, want.cancelOpen));
      w.(mem := flipped.(engaging := w.mem.engaging + 1), idle := w.idle + [Settling(before, want)])
    case BeginSettle(i) =>
      var task := w.idle[i];
      var v := w.(idle := Removed(w.idle, i));
      if w.mem.unrecorded.Some? then Settled(v, task.before, task.want, true, task.before)
      else v.(asked := v.asked + [SettleReading(task.before, task.want)])
    case TakeLock(i) =>
      var own := w.idle[i].own;
      var v := w.(idle := Removed(w.idle, i));
      if w.mem.unrecorded.None? then v.(idle := if own then v.idle + [Returning] else v.idle)
      else v.(mem := v.mem.(lock := true), asked := v.asked + [Recording(own, w.mem.unrecorded.value)])
    case Return(i) => w.(idle := Removed(w.idle, i), mem := w.mem.(engaging := w.mem.engaging - 1))
    case LoopRecord => w.(idle := w.idle + [WantLock(false)])
    case AskMerge(send) => w.(asked := w.asked + [MergeReading(send)])
    case AskRelease(reason, operator) => w.(asked := w.asked + [Releasing(reason, operator)])
    case Execute(ok, seqNo, intact) => Executed(w, ok, seqNo, intact)
    case Deliver => Delivered(w)
    case Elsewhere(row) => w.(rows := w.rows + [row])
  }

  // ----- What memory may claim -----

  predicate Ascending(rows: seq<KillRow>) {
    && (forall i :: 0 <= i < |rows| ==> rows[i].seqNo > 0)
    && (forall i, j :: 0 <= i < j < |rows| ==> rows[i].seqNo < rows[j].seqNo)
  }

  predicate HasEngage(rows: seq<KillRow>, seqNo: int) {
    exists i :: 0 <= i < |rows| && rows[i].seqNo == seqNo && IsEngage(rows[i])
  }

  predicate HasRelease(rows: seq<KillRow>, seqNo: int) {
    exists i :: 0 <= i < |rows| && rows[i].seqNo == seqNo && IsRelease(rows[i])
  }

  /** A state that is not engaged stands on a named release, or on nothing ever having happened. */
  predicate Honest(rows: seq<KillRow>, k: KillState) {
    !k.engaged ==> k.seqNo == 0 || HasRelease(rows, k.seqNo)
  }

  /** A state read from the journal: an engaged one stands on an engage or unreadable row as well. */
  predicate OnRecord(rows: seq<KillRow>, k: KillState) {
    Honest(rows, k) && (k.engaged ==> HasEngage(rows, k.seqNo)) && 0 <= k.seqNo
  }

  /** Every halt among the first `n` rows has a named release after it. */
  predicate AllReleased(rows: seq<KillRow>, n: nat) {
    forall k :: 0 <= k < n && k < |rows| && IsEngage(rows[k]) ==> !NoReleaseAfter(rows, k)
  }

  lemma {:induction false} FoldIsOnRecord(rows: seq<KillRow>)
    requires Ascending(rows)
    ensures OnRecord(rows, KillFold(rows)) && KillFold(rows).seqNo <= Last(rows)
    ensures forall k :: 0 <= k < |rows| && IsEngage(rows[k]) ==> rows[k].seqNo <= KillFold(rows).seqNo
  {
    if rows != [] {
      var init, last := rows[..|rows| - 1], rows[|rows| - 1];
      FoldIsOnRecord(init);
      OnRecordGrows(init, last, KillFold(init));
      assert init + [last] == rows;
      assert rows[|rows| - 1] == last;
    }
  }

  lemma OnRecordGrows(rows: seq<KillRow>, row: KillRow, k: KillState)
    ensures Honest(rows, k) ==> Honest(rows + [row], k)
    ensures OnRecord(rows, k) ==> OnRecord(rows + [row], k)
    ensures forall n :: HasEngage(rows, n) ==> HasEngage(rows + [row], n)
    ensures forall n :: HasRelease(rows, n) ==> HasRelease(rows + [row], n)
  {
    var all := rows + [row];
    forall n | HasEngage(rows, n) ensures HasEngage(all, n) {
      var i :| 0 <= i < |rows| && rows[i].seqNo == n && IsEngage(rows[i]);
      assert all[i] == rows[i];
    }
    forall n | HasRelease(rows, n) ensures HasRelease(all, n) {
      var i :| 0 <= i < |rows| && rows[i].seqNo == n && IsRelease(rows[i]);
      assert all[i] == rows[i];
    }
  }

  // ----- The invariant -----

  function Woken(answered: seq<Answer>): seq<Task> {
    seq(|answered|, i requires 0 <= i < |answered| => answered[i].task)
  }

  /** Every coroutine there is, wherever it waits. */
  function Pool(w: World): seq<Task> { w.idle + w.asked + Woken(w.answered) }

  function Engages(tasks: seq<Task>): nat {
    if tasks == [] then 0
    else Engages(tasks[..|tasks| - 1]) + (if tasks[|tasks| - 1].IsEngage() then 1 else 0)
  }

  predicate MemOk(rows: seq<KillRow>, m: Mem, heard: int) {
    && 0 <= m.kill.seqNo <= heard <= Last(rows)
    && Honest(rows, m.kill)
    && (m.unrecorded.Some? ==> m.kill.engaged)
  }

  /** What a coroutine remembers, against what memory is now. While no engage waits to be recorded,
      memory is never behind what an unsettled engage saw on the way in. */
  predicate TaskOk(rows: seq<KillRow>, m: Mem, heard: int, t: Task) {
    && (t.Undecided() ==>
          && Honest(rows, t.before) && 0 <= t.before.seqNo <= heard
          && (m.unrecorded.None? ==> t.before.seqNo <= m.kill.seqNo)
          && (m.unrecorded.None? && t.before.engaged && t.before.seqNo == m.kill.seqNo ==> m.kill.engaged))
    && (t.SettleVerifying? ==>
          OnRecord(rows, t.durable) && !t.durable.engaged && t.before.seqNo < t.durable.seqNo <= heard)
    && (t.MergeVerifying? ==>
          && OnRecord(rows, t.durable) && !t.durable.engaged && t.durable.seqNo <= heard
          && t.read <= |rows| && AllReleased(rows, t.read) && t.version <= m.version
          && (t.version == m.version ==> m.kill.engaged && m.kill.seqNo < t.durable.seqNo))
    && (t.Releasing? ==> NamesOperator(Detail(Some(t.operator), t.reason, false)))
  }

  predicate ReadOk(rows: seq<KillRow>, state: KillState, read: nat) {
    && OnRecord(rows, state) && read <= |rows|
    && (!state.engaged ==> AllReleased(rows, read))
    && (forall k :: 0 <= k < read && IsEngage(rows[k]) ==> rows[k].seqNo <= state.seqNo)
  }

  predicate AnswerOk(rows: seq<KillRow>, heard: int, a: Answer) {
    && heard <= a.stamp <= Last(rows) && a.task.Asks()
    && (a.reply.State? ==> ReadOk(rows, a.reply.state, a.reply.read) && a.reply.state.seqNo <= a.stamp)
    && (a.reply.Appended? ==>
          && a.reply.seqNo == a.stamp && heard < a.stamp
          && (a.task.Recording? ==> HasEngage(rows, a.stamp))
          && (a.task.Releasing? ==> HasRelease(rows, a.stamp)))
  }

  predicate AnswersOk(rows: seq<KillRow>, heard: int, answered: seq<Answer>) {
    && (forall i :: 0 <= i < |answered| ==> AnswerOk(rows, heard, answered[i]))
    && (forall i, j :: 0 <= i < j < |answered| ==>
          && answered[i].stamp <= answered[j].stamp
          && (answered[j].reply.Appended? ==> answered[i].stamp < answered[j].stamp))
  }

  /** An engaged memory with nothing waiting to be recorded is on the journal, or the engage that flipped
      it has yet to settle. */
  predicate Accounted(rows: seq<KillRow>, m: Mem, pool: seq<Task>) {
    m.unrecorded.None? && m.kill.engaged && !HasEngage(rows, m.kill.seqNo) ==>
      exists t :: t in pool && t.Undecided() && !t.before.engaged && t.before.seqNo == m.kill.seqNo
  }

  predicate TasksOk(w: World) { forall t :: t in Pool(w) ==> TaskOk(w.rows, w.mem, w.heard, t) }

  predicate PassedOk(w: World) { forall n :: n in w.passed ==> n <= |w.rows| && AllReleased(w.rows, n) }

  predicate Inv(w: World) {
    && Ascending(w.rows) && MemOk(w.rows, w.mem, w.heard) && AnswersOk(w.rows, w.heard, w.answered)
    && TasksOk(w) && Accounted(w.rows, w.mem, Pool(w)) && Engages(Pool(w)) == w.mem.engaging && PassedOk(w)
  }

  // ----- Moving coroutines about -----

  lemma {:induction false} EngagesConcat(a: seq<Task>, b: seq<Task>)
    ensures Engages(a + b) == Engages(a) + Engages(b)
  {
    if b == [] {
      assert a + b == a;
    } else {
      EngagesConcat(a, b[..|b| - 1]);
      assert (a + b)[..|a + b| - 1] == a + b[..|b| - 1];
    }
  }

  function One(t: Task): nat { if t.IsEngage() then 1 else 0 }

  lemma EngagesOne(t: Task)
    ensures Engages([t]) == One(t)
  {
    assert [t][..0] == [];
  }

  /** `pool` is `rest` with one coroutine more, somewhere. */
  ghost predicate Plus(pool: seq<Task>, rest: seq<Task>, t: Task) {
    && (forall u :: u in pool <==> u in rest || u == t)
    && Engages(pool) == Engages(rest) + One(t)
  }

  lemma PlusMiddle(a: seq<Task>, t: Task, b: seq<Task>)
    ensures Plus(a + [t] + b, a + b, t)
  {
    EngagesConcat(a + [t], b);
    EngagesConcat(a, [t]);
    EngagesConcat(a, b);
    EngagesOne(t);
    hide Engages;
    var pool, rest := a + [t] + b, a + b;
    forall u ensures u in pool <==> u in rest || u == t {
      assert u in pool <==> u in a || u == t || u in b;
    }
  }

  lemma AddIdle(w: World, t: Task)
    ensures Plus(Pool(w.(idle := w.idle + [t])), Pool(w), t)
  {
    PlusMiddle(w.idle, t, w.asked + Woken(w.answered));
    assert w.idle + [t] + (w.asked + Woken(w.answered)) == Pool(w.(idle := w.idle + [t]));
    assert w.idle + (w.asked + Woken(w.answered)) == Pool(w);
  }

  lemma AddAsked(w: World, t: Task)
    ensures Plus(Pool(w.(asked := w.asked + [t])), Pool(w), t)
  {
    PlusMiddle(w.idle + w.asked, t, Woken(w.answered));
    assert w.idle + w.asked + [t] + Woken(w.answered) == Pool(w.(asked := w.asked + [t]));
  }

  lemma RemoveIdle(w: World, i: nat)
    requires i < |w.idle|
    ensures Plus(Pool(w), Pool(w.(idle := Removed(w.idle, i))), w.idle[i])
  {
    var a, b := w.idle[..i], w.idle[i + 1..] + w.asked + Woken(w.answered);
    PlusMiddle(a, w.idle[i], b);
    assert w.idle == a + [w.idle[i]] + w.idle[i + 1..];
    assert a + [w.idle[i]] + b == Pool(w);
    assert a + b == Pool(w.(idle := Removed(w.idle, i)));
  }

  lemma PopAnswered(w: World)
    requires w.answered != []
    ensures Plus(Pool(w), Pool(w.(answered := w.answered[1..])), w.answered[0].task)
  {
    var a, b := w.idle + w.asked, Woken(w.answered[1..]);
    PlusMiddle(a, w.answered[0].task, b);
    assert Woken(w.answered) == [w.answered[0].task] + b;
    assert a + [w.answered[0].task] + b == Pool(w);
    assert a + b == Pool(w.(answered := w.answered[1..]));
  }

  /** An executed call moves from one queue to the other; no coroutine comes or goes. */
  lemma ExecutedMoves(w: World, rows: seq<KillRow>, a: Answer)
    requires w.asked != [] && a.task == w.asked[0]
    ensures var w' := w.(rows := rows, asked := w.asked[1..], answered := w.answered + [a]);
            && (forall u :: u in Pool(w') <==> u in Pool(w)) && Engages(Pool(w')) == Engages(Pool(w))
  {
    var w' := w.(rows := rows, asked := w.asked[1..], answered := w.answered + [a]);
    var i, r, k := w.idle, w.asked[1..], Woken(w.answered);
    assert w.asked == [a.task] + r;
    assert Woken(w.answered + [a]) == k + [a.task];
    PlusMiddle(i, a.task, r + k);
    PlusMiddle(i + r + k, a.task, []);
    assert i + [a.task] + (r + k) == Pool(w);
    assert i + r + k + [a.task] + [] == Pool(w') && i + r + k + [] == i + (r + k);
    hide Pool, Engages;
  }

  // ----- One coroutine in hand -----

  /** How memory may move: whoever saw it before is not behind it, and is not told less than it saw. */
  predicate MemMoves(m: Mem, m': Mem, floor: int) {
    && m.version <= m'.version && (m'.version == m.version ==> m'.kill == m.kill)
    && (m'.unrecorded.None? ==>
          || floor < m'.kill.seqNo
          || (m.unrecorded.None? && m.kill.seqNo < m'.kill.seqNo)
          || (m.unrecorded.None? && m.kill.seqNo == m'.kill.seqNo && (m.kill.engaged ==> m'.kill.engaged)))
  }

  lemma TaskSurvives(rows: seq<KillRow>, m: Mem, floor: int, m': Mem, heard: int, t: Task)
    requires TaskOk(rows, m, floor, t) && MemMoves(m, m', floor) && floor <= heard
    ensures TaskOk(rows, m', heard, t)
  {
    hide Honest, OnRecord, AllReleased, NamesOperator;
  }

  /** The world with one coroutine awake: what it and the others remember is no newer than `floor`. */
  predicate Awake(w: World, t: Task, floor: int) {
    && Ascending(w.rows) && MemOk(w.rows, w.mem, w.heard) && w.mem.kill.seqNo <= floor <= w.heard
    && AnswersOk(w.rows, w.heard, w.answered) && PassedOk(w)
    && (forall u :: u in Pool(w) ==> TaskOk(w.rows, w.mem, floor, u)) && TaskOk(w.rows, w.mem, floor, t)
    && Accounted(w.rows, w.mem, Pool(w) + [t]) && Engages(Pool(w)) + One(t) == w.mem.engaging
  }

  /** The awake coroutine leaves memory as `m'` and goes on as `t'`, or ends. */
  lemma GoesOn(w: World, t: Task, floor: int, m': Mem, t': Task, idle: bool)
    requires Awake(w, t, floor) && MemMoves(w.mem, m', floor) && MemOk(w.rows, m', w.heard)
    requires m'.engaging == w.mem.engaging && One(t') == One(t) && TaskOk(w.rows, m', w.heard, t')
    requires Accounted(w.rows, m', Pool(w) + [t'])
    ensures var v := w.(mem := m');
            Inv(if idle then v.(idle := v.idle + [t']) else v.(asked := v.asked + [t']))
  {
    var v := w.(mem := m');
    AddIdle(v, t');
    AddAsked(v, t');
    var w' := if idle then v.(idle := v.idle + [t']) else v.(asked := v.asked + [t']);
    assert Pool(v) == Pool(w);
    hide Pool, Engages, Ascending, MemOk, AnswersOk, PassedOk, MemMoves;
    forall u | u in Pool(w') ensures TaskOk(w'.rows, w'.mem, w'.heard, u) {
      if u != t' { TaskSurvives(w.rows, w.mem, floor, m', w.heard, u); }
    }
    SamePool(w.rows, m', Pool(w) + [t'], Pool(w'));
  }

  lemma SamePool(rows: seq<KillRow>, m: Mem, a: seq<Task>, b: seq<Task>)
    requires Accounted(rows, m, a) && forall u :: u in a ==> u in b
    ensures Accounted(rows, m, b)
  {
    hide HasEngage;
  }

  lemma Ends(w: World, t: Task, floor: int, m': Mem)
    requires Awake(w, t, floor) && MemMoves(w.mem, m', floor) && MemOk(w.rows, m', w.heard)
    requires m'.engaging == w.mem.engaging && One(t) == 0
    requires Accounted(w.rows, m', Pool(w))
    ensures Inv(w.(mem := m'))
  {
    var w' := w.(mem := m');
    assert Pool(w') == Pool(w);
    hide Pool, Engages, Ascending, MemOk, AnswersOk, PassedOk, MemMoves, Accounted;
    forall u | u in Pool(w') ensures TaskOk(w'.rows, w'.mem, w'.heard, u) {
      TaskSurvives(w.rows, w.mem, floor, m', w.heard, u);
    }
  }

  lemma WitnessElsewhere(rows: seq<KillRow>, m: Mem, pool: seq<Task>, t: Task)
    requires Accounted(rows, m, pool + [t])
    requires t.Undecided() ==> t.before.engaged || t.before.seqNo != m.kill.seqNo
    ensures Accounted(rows, m, pool)
  {
    hide HasEngage;
    if m.unrecorded.None? && m.kill.engaged && !HasEngage(rows, m.kill.seqNo) {
      var u :| u in pool + [t] && u.Undecided() && !u.before.engaged && u.before.seqNo == m.kill.seqNo;
      assert u in pool;
    }
  }

  lemma MoreTasks(rows: seq<KillRow>, m: Mem, pool: seq<Task>, t: Task)
    requires Accounted(rows, m, pool)
    ensures Accounted(rows, m, pool + [t])
  {
    hide HasEngage;
  }

  /** An engage that has read the journal settles: memory stays engaged, and what it holds is on record,
      waits to be recorded, or is another engage's to settle. */
  lemma SettledOk(w: World, t: Task, floor: int, read: KillState)
    requires Awake(w, t, floor) && (t.SettleReading? || t.SettleVerifying?)
    requires t.before.seqNo <= read.seqNo <= w.heard && 0 <= read.seqNo
    requires read.engaged ==> HasEngage(w.rows, read.seqNo) || read == t.before
    ensures Inv(Settled(w, t.before, t.want, false, read))
  {
    var m := w.mem;
    var (m', t') := Decide(m, t.before, t.want, false, read);
    hide HasEngage, Pool, Engages, Ascending, AnswersOk, PassedOk, AllReleased, HasRelease, NamesOperator;
    assert m'.kill.engaged;
    assert MemMoves(m, m', floor);
    if m.unrecorded.Some? || m.kill.seqNo > read.seqNo {
      if m.unrecorded.None? && m'.unrecorded.None? {
        WitnessElsewhere(w.rows, m, Pool(w), t);
        assert Accounted(w.rows, m', Pool(w));
      }
    } else if m'.unrecorded.None? && !HasEngage(w.rows, read.seqNo) {
      assert read == t.before && m.kill.seqNo == read.seqNo && m.kill.engaged;
      WitnessElsewhere(w.rows, m, Pool(w), t);
      assert Accounted(w.rows, m', Pool(w));
    }
    assert Accounted(w.rows, m', Pool(w));
    MoreTasks(w.rows, m', Pool(w), t');
    GoesOn(w, t, floor, m', t', true);
  }

  /** An engage that finds another waiting to be recorded: it leaves it, or replaces it. */
  lemma SettledPendingOk(w: World, t: Task, floor: int)
    requires Awake(w, t, floor) && t.Settling? && w.mem.unrecorded.Some?
    ensures Inv(Settled(w, t.before, t.want, true, t.before))
  {
    var (m', t') := Decide(w.mem, t.before, t.want, true, t.before);
    hide HasEngage, Pool, Engages, Ascending, AnswersOk, PassedOk, AllReleased, HasRelease, NamesOperator;
    assert MemMoves(w.mem, m', floor);
    GoesOn(w, t, floor, m', t', true);
  }

  lemma ResumeSettleOk(w: World, t: Task, floor: int, durable: KillState)
    requires Awake(w, t, floor) && t.SettleReading? && OnRecord(w.rows, durable) && durable.seqNo <= w.heard
    ensures Inv(ResumeSettle(w, t.before, t.want, durable))
  {
    hide HasEngage, Pool, Engages, Ascending, AnswersOk, PassedOk, AllReleased, HasRelease, NamesOperator;
    match Newer(t.before, durable)
    case Keep => SettledOk(w, t, floor, t.before);
    case Take => SettledOk(w, t, floor, durable);
    case MustVerify =>
      var t' := SettleVerifying(t.before, t.want, durable);
      SameBefore(w.rows, w.mem, Pool(w), t, t');
      GoesOn(w, t, floor, w.mem, t', false);
  }

  lemma SameBefore(rows: seq<KillRow>, m: Mem, pool: seq<Task>, t: Task, t': Task)
    requires Accounted(rows, m, pool + [t]) && t.Undecided() && t'.Undecided() && t'.before == t.before
    ensures Accounted(rows, m, pool + [t'])
  {
    hide HasEngage;
    if m.unrecorded.None? && m.kill.engaged && !HasEngage(rows, m.kill.seqNo) {
      var u :| u in pool + [t] && u.Undecided() && !u.before.engaged && u.before.seqNo == m.kill.seqNo;
      if u != t { assert u in pool + [t']; } else { assert t' in pool + [t']; }
    }
  }

  /** The record lands, late, superseded or not at all. */
  lemma ResumeRecordOk(w: World, t: Task, floor: int, reply: Reply)
    requires Awake(w, t, floor) && t.Recording?
    requires reply.Appended? ==> HasEngage(w.rows, reply.seqNo) && floor < reply.seqNo <= w.heard
    ensures Inv(ResumeRecord(w, t.own, t.payload, reply))
  {
    var m' := ResumeRecord(w, t.own, t.payload, reply).mem;
    hide HasEngage, Pool, Engages, Ascending, AnswersOk, PassedOk, AllReleased, HasRelease, NamesOperator;
    assert MemMoves(w.mem, m', floor);
    WitnessElsewhere(w.rows, w.mem, Pool(w), t);
    assert Accounted(w.rows, m', Pool(w));
    if t.own {
      MoreTasks(w.rows, m', Pool(w), Returning);
      GoesOn(w, t, floor, m', Returning, true);
    } else {
      Ends(w, t, floor, m');
    }
  }

  lemma ResumeReleaseOk(w: World, t: Task, floor: int, reply: Reply)
    requires Awake(w, t, floor) && t.Releasing?
    requires reply.Appended? ==> HasRelease(w.rows, reply.seqNo) && floor < reply.seqNo <= w.heard
    ensures Inv(ResumeRelease(w, t.reason, t.operator, reply))
  {
    var w' := ResumeRelease(w, t.reason, t.operator, reply);
    hide HasEngage, Pool, Engages, Ascending, AnswersOk, PassedOk, AllReleased, HasRelease, NamesOperator;
    assert MemMoves(w.mem, w'.mem, floor);
    WitnessElsewhere(w.rows, w.mem, Pool(w), t);
    assert Accounted(w.rows, w'.mem, Pool(w));
    Ends(w, t, floor, w'.mem);
  }

  // ----- Sends let through -----

  lemma PassOk(w: World, send: bool, n: nat)
    requires Inv(w) && n <= |w.rows| && (send && !w.mem.kill.engaged ==> AllReleased(w.rows, n))
    ensures Inv(Passed(w, send, n))
  {
    hide Ascending, MemOk, AnswersOk, Accounted, AllReleased, Engages;
    var w' := Passed(w, send, n);
    assert Pool(w') == Pool(w);
    hide Pool;
  }

  lemma LastIsLargest(rows: seq<KillRow>)
    requires Ascending(rows)
    ensures forall i :: 0 <= i < |rows| ==> rows[i].seqNo <= Last(rows)
  {
  }

  /** A named release numbered after every engage in the first `n` rows comes after them all. */
  lemma ReleasedByLater(rows: seq<KillRow>, n: nat, bound: int, seqNo: int)
    requires Ascending(rows) && n <= |rows| && HasRelease(rows, seqNo) && bound < seqNo
    requires forall k :: 0 <= k < n && IsEngage(rows[k]) ==> rows[k].seqNo <= bound
    ensures AllReleased(rows, n)
  {
    var j :| 0 <= j < |rows| && rows[j].seqNo == seqNo && IsRelease(rows[j]);
    forall k | 0 <= k < n && IsEngage(rows[k]) ensures !NoReleaseAfter(rows, k) {
      assert rows[k].seqNo < rows[j].seqNo;
      assert k < j;
    }
  }

  /** A row is an engage or a named release, never both. */
  lemma NotBoth(rows: seq<KillRow>, seqNo: int)
    requires Ascending(rows) && HasEngage(rows, seqNo)
    ensures !HasRelease(rows, seqNo) && seqNo > 0
  {
    var i :| 0 <= i < |rows| && rows[i].seqNo == seqNo && IsEngage(rows[i]);
    forall j | 0 <= j < |rows| && rows[j].seqNo == seqNo ensures j == i { }
  }

  /** Memory that keeps itself against what was read, and is not engaged, is newer than every halt read. */
  lemma KeptMeansReleased(rows: seq<KillRow>, kill: KillState, durable: KillState, read: nat)
    requires Ascending(rows) && Honest(rows, kill) && 0 <= kill.seqNo && ReadOk(rows, durable, read)
    requires Newer(kill, durable).Keep? && !kill.engaged
    ensures AllReleased(rows, read)
  {
    if durable.engaged {
      NotBoth(rows, durable.seqNo);
      hide HasEngage, HasRelease, Ascending, AllReleased;
      ReleasedByLater(rows, read, durable.seqNo, kill.seqNo);
    }
  }

  lemma ResumeMergeOk(w: World, t: Task, floor: int, durable: KillState, read: nat)
    requires Awake(w, t, floor) && t.MergeReading? && ReadOk(w.rows, durable, read) && durable.seqNo <= w.heard
    ensures Inv(ResumeMerge(w, t.send, durable, read))
  {
    hide HasEngage, Pool, Engages, Ascending, AnswersOk, PassedOk, AllReleased, HasRelease, NamesOperator;
    var m := w.mem;
    WitnessElsewhere(w.rows, m, Pool(w), t);
    Ends(w, t, floor, m);
    assert w == w.(mem := m);
    if m.unrecorded.Some? || (m.engaging > 0 && !durable.engaged) {
      PassOk(w, t.send, read);
    } else {
      match Newer(m.kill, durable)
      case Keep =>
        if !m.kill.engaged { KeptMeansReleased(w.rows, m.kill, durable, read); }
        PassOk(w, t.send, read);
      case Take =>
        assert MemMoves(m, SetKill(m, durable), floor);
        Ends(w, t, floor, SetKill(m, durable));
        PassOk(w.(mem := SetKill(m, durable)), t.send, read);
      case MustVerify =>
        var t' := MergeVerifying(t.send, m.version, durable, read);
        MoreTasks(w.rows, m, Pool(w), t');
        GoesOn(w, t, floor, m, t', false);
    }
  }

  lemma ResumeMergeVerifiedOk(w: World, t: Task, floor: int)
    requires Awake(w, t, floor) && t.MergeVerifying?
    ensures Inv(ResumeMergeVerified(w, t.send, t.version, t.durable, t.read))
    ensures Inv(Passed(w, t.send, t.read)) && Inv(w)
  {
    hide HasEngage, Pool, Engages, Ascending, AnswersOk, PassedOk, AllReleased, HasRelease, NamesOperator;
    var m := w.mem;
    WitnessElsewhere(w.rows, m, Pool(w), t);
    Ends(w, t, floor, m);
    assert w == w.(mem := m);
    PassOk(w, t.send, t.read);
    if m.engaging == 0 && t.version == m.version && m.unrecorded.None? {
      assert MemMoves(m, SetKill(m, t.durable), floor);
      Ends(w, t, floor, SetKill(m, t.durable));
      PassOk(w.(mem := SetKill(m, t.durable)), t.send, t.read);
    }
  }

  // ----- Every step -----

  /** Taking the first answer wakes its coroutine; what everyone knew before is no newer than what had
      been heard, and an append just answered is newer than all of it. */
  lemma Wake(w: World)
    requires Inv(w) && w.answered != []
    ensures var a := w.answered[0];
            Awake(w.(answered := w.answered[1..], heard := a.stamp), a.task, w.heard) && AnswerOk(w.rows, w.heard, a)
  {
    var a := w.answered[0];
    var v := w.(answered := w.answered[1..], heard := a.stamp);
    PopAnswered(w);
    assert Pool(v) == Pool(w.(answered := w.answered[1..]));
    hide Pool, Engages, Ascending, AllReleased, HasEngage;
    assert AnswersOk(v.rows, v.heard, v.answered) by {
      hide ReadOk, HasRelease;
      forall i | 0 <= i < |v.answered| ensures AnswerOk(v.rows, v.heard, v.answered[i]) {
        assert v.answered[i] == w.answered[i + 1];
        assert AnswerOk(w.rows, w.heard, w.answered[i + 1]);
      }
    }
    assert AnswerOk(w.rows, w.heard, a);
    hide TaskOk, AnswersOk, AnswerOk;
    assert a.task in Pool(w);
    forall u | u in Pool(v) ensures TaskOk(v.rows, v.mem, w.heard, u) { assert u in Pool(w); }
    SamePool(w.rows, w.mem, Pool(w), Pool(v) + [a.task]);
  }

  lemma DeliverOk(w: World)
    requires Inv(w) && w.answered != []
    ensures Inv(Delivered(w))
  {
    hide Inv, Pool, Engages, Ascending, AnswersOk, PassedOk, AllReleased, HasRelease, HasEngage, ReadOk;
    var a := w.answered[0];
    var v := w.(answered := w.answered[1..], heard := a.stamp);
    Wake(w);
    var t, floor := a.task, w.heard;
    match t
    case SettleReading(before, want) =>
      if a.reply.State? {
        ReadIsOnRecord(v.rows, a.reply.state, a.reply.read);
        ResumeSettleOk(v, t, floor, a.reply.state);
      } else {
        SettledOk(v, t, floor, before);
      }
    case SettleVerifying(before, want, durable) =>
      SettledOk(v, t, floor, if a.reply == Verified(true) then durable else before);
    case Recording(own, payload) => ResumeRecordOk(v, t, floor, a.reply);
    case Releasing(reason, operator) => ResumeReleaseOk(v, t, floor, a.reply);
    case MergeReading(send) =>
      if a.reply.State? { ResumeMergeOk(v, t, floor, a.reply.state, a.reply.read); } else { NothingRead(v, t, floor); }
    case MergeVerifying(send, version, durable, read) => ResumeMergeVerifiedOk(v, t, floor);
    case _ => assert false;
  }

  lemma ReadIsOnRecord(rows: seq<KillRow>, state: KillState, read: nat)
    requires ReadOk(rows, state, read)
    ensures OnRecord(rows, state)
  {
  }

  lemma NothingRead(w: World, t: Task, floor: int)
    requires Awake(w, t, floor) && t.MergeReading?
    ensures Inv(w)
  {
    hide HasEngage, Pool, Engages, Ascending, AnswersOk, PassedOk, AllReleased, HasRelease, NamesOperator;
    WitnessElsewhere(w.rows, w.mem, Pool(w), t);
    Ends(w, t, floor, w.mem);
    assert w == w.(mem := w.mem);
  }

  lemma ReleasedGrows(rows: seq<KillRow>, row: KillRow, n: nat)
    requires AllReleased(rows, n) && n <= |rows|
    ensures AllReleased(rows + [row], n)
  {
    var all := rows + [row];
    forall k | 0 <= k < n && IsEngage(all[k]) ensures !NoReleaseAfter(all, k) {
      assert all[k] == rows[k] && !NoReleaseAfter(rows, k);
      var j :| k < j < |rows| && IsRelease(rows[j]);
      assert all[j] == rows[j];
    }
  }

  lemma TaskGrows(rows: seq<KillRow>, row: KillRow, m: Mem, heard: int, t: Task)
    requires TaskOk(rows, m, heard, t)
    ensures TaskOk(rows + [row], m, heard, t)
  {
    hide HasEngage, HasRelease, AllReleased, Honest, OnRecord, NamesOperator;
    if t.Undecided() { OnRecordGrows(rows, row, t.before); }
    if t.SettleVerifying? { OnRecordGrows(rows, row, t.durable); }
    if t.MergeVerifying? { OnRecordGrows(rows, row, t.durable); ReleasedGrows(rows, row, t.read); }
  }

  lemma AnswerGrows(rows: seq<KillRow>, row: KillRow, heard: int, a: Answer)
    requires AnswerOk(rows, heard, a) && row.seqNo > Last(rows)
    ensures AnswerOk(rows + [row], heard, a)
  {
    var all := rows + [row];
    hide HasEngage, HasRelease, AllReleased, Honest, OnRecord;
    if a.reply.State? {
      OnRecordGrows(rows, row, a.reply.state);
      if !a.reply.state.engaged { ReleasedGrows(rows, row, a.reply.read); }
      assert ReadOk(all, a.reply.state, a.reply.read) by {
        forall k | 0 <= k < a.reply.read && IsEngage(all[k]) ensures all[k].seqNo <= a.reply.state.seqNo {
          assert all[k] == rows[k];
        }
      }
      hide ReadOk;
    }
    OnRecordGrows(rows, row, NEVER_ENGAGED);
  }

  /** Another row on the journal, from whichever process, takes nothing back. */
  lemma RowsGrow(w: World, row: KillRow)
    requires Inv(w) && row.seqNo > Last(w.rows)
    ensures Inv(w.(rows := w.rows + [row]))
  {
    var w' := w.(rows := w.rows + [row]);
    assert Pool(w') == Pool(w);
    LastIsLargest(w.rows);
    assert Ascending(w'.rows);
    OnRecordGrows(w.rows, row, w.mem.kill);
    assert Last(w'.rows) == row.seqNo;
    hide Ascending, Pool, Engages, HasEngage, HasRelease, AllReleased, TaskOk, AnswerOk, Honest, Last;
    forall t | t in Pool(w') ensures TaskOk(w'.rows, w'.mem, w'.heard, t) {
      TaskGrows(w.rows, row, w.mem, w.heard, t);
    }
    forall i | 0 <= i < |w.answered| ensures AnswerOk(w'.rows, w.heard, w.answered[i]) {
      AnswerGrows(w.rows, row, w.heard, w.answered[i]);
    }
    forall n | n in w.passed ensures n <= |w'.rows| && AllReleased(w'.rows, n) {
      ReleasedGrows(w.rows, row, n);
    }
  }

  lemma ReadNow(rows: seq<KillRow>)
    requires Ascending(rows)
    ensures ReadOk(rows, KillFold(rows), |rows|) && KillFold(rows).seqNo <= Last(rows)
  {
    FoldIsOnRecord(rows);
    EngagedIffHaltedOnRecord(rows);
    hide KillFold, Ascending, HasEngage, HasRelease;
    assert !KillFold(rows).engaged ==> AllReleased(rows, |rows|) by {
      if !KillFold(rows).engaged {
        forall k | 0 <= k < |rows| && IsEngage(rows[k]) ensures !NoReleaseAfter(rows, k) { }
      }
    }
  }

  /** The executor answers one call; the answer is stamped with the rows as they then are. */
  lemma AnsweredOk(w: World, a: Answer)
    requires Inv(w) && w.asked != [] && a.task == w.asked[0] && a.task.Asks()
    requires a.stamp == Last(w.rows)
    requires a.reply.State? ==> ReadOk(w.rows, a.reply.state, a.reply.read) && a.reply.state.seqNo <= a.stamp
    requires a.reply.Appended? ==>
      && a.reply.seqNo == a.stamp && w.heard < a.stamp
      && (forall i :: 0 <= i < |w.answered| ==> w.answered[i].stamp < a.stamp)
      && (a.task.Recording? ==> HasEngage(w.rows, a.stamp)) && (a.task.Releasing? ==> HasRelease(w.rows, a.stamp))
    ensures Inv(w.(asked := w.asked[1..], answered := w.answered + [a]))
  {
    var w' := w.(asked := w.asked[1..], answered := w.answered + [a]);
    ExecutedMoves(w, w.rows, a);
    hide Pool, Engages, Ascending, HasEngage, HasRelease, AllReleased, TaskOk, ReadOk;
    SamePool(w.rows, w.mem, Pool(w), Pool(w'));
    hide Accounted, MemOk;
    forall i | 0 <= i < |w'.answered| ensures AnswerOk(w'.rows, w'.heard, w'.answered[i]) {
      if i < |w.answered| { assert AnswerOk(w.rows, w.heard, w.answered[i]); }
    }
    forall i, j | 0 <= i < j < |w'.answered|
      ensures w'.answered[i].stamp <= w'.answered[j].stamp
           && (w'.answered[j].reply.Appended? ==> w'.answered[i].stamp < w'.answered[j].stamp)
    {
      assert AnswerOk(w.rows, w.heard, w.answered[i]);
      if j < |w.answered| {
      } else {
        assert w'.answered[j] == a;
      }
    }
  }

  lemma ExecutorKnows(w: World)
    requires Inv(w) && w.asked != []
    ensures TaskOk(w.rows, w.mem, w.heard, w.asked[0])
    ensures w.heard <= Last(w.rows) && forall i :: 0 <= i < |w.answered| ==> w.answered[i].stamp <= Last(w.rows)
    ensures ReadOk(w.rows, KillFold(w.rows), |w.rows|) && KillFold(w.rows).seqNo <= Last(w.rows)
  {
    ReadNow(w.rows);
    assert w.asked[0] in Pool(w) by { assert Pool(w)[|w.idle|] == w.asked[0]; }
    hide Ascending, KillFold, ReadOk, Pool, TaskOk, Engages, HasEngage, HasRelease, AllReleased;
    forall i | 0 <= i < |w.answered| ensures w.answered[i].stamp <= Last(w.rows) {
      assert AnswerOk(w.rows, w.heard, w.answered[i]);
    }
  }

  /** An append the executor makes: its row, then its answer. */
  lemma ExecuteAppendOk(w: World, row: KillRow)
    requires Inv(w) && w.asked != [] && (w.asked[0].Recording? || w.asked[0].Releasing?) && row.seqNo > Last(w.rows)
    requires (w.asked[0].Recording? ==> IsEngage(row)) && (w.asked[0].Releasing? ==> IsRelease(row))
    ensures Inv(w.(rows := w.rows + [row], asked := w.asked[1..],
                   answered := w.answered + [Answer(w.asked[0], Appended(row.seqNo), row.seqNo)]))
  {
    ExecutorKnows(w);
    RowsGrow(w, row);
    var v := w.(rows := w.rows + [row]);
    assert v.rows[|w.rows|] == row;
    assert w.asked[0].Recording? ==> HasEngage(v.rows, row.seqNo);
    assert w.asked[0].Releasing? ==> HasRelease(v.rows, row.seqNo);
    hide Inv, KillFold, ReadOk, TaskOk, HasEngage, HasRelease;
    AnsweredOk(v, Answer(w.asked[0], Appended(row.seqNo), row.seqNo));
  }

  lemma ExecuteOk(w: World, ok: bool, seqNo: int, intact: bool)
    requires Inv(w) && Possible(w, Execute(ok, seqNo, intact))
    ensures Inv(Executed(w, ok, seqNo, intact))
  {
    var task := w.asked[0];
    ExecutorKnows(w);
    hide Inv, KillFold, ReadOk;
    if ok && task.Recording? {
      ExecuteAppendOk(w, EngageRow(task.payload, seqNo));
    } else if ok && task.Releasing? {
      ExecuteAppendOk(w, ReleaseRow(task.reason, task.operator, seqNo));
    } else {
      var w' := Executed(w, ok, seqNo, intact);
      AnsweredOk(w, w'.answered[|w.answered|]);
    }
  }

  lemma FlipOk(w: World, want: Want, m': Mem)
    requires Inv(w) && m' == Next(w, Engage(want)).mem
    ensures MemMoves(w.mem, m', w.heard) && MemOk(w.rows, m', w.heard) && m'.engaging == w.mem.engaging + 1
    ensures TaskOk(w.rows, m', w.heard, Settling(w.mem.kill, want))
    ensures w.mem.kill.engaged ==> m'.kill == w.mem.kill && m'.unrecorded == w.mem.unrecorded
    ensures !w.mem.kill.engaged ==> m'.kill.seqNo == w.mem.kill.seqNo
  {
    hide Pool, Engages, Ascending, HasEngage, HasRelease, AllReleased, AnswersOk, PassedOk, NamesOperator;
  }

  lemma EngageOk(w: World, want: Want)
    requires Inv(w)
    ensures Inv(Next(w, Engage(want)))
  {
    var before, w' := w.mem.kill, Next(w, Engage(want));
    var t, v := Settling(before, want), w.(mem := w'.mem);
    assert Pool(v) == Pool(w);
    AddIdle(v, t);
    FlipOk(w, want, w'.mem);
    hide Pool, Engages, Ascending, HasEngage, HasRelease, AllReleased, AnswersOk, PassedOk, TaskOk, MemMoves, MemOk;
    forall u | u in Pool(w') ensures TaskOk(w'.rows, w'.mem, w'.heard, u) {
      if u != t { TaskSurvives(w.rows, w.mem, w.heard, w'.mem, w.heard, u); }
    }
    if before.engaged {
      SamePool(w.rows, w.mem, Pool(w), Pool(w'));
    } else {
      assert t in Pool(w');
    }
  }

  /** A coroutine off the event loop, about to run. */
  lemma WakeIdle(w: World, i: nat)
    requires Inv(w) && i < |w.idle|
    ensures Awake(w.(idle := Removed(w.idle, i)), w.idle[i], w.heard)
  {
    var v := w.(idle := Removed(w.idle, i));
    RemoveIdle(w, i);
    hide Pool, Engages, Ascending, HasEngage, HasRelease, AllReleased, AnswersOk, TaskOk;
    assert w.idle[i] in Pool(w);
    SamePool(w.rows, w.mem, Pool(w), Pool(v) + [w.idle[i]]);
  }

  lemma BeginSettleOk(w: World, i: nat)
    requires Inv(w) && Possible(w, BeginSettle(i))
    ensures Inv(Next(w, BeginSettle(i)))
  {
    var t := w.idle[i];
    var v := w.(idle := Removed(w.idle, i));
    WakeIdle(w, i);
    hide Inv, Pool, Engages, Ascending, HasEngage, HasRelease, AllReleased, AnswersOk, PassedOk;
    if w.mem.unrecorded.Some? {
      SettledPendingOk(v, t, w.heard);
    } else {
      var t' := SettleReading(t.before, t.want);
      SameBefore(v.rows, v.mem, Pool(v), t, t');
      GoesOn(v, t, w.heard, v.mem, t', false);
      assert v.(mem := v.mem) == v;
    }
  }

  lemma TakeLockOk(w: World, i: nat)
    requires Inv(w) && Possible(w, TakeLock(i))
    ensures Inv(Next(w, TakeLock(i)))
  {
    var t := w.idle[i];
    var v := w.(idle := Removed(w.idle, i));
    WakeIdle(w, i);
    hide Inv, Pool, Engages, Ascending, HasEngage, HasRelease, AllReleased, AnswersOk, PassedOk;
    WitnessElsewhere(v.rows, v.mem, Pool(v), t);
    assert v.(mem := v.mem) == v;
    if w.mem.unrecorded.Some? {
      var m', t' := v.mem.(lock := true), Recording(t.own, w.mem.unrecorded.value);
      assert Accounted(v.rows, m', Pool(v) + [t']);
      GoesOn(v, t, w.heard, m', t', false);
    } else if t.own {
      MoreTasks(v.rows, v.mem, Pool(v), Returning);
      GoesOn(v, t, w.heard, v.mem, Returning, true);
    } else {
      Ends(v, t, w.heard, v.mem);
    }
  }

  lemma ReturnOk(w: World, i: nat)
    requires Inv(w) && Possible(w, Return(i))
    ensures Inv(Next(w, Return(i)))
  {
    var v, w' := w.(idle := Removed(w.idle, i)), Next(w, Return(i));
    WakeIdle(w, i);
    assert Pool(w') == Pool(v);
    hide Pool, Engages, Ascending, HasEngage, HasRelease, AllReleased, AnswersOk, PassedOk;
    WitnessElsewhere(v.rows, v.mem, Pool(v), Returning);
    assert MemMoves(v.mem, w'.mem, w.heard);
    forall u | u in Pool(w') ensures TaskOk(w'.rows, w'.mem, w'.heard, u) {
      TaskSurvives(v.rows, v.mem, w.heard, w'.mem, w.heard, u);
    }
  }

  /** A coroutine that has read nothing yet joins the others. */
  lemma JoinsOk(w: World, t: Task, idle: bool)
    requires Inv(w) && One(t) == 0 && TaskOk(w.rows, w.mem, w.heard, t)
    ensures Inv(if idle then w.(idle := w.idle + [t]) else w.(asked := w.asked + [t]))
  {
    AddIdle(w, t);
    AddAsked(w, t);
    var w' := if idle then w.(idle := w.idle + [t]) else w.(asked := w.asked + [t]);
    hide Pool, Engages, Ascending, AnswersOk, MemOk, TaskOk, AllReleased;
    SamePool(w.rows, w.mem, Pool(w), Pool(w'));
  }

  lemma StepKeeps(w: World, step: Step)
    requires Inv(w) && Possible(w, step)
    ensures Inv(Next(w, step))
  {
    hide Inv;
    match step
    case Engage(want) => EngageOk(w, want);
    case BeginSettle(i) => BeginSettleOk(w, i);
    case TakeLock(i) => TakeLockOk(w, i);
    case Return(i) => ReturnOk(w, i);
    case LoopRecord => JoinsOk(w, WantLock(false), true);
    case AskMerge(send) => JoinsOk(w, MergeReading(send), false);
    case AskRelease(reason, operator) => JoinsOk(w, Releasing(reason, operator), false);
    case Execute(ok, seqNo, intact) => ExecuteOk(w, ok, seqNo, intact);
    case Deliver => DeliverOk(w);
    case Elsewhere(row) => RowsGrow(w, row);
  }

  /** A run; a step that is not possible where it comes is skipped. */
  function Run(w: World, steps: seq<Step>): World {
    if steps == [] then w else
    var before := Run(w, steps[..|steps| - 1]);
    if Possible(before, steps[|steps| - 1]) then Next(before, steps[|steps| - 1]) else before
  }

  /** A process starts with the journal's own reading of the switch, however the journal came to be. */
  function Fresh(rows: seq<KillRow>): World {
    World(rows, Mem(KillFold(rows), 0, None, 0, false, 0), [], [], [], Last(rows), [])
  }

  lemma FreshIsOk(rows: seq<KillRow>)
    requires Ascending(rows)
    ensures Inv(Fresh(rows))
  {
    FoldIsOnRecord(rows);
    assert Pool(Fresh(rows)) == [];
    hide KillFold, Ascending, HasEngage, HasRelease;
  }

  lemma {:induction false} RunKeeps(rows: seq<KillRow>, steps: seq<Step>)
    requires Ascending(rows)
    ensures Inv(Run(Fresh(rows), steps))
  {
    if steps == [] {
      FreshIsOk(rows);
    } else {
      RunKeeps(rows, steps[..|steps| - 1]);
      hide Inv, Next, Possible;
      var before := Run(Fresh(rows), steps[..|steps| - 1]);
      if Possible(before, steps[|steps| - 1]) { StepKeeps(before, steps[|steps| - 1]); }
    }
  }

  // ----- What the switch promises -----

  /** Over all interleavings, with other processes appending what they like: an engage waiting to be
      recorded means memory is engaged; memory that is not engaged stands on a named release; an engaged
      memory with no engage under way and none waiting is on the journal; and no send is let through
      while a halt its own read of the journal saw is without a named release after it. */
  lemma SwitchHoldsInEveryRun(rows: seq<KillRow>, steps: seq<Step>)
    requires Ascending(rows)
    ensures var w := Run(Fresh(rows), steps);
            && (w.mem.unrecorded.Some? ==> w.mem.kill.engaged)
            && (!w.mem.kill.engaged ==> w.mem.kill.seqNo == 0 || HasRelease(w.rows, w.mem.kill.seqNo))
            && (w.mem.kill.engaged && w.mem.unrecorded.None? && w.mem.engaging == 0 ==>
                  HasEngage(w.rows, w.mem.kill.seqNo))
            && (forall n, k :: n in w.passed && 0 <= k < n && k < |w.rows| && IsEngage(w.rows[k]) ==>
                  exists j :: k < j < |w.rows| && IsRelease(w.rows[j]))
  {
    RunKeeps(rows, steps);
    var w := Run(Fresh(rows), steps);
    hide Run, KillFold, HasEngage, HasRelease, Ascending;
    if w.mem.kill.engaged && w.mem.unrecorded.None? && w.mem.engaging == 0 && !HasEngage(w.rows, w.mem.kill.seqNo) {
      var t :| t in Pool(w) && t.Undecided() && !t.before.engaged && t.before.seqNo == w.mem.kill.seqNo;
      SomeEngages(Pool(w), t);
    }
    hide Pool;
    forall n, k | n in w.passed && 0 <= k < n && k < |w.rows| && IsEngage(w.rows[k])
      ensures exists j :: k < j < |w.rows| && IsRelease(w.rows[j])
    {
      assert AllReleased(w.rows, n);
      assert !NoReleaseAfter(w.rows, k);
    }
  }

  lemma {:induction false} SomeEngages(tasks: seq<Task>, t: Task)
    requires t in tasks && t.IsEngage()
    ensures Engages(tasks) > 0
  {
    if tasks[|tasks| - 1] != t { SomeEngages(tasks[..|tasks| - 1], t); }
  }

  /** A release this process makes, answered. */
  predicate LearnsRelease(w: World, step: Step) {
    step.Deliver? && w.answered != [] && w.answered[0].task.Releasing? && w.answered[0].reply.Appended?
  }

  /** A newer named release read from the journal, on a chain just verified, with no engage waiting to be
      recorded and none under way. */
  predicate AdoptsRelease(w: World, step: Step) {
    && step.Deliver? && w.answered != [] && w.answered[0].task.MergeVerifying?
    && w.answered[0].reply == Verified(true)
    && w.mem.unrecorded.None? && w.mem.engaging == 0
    && w.mem.kill.seqNo < w.answered[0].task.durable.seqNo
    && HasRelease(w.rows, w.answered[0].task.durable.seqNo)
  }

  /** Engaged memory is cleared in only two ways. */
  lemma OnlyReleasesClear(rows: seq<KillRow>, steps: seq<Step>, step: Step)
    requires Ascending(rows) && Possible(Run(Fresh(rows), steps), step)
    requires Run(Fresh(rows), steps).mem.kill.engaged && !Next(Run(Fresh(rows), steps), step).mem.kill.engaged
    ensures var w := Run(Fresh(rows), steps);
            && (LearnsRelease(w, step) || AdoptsRelease(w, step))
            && (AdoptsRelease(w, step) ==> forall t :: t in Pool(w) ==> !t.IsEngage())
  {
    hide Run, KillFold, HasEngage, HasRelease, Ascending, AllReleased, Engages, Inv, Pool;
    RunKeeps(rows, steps);
    ClearedByStep(Run(Fresh(rows), steps), step);
    NoEngageUnderWay(Run(Fresh(rows), steps));
  }

  lemma ClearedByStep(w: World, step: Step)
    requires Inv(w) && Possible(w, step) && w.mem.kill.engaged && !Next(w, step).mem.kill.engaged
    ensures LearnsRelease(w, step) || AdoptsRelease(w, step)
  {
    if step.Deliver? {
      Wake(w);
      hide HasEngage, HasRelease, AllReleased, Engages, Pool;
      ClearedByDelivery(w);
    }
  }

  lemma NoEngageUnderWay(w: World)
    requires Inv(w)
    ensures w.mem.engaging == 0 ==> forall t :: t in Pool(w) ==> !t.IsEngage()
  {
    hide HasEngage, HasRelease, Ascending, AllReleased, Engages;
    if w.mem.engaging == 0 {
      forall t | t in Pool(w) ensures !t.IsEngage() {
        if t.IsEngage() { SomeEngages(Pool(w), t); }
      }
    }
  }

  lemma ClearedByDelivery(w: World)
    requires w.answered != [] && w.mem.kill.engaged && !Delivered(w).mem.kill.engaged
    requires TaskOk(w.rows, w.mem, w.heard, w.answered[0].task) && 0 <= w.mem.kill.seqNo
    ensures LearnsRelease(w, Deliver) || AdoptsRelease(w, Deliver)
  {
    hide HasEngage, HasRelease, AllReleased, NamesOperator;
  }
}
