/** The FIX session: what it does with each inbound message, which numbers it consumes and why, and how a
    resend request is answered ("Message Recovery", FIXT 1.1). */
module Session {
  import opened Common

  datatype MsgType = Heartbeat | TestRequest | ResendRequest | Reject | SequenceReset | Logout | Logon | Application

  /** A timestamp field as it was read. */
  datatype TimeField = Missing | Malformed | At(time: int)

  /** What the application makes of a message: takes it, rejects its content, or fails on it. */
  datatype Handling = Taken | Refused | Failing

  /** A message as the session sees it. A sequence number of zero stands for one missing or invalid;
      `skewed` says its SendingTime is too far from the clock; `handling` is the application's answer. */
  datatype Message = Message(
    beginOk: bool,
    compOk: bool,
    seqNo: nat,
    msgType: MsgType,
    sendingTime: TimeField,
    skewed: bool,
    possDup: bool,
    origTime: TimeField,
    gapFill: bool,
    resetFlag: bool,
    newSeqNo: Option<nat>,
    testId: Option<nat>,
    defect: bool,
    handling: Handling)
  {
    predicate IsAdmin() { !msgType.Application? }
  }

  datatype State = Disconnected | LogonSent | Syncing | Ready | LogoutSent | Failed

  /** What the outside sees, in order: the listener told of a message or a loss, the store written, a
      message sent. `AdminRead` marks a session message read at its number. */
  datatype Action =
    | Delivered(seqNo: nat)
    | Discarded(seqNo: nat)
    | AdminRead(seqNo: nat, msgType: MsgType)
    | GapFilled(from: nat, to: nat)
    | LossReported(from: nat, upTo: Option<nat>)
    | SetNextIn(value: nat)
    | SequencesReset
    | SetComplete(done: bool)
    | Sent(msgType: MsgType)
    | EnteredReady(whileSynced: bool, pending: Option<nat>)

  /** What the timer does of its own accord: keep the connection alive, probe a silent peer, repeat the
      question that ends syncing or a resend request. */
  datatype Timer = KeepAlive | Probe | SyncAgain | AskAgain

  /** What another task does while a message is being handled: the timer's turn, or a logout of one's own. */
  datatype Other = Ticks(timer: Timer) | Leaves

  /** The session: everything done so far, the durable number and flag it left in the store, and the
      memory of one connection. `meanwhile` lists what other tasks will do at each coming await. */
  datatype Session = Session(
    log: seq<Action>,
    nextIn: nat,
    complete: bool,
    state: State,
    synced: bool,
    syncIds: set<nat>,
    counter: nat,
    target: Option<nat>,
    awaitingReset: bool,
    meanwhile: seq<seq<Other>>)

  function Log(s: Session, a: Action): Session { s.(log := s.log + [a]) }

  /** A question whose answer ends syncing. */
  function AskToSync(s: Session): Session {
    s.(counter := s.counter + 1, syncIds := s.syncIds + {s.counter + 1})
  }

  function OnTimer(s: Session, timer: Timer): Session {
    match timer
    case KeepAlive => Log(s, Sent(Heartbeat))
    case Probe => Log(s.(counter := s.counter + 1), Sent(TestRequest))
    case SyncAgain => if s.state.Syncing? && s.syncIds != {} then Log(AskToSync(s), Sent(TestRequest)) else s
    case AskAgain => if s.target.Some? then Log(s, Sent(ResendRequest)) else s
  }

  /** The timer's turn and a logout of one's own change nothing unless the session is up. */
  function OtherActs(s: Session, other: Other): Session {
    if s.state !in {Syncing, Ready} then s else
    match other
    case Ticks(timer) => OnTimer(s, timer)
    case Leaves => Log(s.(state := LogoutSent), Sent(Logout))
  }

  function OthersAct(s: Session, others: seq<Other>): Session {
    if others == [] then s else OtherActs(OthersAct(s, others[..|others| - 1]), others[|others| - 1])
  }

  /** An await: other tasks may act. */
  function Pause(s: Session): Session {
    if s.meanwhile == [] then s else OthersAct(s, s.meanwhile[0]).(meanwhile := s.meanwhile[1..])
  }

  /** An action that is awaited: others may act before it is done, and again before the session goes on. */
  function Note(s: Session, a: Action): Session { Pause(Log(Pause(s), a)) }

  function SetDone(s: Session, complete: bool): Session { Note(s, SetComplete(complete)).(complete := complete) }

  function SendSync(s: Session): Session { Note(AskToSync(s), Sent(TestRequest)) }

  function MaybeReady(s: Session): Session {
    if s.state.Syncing? && s.synced && s.target.None?
    then Log(s.(state := Ready), EnteredReady(s.synced, s.target)) else s
  }

  /** Move the expected number, durably first. Reaching past the resend target ends the recovery. */
  function Advance(s: Session, value: nat): Session {
    var moved := Note(s, SetNextIn(value)).(nextIn := value);
    var caught :=
      if moved.target.Some? && value > moved.target.value then
        var done := moved.(target := None);
        if done.state.Syncing? && !done.synced then SendSync(done) else done
      else moved;
    MaybeReady(caught)
  }

  function Terminate(s: Session): Session { Note(s, Sent(Logout)).(state := Disconnected) }

  function BeginLogout(s: Session): Session { Note(s.(state := LogoutSent), Sent(Logout)) }

  /** A message refused for its content, rejected, and at the expected number passed over: the
      application is told of it first. */
  function Refuse(s: Session, m: Message): Session {
    if m.seqNo == s.nextIn then
      var told := Note(s, if m.IsAdmin() then AdminRead(m.seqNo, m.msgType) else Discarded(m.seqNo));
      Advance(Note(told, Sent(Reject)), m.seqNo + 1)
    else Note(s, Sent(Reject))
  }

  /** A session message read at its number. */
  function PassAdmin(s: Session, m: Message): Session
    requires m.IsAdmin()
  {
    Advance(Note(s, AdminRead(m.seqNo, m.msgType)), m.seqNo + 1)
  }

  datatype Checked = Fine | Wrong(s: Session)

  function CheckOrigTime(s: Session, m: Message): Checked {
    match m.origTime
    case Missing => if m.msgType.SequenceReset? then Fine else Wrong(Refuse(s, m))
    case Malformed => Wrong(Refuse(s, m))
    case At(time) => if m.sendingTime.At? && time > m.sendingTime.time then Wrong(Terminate(Refuse(s, m))) else Fine
  }

  function AfterLogon(s: Session): Session { SendSync(s.(awaitingReset := false)) }

  function ResetNumbers(s: Session): Session { Note(s, SequencesReset).(nextIn := 1, target := None) }

  /** A reset discards what was not read, and the listener is told from where on. */
  function ReportUnread(s: Session): Session { if s.nextIn > 1 then Note(s, LossReported(s.nextIn, None)) else s }

  function ObeyPeerReset(s: Session): Session {
    var confirmed := if s.state in {LogonSent, Ready, Syncing} then s.(state := Syncing) else s;
    var unsynced := confirmed.(synced := false, syncIds := {});
    var read := Note(ResetNumbers(ReportUnread(unsynced)), AdminRead(1, Logon));
    Note(Advance(read, 2), Sent(Logon))
  }

  function OnLogonWithReset(s: Session, m: Message): Session {
    if m.seqNo != 1 then Terminate(Note(s, Sent(Reject)))
    else if s.awaitingReset && s.state.LogonSent? then
      AfterLogon(Advance(Note(s, AdminRead(1, Logon)), 2).(state := Syncing))
    else AfterLogon(ObeyPeerReset(s))
  }

  function OnSequenceReset(s: Session, m: Message): Session {
    if m.newSeqNo.None? || m.newSeqNo.value < s.nextIn then Note(s, Sent(Reject))
    else if m.newSeqNo.value == s.nextIn then s
    else Advance(Note(s, LossReported(s.nextIn, m.newSeqNo)), m.newSeqNo.value)
  }

  function OnGapFill(s: Session, m: Message): Session
    requires m.IsAdmin()
  {
    if m.newSeqNo.None? then PassAdmin(Note(s, Sent(Reject)), m)
    else if m.newSeqNo.value <= m.seqNo then Note(s, Sent(Reject))
    else Advance(Note(s, GapFilled(m.seqNo, m.newSeqNo.value)), m.newSeqNo.value)
  }

  /** A number above the expected one: ask for what is missing, and look at the message again when it
      comes in its turn. */
  function OnGap(s: Session, m: Message): Session {
    var first :=
      if m.msgType.Logon? then s.(state := Syncing)
      else if m.msgType.ResendRequest? && !m.possDup then Note(s, Sent(SequenceReset)) else s;
    var wanted := first.(target := Some(if s.target.Some? then Max(s.target.value, m.seqNo) else m.seqNo));
    var asked := if s.target.None? then Note(wanted, Sent(ResendRequest)) else wanted;
    if m.msgType.Logon? then AfterLogon(asked)
    else if m.msgType.Logout? then BeginLogout(asked)
    else asked
  }

  function OnAdmin(s: Session, m: Message): Session
    requires m.IsAdmin()
  {
    if m.msgType.SequenceReset? then OnGapFill(s, m)
    else if m.msgType.Reject? || m.possDup then PassAdmin(s, m)
    else match m.msgType
      case Logon => if s.state.LogonSent? then AfterLogon(PassAdmin(s.(state := Syncing), m)) else PassAdmin(s, m)
      case Heartbeat =>
        if m.testId.Some? && m.testId.value in s.syncIds
        then PassAdmin(s.(synced := true, syncIds := {}), m) else PassAdmin(s, m)
      case TestRequest => PassAdmin(Note(s, Sent(if m.testId.Some? then Heartbeat else Reject)), m)
      case ResendRequest => PassAdmin(Note(s, Sent(SequenceReset)), m)
      case _ => BeginLogout(SetDone(PassAdmin(s, m), true))
  }

  /** An application message in its turn. One the application fails on stays unread. */
  function Deliver(s: Session, m: Message): Session {
    if m.handling.Failing? then s.(state := Disconnected) else
    var handled := Note(s, Delivered(m.seqNo));
    Advance(if m.handling.Refused? || m.defect then Note(handled, Sent(Reject)) else handled, m.seqNo + 1)
  }

  function InOrder(s: Session, m: Message): Session {
    var checked := if m.possDup && !m.msgType.SequenceReset? then CheckOrigTime(s, m) else Fine;
    if checked.Wrong? then checked.s
    else if !m.IsAdmin() then Deliver(s, m)
    else if m.defect then PassAdmin(Note(s, Sent(Reject)), m)
    else OnAdmin(s, m)
  }

  function Numbered(s: Session, m: Message): Session {
    if m.seqNo < s.nextIn then
      if !m.possDup then Note(s, Sent(Logout)).(state := Failed)
      else match CheckOrigTime(s, m) case Fine => s case Wrong(v) => v
    else if m.seqNo > s.nextIn then OnGap(s, m)
    else InOrder(s, m)
  }

  /** The session checks, in the order of test case 2. */
  function Handle(s: Session, m: Message): Session {
    if !m.beginOk || m.seqNo == 0 then Terminate(s)
    else if !m.compOk then Terminate(Refuse(s, m))
    else if m.sendingTime.Missing? then Refuse(s, m)
    else if m.sendingTime.Malformed? || m.skewed then Terminate(Refuse(s, m))
    else if s.state.LogoutSent? && m.msgType.Logout? then
      (if m.seqNo == s.nextIn then SetDone(PassAdmin(s, m), true) else s).(state := Disconnected)
    else if s.state.LogonSent? && m.msgType.Logout? then s.(state := Failed)
    else if s.state.LogonSent? && !m.msgType.Logon? then Terminate(s)
    else if m.msgType.Logon? && m.resetFlag then OnLogonWithReset(s, m)
    else if m.msgType.SequenceReset? && !m.gapFill then OnSequenceReset(s, m)
    else Numbered(s, m)
  }

  /** A new connection: the memory of the last one goes, and a reset that is due discards what was unread. */
  function Connect(s: Session, resetDue: bool): Session {
    var clean := s.(synced := false, syncIds := {}, target := None, awaitingReset := false);
    var reset :=
      if !resetDue then clean
      else
        ResetNumbers(if s.complete then clean else ReportUnread(clean)).(awaitingReset := true);
    Note(SetDone(reset, false).(state := LogonSent), Sent(Logon))
  }

  // ----- What the log may say -----

  function NextInOf(log: seq<Action>): nat {
    if log == [] then 1 else
    match log[|log| - 1]
    case SetNextIn(value) => value
    case SequencesReset => 1
    case _ => NextInOf(log[..|log| - 1])
  }

  function CompleteOf(log: seq<Action>): bool {
    log != [] &&
    match log[|log| - 1]
    case SetComplete(done) => done
    case _ => CompleteOf(log[..|log| - 1])
  }

  /** An action after which passing number `n` is no silent loss. */
  predicate Accounts(a: Action, n: nat) {
    match a
    case Delivered(seqNo) => n == seqNo
    case Discarded(seqNo) => n == seqNo
    case AdminRead(seqNo, msgType) => n == seqNo && !msgType.Application?
    case GapFilled(from, to) => from <= n < to
    case LossReported(from, upTo) => upTo.Some? && from <= n < upTo.value
    case _ => false
  }

  /** Accounted for since the numbers were last reset. */
  predicate AccountedFor(log: seq<Action>, n: nat) {
    log != [] && !log[|log| - 1].SequencesReset?
    && (Accounts(log[|log| - 1], n) || AccountedFor(log[..|log| - 1], n))
  }

  predicate AllAccounted(log: seq<Action>, below: nat) {
    forall n :: 1 <= n < below ==> AccountedFor(log, n)
  }

  /** The loss of everything from a number on has been reported, and nothing but messages sent since. */
  predicate LossIsTold(log: seq<Action>, from: nat) {
    log != []
    && (log[|log| - 1] == LossReported(from, None) || (log[|log| - 1].Sent? && LossIsTold(log[..|log| - 1], from)))
  }

  /** A reset is told: nothing was read yet, or all of it was, or the loss has just been reported. */
  predicate ResetIsTold(before: seq<Action>) {
    NextInOf(before) <= 1 || CompleteOf(before) || LossIsTold(before, NextInOf(before))
  }

  /** At every point of the log: no number is passed unaccounted for, no reset is silent, and the session
      is ready only when synchronised with nothing left to recover. */
  predicate GoodLog(log: seq<Action>) {
    log == [] ||
    (var before, last := log[..|log| - 1], log[|log| - 1];
     && GoodLog(before)
     && (last.SetNextIn? ==> last.value >= 1 && AllAccounted(before, last.value))
     && (last.SequencesReset? ==> ResetIsTold(before))
     && (last.EnteredReady? ==> last.whileSynced && last.pending.None?))
  }

  predicate Inv(s: Session) {
    && GoodLog(s.log) && s.nextIn == NextInOf(s.log) && s.nextIn >= 1 && s.complete == CompleteOf(s.log)
    && AllAccounted(s.log, s.nextIn)
    && (s.target.Some? ==> s.target.value >= s.nextIn)
    && (s.state.Ready? ==> s.synced)
  }

  function NextAfter(log: seq<Action>, a: Action): nat {
    match a
    case SetNextIn(value) => value
    case SequencesReset => 1
    case _ => NextInOf(log)
  }

  lemma LogGrows(log: seq<Action>, a: Action)
    ensures NextInOf(log + [a]) == NextAfter(log, a)
    ensures CompleteOf(log + [a]) <==> if a.SetComplete? then a.done else CompleteOf(log)
    ensures forall n :: AccountedFor(log + [a], n) <==> !a.SequencesReset? && (Accounts(a, n) || AccountedFor(log, n))
    ensures GoodLog(log + [a]) <==>
      && GoodLog(log) && (a.SetNextIn? ==> a.value >= 1 && AllAccounted(log, a.value))
      && (a.SequencesReset? ==> ResetIsTold(log))
      && (a.EnteredReady? ==> a.whileSynced && a.pending.None?)
  {
    hide AllAccounted, ResetIsTold;
    assert (log + [a])[..|log|] == log;
  }

  /** A log that goes on with nothing but messages sent. */
  predicate OnlySpoke(log: seq<Action>, log': seq<Action>) {
    log' == log
    || (|log'| > |log| && log'[|log'| - 1].Sent? && OnlySpoke(log, log'[..|log'| - 1]))
  }

  /** A message sent says nothing about the numbers read. */
  lemma {:induction false} SpeakingTellsNothing(log: seq<Action>, log': seq<Action>)
    requires OnlySpoke(log, log')
    ensures NextInOf(log') == NextInOf(log) && CompleteOf(log') == CompleteOf(log) && (GoodLog(log) ==> GoodLog(log'))
    ensures forall n :: AccountedFor(log', n) <==> AccountedFor(log, n)
    ensures ResetIsTold(log) ==> ResetIsTold(log')
    ensures log <= log'
  {
    if log' != log {
      var before := log'[..|log'| - 1];
      SpeakingTellsNothing(log, before);
      assert log' == before + [log'[|log'| - 1]];
      LogGrows(before, log'[|log'| - 1]);
      hide NextInOf, CompleteOf, GoodLog, AccountedFor;
    }
  }

  lemma {:induction false} OnlySpokeOn(a: seq<Action>, b: seq<Action>, c: seq<Action>)
    requires OnlySpoke(a, b) && OnlySpoke(b, c)
    ensures OnlySpoke(a, c)
  {
    if c != b {
      OnlySpokeOn(a, b, c[..|c| - 1]);
    }
  }

  /** What other tasks leave as it was. They may log out; they never touch a number, or what is to recover. */
  predicate Undisturbed(s: Session, s': Session) {
    && s'.nextIn == s.nextIn && s'.complete == s.complete && s'.synced == s.synced && s'.target == s.target
    && s'.awaitingReset == s.awaitingReset
    && (s'.state == s.state || (s.state in {Syncing, Ready} && s'.state.LogoutSent?))
  }

  lemma {:induction false} OthersOnlySpeak(s: Session, others: seq<Other>)
    ensures OnlySpoke(s.log, OthersAct(s, others).log) && Undisturbed(s, OthersAct(s, others))
  {
    if others != [] {
      var before := OthersAct(s, others[..|others| - 1]);
      OthersOnlySpeak(s, others[..|others| - 1]);
      OtherOnlySpeaks(before, others[|others| - 1]);
      OnlySpokeOn(s.log, before.log, OthersAct(s, others).log);
      hide OnlySpoke, OtherActs;
    }
  }

  lemma OtherOnlySpeaks(s: Session, other: Other)
    ensures OnlySpoke(s.log, OtherActs(s, other).log) && Undisturbed(s, OtherActs(s, other))
  {
    hide OnlySpoke;
    OneMoreSpoken(s.log, Heartbeat);
    OneMoreSpoken(s.log, TestRequest);
    OneMoreSpoken(s.log, ResendRequest);
    OneMoreSpoken(s.log, Logout);
  }

  lemma OneMoreSpoken(log: seq<Action>, m: MsgType)
    ensures OnlySpoke(log, log) && OnlySpoke(log, log + [Sent(m)])
  {
    assert (log + [Sent(m)])[..|log|] == log;
  }

  lemma PauseOnlySpeaks(s: Session)
    ensures OnlySpoke(s.log, Pause(s).log) && Undisturbed(s, Pause(s))
  {
    hide OthersAct;
    if s.meanwhile != [] { OthersOnlySpeak(s, s.meanwhile[0]); }
  }

  /** Whatever others do at an await, the invariant stays, and so does what is accounted for. */
  lemma PauseKeeps(s: Session)
    ensures Undisturbed(s, Pause(s))
    ensures NextInOf(Pause(s).log) == NextInOf(s.log) && CompleteOf(Pause(s).log) == CompleteOf(s.log)
    ensures GoodLog(s.log) ==> GoodLog(Pause(s).log)
    ensures forall n :: AccountedFor(Pause(s).log, n) <==> AccountedFor(s.log, n)
    ensures ResetIsTold(s.log) ==> ResetIsTold(Pause(s).log)
    ensures Inv(s) ==> Inv(Pause(s))
  {
    PauseOnlySpeaks(s);
    SpeakingTellsNothing(s.log, Pause(s).log);
    hide Pause, OnlySpoke, GoodLog, NextInOf, CompleteOf, AccountedFor, ResetIsTold;
  }

  /** Logging anything that is not a number moved or a reset keeps the invariant. */
  lemma LogKeeps(s: Session, a: Action)
    requires Inv(s) && !a.SetNextIn? && !a.SequencesReset? && !a.SetComplete?
    requires a.EnteredReady? ==> a.whileSynced && a.pending.None?
    ensures Inv(Log(s, a))
    ensures forall n :: Accounts(a, n) || AccountedFor(s.log, n) ==> AccountedFor(Log(s, a).log, n)
  {
    LogGrows(s.log, a);
    hide GoodLog, AccountedFor, Accounts, NextInOf, CompleteOf;
  }

  /** So does doing it, whatever others do meanwhile. */
  lemma NoteKeeps(s: Session, a: Action)
    requires Inv(s) && !a.SetNextIn? && !a.SequencesReset? && !a.SetComplete? && !a.EnteredReady?
    ensures Inv(Note(s, a)) && Undisturbed(s, Note(s, a))
    ensures forall n :: Accounts(a, n) || AccountedFor(s.log, n) ==> AccountedFor(Note(s, a).log, n)
  {
    hide Pause, Inv, AccountedFor, Accounts, NextInOf, CompleteOf, GoodLog, ResetIsTold;
    PauseKeeps(s);
    LogKeeps(Pause(s), a);
    PauseKeeps(Log(Pause(s), a));
  }

  lemma SetDoneKeeps(s: Session, complete: bool)
    requires Inv(s)
    ensures Inv(SetDone(s, complete)) && SetDone(s, complete).state == Note(s, SetComplete(complete)).state
  {
    hide Pause, AccountedFor, Accounts, NextInOf, CompleteOf, GoodLog, ResetIsTold;
    PauseKeeps(s);
    LogGrows(Pause(s).log, SetComplete(complete));
    PauseKeeps(Log(Pause(s), SetComplete(complete)));
  }

  lemma MaybeReadyKeeps(s: Session)
    requires Inv(s)
    ensures Inv(MaybeReady(s)) && MaybeReady(s).nextIn == s.nextIn
  {
    hide GoodLog, AllAccounted, NextInOf, CompleteOf, AccountedFor;
    if s.state.Syncing? && s.synced && s.target.None? {
      LogKeeps(s.(state := Ready), EnteredReady(s.synced, s.target));
    }
  }

  lemma SendSyncKeeps(s: Session)
    requires Inv(s)
    ensures Inv(SendSync(s)) && Undisturbed(s, SendSync(s))
  {
    hide GoodLog, AllAccounted, NextInOf, CompleteOf, AccountedFor, Note;
    NoteKeeps(AskToSync(s), Sent(TestRequest));
  }

  /** Everything below a number is accounted for, and it leaves no open resend target behind it. */
  predicate MayAdvance(s: Session, value: nat) {
    && value >= 1 && AllAccounted(s.log, value)
    && (s.target.Some? && value < s.nextIn ==> s.target.value >= value)
  }

  /** The heart of it: the number moves only past what is accounted for. */
  lemma AdvanceKeeps(s: Session, value: nat)
    requires Inv(s) && MayAdvance(s, value)
    ensures Inv(Advance(s, value)) && Advance(s, value).nextIn == value
  {
    hide GoodLog, AccountedFor, Accounts, NextInOf, CompleteOf, AllAccounted, Note, SendSync, MaybeReady;
    var moved := Note(s, SetNextIn(value)).(nextIn := value);
    NumberMoves(s, value);
    var done := moved.(target := None);
    var caught :=
      if moved.target.Some? && value > moved.target.value then
        if done.state.Syncing? && !done.synced then SendSync(done) else done
      else moved;
    if moved.target.Some? && value > moved.target.value {
      assert Inv(done);
      SendSyncKeeps(done);
    }
    MaybeReadyKeeps(caught);
  }

  /** The number is moved in the store and then in memory, with others acting between the two. */
  lemma NumberMoves(s: Session, value: nat)
    requires Inv(s) && MayAdvance(s, value)
    ensures var moved := Note(s, SetNextIn(value)).(nextIn := value);
            && Undisturbed(s, moved.(nextIn := s.nextIn))
            && Inv(if moved.target.Some? && value > moved.target.value then moved.(target := None) else moved)
  {
    hide Pause, AccountedFor, Accounts, NextInOf, CompleteOf, GoodLog, ResetIsTold;
    var before := Pause(s);
    PauseKeeps(s);
    LogGrows(before.log, SetNextIn(value));
    AccountedStays(before.log, SetNextIn(value), value);
    PauseKeeps(Log(before, SetNextIn(value)));
  }

  lemma AccountedStays(log: seq<Action>, a: Action, below: nat)
    requires AllAccounted(log, below) && !a.SequencesReset?
    ensures AllAccounted(log + [a], below)
  {
    LogGrows(log, a);
    hide AccountedFor, Accounts;
  }

  /** Passing one number that has just been accounted for. */
  lemma PassKeeps(s: Session, a: Action, value: nat)
    requires Inv(s) && !a.SetNextIn? && !a.SequencesReset? && !a.SetComplete? && !a.EnteredReady?
    requires value > s.nextIn && forall n :: s.nextIn <= n < value ==> Accounts(a, n)
    ensures Inv(Note(s, a)) && AllAccounted(Note(s, a).log, value)
  {
    NoteKeeps(s, a);
    hide GoodLog, AccountedFor, Accounts, NextInOf, CompleteOf, Note;
  }

  lemma StillAccounted(s: Session, a: Action, below: nat)
    requires Inv(s) && AllAccounted(s.log, below)
    requires !a.SetNextIn? && !a.SequencesReset? && !a.SetComplete? && !a.EnteredReady?
    ensures AllAccounted(Note(s, a).log, below)
  {
    NoteKeeps(s, a);
    hide Note, Inv, AccountedFor, Accounts;
  }

  /** Passing one number after noting why, and perhaps an answer to the peer between the two. */
  lemma ConsumeKeeps(s: Session, why: Action, answered: bool, value: nat)
    requires Inv(s) && !why.SetNextIn? && !why.SequencesReset? && !why.SetComplete? && !why.EnteredReady?
    requires value > s.nextIn && forall n :: s.nextIn <= n < value ==> Accounts(why, n)
    ensures var told := Note(s, why);
            Inv(Advance(if answered then Note(told, Sent(Reject)) else told, value))
  {
    hide GoodLog, AccountedFor, Accounts, NextInOf, CompleteOf, AllAccounted, Advance, Note;
    PassKeeps(s, why, value);
    NoteKeeps(s, why);
    var told := Note(s, why);
    if answered {
      NoteKeeps(told, Sent(Reject));
      StillAccounted(told, Sent(Reject), value);
    }
    AdvanceKeeps(if answered then Note(told, Sent(Reject)) else told, value);
  }

  lemma RefuseKeeps(s: Session, m: Message)
    requires Inv(s)
    ensures Inv(Refuse(s, m))
  {
    hide GoodLog, AccountedFor, NextInOf, CompleteOf, AllAccounted, Advance;
    if m.seqNo == s.nextIn {
      ConsumeKeeps(s, if m.IsAdmin() then AdminRead(m.seqNo, m.msgType) else Discarded(m.seqNo), true, m.seqNo + 1);
    } else {
      NoteKeeps(s, Sent(Reject));
    }
  }

  lemma TerminateKeeps(s: Session)
    requires Inv(s)
    ensures Inv(Terminate(s))
  {
    hide GoodLog, AccountedFor, NextInOf, CompleteOf, AllAccounted;
    NoteKeeps(s, Sent(Logout));
  }

  lemma BeginLogoutKeeps(s: Session)
    requires Inv(s)
    ensures Inv(BeginLogout(s))
  {
    hide GoodLog, AccountedFor, NextInOf, CompleteOf, AllAccounted;
    NoteKeeps(s.(state := LogoutSent), Sent(Logout));
  }

  lemma PassAdminKeeps(s: Session, m: Message)
    requires Inv(s) && m.IsAdmin() && m.seqNo == s.nextIn
    ensures Inv(PassAdmin(s, m))
  {
    hide GoodLog, AccountedFor, NextInOf, CompleteOf, AllAccounted, Advance;
    ConsumeKeeps(s, AdminRead(m.seqNo, m.msgType), false, m.seqNo + 1);
  }

  lemma CheckOrigTimeKeeps(s: Session, m: Message)
    requires Inv(s)
    ensures CheckOrigTime(s, m).Wrong? ==> Inv(CheckOrigTime(s, m).s)
  {
    hide Inv, Refuse, Terminate;
    RefuseKeeps(s, m);
    TerminateKeeps(Refuse(s, m));
  }

  lemma AfterLogonKeeps(s: Session)
    requires Inv(s)
    ensures Inv(AfterLogon(s))
  {
    hide GoodLog, AllAccounted, NextInOf, CompleteOf, AccountedFor;
    SendSyncKeeps(s.(awaitingReset := false));
  }

  lemma ResetNumbersKeeps(s: Session)
    requires Inv(s) && ResetIsTold(s.log)
    ensures Inv(ResetNumbers(s)) && ResetNumbers(s).nextIn == 1 && Undisturbed(s, Note(s, SequencesReset))
  {
    hide Pause, GoodLog, AccountedFor, NextInOf, CompleteOf, ResetIsTold;
    PauseKeeps(s);
    LogGrows(Pause(s).log, SequencesReset);
    PauseKeeps(Log(Pause(s), SequencesReset));
  }

  lemma ReportUnreadKeeps(s: Session)
    requires Inv(s)
    ensures Inv(ReportUnread(s)) && ResetIsTold(ReportUnread(s).log)
    ensures s.complete ==> ResetIsTold(s.log)
    ensures Undisturbed(s, ReportUnread(s))
  {
    hide Pause, GoodLog, AccountedFor, NextInOf, CompleteOf, AllAccounted;
    var loss := LossReported(s.nextIn, None);
    NoteKeeps(s, loss);
    PauseKeeps(s);
    LogGrows(Pause(s).log, loss);
    PauseKeeps(Log(Pause(s), loss));
  }

  lemma ObeyPeerResetKeeps(s: Session)
    requires Inv(s)
    ensures Inv(ObeyPeerReset(s)) && !ObeyPeerReset(s).state.Ready?
  {
    hide GoodLog, AccountedFor, NextInOf, CompleteOf, AllAccounted, Accounts;
    var confirmed := if s.state in {LogonSent, Ready, Syncing} then s.(state := Syncing) else s;
    var unsynced := confirmed.(synced := false, syncIds := {});
    hide Note, ReportUnread, ResetNumbers, Advance;
    var reported := ReportUnread(unsynced);
    ReportUnreadKeeps(unsynced);
    ResetNumbersKeeps(reported);
    ResetKeepsState(reported);
    OneIsRead();
    ConsumeKeeps(ResetNumbers(reported), AdminRead(1, Logon), false, 2);
    var read := Note(ResetNumbers(reported), AdminRead(1, Logon));
    NoteKeeps(ResetNumbers(reported), AdminRead(1, Logon));
    UnsyncedStaysUnready(read, 2);
    NoteKeeps(Advance(read, 2), Sent(Logon));
  }

  lemma NoteDisturbsNothing(s: Session, a: Action)
    ensures Undisturbed(s, Note(s, a))
  {
    hide Pause;
    PauseKeeps(s);
    PauseKeeps(Log(Pause(s), a));
  }

  lemma UnsyncedStaysUnready(s: Session, value: nat)
    requires !s.synced && !s.state.Ready?
    ensures !Advance(s, value).state.Ready?
  {
    hide Note;
    var moved := Note(s, SetNextIn(value)).(nextIn := value);
    NoteDisturbsNothing(s, SetNextIn(value));
    NoteDisturbsNothing(AskToSync(moved.(target := None)), Sent(TestRequest));
  }

  lemma OneIsRead()
    ensures forall n :: 1 <= n < 2 ==> Accounts(AdminRead(1, Logon), n)
  {
  }

  lemma OnLogonWithResetKeeps(s: Session, m: Message)
    requires Inv(s)
    ensures Inv(OnLogonWithReset(s, m))
  {
    hide GoodLog, AccountedFor, NextInOf, CompleteOf, AllAccounted, Accounts, Advance, ObeyPeerReset, AfterLogon;
    if m.seqNo != 1 {
      NoteKeeps(s, Sent(Reject));
      TerminateKeeps(Note(s, Sent(Reject)));
    } else if s.awaitingReset && s.state.LogonSent? {
      ConfirmedResetKeeps(s);
      var moved := Advance(Note(s, AdminRead(1, Logon)), 2);
      AfterLogonKeeps(moved.(state := Syncing));
    } else {
      ObeyPeerResetKeeps(s);
      AfterLogonKeeps(ObeyPeerReset(s));
    }
  }

  /** The answer to our own reset sets the next number to two, whatever was passed over before it. */
  lemma ConfirmedResetKeeps(s: Session)
    requires Inv(s)
    ensures Inv(Advance(Note(s, AdminRead(1, Logon)), 2))
  {
    hide GoodLog, NextInOf, CompleteOf, Advance;
    var read := Note(s, AdminRead(1, Logon));
    NoteKeeps(s, AdminRead(1, Logon));
    assert AllAccounted(read.log, 2) by {
      OneIsRead();
      hide AccountedFor, Accounts;
    }
    AdvanceKeeps(read, 2);
  }

  lemma OnSequenceResetKeeps(s: Session, m: Message)
    requires Inv(s)
    ensures Inv(OnSequenceReset(s, m))
  {
    hide GoodLog, AccountedFor, NextInOf, CompleteOf, AllAccounted, Advance;
    if m.newSeqNo.None? || m.newSeqNo.value < s.nextIn {
      NoteKeeps(s, Sent(Reject));
    } else if m.newSeqNo.value > s.nextIn {
      ConsumeKeeps(s, LossReported(s.nextIn, m.newSeqNo), false, m.newSeqNo.value);
    }
  }

  lemma OnGapFillKeeps(s: Session, m: Message)
    requires Inv(s) && m.IsAdmin() && m.seqNo == s.nextIn
    ensures Inv(OnGapFill(s, m))
  {
    hide GoodLog, AccountedFor, NextInOf, CompleteOf, AllAccounted, Advance;
    NoteKeeps(s, Sent(Reject));
    if m.newSeqNo.None? {
      PassAdminKeeps(Note(s, Sent(Reject)), m);
    } else if m.newSeqNo.value > m.seqNo {
      ConsumeKeeps(s, GapFilled(m.seqNo, m.newSeqNo.value), false, m.newSeqNo.value);
    }
  }

  lemma OnGapKeeps(s: Session, m: Message)
    requires Inv(s) && m.seqNo > s.nextIn
    ensures Inv(OnGap(s, m))
  {
    hide GoodLog, AccountedFor, NextInOf, CompleteOf, AllAccounted, AfterLogon, BeginLogout;
    var first :=
      if m.msgType.Logon? then s.(state := Syncing)
      else if m.msgType.ResendRequest? && !m.possDup then Note(s, Sent(SequenceReset)) else s;
    NoteKeeps(s, Sent(SequenceReset));
    var wanted := first.(target := Some(if s.target.Some? then Max(s.target.value, m.seqNo) else m.seqNo));
    NoteKeeps(wanted, Sent(ResendRequest));
    var asked := if s.target.None? then Note(wanted, Sent(ResendRequest)) else wanted;
    AfterLogonKeeps(asked);
    BeginLogoutKeeps(asked);
  }

  lemma OnAdminKeeps(s: Session, m: Message)
    requires Inv(s) && m.IsAdmin() && m.seqNo == s.nextIn
    ensures Inv(OnAdmin(s, m))
  {
    hide GoodLog, AccountedFor, NextInOf, CompleteOf, AllAccounted, PassAdmin, OnGapFill, AfterLogon, BeginLogout,
         SetDone;
    if m.msgType.SequenceReset? {
      OnGapFillKeeps(s, m);
    } else if m.msgType.Reject? || m.possDup {
      PassAdminKeeps(s, m);
    } else {
      match m.msgType
      case Logon =>
        PassAdminKeeps(s, m);
        PassAdminKeeps(s.(state := Syncing), m);
        AfterLogonKeeps(PassAdmin(s.(state := Syncing), m));
      case Heartbeat =>
        PassAdminKeeps(s, m);
        PassAdminKeeps(s.(synced := true, syncIds := {}), m);
      case TestRequest =>
        var answer := if m.testId.Some? then Heartbeat else Reject;
        NoteKeeps(s, Sent(answer));
        PassAdminKeeps(Note(s, Sent(answer)), m);
      case ResendRequest =>
        NoteKeeps(s, Sent(SequenceReset));
        PassAdminKeeps(Note(s, Sent(SequenceReset)), m);
      case Logout =>
        PassAdminKeeps(s, m);
        SetDoneKeeps(PassAdmin(s, m), true);
        BeginLogoutKeeps(SetDone(PassAdmin(s, m), true));
    }
  }

  lemma DeliverKeeps(s: Session, m: Message)
    requires Inv(s) && m.seqNo == s.nextIn
    ensures Inv(Deliver(s, m))
  {
    hide GoodLog, AccountedFor, NextInOf, CompleteOf, AllAccounted, Advance;
    ConsumeKeeps(s, Delivered(m.seqNo), m.handling.Refused? || m.defect, m.seqNo + 1);
  }

  lemma InOrderKeeps(s: Session, m: Message)
    requires Inv(s) && m.seqNo == s.nextIn
    ensures Inv(InOrder(s, m))
  {
    hide GoodLog, AccountedFor, NextInOf, CompleteOf, AllAccounted, CheckOrigTime, Deliver, PassAdmin, OnAdmin;
    CheckOrigTimeKeeps(s, m);
    DeliverKeeps(s, m);
    if m.IsAdmin() {
      NoteKeeps(s, Sent(Reject));
      PassAdminKeeps(Note(s, Sent(Reject)), m);
      OnAdminKeeps(s, m);
    }
  }

  lemma NumberedKeeps(s: Session, m: Message)
    requires Inv(s)
    ensures Inv(Numbered(s, m))
  {
    hide GoodLog, AccountedFor, NextInOf, CompleteOf, AllAccounted, CheckOrigTime, OnGap, InOrder;
    if m.seqNo < s.nextIn {
      NoteKeeps(s, Sent(Logout));
      CheckOrigTimeKeeps(s, m);
    } else if m.seqNo > s.nextIn {
      OnGapKeeps(s, m);
    } else {
      InOrderKeeps(s, m);
    }
  }

  lemma HandleKeeps(s: Session, m: Message)
    requires Inv(s)
    ensures Inv(Handle(s, m))
  {
    hide GoodLog, AccountedFor, NextInOf, CompleteOf, AllAccounted, Refuse, Terminate, PassAdmin, SetDone,
         OnLogonWithReset, OnSequenceReset, Numbered;
    RefuseKeeps(s, m);
    TerminateKeeps(s);
    TerminateKeeps(Refuse(s, m));
    if m.msgType.Logout? && m.seqNo == s.nextIn {
      PassAdminKeeps(s, m);
      SetDoneKeeps(PassAdmin(s, m), true);
    }
    OnLogonWithResetKeeps(s, m);
    OnSequenceResetKeeps(s, m);
    NumberedKeeps(s, m);
  }

  lemma ConnectKeeps(s: Session, resetDue: bool)
    requires Inv(s) && !s.state.Ready?
    ensures Inv(Connect(s, resetDue))
  {
    hide GoodLog, AccountedFor, NextInOf, CompleteOf, AllAccounted, ResetNumbers, SetDone, ReportUnread, Note;
    var clean := s.(synced := false, syncIds := {}, target := None, awaitingReset := false);
    var reset := clean;
    if resetDue {
      var reported := if s.complete then clean else ReportUnread(clean);
      ReportUnreadKeeps(clean);
      ResetNumbersKeeps(reported);
      reset := ResetNumbers(reported).(awaitingReset := true);
      ResetKeepsState(reported);
    }
    SetDoneKeeps(reset, false);
    NoteKeeps(SetDone(reset, false).(state := LogonSent), Sent(Logon));
  }

  lemma OnTimerKeeps(s: Session, timer: Timer)
    requires Inv(s)
    ensures Inv(OnTimer(s, timer))
  {
    hide GoodLog, AccountedFor, NextInOf, CompleteOf, AllAccounted;
    match timer
    case KeepAlive => LogKeeps(s, Sent(Heartbeat));
    case Probe => LogKeeps(s.(counter := s.counter + 1), Sent(TestRequest));
    case SyncAgain => LogKeeps(AskToSync(s), Sent(TestRequest));
    case AskAgain => LogKeeps(s, Sent(ResendRequest));
  }

  lemma ResetKeepsState(s: Session)
    ensures Undisturbed(s.(nextIn := 1, target := None), ResetNumbers(s))
  {
    hide Note;
    NoteDisturbsNothing(s, SequencesReset);
  }

  // ----- Runs with crashes -----

  /** What happens to a session: a connection, a message, a timer, a peer given up on, its own leave, or the
      connection's end. */
  datatype Input =
    | Connected(resetDue: bool)
    | Received(message: Message)
    | Ticked(timer: Timer)
    | GivingUp
    | Leaving
    | Dropped

  /** An input handled to its end, or cut off after some of its actions by a crash, a lost connection, or the
      timer giving up on the peer with a Logout of its own; and what other tasks do at each of its awaits. */
  datatype Step =
    | Done(input: Input, meanwhile: seq<seq<Other>>)
    | CutShort(input: Input, meanwhile: seq<seq<Other>>, kept: nat, gaveUp: bool)

  function Act(s: Session, input: Input): Session {
    match input
    case Connected(resetDue) => if s.state in {Disconnected, Failed} then Connect(s, resetDue) else s
    case Received(message) => if s.state in {LogonSent, Syncing, Ready, LogoutSent} then Handle(s, message) else s
    case Ticked(timer) => OtherActs(s, Ticks(timer))
    case GivingUp => if s.state in {Syncing, Ready} then Terminate(s) else s
    case Leaving => OtherActs(s, Leaves)
    case Dropped => if s.state in {Disconnected, Failed} then s else s.(state := Disconnected)
  }

  /** What is left when only the first `kept` actions took effect: the store's number and flag are as those
      actions left them, and the memory of the connection is gone. */
  function Restarted(log: seq<Action>): Session {
    Session(log, NextInOf(log), CompleteOf(log), Disconnected, false, {}, 0, None, false, [])
  }

  function Next(s: Session, step: Step): Session {
    var after := Act(s.(meanwhile := step.meanwhile), step.input);
    match step
    case Done(_, _) => after.(meanwhile := [])
    case CutShort(_, _, kept, gaveUp) =>
      var left := if |s.log| <= kept <= |after.log| then after.log[..kept] else after.log;
      Restarted(if gaveUp then left + [Sent(Logout)] else left)
  }

  function Run(steps: seq<Step>): Session {
    if steps == [] then Restarted([]) else Next(Run(steps[..|steps| - 1]), steps[|steps| - 1])
  }

  /** A good log is good at every point of its past: so is the number the store held there. */
  lemma {:induction false} PastIsGood(log: seq<Action>, kept: nat)
    requires GoodLog(log) && kept <= |log|
    ensures GoodLog(log[..kept])
  {
    if kept == |log| {
      assert log[..kept] == log;
    } else {
      PastIsGood(log[..|log| - 1], kept);
      assert log[..|log| - 1][..kept] == log[..kept];
    }
  }

  lemma {:induction false} GoodMeansAccounted(log: seq<Action>)
    requires GoodLog(log)
    ensures NextInOf(log) >= 1 && AllAccounted(log, NextInOf(log))
  {
    if log != [] {
      var before, last := log[..|log| - 1], log[|log| - 1];
      GoodMeansAccounted(before);
      assert log == before + [last];
      if last.SetNextIn? || !last.SequencesReset? {
        AccountedStays(before, last, NextInOf(log));
      }
    }
  }

  lemma RestartedIsOk(log: seq<Action>, kept: nat)
    requires GoodLog(log) && kept <= |log|
    ensures Inv(Restarted(log[..kept]))
  {
    PastIsGood(log, kept);
    GoodMeansAccounted(log[..kept]);
    hide GoodLog, AllAccounted, NextInOf, CompleteOf;
  }

  lemma ActKeeps(s: Session, input: Input)
    requires Inv(s)
    ensures Inv(Act(s, input))
  {
    hide GoodLog, AccountedFor, NextInOf, CompleteOf, AllAccounted, Connect, Handle, OtherActs, Terminate;
    match input
    case Connected(resetDue) => if s.state in {Disconnected, Failed} { ConnectKeeps(s, resetDue); }
    case Received(message) => HandleKeeps(s, message);
    case Ticked(timer) => OtherActsKeeps(s, Ticks(timer));
    case GivingUp => TerminateKeeps(s);
    case Leaving => OtherActsKeeps(s, Leaves);
    case Dropped =>
  }

  lemma OtherActsKeeps(s: Session, other: Other)
    requires Inv(s)
    ensures Inv(OtherActs(s, other))
  {
    hide GoodLog, AccountedFor, NextInOf, CompleteOf, AllAccounted, OnTimer;
    if other.Ticks? { OnTimerKeeps(s, other.timer); }
    LogKeeps(s.(state := LogoutSent), Sent(Logout));
  }

  lemma NextKeeps(s: Session, step: Step)
    requires Inv(s)
    ensures Inv(Next(s, step))
  {
    hide GoodLog, AccountedFor, NextInOf, CompleteOf, AllAccounted, Act, Restarted;
    var begun := s.(meanwhile := step.meanwhile);
    assert Inv(begun);
    ActKeeps(begun, step.input);
    if step.CutShort? { CuttingShortKeeps(Act(begun, step.input).log, |s.log|, step.kept, step.gaveUp); }
  }

  lemma {:induction false} RunKeeps(steps: seq<Step>)
    ensures Inv(Run(steps))
  {
    if steps == [] {
      RestartedIsOk([], 0);
    } else {
      RunKeeps(steps[..|steps| - 1]);
      hide Inv, Next;
      NextKeeps(Run(steps[..|steps| - 1]), steps[|steps| - 1]);
    }
  }

  lemma CuttingShortKeeps(after: seq<Action>, from: nat, kept: nat, gaveUp: bool)
    requires GoodLog(after)
    ensures var left := if from <= kept <= |after| then after[..kept] else after;
            Inv(Restarted(if gaveUp then left + [Sent(Logout)] else left))
  {
    var left := if from <= kept <= |after| then after[..kept] else after;
    if from <= kept <= |after| { PastIsGood(after, kept); }
    var all := if gaveUp then left + [Sent(Logout)] else left;
    LogGrows(left, Sent(Logout));
    hide GoodLog, Restarted;
    RestartedIsOk(all, |all|);
    assert all[..|all|] == all;
  }

  /** No inbound number is consumed silently: in every run with gaps, duplicates, resets, reconnects and
      crashes, and at every point of it, each number below the store's next one was delivered,
      discarded to the listener, covered by the peer's gap fill, reported lost, or was a session
      message's own, since the numbers were last reset; and no reset discards unread numbers untold. */
  lemma NothingIsPassedSilently(steps: seq<Step>, point: nat)
    requires point <= |Run(steps).log|
    ensures var past := Run(steps).log[..point];
            && AllAccounted(past, NextInOf(past))
            && (point > 0 && Run(steps).log[point - 1].SequencesReset? ==> ResetIsTold(Run(steps).log[..point - 1]))
            && (point > 0 && Run(steps).log[point - 1].EnteredReady? ==>
                  Run(steps).log[point - 1].whileSynced && Run(steps).log[point - 1].pending.None?)
  {
    RunKeeps(steps);
    var log := Run(steps).log;
    hide Run;
    PastIsGood(log, point);
    GoodMeansAccounted(log[..point]);
    if point > 0 {
      assert log[..point][..point - 1] == log[..point - 1] && log[..point][point - 1] == log[point - 1];
    }
    hide AllAccounted, NextInOf;
  }

  /** A resend target still open is never below the number expected next, and a ready session is
      synchronised. */
  lemma RecoveryIsAhead(steps: seq<Step>)
    ensures var s := Run(steps);
            && (s.target.Some? ==> s.target.value >= s.nextIn)
            && (s.state.Ready? ==> s.synced)
            && s.nextIn == NextInOf(s.log)
  {
    RunKeeps(steps);
    hide Run, GoodLog, AllAccounted, NextInOf, CompleteOf;
  }

  // ----- Answering a resend request -----

  /** A frame written in answer: a stored message again, or a gap fill up to a number. */
  datatype Frame = Resent(seqNo: nat, orig: int) | Filler(seqNo: nat, newSeqNo: nat)

  /** The stored messages by number, with the time each was first sent; the clock; and the age past which
      a message is filled over rather than resent. */
  datatype Outbox = Outbox(sent: map<nat, int>, now: int, staleAfter: int)
  {
    predicate Keeps(n: nat) { n in sent && now - sent[n] <= staleAfter }
  }

  /** The frames from `from` to `last`, with a gap open since `gap`. */
  function Plan(o: Outbox, from: nat, last: nat, gap: Option<nat>): seq<Frame>
    decreases last + 1 - from
  {
    if from > last then (if gap.Some? then [Filler(gap.value, last + 1)] else [])
    else if o.Keeps(from) then
      (if gap.Some? then [Filler(gap.value, from)] else [])
      + ([Resent(from, o.sent[from])] + Plan(o, from + 1, last, None))
    else Plan(o, from + 1, last, if gap.Some? then gap else Some(from))
  }

  /** The range a request asks for, given the last number sent; nothing if there is none. */
  function Asked(begin: nat, end: nat, last: nat): Option<(nat, nat)> {
    var upTo := if end == 0 || end > last then last else end;
    if begin < 1 || begin > upTo then None else Some((begin, upTo))
  }

  function Answer(o: Outbox, begin: nat, end: nat, last: nat): seq<Frame> {
    match Asked(begin, end, last)
    case None => []
    case Some((lo, hi)) => Plan(o, lo, hi, None)
  }

  /** The writing loop, with the gap it has open. */
  method Resend(o: Outbox, begin: nat, end: nat, nextOut: nat) returns (frames: seq<Frame>)
    requires nextOut >= 1
    ensures frames == Answer(o, begin, end, nextOut - 1)
  {
    var last := nextOut - 1;
    var upTo := if end == 0 || end > last then last else end;
    if begin < 1 || begin > upTo { return []; }
    frames := [];
    var gapStart: Option<nat> := None;
    for seqNo := begin to upTo + 1
      invariant Plan(o, begin, upTo, None) == frames + Plan(o, seqNo, upTo, gapStart)
    {
      ghost var rest := Plan(o, seqNo, upTo, gapStart);
      if !(seqNo in o.sent) || o.now - o.sent[seqNo] > o.staleAfter {
        gapStart := if gapStart.None? then Some(seqNo) else gapStart;
        continue;
      }
      ghost var before := frames;
      if gapStart.Some? {
        frames := frames + [Filler(gapStart.value, seqNo)];
        gapStart := None;
      }
      frames := frames + [Resent(seqNo, o.sent[seqNo])];
      assert before + rest == frames + Plan(o, seqNo + 1, upTo, None);
    }
    if gapStart.Some? { frames := frames + [Filler(gapStart.value, upTo + 1)]; }
  }

  function FrameEnd(f: Frame): nat { if f.Resent? then f.seqNo + 1 else f.newSeqNo }

  /** The frames cover the numbers from `lo` to below `hi` once each, in order. */
  predicate Tiles(frames: seq<Frame>, lo: nat, hi: nat) {
    if frames == [] then lo == hi
    else frames[0].seqNo == lo && lo < FrameEnd(frames[0]) && Tiles(frames[1..], FrameEnd(frames[0]), hi)
  }

  /** The stored messages recent enough to send again, in order. */
  function Kept(o: Outbox, from: nat, last: nat): seq<nat>
    decreases last + 1 - from
  {
    if from > last then [] else (if o.Keeps(from) then [from] else []) + Kept(o, from + 1, last)
  }

  function Resents(frames: seq<Frame>): seq<nat> {
    if frames == [] then [] else (if frames[0].Resent? then [frames[0].seqNo] else []) + Resents(frames[1..])
  }

  /** Every frame resends what is stored under its number. */
  predicate Genuine(o: Outbox, frames: seq<Frame>) {
    forall i :: 0 <= i < |frames| && frames[i].Resent? ==>
      o.Keeps(frames[i].seqNo) && frames[i].orig == o.sent[frames[i].seqNo]
  }

  /** What is written tiles the requested range with no overlap and no hole, and resends exactly the
      stored messages that are not stale, in order. */
  lemma {:induction false} PlanIsExact(o: Outbox, from: nat, last: nat, gap: Option<nat>)
    requires from <= last + 1 && (gap.Some? ==> gap.value < from)
    ensures var frames := Plan(o, from, last, gap);
            && Tiles(frames, if gap.Some? then gap.value else from, last + 1)
            && Resents(frames) == Kept(o, from, last) && Genuine(o, frames)
    decreases last + 1 - from
  {
    var frames := Plan(o, from, last, gap);
    if from > last {
      if gap.Some? { assert frames[1..] == []; }
    } else if o.Keeps(from) {
      PlanIsExact(o, from + 1, last, None);
      var rest := Plan(o, from + 1, last, None);
      var sent := [Resent(from, o.sent[from])] + rest;
      assert sent[1..] == rest;
      if gap.Some? { assert frames[1..] == sent; } else { assert frames == sent; }
    } else {
      PlanIsExact(o, from + 1, last, if gap.Some? then gap else Some(from));
    }
  }

  /** For any store and any request. */
  lemma AnswerIsExact(o: Outbox, begin: nat, end: nat, last: nat)
    ensures match Asked(begin, end, last)
            case None => Answer(o, begin, end, last) == []
            case Some((lo, hi)) =>
              && 1 <= lo <= hi <= last
              && Tiles(Answer(o, begin, end, last), lo, hi + 1)
              && Resents(Answer(o, begin, end, last)) == Kept(o, lo, hi)
  {
    if Asked(begin, end, last).Some? {
      PlanIsExact(o, begin, Asked(begin, end, last).value.1, None);
    }
  }

  // ----- Resend composes with receive -----

  /** What the application makes of each message, by its number. */
  type Application = nat -> Handling

  /** A resent frame as the other side reads it: a possible duplicate, stamped now. */
  function AsRead(f: Frame, now: int, app: Application): Message {
    match f
    case Resent(seqNo, orig) =>
      Message(true, true, seqNo, MsgType.Application, At(now), false, true, At(orig), false, false, None, None, false,
              app(seqNo))
    case Filler(seqNo, newSeqNo) =>
      Message(true, true, seqNo, SequenceReset, At(now), false, true, At(now), true, false, Some(newSeqNo), None, false,
              app(seqNo))
  }

  /** A session that reads what comes. */
  predicate Reading(s: Session) { s.state in {Syncing, Ready, LogoutSent} }

  function ReadAll(s: Session, frames: seq<Frame>, now: int, app: Application): Session
    decreases |frames|
  {
    if frames == [] then s else ReadAll(Act(s, Received(AsRead(frames[0], now, app))), frames[1..], now, app)
  }

  /** The messages handed to the application, in order. */
  function DeliveredIn(log: seq<Action>): seq<nat> {
    if log == [] then [] else
    DeliveredIn(log[..|log| - 1]) + (if log[|log| - 1].Delivered? then [log[|log| - 1].seqNo] else [])
  }

  lemma DeliveredGrows(log: seq<Action>, a: Action)
    ensures DeliveredIn(log + [a]) == DeliveredIn(log) + (if a.Delivered? then [a.seqNo] else [])
  {
    assert (log + [a])[..|log|] == log;
  }

  lemma {:induction false} SpeakingDeliversNothing(log: seq<Action>, log': seq<Action>)
    requires OnlySpoke(log, log')
    ensures DeliveredIn(log') == DeliveredIn(log)
  {
    if log' != log { SpeakingDeliversNothing(log, log'[..|log'| - 1]); }
  }

  /** Whatever others do meanwhile. */
  lemma NoteDelivers(s: Session, a: Action)
    ensures DeliveredIn(Note(s, a).log) == DeliveredIn(s.log) + (if a.Delivered? then [a.seqNo] else [])
    ensures Undisturbed(s, Note(s, a)) && (Reading(s) ==> Reading(Note(s, a)))
  {
    hide Pause, DeliveredIn, OnlySpoke;
    var before, logged := Pause(s), Log(Pause(s), a);
    PauseOnlySpeaks(s);
    PauseOnlySpeaks(logged);
    DeliveredGrows(before.log, a);
    SpeakingDeliversNothing(s.log, before.log);
    SpeakingDeliversNothing(logged.log, Pause(logged).log);
  }

  lemma AdvanceDelivers(s: Session, value: nat)
    requires Reading(s)
    ensures DeliveredIn(Advance(s, value).log) == DeliveredIn(s.log) && Reading(Advance(s, value))
    ensures Advance(s, value).nextIn == value
  {
    hide DeliveredIn, Note;
    var moved := Note(s, SetNextIn(value)).(nextIn := value);
    NoteDelivers(s, SetNextIn(value));
    var done := moved.(target := None);
    NoteDelivers(AskToSync(done), Sent(TestRequest));
    var caught :=
      if moved.target.Some? && value > moved.target.value then
        if done.state.Syncing? && !done.synced then SendSync(done) else done
      else moved;
    DeliveredGrows(caught.log, EnteredReady(caught.synced, caught.target));
  }

  lemma ReadFiller(s: Session, f: Frame, now: int, app: Application)
    requires Reading(s) && f.Filler? && f.seqNo == s.nextIn && f.seqNo >= 1 && f.newSeqNo > f.seqNo
    ensures var s' := Act(s, Received(AsRead(f, now, app)));
            Reading(s') && s'.nextIn == f.newSeqNo && DeliveredIn(s'.log) == DeliveredIn(s.log)
  {
    hide DeliveredIn, Advance, Note;
    var noted := Note(s, GapFilled(f.seqNo, f.newSeqNo));
    NoteDelivers(s, GapFilled(f.seqNo, f.newSeqNo));
    AdvanceDelivers(noted, f.newSeqNo);
    assert Handle(s, AsRead(f, now, app)) == Advance(noted, f.newSeqNo);
  }

  /** Whether a frame of the answer is read through: not stamped later than now, and not failed on. */
  predicate IsReadThrough(f: Frame, now: int, app: Application) {
    f.Resent? ==> f.orig <= now && !app(f.seqNo).Failing?
  }

  lemma ReadResent(s: Session, f: Frame, now: int, app: Application)
    requires Reading(s) && f.Resent? && f.seqNo == s.nextIn && f.seqNo >= 1
    ensures var s' := Act(s, Received(AsRead(f, now, app)));
            if IsReadThrough(f, now, app)
            then Reading(s') && s'.nextIn == f.seqNo + 1 && DeliveredIn(s'.log) == DeliveredIn(s.log) + [f.seqNo]
            else s'.state == Disconnected
  {
    hide DeliveredIn, Advance, Note;
    var m := AsRead(f, now, app);
    if f.orig > now {
      assert Handle(s, m) == Terminate(Refuse(s, m));
    } else if !m.handling.Failing? {
      var handled := Note(s, Delivered(f.seqNo));
      NoteDelivers(s, Delivered(f.seqNo));
      var answered := if m.handling.Refused? then Note(handled, Sent(Reject)) else handled;
      NoteDelivers(handled, Sent(Reject));
      AdvanceDelivers(answered, f.seqNo + 1);
      assert Handle(s, m) == Advance(answered, f.seqNo + 1);
    }
  }

  lemma {:induction false} ClosedReadsNothing(s: Session, frames: seq<Frame>, now: int, app: Application)
    requires s.state == Disconnected
    ensures ReadAll(s, frames, now, app) == s
    decreases |frames|
  {
    hide Handle;
    if frames != [] { ClosedReadsNothing(s, frames[1..], now, app); }
  }

  predicate AllReadThrough(frames: seq<Frame>, now: int, app: Application) {
    forall i :: 0 <= i < |frames| ==> IsReadThrough(frames[i], now, app)
  }

  /** The recovery went through: every number read, every message delivered once and in order. */
  predicate Recovered(s: Session, s': Session, hi: nat, delivered: seq<nat>) {
    Reading(s') && s'.nextIn == hi && DeliveredIn(s'.log) == DeliveredIn(s.log) + delivered
  }

  lemma {:induction false} TilesAreRead(s: Session, frames: seq<Frame>, hi: nat, now: int, app: Application)
    requires Reading(s) && s.nextIn >= 1 && Tiles(frames, s.nextIn, hi)
    ensures Recovered(s, ReadAll(s, frames, now, app), hi, Resents(frames)) <==> AllReadThrough(frames, now, app)
    decreases |frames|
  {
    if frames == [] {
      assert DeliveredIn(s.log) + [] == DeliveredIn(s.log);
    } else {
      hide Act, DeliveredIn, IsReadThrough;
      var f, rest := frames[0], frames[1..];
      var s' := Act(s, Received(AsRead(f, now, app)));
      if f.Filler? {
        ReadFiller(s, f, now, app);
        assert IsReadThrough(f, now, app) by { FillerIsReadThrough(f, now, app); }
      } else {
        ReadResent(s, f, now, app);
      }
      RestReadThrough(frames, now, app);
      if IsReadThrough(f, now, app) {
        TilesAreRead(s', rest, hi, now, app);
        RecoveredOn(s, s', ReadAll(s', rest, now, app), hi, if f.Resent? then [f.seqNo] else [], Resents(rest));
      } else {
        ClosedReadsNothing(s', rest, now, app);
      }
    }
  }

  lemma FillerIsReadThrough(f: Frame, now: int, app: Application)
    requires f.Filler?
    ensures IsReadThrough(f, now, app)
  {
  }

  lemma RestReadThrough(frames: seq<Frame>, now: int, app: Application)
    requires frames != []
    ensures AllReadThrough(frames, now, app)
       <==> AllReadThrough(frames[1..], now, app) && IsReadThrough(frames[0], now, app)
  {
    hide IsReadThrough;
    if AllReadThrough(frames[1..], now, app) && IsReadThrough(frames[0], now, app) {
      forall i | 0 <= i < |frames| ensures IsReadThrough(frames[i], now, app) {
        if i > 0 { assert frames[i] == frames[1..][i - 1]; }
      }
    }
  }

  lemma RecoveredOn(a: Session, b: Session, c: Session, hi: nat, first: seq<nat>, rest: seq<nat>)
    requires DeliveredIn(b.log) == DeliveredIn(a.log) + first
    ensures Recovered(b, c, hi, rest) <==> Recovered(a, c, hi, first + rest)
  {
    hide DeliveredIn;
    assert DeliveredIn(a.log) + (first + rest) == (DeliveredIn(a.log) + first) + rest;
  }

  /** Message recovery, whole: for any store and any request, a session of this kind that expects the first
      number asked for and reads the answer delivers exactly the stored messages that are not stale,
      once and in order, and expects the number after the last, if and only if none of them carries a
      time later than the clock of the resend and the application fails on none. */
  lemma ResendComposesWithReceive(o: Outbox, begin: nat, end: nat, last: nat, s: Session, app: Application)
    requires Asked(begin, end, last).Some? && Reading(s) && s.nextIn == begin
    ensures var hi, frames := Asked(begin, end, last).value.1, Answer(o, begin, end, last);
            Recovered(s, ReadAll(s, frames, o.now, app), hi + 1, Kept(o, begin, hi))
            <==> forall n :: n in Kept(o, begin, hi) ==> o.Keeps(n) && o.sent[n] <= o.now && !app(n).Failing?
  {
    var hi, frames := Asked(begin, end, last).value.1, Answer(o, begin, end, last);
    PlanIsExact(o, begin, hi, None);
    hide ReadAll, Kept, DeliveredIn, Plan;
    TilesAreRead(s, frames, hi + 1, o.now, app);
    StampsAreTheStores(o, frames, app);
  }

  lemma {:induction false} ResentIsListed(frames: seq<Frame>, n: nat)
    ensures n in Resents(frames) <==> exists i :: 0 <= i < |frames| && frames[i].Resent? && frames[i].seqNo == n
  {
    if frames != [] {
      ResentIsListed(frames[1..], n);
      if exists i :: 0 <= i < |frames[1..]| && frames[1..][i].Resent? && frames[1..][i].seqNo == n {
        var i :| 0 <= i < |frames[1..]| && frames[1..][i].Resent? && frames[1..][i].seqNo == n;
        assert frames[i + 1] == frames[1..][i];
      }
      if exists i :: 0 <= i < |frames| && frames[i].Resent? && frames[i].seqNo == n {
        var i :| 0 <= i < |frames| && frames[i].Resent? && frames[i].seqNo == n;
        if i > 0 { assert frames[1..][i - 1] == frames[i]; }
      }
    }
  }

  lemma StampsAreTheStores(o: Outbox, frames: seq<Frame>, app: Application)
    requires Genuine(o, frames)
    ensures AllReadThrough(frames, o.now, app)
       <==> forall n :: n in Resents(frames) ==> o.Keeps(n) && o.sent[n] <= o.now && !app(n).Failing?
  {
    hide Resents;
    forall n
      ensures n in Resents(frames) <==> exists i :: 0 <= i < |frames| && frames[i].Resent? && frames[i].seqNo == n
    {
      ResentIsListed(frames, n);
    }
    if forall n :: n in Resents(frames) ==> o.Keeps(n) && o.sent[n] <= o.now && !app(n).Failing? {
      forall i | 0 <= i < |frames| ensures IsReadThrough(frames[i], o.now, app) {
        if frames[i].Resent? { assert frames[i].seqNo in Resents(frames); }
      }
    }
  }

  // ----- The session object -----

  class FixSession {
    var log: seq<Action>
    var nextIn: nat
    var complete: bool
    var state: State
    var synced: bool
    var syncIds: set<nat>
    var counter: nat
    var target: Option<nat>
    var awaitingReset: bool
    /** What other tasks will do at each coming await. */
    var meanwhile: seq<seq<Other>>

    ghost function Current(): Session
      reads this
    {
      Session(log, nextIn, complete, state, synced, syncIds, counter, target, awaitingReset, meanwhile)
    }

    /** A process starting on a store, with everything the store's past says. */
    constructor (log: seq<Action>, nextIn: nat, complete: bool)
      requires nextIn == NextInOf(log) && complete == CompleteOf(log)
      ensures Current() == Restarted(log) && (GoodLog(log) ==> Inv(Current()))
    {
      this.log, this.nextIn, this.complete := log, nextIn, complete;
      state, synced, syncIds, counter, target, awaitingReset, meanwhile := Disconnected, false, {}, 0, None, false, [];
      new;
      if GoodLog(log) {
        RestartedIsOk(log, |log|);
        assert log[..|log|] == log;
      }
    }

    /** What the timer does, while the session is up. */
    method OnTick(timer: Timer)
      modifies this`log, this`state, this`counter, this`syncIds
      ensures Current() == OtherActs(old(Current()), Ticks(timer))
      ensures Inv(old(Current())) ==> Inv(Current())
    {
      if Inv(Current()) { OtherActsKeeps(Current(), Ticks(timer)); }
      hide Inv;
      if state != Syncing && state != Ready { return; }
      match timer
      case KeepAlive => log := log + [Sent(Heartbeat)];
      case Probe =>
        counter := counter + 1;
        log := log + [Sent(TestRequest)];
      case SyncAgain =>
        if state == Syncing && syncIds != {} {
          counter := counter + 1;
          syncIds := syncIds + {counter};
          log := log + [Sent(TestRequest)];
        }
      case AskAgain => if target.Some? { log := log + [Sent(ResendRequest)]; }
    }

    /** Log out of one's own accord. */
    method Leave()
      modifies this`log, this`state
      ensures Current() == OtherActs(old(Current()), Leaves)
      ensures Inv(old(Current())) ==> Inv(Current())
    {
      if Inv(Current()) { OtherActsKeeps(Current(), Leaves); }
      hide Inv;
      if state == Syncing || state == Ready {
        state := LogoutSent;
        log := log + [Sent(Logout)];
      }
    }

    /** Give other tasks their turn. */
    method LetOthersAct()
      modifies this`log, this`state, this`counter, this`syncIds, this`meanwhile
      ensures Current() == Pause(old(Current()))
    {
      if meanwhile == [] { return; }
      var others := meanwhile[0];
      hide OtherActs, Inv;
      for i := 0 to |others|
        invariant Current() == OthersAct(old(Current()), others[..i]) && meanwhile == old(meanwhile)
      {
        assert others[..i + 1][..i] == others[..i];
        match others[i]
        case Ticks(timer) => OnTick(timer);
        case Leaves => Leave();
      }
      assert others[..|others|] == others;
      meanwhile := meanwhile[1..];
    }

    method Tell(a: Action)
      modifies this`log, this`state, this`counter, this`syncIds, this`meanwhile
      ensures Current() == Note(old(Current()), a)
    {
      hide Pause;
      LetOthersAct();
      log := log + [a];
      LetOthersAct();
    }

    method SendSyncRequest()
      modifies this`log, this`state, this`counter, this`syncIds, this`meanwhile
      ensures Current() == SendSync(old(Current()))
    {
      hide Note;
      counter := counter + 1;
      syncIds := syncIds + {counter};
      Tell(Sent(TestRequest));
    }

    method BecomeReady()
      modifies this`log, this`state
      ensures Current() == MaybeReady(old(Current()))
    {
      if state == Syncing && synced && target.None? {
        state := Ready;
        log := log + [EnteredReady(synced, target)];
      }
    }

    method AdvanceTo(value: nat)
      modifies this
      ensures Current() == Advance(old(Current()), value)
      ensures Inv(old(Current())) && MayAdvance(old(Current()), value) ==> Inv(Current())
    {
      hide Inv, MayAdvance, Note, SendSync;
      if Inv(Current()) && MayAdvance(Current(), value) { AdvanceKeeps(Current(), value); }
      Tell(SetNextIn(value));
      nextIn := value;
      if target.Some? && nextIn > target.value {
        target := None;
        if state == Syncing && !synced { SendSyncRequest(); }
      }
      BecomeReady();
    }

    method DropConnection()
      modifies this`log, this`state, this`counter, this`syncIds, this`meanwhile
      ensures Current() == Terminate(old(Current()))
    {
      hide Note;
      Tell(Sent(Logout));
      state := Disconnected;
    }

    method StartLogout()
      modifies this`log, this`state, this`counter, this`syncIds, this`meanwhile
      ensures Current() == BeginLogout(old(Current()))
    {
      hide Note;
      state := LogoutSent;
      Tell(Sent(Logout));
    }

    method MarkComplete(done: bool)
      modifies this
      ensures Current() == SetDone(old(Current()), done)
    {
      hide Note;
      Tell(SetComplete(done));
      complete := done;
    }

    /** Discard to the listener, reject, and pass over a message that came at its number. */
    method RefuseMessage(m: Message)
      modifies this
      ensures Current() == Refuse(old(Current()), m)
      ensures Inv(old(Current())) ==> Inv(Current())
    {
      ghost var before := Current();
      hide Note, Inv, MayAdvance, Advance;
      if m.seqNo == nextIn {
        var why := if m.IsAdmin() then AdminRead(m.seqNo, m.msgType) else Discarded(m.seqNo);
        Tell(why);
        assert Current() == Note(before, why);
        Tell(Sent(Reject));
        AdvanceTo(m.seqNo + 1);
      } else {
        Tell(Sent(Reject));
      }
      if Inv(before) { RefuseKeeps(before, m); }
    }

    method ReadAdmin(m: Message)
      requires m.IsAdmin()
      modifies this
      ensures Current() == PassAdmin(old(Current()), m)
    {
      hide Note, Inv, MayAdvance, Advance;
      Tell(AdminRead(m.seqNo, m.msgType));
      AdvanceTo(m.seqNo + 1);
    }

    method TimesAreConsistent(m: Message) returns (ok: bool)
      modifies this
      ensures ok <==> CheckOrigTime(old(Current()), m).Fine?
      ensures Current() == (if ok then old(Current()) else CheckOrigTime(old(Current()), m).s)
      ensures Inv(old(Current())) ==> Inv(Current())
    {
      if Inv(Current()) { CheckOrigTimeKeeps(Current(), m); }
      hide Note, Inv, MayAdvance, Refuse, Terminate;
      match m.origTime
      case Missing =>
        if m.msgType == SequenceReset { return true; }
        RefuseMessage(m);
        ok := false;
      case Malformed =>
        RefuseMessage(m);
        ok := false;
      case At(time) =>
        if m.sendingTime.At? && time > m.sendingTime.time {
          RefuseMessage(m);
          DropConnection();
          return false;
        }
        ok := true;
    }

    method LoggedOn()
      modifies this
      ensures Current() == AfterLogon(old(Current()))
    {
      awaitingReset := false;
      SendSyncRequest();
    }

    method ResetBothNumbers()
      modifies this
      ensures Current() == ResetNumbers(old(Current()))
    {
      hide Note;
      Tell(SequencesReset);
      nextIn, target := 1, None;
    }

    method TellUnread()
      modifies this`log, this`state, this`counter, this`syncIds, this`meanwhile
      ensures Current() == ReportUnread(old(Current()))
    {
      hide Note;
      if nextIn > 1 { Tell(LossReported(nextIn, None)); }
    }

    method ObeyReset()
      modifies this
      ensures Current() == ObeyPeerReset(old(Current()))
      ensures Inv(old(Current())) ==> Inv(Current())
    {
      ghost var before := Current();
      hide Note, Inv, MayAdvance, Advance, ResetNumbers, ReportUnread;
      if state == LogonSent || state == Ready || state == Syncing { state := Syncing; }
      synced, syncIds := false, {};
      TellUnread();
      ResetBothNumbers();
      Tell(AdminRead(1, Logon));
      AdvanceTo(2);
      Tell(Sent(Logon));
      if Inv(before) { ObeyPeerResetKeeps(before); }
    }

    method LogonWithReset(m: Message)
      modifies this
      ensures Current() == OnLogonWithReset(old(Current()), m)
      ensures Inv(old(Current())) ==> Inv(Current())
    {
      if Inv(Current()) { OnLogonWithResetKeeps(Current(), m); }
      hide Note, Inv, MayAdvance, Advance, ObeyPeerReset, AfterLogon, Terminate;
      if m.seqNo != 1 {
        Tell(Sent(Reject));
        DropConnection();
        return;
      }
      if awaitingReset && state == LogonSent {
        Tell(AdminRead(1, Logon));
        AdvanceTo(2);
        state := Syncing;
      } else {
        ObeyReset();
      }
      LoggedOn();
    }

    method SequenceResetReset(m: Message)
      modifies this
      ensures Current() == OnSequenceReset(old(Current()), m)
      ensures Inv(old(Current())) ==> Inv(Current())
    {
      if Inv(Current()) { OnSequenceResetKeeps(Current(), m); }
      hide Note, Inv, MayAdvance, Advance;
      if m.newSeqNo.None? || m.newSeqNo.value < nextIn {
        Tell(Sent(Reject));
        return;
      }
      if m.newSeqNo.value == nextIn { return; }
      Tell(LossReported(nextIn, m.newSeqNo));
      AdvanceTo(m.newSeqNo.value);
    }

    method GapFillMessage(m: Message)
      requires m.IsAdmin()
      modifies this
      ensures Current() == OnGapFill(old(Current()), m)
      ensures Inv(old(Current())) && m.seqNo == old(nextIn) ==> Inv(Current())
    {
      if Inv(Current()) && m.seqNo == nextIn { OnGapFillKeeps(Current(), m); }
      hide Note, Inv, MayAdvance, Advance, PassAdmin;
      if m.newSeqNo.None? {
        Tell(Sent(Reject));
        ReadAdmin(m);
        return;
      }
      if m.newSeqNo.value <= m.seqNo {
        Tell(Sent(Reject));
        return;
      }
      Tell(GapFilled(m.seqNo, m.newSeqNo.value));
      AdvanceTo(m.newSeqNo.value);
    }

    method Gap(m: Message)
      modifies this
      ensures Current() == OnGap(old(Current()), m)
      ensures Inv(old(Current())) && m.seqNo > old(nextIn) ==> Inv(Current())
    {
      ghost var before := Current();
      hide Note, Inv, MayAdvance, AfterLogon, BeginLogout;
      if m.msgType == Logon {
        state := Syncing;
      } else if m.msgType == ResendRequest && !m.possDup {
        Tell(Sent(SequenceReset));
      }
      var wasRecovering := target.Some?;
      target := Some(if target.Some? then Max(target.value, m.seqNo) else m.seqNo);
      if !wasRecovering { Tell(Sent(ResendRequest)); }
      if m.msgType == Logon {
        LoggedOn();
      } else if m.msgType == Logout {
        StartLogout();
      }
      if Inv(before) && m.seqNo > before.nextIn { OnGapKeeps(before, m); }
    }

    method AdminMessage(m: Message)
      requires m.IsAdmin()
      modifies this
      ensures Current() == OnAdmin(old(Current()), m)
      ensures Inv(old(Current())) && m.seqNo == old(nextIn) ==> Inv(Current())
    {
      ghost var before := Current();
      hide Note, Inv, MayAdvance, PassAdmin, OnGapFill, AfterLogon, BeginLogout, SetDone;
      if Inv(before) && m.seqNo == nextIn { OnAdminKeeps(before, m); }
      if m.msgType == SequenceReset { GapFillMessage(m); return; }
      if m.msgType == Reject || m.possDup { ReadAdmin(m); return; }
      match m.msgType
      case Logon =>
        if state == LogonSent {
          state := Syncing;
          ReadAdmin(m);
          LoggedOn();
        } else {
          ReadAdmin(m);
        }
      case Heartbeat =>
        if m.testId.Some? && m.testId.value in syncIds { synced, syncIds := true, {}; }
        ReadAdmin(m);
      case TestRequest =>
        Tell(Sent(if m.testId.Some? then Heartbeat else Reject));
        ReadAdmin(m);
      case ResendRequest =>
        Tell(Sent(SequenceReset));
        ReadAdmin(m);
      case Logout =>
        ReadAdmin(m);
        MarkComplete(true);
        StartLogout();
    }

    method DeliverMessage(m: Message)
      modifies this
      ensures Current() == Deliver(old(Current()), m)
      ensures Inv(old(Current())) && m.seqNo == old(nextIn) ==> Inv(Current())
    {
      ghost var before := Current();
      hide Note, Inv, MayAdvance, Advance;
      if Inv(before) && m.seqNo == nextIn { DeliverKeeps(before, m); }
      if m.handling == Failing { state := Disconnected; return; }
      Tell(Delivered(m.seqNo));
      assert Current() == Note(before, Delivered(m.seqNo));
      if m.handling == Refused || m.defect { Tell(Sent(Reject)); }
      AdvanceTo(m.seqNo + 1);
    }

    method NumberedMessage(m: Message)
      modifies this
      ensures Current() == Numbered(old(Current()), m)
      ensures Inv(old(Current())) ==> Inv(Current())
    {
      if Inv(Current()) { NumberedKeeps(Current(), m); }
      hide Note, Inv, MayAdvance, CheckOrigTime, Deliver, PassAdmin, OnAdmin, OnGap;
      if m.seqNo < nextIn {
        if !m.possDup {
          Tell(Sent(Logout));
          state := Failed;
          return;
        }
        var consistent := TimesAreConsistent(m);
        return;
      }
      if m.seqNo > nextIn { Gap(m); return; }
      if m.possDup && m.msgType != SequenceReset {
        var consistent := TimesAreConsistent(m);
        if !consistent { return; }
      }
      if m.IsAdmin() && m.defect {
        Tell(Sent(Reject));
        ReadAdmin(m);
      } else if m.IsAdmin() {
        AdminMessage(m);
      } else {
        DeliverMessage(m);
      }
    }

    /** One message read from the connection, while other tasks act at the awaits of its handling. */
    method ReadMessage(m: Message, others: seq<seq<Other>>)
      modifies this
      ensures Current() == Next(old(Current()), Done(Received(m), others))
      ensures Inv(old(Current())) ==> Inv(Current())
    {
      hide Note, Inv, Handle;
      ghost var before := Current();
      meanwhile := others;
      if state in {LogonSent, Syncing, Ready, LogoutSent} { HandleMessage(m); }
      meanwhile := [];
      if Inv(before) { NextKeeps(before, Done(Received(m), others)); }
    }

    /** Apply the session checks, in the order of test case 2. */
    method HandleMessage(m: Message)
      modifies this
      ensures Current() == Handle(old(Current()), m)
      ensures Inv(old(Current())) ==> Inv(Current())
    {
      if Inv(Current()) { HandleKeeps(Current(), m); }
      hide Note, Inv, MayAdvance, Refuse, Terminate, PassAdmin, SetDone, OnLogonWithReset, OnSequenceReset, Numbered;
      if !m.beginOk || m.seqNo == 0 { DropConnection(); return; }
      if !m.compOk {
        RefuseMessage(m);
        DropConnection();
        return;
      }
      if m.sendingTime == Missing { RefuseMessage(m); return; }
      if m.sendingTime == Malformed || m.skewed {
        RefuseMessage(m);
        DropConnection();
        return;
      }
      if state == LogoutSent && m.msgType == Logout {
        if m.seqNo == nextIn {
          ReadAdmin(m);
          MarkComplete(true);
        }
        state := Disconnected;
        return;
      }
      if state == LogonSent && m.msgType == Logout { state := Failed; return; }
      if state == LogonSent && m.msgType != Logon { DropConnection(); return; }
      if m.msgType == Logon && m.resetFlag { LogonWithReset(m); return; }
      if m.msgType == SequenceReset && !m.gapFill { SequenceResetReset(m); return; }
      NumberedMessage(m);
    }

    /** Give up on the peer, while the session is up. */
    method GiveUp()
      modifies this`log, this`state, this`counter, this`syncIds, this`meanwhile
      ensures Current() == Act(old(Current()), GivingUp)
      ensures Inv(old(Current())) ==> Inv(Current())
    {
      if Inv(Current()) { TerminateKeeps(Current()); }
      hide Note, Inv, Terminate;
      if state == Syncing || state == Ready { DropConnection(); }
    }

    method ConnectNow(resetDue: bool)
      modifies this
      ensures Current() == Connect(old(Current()), resetDue)
      ensures Inv(old(Current())) && !old(state).Ready? ==> Inv(Current())
    {
      ghost var before := Current();
      hide Note, Inv, MayAdvance, ResetNumbers, SetDone, ReportUnread;
      synced, syncIds, target, awaitingReset := false, {}, None, false;
      if resetDue {
        if !complete { TellUnread(); }
        ResetBothNumbers();
        awaitingReset := true;
      }
      MarkComplete(false);
      state := LogonSent;
      Tell(Sent(Logon));
      if Inv(before) && !before.state.Ready? { ConnectKeeps(before, resetDue); }
    }
  }
}
