# Verified model of ismet

A Dafny model of the order path of ismet, a trading library, and of the FIX 4.2/4.4/FIXT 1.1 initiator
under it, with proofs of what its documentation promises: an order is never sent twice, and a fill is
never lost.

| file | component |
|---|---|
| `SendPath.dfy` | the write-ahead protocol from intent to venue call, any number of processes on one journal |
| `KillSwitch.dfy` | the durable kill switch, interleaved at every await |
| `Journal.dfy` | the hash chain, its anchor, and the kill state on record |
| `Manager.dfy` | the order manager's state and indexes, kept equal to the journal |
| `Orders.dfy`, `Fills.dfy` | the order reducer and its replay |
| `Risk.dfy` | the pre-trade position limit over whole runs |
| `Bytes.dfy`, `Codec.dfy`, `Stream.dfy` | FIX tag=value printing and reading, and the incremental parser |
| `Session.dfy` | inbound numbers, recovery, resets and resending |
| `FixStore.dfy`, `Provider.dfy`, `PlaceOrder.dfy` | what the FIX provider remembers, booking reports once, and sending an order once |
| `Book.dfy` | the order book built from a snapshot and sequenced deltas |
| `Ledger.dfy` | tax lots and P&L |
| `Ticks.dfy` | rounding on a banded tick ladder |

Objects that the code updates in place are classes whose methods are proved equal to specification
functions; the properties are lemmas about those functions. Protocols are state machines in which every
await ends a step, a crash drops memory, and ghosts record each venue call, allocated message or passed
number. Decimals are exact in the code, so they are reals or integers here; rounding enters only through
`ratio`, which the ledger takes as a parameter. A digest is the record content it covers together with the
digest before it.

## Where the code does less than it says

Each of these is a lemma: the exact condition under which the property holds, and an input or a run on which
it does not.

- Recovery's verdict that an order was never sent is final if and only if no other live process on the
  journal still has that order's submit under way (`SendPath.NeverSentIsFinalIffUnsendable`,
  `SendPath.RecoveryCanRaceASender`).
- Reconciliation walks a list of orders taken before it starts to wait, and closes an order that was
  pending then without looking again. The verdict is right if and only if no answer to the order's call is
  on the journal or waiting to be written there (`SendPath.StaleVerdictIsRightIff`); otherwise a sent order
  becomes rejected (`SendPath.StaleListRejectsASentOrder`, `SendPath.StaleListIsReachable`). Memory alone tells
  too, unless the order is only known to have been started (`SendPath.MemoryTellsUnlessStarted`): then the
  very same memory belongs to an order sent and to one never sent (`SendPath.StartedTellsNothing`).
- An acknowledgement of an order whose amend has an unknown outcome drops the pending quantity
  (`Risk.AckForgetsAPendingReplace`). Its room can be given to another order, and the amend's confirmation
  then takes the position over the limit, whatever the limit is (`Risk.ForgottenReplaceBreaches`). Busts of
  booked fills and reopened orders are outside what the limit was checked against too, and nothing else is
  (`Risk.OnlyPermittedEventsKeepEveryLimit`).
- The journal's digest covers whether the intent flag is set but not the number stored, so a flag rewritten
  from one to two verifies and leaves the unique index (`Journal.FlagNumberIsNotCovered`).
- A bust that arrives before its fill is not remembered, and the fill is then returned as unbusted
  (`Provider.BustIsFinalIffKnown`).
- A loss is noticed at the next report with CumQty if and only if it does not net to zero with the other lost
  reports and with busts that carried no CumQty (`Provider.LossIsNoticedIffUnseen`). A bust or correction that
  carries CumQty hides what was lost before it for good (`Provider.BustHidesALoss`).
- The encoder accepts messages the decoder refuses or misreads: a BeginString over 29 bytes, a tag of ten
  digits, a length field that is not a number (`Codec.RoundTripIff`, `Codec.LongVersionIsNotReadBack`,
  `Codec.TenDigitTagIsNotReadBack`, `Codec.WordyLengthIsNotReadBack`). The pattern for BeginString lets a line
  feed follow, and the model keeps that.
- In the middle of an update of several levels the book builder already claims to be in sync at its end; it
  is right if and only if it ignores the update as an old one, or the last size the rest of it gives each
  level is the size that level already has (`Book.SyncedBookIsTrueIffRestIsNothingNew`,
  `Book.HalfAnUpdateClaimsTooMuch`).
- Average books agree with FIFO books at every point if and only if every average they took was an exact
  quotient (`Ledger.AverageAgreesIffExact`).
- A stored message stamped later than the clock of its resend, after a clock was set back, ends the
  recovery, and so does one the application fails on (`Session.ResendComposesWithReceive`).

## Model

| member | source | states |
|---|---|---|
| SendPath.SentAtMostOnce | src/ismet/execution/manager.py:1183-1386 | over every run of submits, cancels, restarts and crashes, by any number of processes on one journal, the venue is called at most once per order id, only with that id's intent and start of sending on the journal, and no id has two intents |
| SendPath.NeverSentIsFinalIffUnsendable | src/ismet/execution/manager.py:509-516 | an order recovery finds unsent has no start on record and was never called for; it stays never called for in every continuation if and only if no process on the journal can still send it |
| SendPath.RecoveryCanRaceASender | src/ismet/execution/manager.py:478-516 | the other side of that condition is reachable: a second process starting between another's intent and its start of sending finds an order unsent that is then sent |
| SendPath.RecoveryCanReplay | src/ismet/execution/manager.py:545-552 | after any run a restart can replay the journal: no event is on record before its order's intent |
| SendPath.ClosingAPendingOrderIsRight | src/ismet/execution/manager.py:1930-1935 | in every run, a pending order of a process that has started, with no submit of it under way, was never called for and never will be |
| SendPath.StaleVerdictIsRightIff | src/ismet/execution/manager.py:1899-1935 | over every run in which the venue speaks of the order only once it was sent it: closing the order, listed before and with no submit of it under way, as never sent is right, in every continuation, if and only if no answer to its call is on the journal or waiting to be written there |
| SendPath.MemoryTellsUnlessStarted | src/ismet/execution/manager.py:1930-1935 | by the memory of the order alone: unless it is submitting, the verdict is right if and only if the order is still pending or was refused by this process |
| SendPath.StaleListRejectsASentOrder | src/ismet/execution/manager.py:1899-1935 | a listed order that is live in memory was sent, and the close, which does not look again, makes it rejected in memory and on the journal, at once or with what waits for it |
| SendPath.StaleListIsReachable | src/ismet/execution/manager.py:1890-1911 | such a run reaches that state: the list is taken between an order's intent and its send |
| SendPath.StartedTellsNothing | src/ismet/execution/manager.py:1237-1254 | why a submitting order needs the record: one run ends with it never to be sent, its caller cancelled while the start was written, and another with exactly the same memory of the process and the order sent |
| SendPath.PendingMeansNoStart | src/ismet/execution/manager.py:545-564 | replay leaves an order pending only if its intent is on the journal and no start of sending is |
| SendPath.CannotSendStays | src/ismet/execution/manager.py:1265-1304 | once a process cannot send an order on record, no action of its own changes that or calls the venue for it |
| SendPath.StepKeeps | src/ismet/execution/manager.py:478-564 | every step of every process keeps the protocol's invariant, starts, crashes, refused, failed and late journal writes and cancelled callers included: who owns an intent, what is durable before each phase, and that no call repeats |
| KillSwitch.SwitchHoldsInEveryRun | src/ismet/execution/manager.py:819-986 | over all interleavings at the awaits, with other processes appending kill records: a pending unrecorded engage means memory is engaged; memory that is not engaged stands on a named release; an engaged memory with no engage under way is on the journal; and no send is let through while a halt its own read of the journal saw has no named release after it |
| KillSwitch.OnlyReleasesClear | src/ismet/execution/manager.py:942-986 | engaged memory is cleared only by this process's own journalled release, or by adopting a newer named release on a chain just verified while no engage is pending and none is under way |
| KillSwitch.SettledOk | src/ismet/execution/manager.py:850-883 | an engage that has read the journal leaves memory engaged: recorded, waiting to be recorded, or another engage's to settle |
| KillSwitch.EngageOnlyWidens | src/ismet/execution/manager.py:862-883 | engaging when engaged keeps the original reason and operator and can only widen the action |
| KillSwitch.KeptMeansReleased | src/ismet/execution/manager.py:963-975 | memory that keeps itself against what was read, and is not engaged, is newer than every halt that was read |
| KillSwitch.FoldIsOnRecord | src/ismet/execution/journal.py:174-211 | the state folded from the rows stands on a row of the matching kind, and its number is at least that of every engage among them |
| KillSwitch.StepKeeps | src/ismet/execution/manager.py:819-1009 | every step keeps the switch's invariant |
| Journal.VerifyChain | src/ismet/execution/journal.py:141-165 | the checking loop accepts exactly the intact chains and otherwise names the first bad row, everything before which is intact |
| Journal.AppendPreserves | src/ismet/execution/journal.py:425-450 | an append keeps the chain verifying and intents unique |
| Journal.HeadDeterminesRows | src/ismet/execution/journal.py:90-104 | two row lists that verify to the same head digest agree row by row, and are identical where the intent flag is stored as a bit; no nonempty journal verifies to the genesis digest |
| Journal.DigestDeterminesPrefix | src/ismet/execution/journal.py:141-165 | the same at any row: equal digests there mean equal prefixes |
| Journal.FlagNumberIsNotCovered | src/ismet/execution/journal.py:158-160 | the digest covers whether the intent flag is set, not its number: a row rewritten from one to two still verifies |
| Journal.OnlyPrefixesVerify | src/ismet/execution/journal.py:147-157 | no selection, repetition or rearrangement of a journal's rows verifies, other than cutting its end off |
| Journal.UntamperedAlwaysVerifies | src/ismet/execution/journal.py:580-617 | with concurrent appenders and crashes between commit and anchor write, an untampered journal always verifies, whatever happens between reading the anchor and reading the rows |
| Journal.VerifyingMeansPrefixRestored | src/ismet/execution/journal.py:472-541 | from any rows at all beside the anchor of an intact journal, after any appends and anchor writes, the check passes only if the rows up to the anchored one are the original's again |
| Journal.KillStateFrom | src/ismet/execution/journal.py:174-211 | the folding loop computes the fold the lemmas are about |
| Journal.EngagedIffHaltedOnRecord | src/ismet/execution/journal.py:174-211 | the fold is engaged if and only if an engage or unreadable row follows the last release that names an operator |
| Journal.CancelStandsUntilRelease | src/ismet/execution/journal.py:180-181 | engages only widen: an order to cancel open orders stands until a named release, whatever narrower or unreadable rows follow |
| Journal.CancelWasAsked | src/ismet/execution/journal.py:201-209 | and it comes from an engage since the last named release, or from a release row that itself carries it |
| Journal.MemoryJournal.Append | src/ismet/execution/journal.py:221-247 | refuses a second intent for an id and changes nothing, else adds one linked row; the set of ids stays exactly the intents on record |
| Journal.SqliteJournal.Append | src/ismet/execution/journal.py:409-465 | one row under the unique index, then the anchor moved by its rule if it could be written |
| Journal.SqliteJournal.WriteAnchor | src/ismet/execution/journal.py:472-517 | a disputed anchor is kept, a newer one is kept, anything else moves to the row appended |
| Journal.SqliteJournal.Disputes | src/ismet/execution/journal.py:526-541 | the anchored row is gone or has another digest |
| Journal.SqliteJournal.Verify | src/ismet/execution/journal.py:580-617 | accepts exactly an intact chain whose anchored row is there with the anchored digest |
| Manager.OrderManager.RecordNow | src/ismet/execution/manager.py:702-740 | journals and applies one event: memory stays the replay of the journal and the waiting queue, a refused durable event changes no order, a conclusion from a state object since replaced is dropped, a report handed back unchanged leaves every order as it was, and any other event reaches memory and waits |
| Manager.OrderManager.Store | src/ismet/execution/manager.py:621-641 | the one place order state changes keeps the open index exactly the non-terminal orders and the net per symbol the signed sum of what is filled |
| Manager.OrderManager.WriteUnjournalled | src/ismet/execution/manager.py:750-758 | writes what a failed journal missed, first and in order; journal plus queue is unchanged whatever fails |
| Manager.OrderManager.RetryUnjournalled | src/ismet/execution/manager.py:760-767 | the background retry changes nothing but where events are kept |
| Manager.OrderManager.Recover | src/ismet/execution/manager.py:478-508 | rebuilds memory from the journal, and succeeds exactly when every event follows its own order's intent; a halt is due if and only if an event that gives its order a halting anomaly came after the newest kill switch record |
| Manager.HaltingAnomaliesAreOnRecord | src/ismet/execution/manager.py:545-564 | after replay an order carries a halting anomaly if and only if an event of its own on record raised one, so recovery misses none |
| Manager.OrderManager.SettleRecovered | src/ismet/execution/manager.py:509-516 | then each order found pending is closed as never sent, each submitting one becomes unknown, every other stays as it is, and memory stays the replay of what is recorded, whatever writes fail |
| Manager.OrderManager.ReplayEvent | src/ismet/execution/manager.py:545-564 | applies one journalled event, or refuses one with no intent; says whether the event gave its order a halting anomaly |
| Manager.OrderManager.NetPosition | src/ismet/execution/manager.py:643-650 | the baseline plus the signed sum of what the orders have filled, or nothing without a baseline |
| Manager.IndexesAreDetermined | src/ismet/execution/manager.py:477-517 | both indexes are determined by the orders, so a restart that replays the same events answers every query as before |
| Manager.StoreKeepsSums | src/ismet/execution/manager.py:634-641 | the update to the net keeps it the sum over all orders, for a new order or a known one |
| Orders.BookedIsReportedMinusBusted | src/ismet/execution/state.py:236-383 | however fills, repeats, busts and lifecycle events are interleaved, the booked fills are the reported ids minus the busted ones, each once, and quantity and notional are the sums over them |
| Orders.MoneyIgnoresDeliveryOrder | src/ismet/execution/state.py:236-383 | two histories that report and bust the same fills on the same terms end with the same quantity and notional filled |
| Orders.ApplyKeepsMoney | src/ismet/execution/state.py:416-469 | every event keeps the totals the sums over distinct unbusted fills |
| Orders.AnomaliesOnlyGrow | src/ismet/execution/state.py:225-226 | no event ever takes an anomaly back |
| Orders.StatusTellsTheTruth | src/ismet/execution/state.py:400-509 | in every run without restatements: accepted means nothing filled, partially filled means some but not all, filled means all, and pending terms exist only while a request is open or the order unknown |
| Orders.TerminalIsLeftOnlyByMoney | src/ismet/execution/state.py:61-143 | only a fill or a bust moves an order out of a terminal status, and only a bust reopens it |
| Orders.SendIsNeverForgotten | src/ismet/execution/state.py:61-143 | no event but a restatement leads back to an order that was not sent |
| Orders.ApplyEvent | src/ismet/execution/state.py:429-433 | the reducer refuses exactly the events of another order |
| Orders.ApplyFillByScan | src/ismet/execution/state.py:236-287 | the scan over the booked fills computes the reducer's step |
| Orders.Replay | src/ismet/execution/state.py:512-520 | the replay loop computes every order's state, or finds the event with no intent |
| Orders.ReplayIsPerOrder | src/ismet/execution/state.py:512-520 | replay never mixes orders up: each is its own first intent followed by its own events |
| Orders.OrderState.LeavesQuantity | src/ismet/execution/state.py:188-200 | what may still execute is never negative |
| Fills.MergedFill | src/ismet/execution/state.py:341-358 | a merge never changes what traded nor a detail already known, and a disputed fee keeps its pair |
| Fills.MergeIsIdempotent | src/ismet/execution/state.py:341-358 | merging the same report twice adds nothing |
| Risk.PositionNeverBreaches | src/ismet/execution/risk.py:492-520 | from inside the limit with no orders, over every run of approved submits and amends and permitted reports, the position stays inside the limit at every point |
| Risk.LimitHoldsInEveryRun | src/ismet/execution/risk.py:492-520 | and so do both worst cases: position plus open buys, and position minus open sells, pending replaces and unknown orders included |
| Risk.OnlyPermittedEventsKeepEveryLimit | src/ismet/execution/state.py:188-200 | the guard on venue reports is exact: an event keeps every limit its order was inside if and only if it is permitted |
| Risk.PermittedIffShrinks | src/ismet/execution/state.py:188-200 | an event leaves the order able to end nowhere it could not before, with no fill taken back, exactly when it is permitted |
| Risk.AckForgetsAPendingReplace | src/ismet/execution/state.py:416-426 | in an unknown order an acknowledgement drops the pending quantity, and the confirmation of the amend, permitted before, is not permitted after |
| Risk.ForgottenReplaceBreaches | src/ismet/execution/state.py:416-426 | for every limit with room to buy there is a run of approved and permitted steps after which the venue's confirmation of the approved amend takes the worst case, and with permitted fills the position, over the limit |
| Risk.ApprovalIsTheWorstCase | src/ismet/execution/risk.py:502-520 | from inside the limit the check approves exactly when the worst case stays inside |
| Risk.SumLeavesOf | src/ismet/execution/risk.py:492-499 | the accumulator computes the sum of leaves of one symbol and side |
| Risk.OpenOrdersSum | src/ismet/execution/manager.py:1173-1173 | leaving ended orders out changes nothing, and leaving the amended order out takes exactly its leaves |
| Risk.AmendFits | src/ismet/execution/manager.py:1576-1602 | an approved amend leaves room for whatever its order may end with on the new terms |
| Risk.ReplaceRequestGrowsAsApproved | src/ismet/execution/manager.py:1516-1526 | recording the request adds to the order's leaves no more than was approved |
| Codec.RoundTripIff | src/ismet/fix/message.py:274-398 | of the messages the encoder accepts, decoding gives back the BeginString and the fields of those within the reader's limits, and of no others |
| Codec.FieldsRoundTripIff | src/ismet/fix/message.py:344-392 | printing and reading fields are inverse exactly on the readable ones, data values holding delimiters included |
| Codec.LongVersionIsNotReadBack | src/ismet/fix/message.py:434-438 | the limits are needed: a BeginString of thirty bytes is encoded and then garbled to the decoder, whatever fields follow |
| Codec.TenDigitTagIsNotReadBack | src/ismet/fix/message.py:395-398 | a tag of ten digits is encoded and not read back |
| Codec.WordyLengthIsNotReadBack | src/ismet/fix/message.py:344-392 | a length field that is not a number is encoded and not read back |
| Codec.EncodeFields | src/ismet/fix/message.py:274-309 | the printing loop computes the printed fields or the first refusal |
| Codec.ParseFields | src/ismet/fix/message.py:344-392 | the reading loop computes the fields, the first defect, or that the bytes cannot be split |
| Codec.ScanIsStable | src/ismet/fix/message.py:415-476 | every verdict but the wait for more bytes is final under longer input |
| Codec.WaitIsBounded | src/ismet/fix/message.py:509-518 | a frame that makes the caller wait holds at most the stated number of bytes, whatever length it declares |
| Codec.PrintedFrameScans | src/ismet/fix/message.py:415-476 | a printed frame scans as itself within the limits and is refused outside them |
| Codec.DecodePrinted | src/ismet/fix/message.py:567-593 | decoding a printed frame is reading its body back, within the limits of the scan |
| Bytes.FindIn | src/ismet/fix/message.py:430-430 | a bounded search finds the first occurrence, and finds none only if there is none |
| Bytes.DigitsRoundTrip | src/ismet/fix/message.py:329-329 | a number printed in decimal reads back as itself |
| Bytes.ThreeDigitsRoundTrip | src/ismet/fix/message.py:331-331 | a checksum printed in three digits reads back as itself |
| Stream.AnySplitMakesNoDifference | src/ismet/fix/message.py:520-564 | feeding a stream in any split gives the same items and the same state as feeding it whole |
| Stream.SplitMakesNoDifference | src/ismet/fix/message.py:520-564 | the same for one cut, from any state of the parser |
| Stream.RestIsBounded | src/ismet/fix/message.py:509-518 | what is left after consuming is at rest and never more than one unfinished frame |
| Stream.ChunkedFramesStreamBack | src/ismet/fix/message.py:520-564 | frames of messages within the limits, concatenated and cut anywhere, stream back as exactly those messages, with nothing left over |
| Stream.FramesStreamBack | src/ismet/fix/message.py:520-564 | the same uncut |
| Stream.TailSuffices | src/ismet/fix/message.py:528-542 | between frames, searching the kept bytes and what follows finds what searching everything would |
| Stream.FixStreamParser.Feed | src/ismet/fix/message.py:520-564 | the loop computes the specification on the buffer and the new bytes, terminates, and keeps the buffer bounded |
| Stream.FixStreamParser.TakeFrame | src/ismet/fix/message.py:543-561 | reads what stands at the start of a synced buffer |
| FixStore.MemoryFixStore.RecordReport | src/ismet/fix/store.py:282-304 | order, execution, bust and quarantine change together; nothing on record is lost, rebooked, rewritten or unbusted |
| FixStore.MemoryFixStore.UnbustedFills | src/ismet/fix/store.py:306-311 | the query loop computes the fills not busted |
| FixStore.FillsSinceIsExact | src/ismet/fix/store.py:306-311 | the recovery query returns exactly the fills on record that were not busted, from the time asked |
| FixStore.ReportedKeeps | src/ismet/fix/store.py:295-302 | a report keeps every execution's digest and fill, and every bust |
| FixStore.BookedAddsFill | src/ismet/fix/store.py:295-297 | booking a new execution adds its fill to its order's total and to no other |
| FixStore.MarkedTakesFill | src/ismet/fix/store.py:298-302 | a bust takes its execution's fill out of the total once |
| FixStore.MemoryFixStore.AllocateOutbound | src/ismet/fix/store.py:218-225 | the next number is consumed and the message stored under it; no number is given twice |
| FixStore.MemoryFixStore.ResetSequences | src/ismet/fix/store.py:235-238 | numbers and stored messages start over; orders and executions stay |
| FixStore.MemoryFixStore.PutOrder | src/ismet/fix/store.py:252-259 | the row and its place among the open orders |
| FixStore.MemoryFixStore.DeleteOrder | src/ismet/fix/store.py:261-265 | the row goes, and exactly the wire ids that led to it |
| Provider.BookedOnceForGood | src/ismet/fix/provider.py:919-1002 | over every history of reports, repeats and redeliveries, an execution once booked keeps its digest and fill for good, and a busted one stays busted |
| Provider.RedeliveryChangesNothing | src/ismet/fix/provider.py:923-930 | a report applied before changes nothing, whatever came between |
| Provider.BustIsFinalIffKnown | src/ismet/fix/store.py:298-302 | a busted execution never comes back in any continuation if and only if it was on record when its bust arrived |
| Provider.TruthfulHistoryAgrees | src/ismet/fix/provider.py:1030-1098 | with a true CumQty on every report and none lost, the order's count is always the sum of its unbusted fills and nothing is quarantined as lost |
| Provider.LossIsNoticedIffUnseen | src/ismet/fix/provider.py:1030-1060 | over every history of which any reports are lost: the next new report with a true CumQty is quarantined if and only if what moved at the venue and not in the row, since the last CumQty, does not net to zero, unless it is a bust, a correction or a duplicate-order reject |
| Provider.GapIsUnseen | src/ismet/fix/provider.py:1030-1098 | at every point of such a history the row differs from the venue's total by exactly that |
| Provider.NextCumQtyReveals | src/ismet/fix/provider.py:1030-1060 | while nothing that arrives carries CumQty, that is what the lost reports moved together with what delivered busts moved: with no such bust, the next CumQty is quarantined exactly when the lost reports do not net to zero |
| Provider.BustHidesALoss | src/ismet/fix/provider.py:1045-1082 | why busts are excepted: a bust with a true CumQty puts the row in step with the venue unseen, and in no continuation of which nothing goes unseen is the loss noticed, nor is a lost report ever on record |
| Provider.ResendNeverGoesBack | src/ismet/fix/provider.py:945-960 | a lost report resent late neither lowers the count below what was booked nor reopens an ended order |
| Provider.FixProvider.ApplyReport | src/ismet/fix/provider.py:919-1002 | the handler commits the report's whole effect and publishes its events, fills only when the report cannot be trusted otherwise |
| PlaceOrder.OneNewOrderPerId | src/ismet/fix/provider.py:1669-1735 | over every run of concurrent callers, session drops, store failures, cancellations, sequence resets and restarts, at most one D message is ever allocated for an order id, and an order with one keeps its row for good |
| PlaceOrder.StepKeeps | src/ismet/fix/provider.py:1700-1733 | every step keeps the invariant: one holder per unsent row, and no row taken back once its message is allocated |
| PlaceOrder.FirstCallIsSent | src/ismet/fix/session.py:719-752 | a first call on a fresh id goes out if nothing stops it |
| Session.NothingIsPassedSilently | src/ismet/fix/session.py:846-942 | in every run with gaps, duplicates, resets, reconnects and crashes, with the timer and a logout of one's own acting at any await inside a message too, at every point of it, each number below the store's next one was delivered, discarded to the listener, covered by the peer's gap fill, reported lost, or a session message's own; no reset discards unread numbers untold; and ready is entered only synchronised with nothing to recover |
| Session.RecoveryIsAhead | src/ismet/fix/session.py:1026-1039 | an open resend target is never below the number expected next, and a ready session is synchronised |
| Session.HandleKeeps | src/ismet/fix/session.py:872-942 | every message, whatever it is and whatever other tasks do at its awaits, keeps the invariant |
| Session.AdvanceKeeps | src/ismet/fix/session.py:846-863 | the expected number moves only past what is accounted for, and never beyond an open resend target without closing it |
| Session.ObeyPeerResetKeeps | src/ismet/fix/session.py:1120-1143 | a peer's reset is told before the numbers start over, and leaves the session unsynchronised |
| Session.ConnectKeeps | src/ismet/fix/session.py:787-826 | our own reset at logon is told unless all was read |
| Session.ResendComposesWithReceive | src/ismet/fix/session.py:1220-1274 | for any store and request, a session that expects the first number and reads the answer, whatever its timer and a logout of its own send meanwhile, delivers exactly the stored messages that are not stale, once and in order, and expects the number after the last, if and only if none is stamped later than the resend's clock and the application fails on none |
| Session.AnswerIsExact | src/ismet/fix/session.py:1220-1256 | the frames written tile the requested range with no overlap and no hole and resend exactly the stored messages that are not stale |
| Session.Resend | src/ismet/fix/session.py:1220-1256 | the writing loop with its open gap computes those frames |
| Session.FixSession.AdvanceTo | src/ismet/fix/session.py:846-863 | computes the specification's step, and keeps the invariant when everything below the new number is accounted for |
| Session.FixSession.RefuseMessage | src/ismet/fix/session.py:944-979 | discards to the listener, rejects, and passes over a message that came at its number |
| Session.FixSession.TimesAreConsistent | src/ismet/fix/session.py:981-1014 | a possible duplicate whose times disagree is refused |
| Session.FixSession.Gap | src/ismet/fix/session.py:1026-1039 | a number above the expected one raises the target and asks once |
| Session.FixSession.AdminMessage | src/ismet/fix/session.py:1041-1074 | session messages in their turn |
| Session.FixSession.GapFillMessage | src/ismet/fix/session.py:1161-1178 | a gap fill covers what it passes, and one that lowers the number is refused |
| Session.FixSession.SequenceResetReset | src/ismet/fix/session.py:1180-1204 | a forced reset reports what it skips |
| Session.FixSession.ObeyReset | src/ismet/fix/session.py:1120-1143 | the peer's reset at logon |
| Session.FixSession.LogonWithReset | src/ismet/fix/session.py:1104-1118 | a logon with the reset flag: the answer to ours, or the peer's own |
| Session.FixSession.DeliverMessage | src/ismet/fix/session.py:1276-1296 | an application message in its turn; one the application fails on stays unread |
| Session.FixSession.ReadMessage | src/ismet/fix/session.py:595-609 | one message read while other tasks act at its awaits is one step of a run |
| Session.FixSession.LetOthersAct | src/ismet/fix/session.py:611-666 | an await: the timer's turns and a logout of one's own, in their order |
| Session.FixSession.HandleMessage | src/ismet/fix/session.py:872-942 | the session checks in their order compute the specification and keep the invariant: no message makes the session pass a number silently |
| Session.FixSession.ConnectNow | src/ismet/fix/session.py:787-814 | a new connection and the reset that may be due, with unread numbers told first |
| Session.FixSession.OnTick | src/ismet/fix/session.py:611-666 | what the timer sends while the session is up; no number moves and the invariant stays |
| Session.FixSession.GiveUp | src/ismet/fix/session.py:645-651 | a peer that does not answer is sent a Logout and dropped |
| Session.PauseKeeps | src/ismet/fix/session.py:611-666 | whatever others do at an await, no number, loss or open target changes, and what is accounted for stays so |
| Session.FixSession.Leave | src/ismet/fix/session.py:429-448 | a logout of one's own accord |
| Book.SyncedBookIsTrueIffRestIsNothingNew | src/ismet/marketdata/book.py:146-227 | at every point of every run, snapshots between the levels of an update included, whatever was lost, repeated, reordered or dropped by the bounded buffer: a builder that claims to be in sync is led by the rest of the update under way to the venue's book at its last number, and holds that book already if and only if it ignores that update as an old one, or the last size the rest gives each level is the one it has |
| Book.SyncedBookIsTheVenuesBook | src/ismet/marketdata/book.py:146-227 | with no update half arrived, a builder that claims to be in sync holds the venue's book at its last number |
| Book.SnapshotNeverRollsBack | src/ismet/marketdata/book.py:163-170 | after any arrivals, a snapshot leaves a book in sync in sync and never older, and changes it only to its own |
| Book.SnapshotCatchesUp | src/ismet/marketdata/book.py:171-183 | a snapshot over a buffer that dropped nothing and misses nothing leaves the builder in sync at the newest update |
| Book.SingleLevelUpdateIsTrue | src/ismet/marketdata/book.py:50-56 | a feed of one level per number is a feed of the kind the theorem is about |
| Book.HalfAnUpdateClaimsTooMuch | src/ismet/marketdata/book.py:216-221 | the condition can fail: a run that stops after one level of two claims the update's end without its book |
| Book.BookSide.Set | src/ismet/marketdata/book.py:93-102 | one level set or removed; the key list stays strictly sorted and equal to the level map's keys |
| Book.BookSide.Top | src/ismet/marketdata/book.py:104-107 | the best levels first, as many as asked for |
| Book.BookSide.BisectLeft | src/ismet/marketdata/book.py:98-98 | the place of a key in the sorted list |
| Book.BookBuilder.ApplyDelta | src/ismet/marketdata/book.py:198-221 | computes the specification's step |
| Book.BookBuilder.BufferDelta | src/ismet/marketdata/book.py:223-227 | the bounded buffer and what it has dropped |
| Book.BookBuilder.ApplySnapshot | src/ismet/marketdata/book.py:146-183 | computes the specification's step; a bad row leaves the book as it was |
| Book.BookBuilder.SideFrom | src/ismet/marketdata/book.py:185-196 | the rows in order, or a refusal at the first bad one |
| Book.BookBuilder.Snapshot | src/ismet/marketdata/book.py:229-250 | the current book, or the gap that makes it untrustworthy |
| Ledger.LedgerConserves | src/ismet/accounting/__init__.py:111-170 | after any reports, repeated and refused ones included: open lots are nonzero and on one side, quantity is the signed sum of distinct fills, and realized P&L is the multiplier times cost less cash paid, up to the average method's rounding |
| Ledger.MethodsAgreeOnTotalPnl | src/ismet/accounting/__init__.py:106-109 | realized plus unrealized P&L at any mark is the same for two lot methods when the averages each of them takes in this run are exact quotients |
| Ledger.AverageAgreesIffExact | src/ismet/accounting/__init__.py:106-109 | average books agree with FIFO books after every report if and only if every average they took is an exact quotient |
| Ledger.FifoAndLifoAgree | src/ismet/accounting/__init__.py:106-109 | and for FIFO and LIFO with no assumption on rounding |
| Ledger.TotalPnlIgnoresLots | src/ismet/accounting/__init__.py:77-109 | total P&L depends on the fills alone, never on the lots |
| Ledger.MatchKeepsTheRightLots | src/ismet/accounting/__init__.py:145-167 | FIFO closes the oldest lots and LIFO the newest, with at most the lot at the cut reduced |
| Ledger.MatchConserves | src/ismet/accounting/__init__.py:145-167 | closing realizes exactly the price moved on the quantity closed |
| Ledger.SeenMatchesIntake | src/ismet/accounting/__init__.py:122-141 | fees per currency, the count of unknown fees and the memory of executions agree with the distinct executions reported |
| Ledger.NoDriftUnlessAverage | src/ismet/accounting/__init__.py:142-143 | only the average method rounds |
| Ledger.NoDriftIffExact | src/ismet/accounting/__init__.py:200-205 | and it never drifts if and only if each quotient the run takes is exact |
| Ledger.PositionLedger.Apply | src/ismet/accounting/__init__.py:111-170 | computes the specification's books and result, errors included |
| Ledger.PositionLedger.CloseAgainst | src/ismet/accounting/__init__.py:144-167 | the matching loop computes the matches, the lots left and what remains |
| Ledger.PositionLedger.MergeInto | src/ismet/accounting/__init__.py:172-195 | a second report adds detail or is refused |
| Ledger.PositionLedger.CollapseToAverage | src/ismet/accounting/__init__.py:200-205 | all lots become one at the average price |
| Ledger.PositionLedger.Quantity | src/ismet/accounting/__init__.py:77-83 | the accumulator computes the net position |
| Ledger.PositionLedger.CostBasis | src/ismet/accounting/__init__.py:93-99 | the accumulator computes the cost of the open lots |
| Ledger.PositionLedger.RealizedPnl | src/ismet/accounting/__init__.py:85-91 | the accumulator computes realized P&L |
| Ticks.RoundedPriceIsAligned | src/ismet/models/instrument.py:168-188 | a rounded price is a multiple of the tick that applies where it lands, even across a band, less than one tick from the original |
| Ticks.RoundingIsIdempotent | src/ismet/models/instrument.py:182-188 | rounding a rounded price changes nothing, in whichever mode |
| Ticks.RoundingKeepsOrder | src/ismet/models/instrument.py:182-188 | rounding never swaps two prices, even where different ticks apply |
| Ticks.RoundingStaysInBand | src/ismet/models/instrument.py:81-100 | a rounded price leaves its band only to land exactly on the next boundary, and keeps its sign |
| Ticks.RoundingIsUnique | src/ismet/models/decimals.py:117-145 | the meaning of each rounding mode determines one result |
| Ticks.RoundToStep | src/ismet/models/decimals.py:117-145 | the result is the multiple the mode means, for every sign; a step not above zero is refused |
| Ticks.IsMultiple | src/ismet/models/decimals.py:109-114 | divisibility, for every sign; a step not above zero is refused |
| Ticks.BisectRight | src/ismet/models/instrument.py:97-100 | the number of band starts at or below a price |
| Ticks.BandAt | src/ismet/models/instrument.py:97-100 | the band a price of either sign falls in |

## Left out

- The event loop, sockets, TLS, clocks, backoff and thread pools: only the step boundaries, the crash points and the order of journal calls are modelled.
- SQLite, file replacement, JSON and pydantic: each transaction is one atomic step and each payload a value; what a corrupt payload does is modelled only for kill switch records.
- SHA-256 and the text form of times: a digest is a structure and a time an integer; that the serialised material determines its fields is part of that abstraction.
- Constructors that raise on a bad argument (a buffer or body limit below one) have it as a precondition.
- The order path and the kill switch are state machines on values, not classes: each await ends a step, and a method of a class cannot be interleaved.
- SendPath.StaleVerdictIsRightIff: of the order itself, what a restarted process, reconciliation or an operator concludes before its call was ever made is not part of the runs it speaks of, and a venue is taken not to reject it under the process's own codes; other orders are free.
- SendPath: a venue that restates an order this process has not yet called it for, or restates one as not yet sent, is not part of the runs.
- Manager.OrderManager.Recover: the sweep window, which only says from when fills are asked for again, is not part of it.
- Journal.SqliteJournal.Verify: an anchor file naming row zero or below, which no append writes, is not modelled.
- Orders: the text of anomalies and the hooks that read them, average price, time stamps and origins of events.
- Position adjustments, notional limits across symbols and the other risk checks: one-branch gates beside the position limit.
- Fees, marks, gross exposure and market data sources of the manager, reconciliation's venue queries and resolution by an operator: they depend on venue answers, and only the events they record appear.
- Codec: text that is not single bytes, which the encoder refuses, masking of credentials, and the decimal and time formats of field values.
- Stream: the reason text of garbled markers.
- FixStore.MemoryFixStore.RecordReport: a fill is its quantity; price, side and details are in `Fills`. Releasing the quarantine is not modelled.
- Provider.LossIsNoticedIffUnseen: a lost report that the venue sends again under its old execution id is not part of the history; what such a resend does to the row is in `Provider.ResendNeverGoesBack`.
- Provider: the mapping of FIX fields to events beyond quantity, ExecID, bust reference, CumQty and status; status reports; waiters.
- Session: the model has a listener; without one the code passes application messages over unread. A disconnect that lands between a store write and the memory that follows it is taken as one step with it. What cuts in at an await acts to its own end, and a peer given up on inside a message cuts that message short. Credentials, text and comparisons of heartbeat intervals are left out, and so is the outbound number, which is in `FixStore` and `PlaceOrder`.
- Session.FixSession.AdminMessage: what a Reject reports to the application and the frames a ResendRequest is answered with are marked as sent, not listed; the frames are those of `Session.Resend`.
- Calendars, the security master, bar stores, identifier check digits, normalizers, transport, client, CLI, export, configuration and observability: they would add only easier properties.
