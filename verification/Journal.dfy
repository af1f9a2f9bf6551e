/** The append-only journal: one hash chain, one unique intent per order id, and an anchor file that
    remembers how far the chain had come. A digest is the record content it covers, so two digests are
    equal exactly when everything below them is. */
module Journal {
  import opened Common

  datatype Digest =
    | Genesis
    | Of(seqNo: int, ts: string, kind: string, cid: Option<string>, payload: string, prev: Digest, unique: bool)

  /** One stored row, as written: any field may have been altered. The flag is an integer column. */
  datatype Row = Row(seqNo: int, ts: string, kind: string, cid: Option<string>, payload: string,
                     prev: Digest, hash: Digest, unique: int)
  {
    function Computed(): Digest { Of(seqNo, ts, kind, cid, payload, prev, unique != 0) }
  }

  function Head(rows: seq<Row>): Digest {
    if rows == [] then Genesis else rows[|rows| - 1].hash
  }

  /** Row `k` carries the next number, points at the row before it, and hashes to its own digest. */
  predicate LinkOk(rows: seq<Row>, k: nat)
    requires k < |rows|
  {
    rows[k].seqNo == k + 1 && rows[k].prev == Head(rows[..k]) && rows[k].hash == rows[k].Computed()
  }

  predicate ChainOk(rows: seq<Row>) {
    forall k :: 0 <= k < |rows| ==> LinkOk(rows, k)
  }

  datatype Verdict = Verdict(ok: bool, records: nat, head: Digest, firstBad: Option<int>)

  /** The checking loop: it accepts exactly the intact chains, and otherwise names the first bad row,
      everything before which is intact. */
  method VerifyChain(rows: seq<Row>) returns (r: Verdict)
    ensures r.ok <==> ChainOk(rows)
    ensures r.ok ==> r == Verdict(true, |rows|, Head(rows), None)
    ensures !r.ok ==>
      && 0 < r.records <= |rows| && !LinkOk(rows, r.records - 1)
      && r.firstBad == Some(rows[r.records - 1].seqNo)
      && ChainOk(rows[..r.records - 1]) && r.head == Head(rows[..r.records - 1])
  {
    var prev := Genesis;
    var expected := 1;
    var count := 0;
    while count < |rows|
      invariant count <= |rows| && expected == count + 1
      invariant prev == Head(rows[..count]) && ChainOk(rows[..count])
    {
      var row := rows[count];
      LinksOfPrefix(rows, count);
      if row.seqNo != expected || row.prev != prev || row.Computed() != row.hash {
        assert !LinkOk(rows, count);
        return Verdict(false, count + 1, prev, Some(row.seqNo));
      }
      LinksOfPrefix(rows, count + 1);
      prev, expected, count := row.hash, expected + 1, count + 1;
    }
    assert rows[..|rows|] == rows;
    r := Verdict(true, count, prev, None);
  }

  lemma LinksOfPrefix(rows: seq<Row>, n: nat)
    requires n <= |rows|
    ensures ChainOk(rows[..n]) <==> forall k :: 0 <= k < n ==> LinkOk(rows, k)
  {
    forall k | 0 <= k < n ensures LinkOk(rows[..n], k) == LinkOk(rows, k) {
      assert rows[..n][..k] == rows[..k];
    }
  }

  // ----- Appending -----

  datatype Content = Content(ts: string, kind: string, cid: Option<string>, payload: string, unique: bool)

  /** The row an append inserts, numbered and linked after the last row there is. */
  function NextRow(rows: seq<Row>, c: Content): Row {
    var seqNo := if rows == [] then 1 else rows[|rows| - 1].seqNo + 1;
    var prev := Head(rows);
    Row(seqNo, c.ts, c.kind, c.cid, c.payload, prev,
        Of(seqNo, c.ts, c.kind, c.cid, c.payload, prev, c.unique), if c.unique then 1 else 0)
  }

  /** The unique index: no two rows whose flag is one share an order id. Rows without an id never clash. */
  predicate Clashes(rows: seq<Row>, c: Content) {
    c.unique && c.cid.Some? && exists k :: 0 <= k < |rows| && rows[k].unique == 1 && rows[k].cid == c.cid
  }

  predicate OneIntentPerOrder(rows: seq<Row>) {
    forall i, j :: 0 <= i < j < |rows| && rows[i].unique == 1 && rows[j].unique == 1 && rows[i].cid.Some? ==>
      rows[i].cid != rows[j].cid
  }

  function Appended(rows: seq<Row>, c: Content): seq<Row> {
    if Clashes(rows, c) then rows else rows + [NextRow(rows, c)]
  }

  /** An append keeps the chain verifying, and keeps intents unique. */
  lemma AppendPreserves(rows: seq<Row>, c: Content)
    requires ChainOk(rows) && OneIntentPerOrder(rows)
    ensures ChainOk(Appended(rows, c)) && OneIntentPerOrder(Appended(rows, c))
  {
    var all := Appended(rows, c);
    if !Clashes(rows, c) {
      assert all[..|rows|] == rows;
      LinksOfPrefix(all, |rows|);
      assert LinkOk(all, |rows|) by {
        if rows != [] { assert LinkOk(rows, |rows| - 1); }
      }
      forall i, j | 0 <= i < j < |all| && all[i].unique == 1 && all[j].unique == 1 && all[i].cid.Some?
        ensures all[i].cid != all[j].cid
      {
        if j == |rows| { assert all[i] == rows[i]; }
      }
    }
  }

  // ----- What the chain proves -----

  /** Equal in everything the digest covers: all but which nonzero number marks the flag. */
  predicate SameRow(a: Row, b: Row) {
    a.(unique := 0) == b.(unique := 0) && (a.unique != 0) == (b.unique != 0)
  }

  predicate SameRows(a: seq<Row>, b: seq<Row>) {
    |a| == |b| && forall k :: 0 <= k < |a| ==> SameRow(a[k], b[k])
  }

  predicate FlagsAreBits(rows: seq<Row>) {
    forall k :: 0 <= k < |rows| ==> rows[k].unique in {0, 1}
  }

  lemma ChainOfInit(rows: seq<Row>)
    requires ChainOk(rows) && rows != []
    ensures ChainOk(rows[..|rows| - 1]) && LinkOk(rows, |rows| - 1)
  {
    LinksOfPrefix(rows, |rows| - 1);
  }

  /** The head digest determines the whole journal: two lists that verify to the same head agree row by
      row, and no nonempty journal verifies to the genesis digest. */
  lemma {:induction false} HeadDeterminesRows(a: seq<Row>, b: seq<Row>)
    requires ChainOk(a) && ChainOk(b) && Head(a) == Head(b)
    ensures SameRows(a, b)
    ensures FlagsAreBits(a) && FlagsAreBits(b) ==> a == b
  {
    if a != [] { ChainOfInit(a); }
    if b != [] { ChainOfInit(b); }
    if a != [] && b != [] {
      var x, y := a[..|a| - 1], b[..|b| - 1];
      assert Head(x) == Head(y);
      HeadDeterminesRows(x, y);
      assert SameRow(a[|a| - 1], b[|b| - 1]);
      assert a == x + [a[|a| - 1]] && b == y + [b[|b| - 1]];
      forall k | 0 <= k < |a| ensures SameRow(a[k], b[k]) {
        if k < |x| { assert a[k] == x[k] && b[k] == y[k]; }
      }
    }
  }

  /** The same at any point inside: two chains with the same digest at row `n` agree up to it. */
  lemma DigestDeterminesPrefix(a: seq<Row>, b: seq<Row>, n: nat)
    requires ChainOk(a) && ChainOk(b) && 1 <= n <= |a| && n <= |b| && a[n - 1].hash == b[n - 1].hash
    ensures SameRows(a[..n], b[..n])
  {
    LinksOfPrefix(a, n);
    LinksOfPrefix(b, n);
    HeadDeterminesRows(a[..n], b[..n]);
  }

  /** Why the flags are excepted: the digest covers whether the flag is set, not its number, so a row
      rewritten from one to two still verifies, and the unique index no longer sees it. */
  lemma FlagNumberIsNotCovered(rows: seq<Row>, k: nat)
    requires ChainOk(rows) && k < |rows| && rows[k].unique == 1
    ensures var altered := rows[k := rows[k].(unique := 2)];
            altered != rows && ChainOk(altered) && SameRows(altered, rows)
  {
    var altered := rows[k := rows[k].(unique := 2)];
    assert altered[k] != rows[k];
    forall i | 0 <= i < |altered| ensures LinkOk(altered, i) && SameRow(altered[i], rows[i]) {
      assert LinkOk(rows, i);
      assert Head(altered[..i]) == Head(rows[..i]);
    }
  }

  /** No selection or rearrangement of a journal's rows verifies, other than cutting its end off. */
  lemma OnlyPrefixesVerify(rows: seq<Row>, picked: seq<Row>)
    requires ChainOk(rows) && ChainOk(picked) && forall r :: r in picked ==> r in rows
    ensures picked <= rows
  {
    forall k | 0 <= k < |picked| ensures k < |rows| && picked[k] == rows[k] {
      assert picked[k] in rows && LinkOk(picked, k);
      var i :| 0 <= i < |rows| && rows[i] == picked[k];
      assert LinkOk(rows, i);
    }
    assert |picked| <= |rows| by {
      if picked != [] { assert picked[|picked| - 1] in rows; }
    }
  }

  // ----- The anchor -----

  /** A row number and the digest it had: what the anchor file holds, or what an append will write there. */
  datatype Mark = Mark(seqNo: int, digest: Digest)

  predicate Holds(rows: seq<Row>, m: Mark) {
    exists k :: 0 <= k < |rows| && rows[k].seqNo == m.seqNo && rows[k].hash == m.digest
  }

  /** The anchor after a committed append tries to move it. A mark the rows dispute is never moved. */
  function Moved(rows: seq<Row>, anchor: Option<Mark>, m: Mark): Option<Mark> {
    if anchor.Some? && !Holds(rows, anchor.value) then anchor
    else if anchor.Some? && anchor.value.seqNo >= m.seqNo then anchor
    else Some(m)
  }

  /** The whole check, on an anchor and on rows read at two moments. */
  predicate Verifies(anchor: Option<Mark>, rows: seq<Row>)
    requires anchor.Some? ==> anchor.value.seqNo >= 1
  {
    && ChainOk(rows)
    && (anchor.Some? ==> anchor.value.seqNo <= |rows| && rows[anchor.value.seqNo - 1].hash == anchor.value.digest)
  }

  /** Rows, anchor, and the marks of appends that committed but have not reached the anchor file. */
  datatype Disk = Disk(rows: seq<Row>, anchor: Option<Mark>, unwritten: seq<Mark>)

  /** One process commits an append; a committed append's mark reaches the anchor; one is lost to a
      crash, a locked database or a failed write. Processes do these in any order. */
  datatype Step = Commit(content: Content) | WriteAnchor(i: nat) | LoseMark(i: nat)

  function Dropped(marks: seq<Mark>, i: nat): seq<Mark> {
    if i < |marks| then marks[..i] + marks[i + 1..] else marks
  }

  function Next(d: Disk, step: Step): Disk {
    match step
    case Commit(c) =>
      if Clashes(d.rows, c) then d else
      var row := NextRow(d.rows, c);
      Disk(d.rows + [row], d.anchor, d.unwritten + [Mark(row.seqNo, row.hash)])
    case WriteAnchor(i) =>
      if i < |d.unwritten|
      then Disk(d.rows, Moved(d.rows, d.anchor, d.unwritten[i]), Dropped(d.unwritten, i)) else d
    case LoseMark(i) => d.(unwritten := Dropped(d.unwritten, i))
  }

  function Run(d: Disk, steps: seq<Step>): Disk {
    if steps == [] then d else Next(Run(d, steps[..|steps| - 1]), steps[|steps| - 1])
  }

  predicate MarksRow(rows: seq<Row>, m: Mark) {
    1 <= m.seqNo <= |rows| && rows[m.seqNo - 1].hash == m.digest
  }

  /** Every mark, in the anchor or on its way there, is of a row the intact chain has. */
  predicate Untampered(d: Disk) {
    && ChainOk(d.rows) && OneIntentPerOrder(d.rows) && FlagsAreBits(d.rows)
    && (d.anchor.Some? ==> MarksRow(d.rows, d.anchor.value))
    && (forall i :: 0 <= i < |d.unwritten| ==> MarksRow(d.rows, d.unwritten[i]))
  }

  lemma StepStaysUntampered(d: Disk, step: Step)
    requires Untampered(d)
    ensures Untampered(Next(d, step)) && d.rows <= Next(d, step).rows
  {
    match step
    case Commit(c) => CommitStaysUntampered(d, c);
    case WriteAnchor(i) =>
    case LoseMark(i) =>
  }

  lemma CommitStaysUntampered(d: Disk, c: Content)
    requires Untampered(d)
    ensures Untampered(Next(d, Commit(c)))
  {
    var d' := Next(d, Commit(c));
    AppendPreserves(d.rows, c);
    hide ChainOk, OneIntentPerOrder, Clashes;
    if !Clashes(d.rows, c) {
      NextRowIsMarked(d.rows, c);
      forall i | 0 <= i < |d'.unwritten| ensures MarksRow(d'.rows, d'.unwritten[i]) {
        if i < |d.unwritten| { assert MarksRow(d.rows, d.unwritten[i]); }
      }
    }
  }

  lemma NextRowIsMarked(rows: seq<Row>, c: Content)
    requires ChainOk(rows)
    ensures MarksRow(rows + [NextRow(rows, c)], Mark(NextRow(rows, c).seqNo, NextRow(rows, c).hash))
  {
    if rows != [] { assert LinkOk(rows, |rows| - 1); }
  }

  lemma {:induction false} RunStaysUntampered(d: Disk, steps: seq<Step>)
    requires Untampered(d)
    ensures Untampered(Run(d, steps)) && d.rows <= Run(d, steps).rows
  {
    if steps != [] {
      var init := steps[..|steps| - 1];
      RunStaysUntampered(d, init);
      hide Untampered, Next;
      StepStaysUntampered(Run(d, init), steps[|steps| - 1]);
    }
  }

  /** An untampered journal always verifies: whatever appends, crashes and anchor writes come before the
      anchor is read, and whatever other processes do between that and reading the rows. */
  lemma UntamperedAlwaysVerifies(before: seq<Step>, between: seq<Step>)
    ensures var first := Run(Disk([], None, []), before);
            var second := Run(first, between);
            && (first.anchor.Some? ==> first.anchor.value.seqNo >= 1)
            && Verifies(first.anchor, second.rows)
  {
    var empty := Disk([], None, []);
    assert Untampered(empty);
    RunStaysUntampered(empty, before);
    RunStaysUntampered(Run(empty, before), between);
    hide Run;
  }

  /** The mark the evidence rests on: still in the anchor file, or seen again among the rows. */
  predicate StillEvident(d: Disk, m: Mark) { d.anchor == Some(m) || Holds(d.rows, m) }

  lemma {:induction false} EvidenceSurvives(d: Disk, steps: seq<Step>, m: Mark)
    requires StillEvident(d, m)
    ensures StillEvident(Run(d, steps), m)
  {
    if steps != [] {
      var init, last := steps[..|steps| - 1], steps[|steps| - 1];
      EvidenceSurvives(d, init, m);
      var e := Run(d, init);
      if Holds(e.rows, m) {
        var k :| 0 <= k < |e.rows| && e.rows[k].seqNo == m.seqNo && e.rows[k].hash == m.digest;
        assert Next(e, last).rows[k] == e.rows[k];
      }
    }
  }

  /** Tamper evidence: start from any rows at all, cut, rewritten or replaced, beside the anchor of an
      intact journal. After any appends, crashes and anchor writes, if the check passes then the rows up
      to the anchored one are the original's again. So a journal that lost or changed its anchored row
      never verifies until its original prefix is put back. */
  lemma VerifyingMeansPrefixRestored(original: seq<Row>, tampered: Disk, m: Mark, steps: seq<Step>)
    requires ChainOk(original) && MarksRow(original, m) && tampered.anchor == Some(m)
    requires var end := Run(tampered, steps);
             (end.anchor.Some? ==> end.anchor.value.seqNo >= 1) && Verifies(end.anchor, end.rows)
    ensures var end := Run(tampered, steps);
            m.seqNo <= |end.rows| && SameRows(end.rows[..m.seqNo], original[..m.seqNo])
  {
    EvidenceSurvives(tampered, steps, m);
    var end := Run(tampered, steps);
    hide Run;
    if end.anchor != Some(m) {
      var k :| 0 <= k < |end.rows| && end.rows[k].seqNo == m.seqNo && end.rows[k].hash == m.digest;
      assert LinkOk(end.rows, k);
    }
    DigestDeterminesPrefix(end.rows, original, m.seqNo);
  }

  // ----- The kill switch on record -----

  datatype Detail = Detail(operator: Option<string>, reason: string, cancelOpen: bool)

  /** A kill row with its payload decoded, or not: a payload that is no object cannot be read. */
  datatype KillRow = KillRow(seqNo: int, engage: bool, detail: Option<Detail>)

  predicate IsSpace(c: char) { c in {' ', '\t', '\n', '\r'} || c as int in {11, 12} }

  predicate NamesOperator(d: Detail) {
    d.operator.Some? && exists i :: 0 <= i < |d.operator.value| && !IsSpace(d.operator.value[i])
  }

  predicate IsRelease(r: KillRow) { !r.engage && r.detail.Some? && NamesOperator(r.detail.value) }

  predicate IsEngage(r: KillRow) { r.detail.None? || r.engage }

  datatype KillState = KillState(engaged: bool, reason: string, operator: Option<string>, seqNo: int, cancelOpen: bool)

  const NEVER_ENGAGED := KillState(false, "", None, 0, false)

  function KillStep(state: KillState, r: KillRow): KillState {
    match r.detail
    case None => KillState(true, "cannot be read", None, r.seqNo, state.cancelOpen)
    case Some(d) =>
      if !r.engage && !NamesOperator(d) then state
      else KillState(r.engage, d.reason, d.operator, r.seqNo,
                     d.cancelOpen || (r.engage && state.engaged && state.cancelOpen))
  }

  function KillFold(rows: seq<KillRow>): KillState {
    if rows == [] then NEVER_ENGAGED else KillStep(KillFold(rows[..|rows| - 1]), rows[|rows| - 1])
  }

  method KillStateFrom(rows: seq<KillRow>) returns (state: KillState)
    ensures state == KillFold(rows)
  {
    state := NEVER_ENGAGED;
    for i := 0 to |rows|
      invariant state == KillFold(rows[..i])
    {
      var row := rows[i];
      assert rows[..i + 1][..i] == rows[..i];
      if row.detail.None? {
        state := KillState(true, "cannot be read", None, row.seqNo, state.cancelOpen);
        continue;
      }
      var detail := row.detail.value;
      if !row.engage && !NamesOperator(detail) {
        continue;
      }
      state := KillState(row.engage, detail.reason, detail.operator, row.seqNo,
                         detail.cancelOpen || (row.engage && state.engaged && state.cancelOpen));
    }
    assert rows[..|rows|] == rows;
  }

  predicate NoReleaseAfter(rows: seq<KillRow>, k: nat) {
    forall j :: k < j < |rows| ==> !IsRelease(rows[j])
  }

  /** Halted, read off the record: some engage or unreadable row with no named release after it. */
  predicate HaltedOnRecord(rows: seq<KillRow>) {
    exists k :: 0 <= k < |rows| && IsEngage(rows[k]) && NoReleaseAfter(rows, k)
  }

  /** The same, and one such engage asked for open orders to be cancelled. */
  predicate CancelAsked(rows: seq<KillRow>) {
    exists k :: 0 <= k < |rows| && rows[k].engage && rows[k].detail.Some? && rows[k].detail.value.cancelOpen
                && NoReleaseAfter(rows, k)
  }

  lemma HaltedOfAppend(init: seq<KillRow>, r: KillRow)
    ensures HaltedOnRecord(init + [r]) <==> IsEngage(r) || (HaltedOnRecord(init) && !IsRelease(r))
  {
    var rows := init + [r];
    if IsEngage(r) { assert rows[|init|] == r && NoReleaseAfter(rows, |init|); }
    if HaltedOnRecord(init) && !IsRelease(r) {
      var k :| 0 <= k < |init| && IsEngage(init[k]) && NoReleaseAfter(init, k);
      assert rows[k] == init[k] && NoReleaseAfter(rows, k);
    }
    if HaltedOnRecord(rows) && !IsEngage(r) {
      var k :| 0 <= k < |rows| && IsEngage(rows[k]) && NoReleaseAfter(rows, k);
      assert rows[|init|] == r;
      assert NoReleaseAfter(init, k) by {
        forall j | k < j < |init| ensures !IsRelease(init[j]) { assert rows[j] == init[j]; }
      }
    }
  }

  /** The fold is engaged exactly when an engage or an unreadable row follows the last release that names
      an operator. */
  lemma {:induction false} EngagedIffHaltedOnRecord(rows: seq<KillRow>)
    ensures KillFold(rows).engaged <==> HaltedOnRecord(rows)
  {
    if rows != [] {
      var init, last := rows[..|rows| - 1], rows[|rows| - 1];
      EngagedIffHaltedOnRecord(init);
      assert rows == init + [last];
      HaltedOfAppend(init, last);
      hide HaltedOnRecord;
    }
  }

  lemma CancelAskedOfAppend(init: seq<KillRow>, r: KillRow)
    requires CancelAsked(init + [r])
    ensures (r.engage && r.detail.Some? && r.detail.value.cancelOpen) || (CancelAsked(init) && !IsRelease(r))
  {
    var rows := init + [r];
    var k :| 0 <= k < |rows| && rows[k].engage && rows[k].detail.Some? && rows[k].detail.value.cancelOpen
             && NoReleaseAfter(rows, k);
    if k < |init| {
      assert rows[|init|] == r && init[k] == rows[k];
      assert NoReleaseAfter(init, k) by {
        forall j | k < j < |init| ensures !IsRelease(init[j]) { assert rows[j] == init[j]; }
      }
      assert CancelAsked(init);
    }
  }

  /** Engages only widen: an order to cancel open orders stands until a named release, whatever narrower
      or unreadable rows follow it. */
  lemma {:induction false} CancelStandsUntilRelease(rows: seq<KillRow>)
    requires CancelAsked(rows)
    ensures KillFold(rows).engaged && KillFold(rows).cancelOpen
  {
    if rows != [] {
      var init, last := rows[..|rows| - 1], rows[|rows| - 1];
      assert rows == init + [last];
      CancelAskedOfAppend(init, last);
      if CancelAsked(init) && !IsRelease(last) {
        CancelStandsUntilRelease(init);
      }
    }
  }

  /** And it comes from somewhere: an engage since the last named release, or a release row that itself
      carries the order, which no caller writes. */
  lemma {:induction false} CancelWasAsked(rows: seq<KillRow>)
    requires KillFold(rows).cancelOpen
    ensures || CancelAsked(rows)
            || exists k :: 0 <= k < |rows| && !rows[k].engage && rows[k].detail.Some? && rows[k].detail.value.cancelOpen
  {
    if rows != [] {
      var init, last := rows[..|rows| - 1], rows[|rows| - 1];
      assert rows == init + [last];
      if last.detail.Some? && last.detail.value.cancelOpen {
        assert rows[|init|] == last && NoReleaseAfter(rows, |init|);
      } else {
        CancelWasAsked(init);
        if CancelAsked(init) && !IsRelease(last) {
          var k :| 0 <= k < |init| && init[k].engage && init[k].detail.Some? && init[k].detail.value.cancelOpen
                   && NoReleaseAfter(init, k);
          assert rows[k] == init[k] && NoReleaseAfter(rows, k);
        } else {
          var k :| 0 <= k < |init| && !init[k].engage && init[k].detail.Some? && init[k].detail.value.cancelOpen;
          assert rows[k] == init[k];
        }
      }
    }
  }

  // ----- The two implementations -----

  /** The journal in memory: records in a list, and the ids of the intents seen. */
  class MemoryJournal {
    var records: seq<Row>
    var intents: set<string>

    constructor ()
      ensures records == [] && intents == {} && Valid()
    {
      records, intents := [], {};
    }

    /** Every id with an intent on record is in the set; an intent without an id is entered as "None". */
    ghost predicate Valid()
      reads this
    {
      && ChainOk(records) && OneIntentPerOrder(records) && FlagsAreBits(records)
      && (forall k :: 0 <= k < |records| && records[k].unique == 1 && records[k].cid.Some? ==>
            records[k].cid.value in intents)
      && (forall cid :: cid in intents ==>
            exists k :: 0 <= k < |records| && records[k].unique == 1 && OrNone(records[k].cid) == cid)
    }

    /** Refuses a second intent for an id and changes nothing; otherwise adds one linked row. An intent
        for the id "None" is also refused once an intent without an id is on record. */
    method Append(c: Content) returns (r: Option<Row>)
      requires Valid()
      modifies this
      ensures Valid()
      ensures r.None? <==> c.unique && c.cid.Some? && c.cid.value in old(intents)
      ensures r.Some? ==>
        && r.value == NextRow(old(records), c) && records == old(records) + [r.value]
        && !Clashes(old(records), c)
      ensures r.None? ==> records == old(records) && intents == old(intents)
    {
      if c.unique {
        if c.cid.Some? && c.cid.value in intents { return None; }
      }
      assert !Clashes(records, c);
      AppendPreserves(records, c);
      var row := NextRow(records, c);
      if c.unique { intents := intents + {OrNone(c.cid)}; }
      ghost var before := records;
      records := records + [row];
      assert records[|before|] == row;
      forall cid | cid in intents
        ensures exists k :: 0 <= k < |records| && records[k].unique == 1 && OrNone(records[k].cid) == cid
      {
        if cid in old(intents) {
          var k :| 0 <= k < |before| && before[k].unique == 1 && OrNone(before[k].cid) == cid;
          assert records[k] == before[k];
        }
      }
      r := Some(row);
    }
  }

  /** Python's str() of an id that may be None. */
  function OrNone(cid: Option<string>): string { if cid.Some? then cid.value else "None" }

  /** The journal file: rows in a table with a unique index, and the anchor beside it. */
  class SqliteJournal {
    var rows: seq<Row>
    var anchor: Option<Mark>

    constructor (rows: seq<Row>, anchor: Option<Mark>)
      ensures this.rows == rows && this.anchor == anchor
    {
      this.rows, this.anchor := rows, anchor;
    }

    /** One transaction, then the anchor: refused if the id has an intent; `anchored` says whether the
        anchor file could be locked and written. */
    method Append(c: Content, anchored: bool) returns (r: Option<Row>)
      modifies this
      ensures r.None? <==> Clashes(old(rows), c)
      ensures rows == Appended(old(rows), c)
      ensures r.Some? ==> r.value == NextRow(old(rows), c)
      ensures anchor == (if r.Some? && anchored then Moved(rows, old(anchor), Mark(r.value.seqNo, r.value.hash))
                         else old(anchor))
    {
      if Clashes(rows, c) { return None; }
      var row := NextRow(rows, c);
      rows := rows + [row];
      if anchored { WriteAnchor(row.seqNo, row.hash); }
      r := Some(row);
    }

    method WriteAnchor(seqNo: int, digest: Digest)
      modifies this`anchor
      ensures anchor == Moved(rows, old(anchor), Mark(seqNo, digest))
    {
      if anchor.Some? {
        var disputed := Disputes(anchor.value);
        if disputed { return; }
        if anchor.value.seqNo >= seqNo { return; }
      }
      anchor := Some(Mark(seqNo, digest));
    }

    /** The lookup of the anchored row by its number. */
    method Disputes(m: Mark) returns (disputed: bool)
      ensures disputed == !Holds(rows, m)
    {
      for k := 0 to |rows|
        invariant forall j :: 0 <= j < k ==> rows[j].seqNo != m.seqNo || rows[j].hash != m.digest
      {
        if rows[k].seqNo == m.seqNo && rows[k].hash == m.digest { return false; }
      }
      disputed := true;
    }

    method Verify() returns (r: Verdict)
      requires anchor.Some? ==> anchor.value.seqNo >= 1
      ensures r.ok <==> Verifies(anchor, rows)
      ensures r.ok ==> r.records == |rows| && r.head == Head(rows)
    {
      r := VerifyChain(rows);
      if !r.ok || anchor.None? { return; }
      var m := anchor.value;
      if m.seqNo > |rows| || rows[m.seqNo - 1].hash != m.digest {
        r := Verdict(false, r.records, r.head, Some(m.seqNo));
      }
    }
  }
}
