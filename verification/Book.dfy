/** A full order book built from a snapshot and sequenced deltas, with a bounded buffer.

    `State` and its functions say what each call does to a builder's fields; the classes below do it
    in place. The theorems compare a builder with the venue's own book at every sequence number. */
module Book {
  import opened Common
  import opened Fills

  type Levels = map<int, int>

  /** Set a price to an absolute size. A size of zero removes the level. */
  function SetLevel(levels: Levels, price: int, size: int): Levels {
    if size == 0 then levels - {price} else levels[price := size]
  }

  datatype Delta = Delta(side: Side, price: int, size: int, sequence: int, firstSequence: Option<int>) {
    function Start(): int { if firstSequence.Some? then firstSequence.value else sequence }

    function Batch(): (int, int) { (Start(), sequence) }

    /** What constructing a delta checks. */
    predicate Valid() { size >= 0 && Start() <= sequence }
  }

  datatype Sides = Sides(bids: Levels, asks: Levels)

  function ApplyLevel(book: Sides, d: Delta): Sides {
    if d.side == Buy then book.(bids := SetLevel(book.bids, d.price, d.size))
    else book.(asks := SetLevel(book.asks, d.price, d.size))
  }

  datatype State = State(
    book: Sides,
    last: Option<int>,
    synced: bool,
    buffer: seq<Delta>,
    gaps: nat,
    staleDeltas: nat,
    staleSnapshots: nat,
    batch: Option<(int, int)>,
    droppedThrough: Option<int>)

  const INITIAL: State := State(Sides(map[], map[]), None, false, [], 0, 0, 0, None, None)

  function AfterBuffering(s: State, d: Delta, maxBuffered: int): State
    requires maxBuffered >= 1
  {
    if |s.buffer| >= maxBuffered then
      var dropped := s.buffer[0];
      var before := if s.droppedThrough.Some? then s.droppedThrough.value else 0;
      s.(buffer := s.buffer[1..] + [d], droppedThrough := Some(Max(before, dropped.sequence)))
    else s.(buffer := s.buffer + [d])
  }

  function AfterDelta(s: State, d: Delta, maxBuffered: int): (State, bool)
    requires maxBuffered >= 1 && (s.synced ==> s.last.Some?)
  {
    if !s.synced then (AfterBuffering(s, d, maxBuffered), false) else
    if d.sequence <= s.last.value && s.batch != Some(d.Batch()) then (s.(staleDeltas := s.staleDeltas + 1), false) else
    if d.Start() > s.last.value + 1 then
      (AfterBuffering(s.(gaps := s.gaps + 1, synced := false), d, maxBuffered), false)
    else (s.(book := ApplyLevel(s.book, d), last := Some(d.sequence), batch := Some(d.Batch())), true)
  }

  function AfterDeltas(s: State, ds: seq<Delta>, maxBuffered: int): (r: State)
    requires maxBuffered >= 1 && (s.synced ==> s.last.Some?)
    ensures r.synced ==> r.last.Some?
    decreases ds
  {
    if ds == [] then s else AfterDeltas(AfterDelta(s, ds[0], maxBuffered).0, ds[1..], maxBuffered)
  }

  type Rows = seq<(int, int)>

  datatype BookError = InvalidLevel

  predicate RowsValid(rows: Rows) { forall i :: 0 <= i < |rows| ==> rows[i].1 >= 0 }

  function FromRows(rows: Rows): Levels {
    if rows == [] then map[]
    else SetLevel(FromRows(rows[..|rows| - 1]), rows[|rows| - 1].0, rows[|rows| - 1].1)
  }

  function NewerThan(ds: seq<Delta>, sequence: int): seq<Delta> {
    if ds == [] then [] else
    (if ds[0].sequence > sequence then [ds[0]] else []) + NewerThan(ds[1..], sequence)
  }

  predicate RefusesSnapshot(s: State, sequence: int) {
    || (s.synced && s.last.Some? && sequence < s.last.value)
    || (s.droppedThrough.Some? && sequence < s.droppedThrough.value)
  }

  function AfterSnapshot(s: State, sequence: int, bids: Rows, asks: Rows, maxBuffered: int)
    : (State, Result<bool, BookError>)
    requires maxBuffered >= 1
  {
    if RefusesSnapshot(s, sequence) then (s.(staleSnapshots := s.staleSnapshots + 1), Ok(false)) else
    if !RowsValid(bids) || !RowsValid(asks) then (s, Err(InvalidLevel)) else
    (AfterDeltas(Adopted(s, sequence, bids, asks), NewerThan(s.buffer, sequence), maxBuffered), Ok(true))
  }

  /** The builder right after it adopted a snapshot, before the buffered deltas are replayed. */
  function Adopted(s: State, sequence: int, bids: Rows, asks: Rows): State {
    s.(book := Sides(FromRows(bids), FromRows(asks)), last := Some(sequence), synced := true,
       buffer := [], batch := None, droppedThrough := None)
  }

  // ----- The venue -----

  /** The venue's true book after each of its sequence numbers. */
  type Venue = int -> Sides

  /** One venue update: every level of it carries the range `first` to `last`. */
  datatype Update = Update(first: int, last: int, levels: seq<(Side, int, int)>)

  function Deltas(u: Update): (ds: seq<Delta>)
    ensures |ds| == |u.levels|
    ensures forall i :: 0 <= i < |ds| ==> ds[i].sequence == u.last && ds[i].Start() == u.first
  {
    seq(|u.levels|, i requires 0 <= i < |u.levels| =>
      Delta(u.levels[i].0, u.levels[i].1, u.levels[i].2, u.last, Some(u.first)))
  }

  function ApplyAll(book: Sides, ds: seq<Delta>): Sides {
    if ds == [] then book else ApplyLevel(ApplyAll(book, ds[..|ds| - 1]), ds[|ds| - 1])
  }

  /** Sizes are absolute, so a true update leads to the book at its end from any book in its range. */
  ghost predicate TrueUpdate(venue: Venue, u: Update) {
    && u.first <= u.last
    && (forall i :: 0 <= i < |u.levels| ==> u.levels[i].2 >= 0)
    && (forall q :: u.first - 1 <= q <= u.last ==> ApplyAll(venue(q), Deltas(u)) == venue(u.last))
  }

  /** What reaches the builder: one level of a venue update, or a snapshot. */
  datatype Arrival = Level(update: Update, index: nat) | Snapshot(sequence: int, bids: Rows, asks: Rows)

  ghost predicate TrueArrival(venue: Venue, a: Arrival) {
    match a
    case Level(u, _) => TrueUpdate(venue, u)
    case Snapshot(q, bids, asks) => Sides(FromRows(bids), FromRows(asks)) == venue(q)
  }

  function Receive(s: State, a: Arrival, maxBuffered: int): (r: State)
    requires maxBuffered >= 1 && (s.synced ==> s.last.Some?)
    ensures r.synced ==> r.last.Some?
  {
    match a
    case Level(u, i) => if i < |u.levels| then AfterDelta(s, Deltas(u)[i], maxBuffered).0 else s
    case Snapshot(q, bids, asks) => AfterSnapshot(s, q, bids, asks, maxBuffered).0
  }

  function Run(arrivals: seq<Arrival>, maxBuffered: int): (r: State)
    requires maxBuffered >= 1
    ensures r.synced ==> r.last.Some?
  {
    if arrivals == [] then INITIAL
    else Receive(Run(arrivals[..|arrivals| - 1], maxBuffered), arrivals[|arrivals| - 1], maxBuffered)
  }

  /** The update that arrived last, and how many of its levels have. */
  function UnderWay(arrivals: seq<Arrival>): Option<(Update, nat)> {
    if arrivals == [] then None else
    match arrivals[|arrivals| - 1]
    case Level(u, i) => Some((u, i + 1))
    case Snapshot(_, _, _) => UnderWay(arrivals[..|arrivals| - 1])
  }

  /** The levels of that update still to come. */
  function Rest(arrivals: seq<Arrival>): seq<Delta> {
    match UnderWay(arrivals)
    case None => []
    case Some((u, k)) => if k <= |u.levels| then Deltas(u)[k..] else []
  }

  /** The levels of an update come in their order with nothing but snapshots between them. Whole updates
      may be lost, repeated or reordered at will, and a run may stop anywhere. */
  predicate InOrder(arrivals: seq<Arrival>) {
    arrivals == [] ||
    (var init := arrivals[..|arrivals| - 1];
     && InOrder(init)
     && match arrivals[|arrivals| - 1]
        case Level(u, i) => i < |u.levels| && (if i == 0 then Rest(init) == [] else UnderWay(init) == Some((u, i)))
        case Snapshot(_, _, _) => true)
  }

  function Flatten(us: seq<Update>): seq<Delta> {
    if us == [] then [] else Flatten(us[..|us| - 1]) + Deltas(us[|us| - 1])
  }

  /** The first `k` deltas are covered by any snapshot that `droppedThrough` lets through. */
  predicate Covered(all: seq<Delta>, k: nat, droppedThrough: Option<int>) {
    && k <= |all|
    && (forall i :: 0 <= i < k ==> droppedThrough.Some? && all[i].sequence <= droppedThrough.value)
  }

  /** A snapshot older than `floor` is refused, or stopped at the first buffered delta by a gap. */
  predicate Guarded(s: State, floor: Option<int>) {
    || floor.None?
    || (s.droppedThrough.Some? && s.droppedThrough.value >= floor.value)
    || (s.buffer != [] && floor.value + 1 < s.buffer[0].Start() <= s.buffer[0].sequence)
  }

  predicate From(floor: Option<int>, q: int) { floor.None? || floor.value <= q }

  /** How an out-of-sync builder came to its buffer: the updates it stands for, every delta buffered since
      it was last emptied, how many of them were dropped, and from where on the two can be told apart. */
  datatype Past = Past(us: seq<Update>, all: seq<Delta>, dropped: nat, floor: Option<int>)

  const NO_PAST: Past := Past([], [], 0, None)

  predicate Tail(s: State, all: seq<Delta>, dropped: nat, floor: Option<int>) {
    Covered(all, dropped, s.droppedThrough) && s.buffer == all[dropped..] && Guarded(s, floor)
  }

  /** To any snapshot past the guard, the buffer is whole updates and then `part` of one more. */
  ghost predicate Holds(s: State, past: Past, part: seq<Delta>) {
    && Tail(s, past.all, past.dropped, past.floor)
    && (forall q :: From(past.floor, q) ==> NewerThan(past.all, q) == NewerThan(Flatten(past.us) + part, q))
  }

  /** A builder in sync holds back nothing, and its last update ends where it is. */
  predicate Tidy(s: State) {
    && s.synced && s.last.Some? && s.buffer == [] && s.droppedThrough.None?
    && (s.batch.Some? ==> s.batch.value.1 == s.last.value)
  }

  ghost predicate AllTrue(venue: Venue, us: seq<Update>) { forall i :: 0 <= i < |us| ==> TrueUpdate(venue, us[i]) }

  /** The invariant where no update is under way. */
  ghost predicate Sound(venue: Venue, s: State, past: Past) {
    && AllTrue(venue, past.us)
    && (s.synced ==> Tidy(s) && s.book == venue(s.last.value))
    && (!s.synced ==> Holds(s, past, []))
  }

  /** The invariant after `k` levels of an update: in sync, the rest of it leads to the venue's book, or it
      is an old update and is being ignored. */
  ghost predicate Mid(venue: Venue, s: State, past: Past, u: Update, k: nat) {
    && AllTrue(venue, past.us) && k <= |u.levels| && (k > 0 ==> TrueUpdate(venue, u))
    && (s.synced ==>
          && Tidy(s)
          && (if k > 0 && s.batch == Some((u.first, u.last))
              then ApplyAll(s.book, Deltas(u)[k..]) == venue(s.last.value)
              else s.book == venue(s.last.value) && (k > 0 ==> u.last <= s.last.value)))
    && (!s.synced ==> Holds(s, past, Deltas(u)[..k]))
  }

  // ----- The buffer -----

  lemma BufferOne(s: State, d: Delta, maxBuffered: int, all: seq<Delta>, k: nat, floor: Option<int>) returns (k': nat)
    requires maxBuffered >= 1 && Tail(s, all, k, floor)
    ensures Tail(AfterBuffering(s, d, maxBuffered), all + [d], k', floor)
  {
    k' := if |s.buffer| >= maxBuffered then k + 1 else k;
    var s' := AfterBuffering(s, d, maxBuffered);
    assert all[k..] + [d] == (all + [d])[k..];
    if |s.buffer| >= maxBuffered {
      assert s.buffer[0] == all[k];
      assert s.buffer[1..] + [d] == (all + [d])[k'..];
    }
    CoveredGrows(all, d, k, k', s.droppedThrough, s'.droppedThrough);
  }

  lemma CoveredGrows(all: seq<Delta>, d: Delta, k: nat, k': nat, dt: Option<int>, dt': Option<int>)
    requires Covered(all, k, dt) && k <= k' <= k + 1 && k' <= |all|
    requires dt.Some? ==> dt'.Some? && dt.value <= dt'.value
    requires k' > k ==> dt'.Some? && all[k].sequence <= dt'.value
    ensures Covered(all + [d], k', dt')
  {
  }

  lemma {:induction false} BufferMany(s: State, ds: seq<Delta>, maxBuffered: int, all: seq<Delta>, k: nat,
                                      floor: Option<int>) returns (k': nat)
    requires maxBuffered >= 1 && !s.synced && Tail(s, all, k, floor)
    ensures var s' := AfterDeltas(s, ds, maxBuffered); !s'.synced && Tail(s', all + ds, k', floor)
    decreases ds
  {
    hide AfterBuffering, Tail;
    if ds == [] {
      k' := k;
      assert all + ds == all;
    } else {
      var mid := BufferOne(s, ds[0], maxBuffered, all, k, floor);
      assert all + [ds[0]] + ds[1..] == all + ds;
      StaysOutOfSync(s, ds[0], maxBuffered);
      k' := BufferMany(AfterBuffering(s, ds[0], maxBuffered), ds[1..], maxBuffered, all + [ds[0]], mid, floor);
    }
  }

  lemma StaysOutOfSync(s: State, d: Delta, maxBuffered: int)
    requires maxBuffered >= 1
    ensures AfterBuffering(s, d, maxBuffered).synced == s.synced
  {
  }

  /** An out-of-sync builder takes one delta more. */
  lemma HoldsOneMore(s: State, d: Delta, maxBuffered: int, past: Past, part: seq<Delta>) returns (past': Past)
    requires maxBuffered >= 1 && !s.synced && Holds(s, past, part)
    ensures past'.us == past.us && Holds(AfterBuffering(s, d, maxBuffered), past', part + [d])
  {
    hide Tail, AfterBuffering, Flatten, NewerThan;
    var k' := BufferOne(s, d, maxBuffered, past.all, past.dropped, past.floor);
    past' := past.(all := past.all + [d], dropped := k');
    var whole := Flatten(past.us) + part;
    assert whole + [d] == Flatten(past.us) + (part + [d]);
    forall q | From(past.floor, q) ensures NewerThan(past.all + [d], q) == NewerThan(whole + [d], q) {
      NewerThanConcat(past.all, [d], q);
      NewerThanConcat(whole, [d], q);
    }
  }

  // ----- Levels -----

  lemma {:induction false} ApplyAllFirst(book: Sides, d: Delta, rest: seq<Delta>)
    ensures ApplyAll(book, [d] + rest) == ApplyAll(ApplyLevel(book, d), rest)
  {
    hide ApplyLevel;
    if rest == [] {
      assert [d] + rest == [d] && [d][..0] == [];
    } else {
      var n := |rest| - 1;
      assert ([d] + rest)[..n + 1] == [d] + rest[..n];
      ApplyAllFirst(book, d, rest[..n]);
    }
  }

  /** One more level of the update under way, at a builder in sync. */
  lemma LevelInSync(venue: Venue, s: State, past: Past, u: Update, k: nat, maxBuffered: int) returns (past': Past)
    requires maxBuffered >= 1 && s.synced && k < |u.levels| && Mid(venue, s, past, u, k) && TrueUpdate(venue, u)
    ensures Mid(venue, AfterDelta(s, Deltas(u)[k], maxBuffered).0, past', u, k + 1)
  {
    past' := past;
    var ds := Deltas(u);
    var d, last := ds[k], s.last.value;
    assert ds[k..] == [d] + ds[k + 1..];
    ApplyAllFirst(s.book, d, ds[k + 1..]);
    if k == 0 && u.first > last + 1 && !(u.last <= last && s.batch != Some((u.first, u.last))) {
      past' := Past([], [d], 0, None);
      assert ds[..1] == [d] == Flatten([]) + ds[..1];
      hide TrueUpdate, ApplyAll, ApplyLevel, NewerThan, Deltas;
    } else if k == 0 {
      assert ds[0..] == ds;
    }
  }

  lemma LevelStep(venue: Venue, s: State, past: Past, u: Update, k: nat, maxBuffered: int) returns (past': Past)
    requires maxBuffered >= 1 && k < |u.levels| && Mid(venue, s, past, u, k) && TrueUpdate(venue, u)
    ensures Mid(venue, AfterDelta(s, Deltas(u)[k], maxBuffered).0, past', u, k + 1)
  {
    if s.synced {
      past' := LevelInSync(venue, s, past, u, k, maxBuffered);
    } else {
      var ds := Deltas(u);
      past' := HoldsOneMore(s, ds[k], maxBuffered, past, ds[..k]);
      StaysOutOfSync(s, ds[k], maxBuffered);
      assert ds[..k] + [ds[k]] == ds[..k + 1];
      hide TrueUpdate, AfterBuffering, Holds;
    }
  }

  lemma {:induction false} LevelsKeep(venue: Venue, s: State, past: Past, u: Update, k: nat, n: nat, maxBuffered: int)
    returns (past': Past)
    requires maxBuffered >= 1 && k <= n <= |u.levels| && Mid(venue, s, past, u, k) && (k < n ==> TrueUpdate(venue, u))
    requires s.synced ==> s.last.Some?
    ensures Mid(venue, AfterDeltas(s, Deltas(u)[k..n], maxBuffered), past', u, n)
    decreases n - k
  {
    var ds := Deltas(u)[k..n];
    assert k < n ==> (var s' := AfterDelta(s, ds[0], maxBuffered).0; s'.synced ==> s'.last.Some?);
    hide Mid, AfterDelta;
    if k == n {
      past' := past;
    } else {
      var mid := LevelStep(venue, s, past, u, k, maxBuffered);
      assert ds[1..] == Deltas(u)[k + 1..n] && ds[0] == Deltas(u)[k];
      past' := LevelsKeep(venue, AfterDelta(s, ds[0], maxBuffered).0, mid, u, k + 1, n, maxBuffered);
    }
  }

  /** Before its first level an update changes nothing, and after its last there is nothing left of it. */
  lemma MidStarts(venue: Venue, s: State, past: Past, u: Update)
    ensures Sound(venue, s, past) <==> Mid(venue, s, past, u, 0)
  {
    assert Deltas(u)[..0] == [];
    hide TrueUpdate, Holds;
  }

  lemma MidEnds(venue: Venue, s: State, past: Past, u: Update) returns (past': Past)
    requires Mid(venue, s, past, u, |u.levels|) && TrueUpdate(venue, u)
    ensures Sound(venue, s, past')
  {
    var ds := Deltas(u);
    assert ds[..|ds|] == ds && ds[|ds|..] == [];
    past' := if s.synced then past else past.(us := past.us + [u]);
    FlattenAppend(past.us, u);
    assert Flatten(past.us + [u]) + [] == Flatten(past.us) + ds;
    hide TrueUpdate, Tail, NewerThan, Flatten, Deltas;
  }

  lemma UpdateKeepsSound(venue: Venue, s: State, past: Past, u: Update, maxBuffered: int) returns (past': Past)
    requires maxBuffered >= 1 && Sound(venue, s, past) && TrueUpdate(venue, u)
    ensures Sound(venue, AfterDeltas(s, Deltas(u), maxBuffered), past')
  {
    MidStarts(venue, s, past, u);
    assert s.synced ==> s.last.Some?;
    hide Sound, Mid, TrueUpdate;
    past' := LevelsKeep(venue, s, past, u, 0, |u.levels|, maxBuffered);
    assert Deltas(u)[0..|u.levels|] == Deltas(u);
    past' := MidEnds(venue, AfterDeltas(s, Deltas(u), maxBuffered), past', u);
  }

  /** Once the first level of an update is applied, the rest of the same update is too. */
  lemma {:induction false} RestOfBatchApplies(s: State, ds: seq<Delta>, start: Sides, done: seq<Delta>,
                                              maxBuffered: int)
    requires maxBuffered >= 1 && s.synced && s.last.Some? && s.book == ApplyAll(start, done)
    requires forall i :: 0 <= i < |ds| ==> s.batch == Some(ds[i].Batch()) && s.last == Some(ds[i].sequence)
    requires forall i :: 0 <= i < |ds| ==> ds[i].Start() <= ds[i].sequence
    ensures AfterDeltas(s, ds, maxBuffered) == s.(book := ApplyAll(start, done + ds))
    decreases ds
  {
    if ds == [] {
      assert done + ds == done;
    } else {
      var s' := AfterDelta(s, ds[0], maxBuffered).0;
      assert (done + [ds[0]])[..|done|] == done;
      assert s' == s.(book := ApplyAll(start, done + [ds[0]]));
      RestOfBatchApplies(s', ds[1..], start, done + [ds[0]], maxBuffered);
      assert done + [ds[0]] + ds[1..] == done + ds;
    }
  }

  lemma {:induction false} StaleBatchIsIgnored(s: State, ds: seq<Delta>, maxBuffered: int)
    requires maxBuffered >= 1 && s.synced && s.last.Some?
    requires forall i :: 0 <= i < |ds| ==> ds[i].sequence <= s.last.value && s.batch != Some(ds[i].Batch())
    ensures AfterDeltas(s, ds, maxBuffered) == s.(staleDeltas := s.staleDeltas + |ds|)
    decreases ds
  {
    if ds != [] {
      StaleBatchIsIgnored(AfterDelta(s, ds[0], maxBuffered).0, ds[1..], maxBuffered);
    }
  }

  /** The three fates of a whole update at a builder in sync. */
  lemma UpdateInSync(venue: Venue, s: State, u: Update, maxBuffered: int)
    requires maxBuffered >= 1 && Sound(venue, s, NO_PAST) && s.synced && TrueUpdate(venue, u) && u.levels != []
    ensures var s' := AfterDeltas(s, Deltas(u), maxBuffered);
            var last := s.last.value;
            if u.last <= last && s.batch != Some((u.first, u.last)) then
              s' == s.(staleDeltas := s.staleDeltas + |u.levels|)
            else if u.first > last + 1 then
              s' == AfterDeltas(s.(gaps := s.gaps + 1, synced := false), Deltas(u), maxBuffered)
            else s' == s.(book := venue(u.last), last := Some(u.last), batch := Some((u.first, u.last)))
  {
    var ds := Deltas(u);
    var last := s.last.value;
    if u.last <= last && s.batch != Some((u.first, u.last)) {
      StaleBatchIsIgnored(s, ds, maxBuffered);
    } else if u.first <= last + 1 {
      assert u.first - 1 <= last <= u.last;
      var s1 := AfterDelta(s, ds[0], maxBuffered).0;
      assert ApplyAll(s.book, [ds[0]]) == ApplyLevel(ApplyAll(s.book, []), ds[0]);
      RestOfBatchApplies(s1, ds[1..], s.book, [ds[0]], maxBuffered);
      assert [ds[0]] + ds[1..] == ds;
    }
  }

  // ----- Snapshots -----

  lemma {:induction false} NewerThanConcat(a: seq<Delta>, b: seq<Delta>, q: int)
    ensures NewerThan(a + b, q) == NewerThan(a, q) + NewerThan(b, q)
  {
    if a == [] {
      assert a + b == b;
    } else {
      assert (a + b)[1..] == a[1..] + b;
      NewerThanConcat(a[1..], b, q);
    }
  }

  lemma {:induction false} AllOldOrAllNew(ds: seq<Delta>, q: int)
    ensures (forall i :: 0 <= i < |ds| ==> ds[i].sequence <= q) ==> NewerThan(ds, q) == []
    ensures (forall i :: 0 <= i < |ds| ==> ds[i].sequence > q) ==> NewerThan(ds, q) == ds
  {
    if ds != [] {
      AllOldOrAllNew(ds[1..], q);
    }
  }

  function UpdatesAfter(us: seq<Update>, q: int): seq<Update> {
    if us == [] then [] else
    UpdatesAfter(us[..|us| - 1], q) + (if us[|us| - 1].last > q then [us[|us| - 1]] else [])
  }

  lemma {:induction false} UpdatesAfterAreUpdates(us: seq<Update>, q: int)
    ensures forall u :: u in UpdatesAfter(us, q) ==> u in us
  {
    if us != [] {
      UpdatesAfterAreUpdates(us[..|us| - 1], q);
    }
  }

  lemma {:induction false} NewerUpdatesAreWhole(us: seq<Update>, q: int)
    ensures NewerThan(Flatten(us), q) == Flatten(UpdatesAfter(us, q))
  {
    if us != [] {
      var init, u := us[..|us| - 1], us[|us| - 1];
      NewerUpdatesAreWhole(init, q);
      NewerThanConcat(Flatten(init), Deltas(u), q);
      AllOldOrAllNew(Deltas(u), q);
      FlattenAppend(UpdatesAfter(init, q), u);
      assert Flatten(us) == Flatten(init) + Deltas(u);
      hide Deltas, NewerThan, Flatten;
      if u.last <= q {
        assert UpdatesAfter(us, q) == UpdatesAfter(init, q);
      }
    }
  }

  lemma FlattenAppend(us: seq<Update>, u: Update)
    ensures Flatten(us + [u]) == Flatten(us) + Deltas(u)
  {
    assert (us + [u])[..|us|] == us;
  }

  lemma {:induction false} NewerOfNewer(ds: seq<Delta>, q: int, later: int)
    requires q <= later
    ensures NewerThan(NewerThan(ds, q), later) == NewerThan(ds, later)
  {
    if ds != [] {
      NewerOfNewer(ds[1..], q, later);
      var first := if ds[0].sequence > q then [ds[0]] else [];
      NewerThanConcat(first, NewerThan(ds[1..], q), later);
      assert [ds[0]][1..] == [];
      assert NewerThan([ds[0]], later) == (if ds[0].sequence > later then [ds[0]] else []) + NewerThan([], later);
    }
  }

  lemma {:induction false} AfterDeltasConcat(s: State, a: seq<Delta>, b: seq<Delta>, maxBuffered: int)
    requires maxBuffered >= 1 && (s.synced ==> s.last.Some?)
    ensures AfterDeltas(s, a + b, maxBuffered) == AfterDeltas(AfterDeltas(s, a, maxBuffered), b, maxBuffered)
    decreases a
  {
    if a == [] {
      assert a + b == b;
    } else {
      assert (a + b)[1..] == a[1..] + b;
      AfterDeltasConcat(AfterDelta(s, a[0], maxBuffered).0, a[1..], b, maxBuffered);
    }
  }

  /** Dropped deltas cannot matter to a snapshot the builder accepts. */
  lemma DroppedAreOld(s: State, all: seq<Delta>, dropped: nat, q: int)
    requires Covered(all, dropped, s.droppedThrough) && s.buffer == all[dropped..]
    requires !(s.droppedThrough.Some? && q < s.droppedThrough.value)
    ensures NewerThan(s.buffer, q) == NewerThan(all, q)
  {
    assert all == all[..dropped] + all[dropped..];
    NewerThanConcat(all[..dropped], all[dropped..], q);
    AllOldOrAllNew(all[..dropped], q);
  }

  /** So, past the guard, whole updates replay, and then what has come of the one under way. */
  lemma ReplayIsWhole(s: State, past: Past, part: seq<Delta>, q: int)
    requires Holds(s, past, part) && From(past.floor, q)
    requires !(s.droppedThrough.Some? && q < s.droppedThrough.value)
    ensures NewerThan(s.buffer, q) == Flatten(UpdatesAfter(past.us, q)) + NewerThan(part, q)
  {
    DroppedAreOld(s, past.all, past.dropped, q);
    hide NewerThan, Flatten, Tail;
    NewerThanConcat(Flatten(past.us), part, q);
    NewerUpdatesAreWhole(past.us, q);
  }

  lemma {:induction false} ReplayKeepsSound(venue: Venue, s: State, past: Past, replayed: seq<Update>, maxBuffered: int)
    returns (past': Past)
    requires maxBuffered >= 1 && Sound(venue, s, past) && (s.synced ==> s.last.Some?)
    requires forall u :: u in replayed ==> TrueUpdate(venue, u)
    ensures Sound(venue, AfterDeltas(s, Flatten(replayed), maxBuffered), past')
  {
    hide Sound, TrueUpdate;
    if replayed == [] {
      past' := past;
    } else {
      var init, u := replayed[..|replayed| - 1], replayed[|replayed| - 1];
      past' := ReplayKeepsSound(venue, s, past, init, maxBuffered);
      AfterDeltasConcat(s, Flatten(init), Deltas(u), maxBuffered);
      past' := UpdateKeepsSound(venue, AfterDeltas(s, Flatten(init), maxBuffered), past', u, maxBuffered);
    }
  }

  /** What a replay on top of a snapshot at `q` comes to: in sync at `q` or later, or out of sync with the
      gap it met still standing in the way of anything older than `q`. */
  predicate Replaying(s: State, q: int) {
    if s.synced then Tidy(s) && s.last.value >= q && (s.batch.Some? ==> s.last.value > q)
    else Guarded(s, Some(q))
  }

  lemma {:induction false} ReplayStaysGuarded(s: State, ds: seq<Delta>, q: int, maxBuffered: int)
    requires maxBuffered >= 1 && Replaying(s, q) && forall i :: 0 <= i < |ds| ==> ds[i].Start() <= ds[i].sequence
    requires s.synced ==> s.last.Some?
    ensures Replaying(AfterDeltas(s, ds, maxBuffered), q)
    decreases ds
  {
    if ds != [] {
      var s' := AfterDelta(s, ds[0], maxBuffered).0;
      assert Replaying(s', q) by { hide ApplyLevel; }
      hide Replaying, AfterDelta;
      ReplayStaysGuarded(s', ds[1..], q, maxBuffered);
    }
  }

  lemma {:induction false} TrueDeltasAreValid(venue: Venue, us: seq<Update>)
    requires forall u :: u in us ==> TrueUpdate(venue, u)
    ensures forall i :: 0 <= i < |Flatten(us)| ==> Flatten(us)[i].Start() <= Flatten(us)[i].sequence
  {
    if us != [] {
      var u := us[|us| - 1];
      assert TrueUpdate(venue, u);
      TrueDeltasAreValid(venue, us[..|us| - 1]);
    }
  }

  lemma AllTrueAfter(venue: Venue, us: seq<Update>, q: int)
    requires AllTrue(venue, us)
    ensures forall u :: u in UpdatesAfter(us, q) ==> TrueUpdate(venue, u)
  {
    hide TrueUpdate;
    UpdatesAfterAreUpdates(us, q);
  }

  /** An accepted snapshot that is too old for the guard runs into the gap, and all is buffered again. */
  lemma OldSnapshotMeetsTheGap(s: State, past: Past, part: seq<Delta>, q: int, bids: Rows, asks: Rows, maxBuffered: int)
    returns (past': Past)
    requires maxBuffered >= 1 && Holds(s, past, part) && !From(past.floor, q)
    requires !(s.droppedThrough.Some? && q < s.droppedThrough.value)
    ensures var s' := AfterDeltas(Adopted(s, q, bids, asks), NewerThan(s.buffer, q), maxBuffered);
            !s'.synced && past'.us == past.us && Holds(s', past', part)
  {
    var ds, first := NewerThan(s.buffer, q), s.buffer[0];
    assert ds[0] == first && first.Start() > past.floor.value + 1;
    var s1 := AfterDelta(Adopted(s, q, bids, asks), first, maxBuffered).0;
    assert !s1.synced && s1.buffer == [first] && s1.droppedThrough.None?;
    assert Tail(s1, [first], 0, past.floor);
    hide AfterDelta, NewerThan, Adopted;
    var k := BufferMany(s1, ds[1..], maxBuffered, [first], 0, past.floor);
    assert [first] + ds[1..] == ds;
    past' := past.(all := ds, dropped := k);
    forall later | From(past.floor, later)
      ensures NewerThan(ds, later) == NewerThan(Flatten(past.us) + part, later)
    {
      NewerOfNewer(s.buffer, q, later);
      DroppedAreOld(s, past.all, past.dropped, later);
    }
  }

  /** A snapshot the builder adopts while out of sync, between levels or not. */
  lemma AdoptedOutOfSync(venue: Venue, s: State, past: Past, u: Update, k: nat, q: int, bids: Rows, asks: Rows,
                         maxBuffered: int) returns (past': Past)
    requires maxBuffered >= 1 && !s.synced && Mid(venue, s, past, u, k)
    requires !(s.droppedThrough.Some? && q < s.droppedThrough.value)
    requires Sides(FromRows(bids), FromRows(asks)) == venue(q)
    ensures Mid(venue, AfterDeltas(Adopted(s, q, bids, asks), NewerThan(s.buffer, q), maxBuffered), past', u, k)
  {
    var part := Deltas(u)[..k];
    if !From(past.floor, q) {
      past' := OldSnapshotMeetsTheGap(s, past, part, q, bids, asks, maxBuffered);
      hide TrueUpdate, Holds, AfterDeltas, NewerThan;
    } else {
      var adopted := Adopted(s, q, bids, asks);
      var replayed := UpdatesAfter(past.us, q);
      ReplayIsWhole(s, past, part, q);
      AllTrueAfter(venue, past.us, q);
      TrueDeltasAreValid(venue, replayed);
      AllOldOrAllNew(part, q);
      assert Sound(venue, adopted, NO_PAST) && Replaying(adopted, q);
      hide TrueUpdate, Holds, NewerThan, Flatten, Sound, AfterDeltas, Replaying, Adopted;
      var past1 := ReplayKeepsSound(venue, adopted, NO_PAST, replayed, maxBuffered);
      ReplayStaysGuarded(adopted, Flatten(replayed), q, maxBuffered);
      AfterDeltasConcat(adopted, Flatten(replayed), NewerThan(part, q), maxBuffered);
      var s1 := AfterDeltas(adopted, Flatten(replayed), maxBuffered);
      past' := PartAfterReplay(venue, s1, past1, u, k, q, maxBuffered);
    }
  }

  /** Once the whole updates have replayed: the part of the one under way replays too, or is too old to. */
  lemma PartAfterReplay(venue: Venue, s: State, past: Past, u: Update, k: nat, q: int, maxBuffered: int)
    returns (past': Past)
    requires maxBuffered >= 1 && Sound(venue, s, past) && Replaying(s, q)
    requires k <= |u.levels| && (k > 0 ==> TrueUpdate(venue, u))
    ensures Mid(venue, AfterDeltas(s, NewerThan(Deltas(u)[..k], q), maxBuffered), past', u, k)
  {
    var part := Deltas(u)[..k];
    AllOldOrAllNew(part, q);
    if k == 0 || u.last > q {
      assert NewerThan(part, q) == part;
      assert s.synced ==> s.last.Some?;
      MidStarts(venue, s, past, u);
      hide Mid, Sound, TrueUpdate, Replaying;
      past' := LevelsKeep(venue, s, past, u, 0, k, maxBuffered);
      assert Deltas(u)[0..k] == part;
    } else {
      assert NewerThan(part, q) == [];
      assert AfterDeltas(s, [], maxBuffered) == s;
      if s.synced {
        past' := past;
      } else {
        past' := IgnoringPart(s, past, part, q);
      }
      hide Holds, TrueUpdate;
    }
  }

  /** A part that is too old can be counted in without being there, for snapshots no older than `q`. */
  lemma IgnoringPart(s: State, past: Past, part: seq<Delta>, q: int) returns (past': Past)
    requires Holds(s, past, []) && Guarded(s, Some(q)) && forall i :: 0 <= i < |part| ==> part[i].sequence <= q
    ensures past'.us == past.us && Holds(s, past', part)
  {
    var floor := if From(past.floor, q) then Some(q) else past.floor;
    past' := past.(floor := floor);
    forall later | From(floor, later)
      ensures NewerThan(past.all, later) == NewerThan(Flatten(past.us) + part, later)
    {
      assert Flatten(past.us) + [] == Flatten(past.us);
      NewerThanConcat(Flatten(past.us), part, later);
      AllOldOrAllNew(part, later);
      assert NewerThan(Flatten(past.us), later) + [] == NewerThan(Flatten(past.us), later);
    }
  }

  lemma SnapshotMidway(venue: Venue, s: State, past: Past, u: Update, k: nat, q: int, bids: Rows, asks: Rows,
                       maxBuffered: int)
    returns (past': Past)
    requires maxBuffered >= 1 && Mid(venue, s, past, u, k) && Sides(FromRows(bids), FromRows(asks)) == venue(q)
    ensures Mid(venue, AfterSnapshot(s, q, bids, asks, maxBuffered).0, past', u, k)
  {
    past' := past;
    if !RefusesSnapshot(s, q) && RowsValid(bids) && RowsValid(asks) {
      if s.synced {
        var adopted := Adopted(s, q, bids, asks);
        assert AfterDeltas(adopted, [], maxBuffered) == adopted;
        hide TrueUpdate;
      } else {
        past' := AdoptedOutOfSync(venue, s, past, u, k, q, bids, asks, maxBuffered);
      }
    } else {
      hide TrueUpdate, NewerThan;
    }
  }

  // ----- Every run -----

  ghost predicate RunSound(venue: Venue, s: State, past: Past, arrivals: seq<Arrival>) {
    if Rest(arrivals) == [] then Sound(venue, s, past)
    else Mid(venue, s, past, UnderWay(arrivals).value.0, UnderWay(arrivals).value.1)
  }

  lemma LevelArrives(venue: Venue, s: State, past: Past, before: seq<Arrival>, u: Update, i: nat, maxBuffered: int)
    returns (past': Past)
    requires maxBuffered >= 1 && RunSound(venue, s, past, before) && TrueUpdate(venue, u)
    requires i < |u.levels| && (if i == 0 then Rest(before) == [] else UnderWay(before) == Some((u, i)))
    requires s.synced ==> s.last.Some?
    ensures RunSound(venue, Receive(s, Level(u, i), maxBuffered), past', before + [Level(u, i)])
  {
    var all := before + [Level(u, i)];
    assert Rest(all) == Deltas(u)[i + 1..];
    if i == 0 { MidStarts(venue, s, past, u); }
    hide Mid, Sound, TrueUpdate, AfterDelta, Deltas;
    past' := LevelStep(venue, s, past, u, i, maxBuffered);
    if i + 1 == |u.levels| {
      past' := MidEnds(venue, AfterDelta(s, Deltas(u)[i], maxBuffered).0, past', u);
    }
  }

  lemma SnapshotArrives(venue: Venue, s: State, past: Past, before: seq<Arrival>, q: int, bids: Rows, asks: Rows,
                        maxBuffered: int) returns (past': Past)
    requires maxBuffered >= 1 && RunSound(venue, s, past, before) && (s.synced ==> s.last.Some?)
    requires Sides(FromRows(bids), FromRows(asks)) == venue(q)
    ensures RunSound(venue, Receive(s, Snapshot(q, bids, asks), maxBuffered), past', before + [Snapshot(q, bids, asks)])
  {
    var all := before + [Snapshot(q, bids, asks)];
    assert all[..|before|] == before;
    assert UnderWay(all) == UnderWay(before) && Rest(all) == Rest(before);
    hide Mid, Sound, AfterSnapshot, UnderWay, Rest;
    if Rest(before) == [] {
      var none := Update(0, 0, []);
      MidStarts(venue, s, past, none);
      past' := SnapshotMidway(venue, s, past, none, 0, q, bids, asks, maxBuffered);
      MidStarts(venue, AfterSnapshot(s, q, bids, asks, maxBuffered).0, past', none);
    } else {
      var (u, k) := UnderWay(before).value;
      past' := SnapshotMidway(venue, s, past, u, k, q, bids, asks, maxBuffered);
    }
  }

  lemma {:induction false} RunIsSound(venue: Venue, arrivals: seq<Arrival>, maxBuffered: int) returns (past: Past)
    requires maxBuffered >= 1 && InOrder(arrivals)
    requires forall i :: 0 <= i < |arrivals| ==> TrueArrival(venue, arrivals[i])
    ensures RunSound(venue, Run(arrivals, maxBuffered), past, arrivals)
  {
    if arrivals == [] {
      past := NO_PAST;
      assert Flatten([]) + [] == [];
    } else {
      var init, a := arrivals[..|arrivals| - 1], arrivals[|arrivals| - 1];
      past := RunIsSound(venue, init, maxBuffered);
      assert TrueArrival(venue, a) && init + [a] == arrivals;
      hide RunSound, TrueUpdate, FromRows, Receive;
      match a
      case Level(u, i) => past := LevelArrives(venue, Run(init, maxBuffered), past, init, u, i, maxBuffered);
      case Snapshot(q, bids, asks) =>
        past := SnapshotArrives(venue, Run(init, maxBuffered), past, init, q, bids, asks, maxBuffered);
    }
  }

  lemma RestReplays(s: State, u: Update, k: nat, maxBuffered: int)
    requires maxBuffered >= 1 && Tidy(s) && 0 < k <= |u.levels| && u.first <= u.last <= s.last.value
    requires s.batch == Some((u.first, u.last)) ==> s.last.value == u.last
    ensures AfterDeltas(s, Deltas(u)[k..], maxBuffered).book
         == if s.batch == Some((u.first, u.last)) then ApplyAll(s.book, Deltas(u)[k..]) else s.book
  {
    var rest := Deltas(u)[k..];
    if s.batch == Some((u.first, u.last)) {
      assert [] + rest == rest;
      RestOfBatchApplies(s, rest, s.book, [], maxBuffered);
    } else {
      StaleBatchIsIgnored(s, rest, maxBuffered);
    }
  }

  /** The size a side holds at a price, if it has that level. */
  function LevelAt(book: Sides, side: Side, price: int): Option<int> {
    var levels := if side == Buy then book.bids else book.asks;
    if price in levels then Some(levels[price]) else None
  }

  /** The last size that some deltas give a level. */
  function LastSize(ds: seq<Delta>, side: Side, price: int): Option<int> {
    if ds == [] then None else
    var d := ds[|ds| - 1];
    if d.side == side && d.price == price then Some(d.size) else LastSize(ds[..|ds| - 1], side, price)
  }

  /** For every level that the deltas name, the last size they give it is the one it has; zero is no level. */
  ghost predicate NothingNew(book: Sides, ds: seq<Delta>) {
    forall side, price :: LastSize(ds, side, price).Some? ==>
      LevelAt(book, side, price)
      == (if LastSize(ds, side, price).value == 0 then None else LastSize(ds, side, price))
  }

  lemma {:induction false} LastSizeStands(book: Sides, ds: seq<Delta>, side: Side, price: int)
    ensures LevelAt(ApplyAll(book, ds), side, price)
         == match LastSize(ds, side, price)
            case None => LevelAt(book, side, price)
            case Some(size) => if size == 0 then None else Some(size)
  {
    if ds != [] { LastSizeStands(book, ds[..|ds| - 1], side, price); }
  }

  lemma LevelsAreTheBook(a: Sides, b: Sides)
    requires forall side, price :: LevelAt(a, side, price) == LevelAt(b, side, price)
    ensures a == b
  {
    forall price
      ensures price in a.bids <==> price in b.bids
      ensures price in a.bids ==> a.bids[price] == b.bids[price]
      ensures price in a.asks <==> price in b.asks
      ensures price in a.asks ==> a.asks[price] == b.asks[price]
    {
      assert LevelAt(a, Buy, price) == LevelAt(b, Buy, price) && LevelAt(a, Sell, price) == LevelAt(b, Sell, price);
    }
    assert a.bids == b.bids && a.asks == b.asks;
  }

  /** Deltas leave a book as it is exactly when they tell it nothing new. */
  lemma SameBookIffNothingNew(book: Sides, ds: seq<Delta>)
    ensures ApplyAll(book, ds) == book <==> NothingNew(book, ds)
  {
    hide ApplyAll, LevelAt, LastSize;
    forall side, price
      ensures LevelAt(ApplyAll(book, ds), side, price)
           == match LastSize(ds, side, price)
              case None => LevelAt(book, side, price)
              case Some(size) => if size == 0 then None else Some(size)
    {
      LastSizeStands(book, ds, side, price);
    }
    if NothingNew(book, ds) { LevelsAreTheBook(ApplyAll(book, ds), book); }
  }

  /** At every point of every run, whatever was lost, repeated, reordered or dropped by the bounded buffer,
      and wherever snapshots fall: a builder that claims to be in sync is led by the rest of the update
      under way to the venue's book at its last sequence number, and so holds that book already if and
      only if it ignores that update as an old one, or the rest of it says nothing new. */
  lemma SyncedBookIsTrueIffRestIsNothingNew(venue: Venue, arrivals: seq<Arrival>, maxBuffered: int)
    requires maxBuffered >= 1 && InOrder(arrivals)
    requires forall i :: 0 <= i < |arrivals| ==> TrueArrival(venue, arrivals[i])
    ensures var s, rest := Run(arrivals, maxBuffered), Rest(arrivals);
            s.synced ==>
              && AfterDeltas(s, rest, maxBuffered).book == venue(s.last.value)
              && (s.book == venue(s.last.value)
                  <==> rest == [] || s.batch != Some(rest[0].Batch()) || NothingNew(s.book, rest))
  {
    var s, rest := Run(arrivals, maxBuffered), Rest(arrivals);
    var past := RunIsSound(venue, arrivals, maxBuffered);
    if s.synced && rest != [] {
      var (u, k) := UnderWay(arrivals).value;
      UnderWayStarted(arrivals);
      RestReplays(s, u, k, maxBuffered);
      SameBookIffNothingNew(s.book, rest);
    }
  }

  lemma {:induction false} UnderWayStarted(arrivals: seq<Arrival>)
    ensures UnderWay(arrivals).Some? ==> UnderWay(arrivals).value.1 > 0
  {
    if arrivals != [] { UnderWayStarted(arrivals[..|arrivals| - 1]); }
  }

  /** With no update half arrived, a builder that claims to be in sync holds the venue's book. */
  lemma SyncedBookIsTheVenuesBook(venue: Venue, arrivals: seq<Arrival>, maxBuffered: int)
    requires maxBuffered >= 1 && InOrder(arrivals)
    requires forall i :: 0 <= i < |arrivals| ==> TrueArrival(venue, arrivals[i])
    requires Rest(arrivals) == []
    ensures var s := Run(arrivals, maxBuffered); s.synced ==> s.book == venue(s.last.value)
  {
    SyncedBookIsTrueIffRestIsNothingNew(venue, arrivals, maxBuffered);
  }

  /** A feed of one level per sequence number is a feed of true updates. */
  lemma SingleLevelUpdateIsTrue(venue: Venue, n: int, level: (Side, int, int))
    requires level.2 >= 0
    requires venue(n) == ApplyLevel(venue(n - 1), Delta(level.0, level.1, level.2, n, Some(n)))
    ensures TrueUpdate(venue, Update(n, n, [level]))
  {
    var u := Update(n, n, [level]);
    forall q | u.first - 1 <= q <= u.last ensures ApplyAll(venue(q), Deltas(u)) == venue(u.last) {
      var ds := Deltas(u);
      assert ds == [ds[0]];
      assert ApplyAll(venue(q), ds[..0]) == venue(q);
      if q == n {
        assert ApplyLevel(venue(n), ds[0]) == venue(n);
      }
    }
  }

  /** A venue whose only update is of two levels. */
  const TWO_LEVELS: Update := Update(1, 2, [(Buy, 10, 1), (Buy, 11, 1)])

  function TwoLevelVenue(n: int): Sides { Sides(if n <= 0 then map[] else map[10 := 1, 11 := 1], map[]) }

  lemma TwoLevelsAreTrue()
    ensures TrueUpdate(TwoLevelVenue, TWO_LEVELS)
  {
    var ds := Deltas(TWO_LEVELS);
    forall q | 0 <= q <= 2 ensures ApplyAll(TwoLevelVenue(q), ds) == TwoLevelVenue(2) {
      assert ds[..1][..0] == [] && ds[..1][0] == ds[0];
      assert ApplyAll(TwoLevelVenue(q), ds[..1]) == ApplyLevel(ApplyAll(TwoLevelVenue(q), ds[..1][..0]), ds[0]);
      assert ApplyAll(TwoLevelVenue(q), ds) == ApplyLevel(ApplyAll(TwoLevelVenue(q), ds[..1]), ds[1]);
    }
  }

  /** The rest can be something new: after one level of two the builder already claims the update's end. */
  lemma HalfAnUpdateClaimsTooMuch()
    ensures var arrivals := [Snapshot(0, [], []), Level(TWO_LEVELS, 0)];
            var s := Run(arrivals, 8);
            && InOrder(arrivals) && (forall i :: 0 <= i < |arrivals| ==> TrueArrival(TwoLevelVenue, arrivals[i]))
            && s.synced && s.last == Some(2) && s.book != TwoLevelVenue(2)
  {
    TwoLevelsAreTrue();
    hide TrueUpdate;
    var one: seq<Arrival> := [Snapshot(0, [], [])];
    var arrivals := [Snapshot(0, [], []), Level(TWO_LEVELS, 0)];
    assert one[..0] == [] && arrivals[..1] == one && Rest(one) == [] && InOrder(one);
    assert Run(one, 8) == AfterDeltas(Adopted(INITIAL, 0, [], []), [], 8) == Adopted(INITIAL, 0, [], []);
    var s := AfterDelta(Run(one, 8), Deltas(TWO_LEVELS)[0], 8).0;
    assert Run(arrivals, 8) == s;
    assert 11 !in s.book.bids && 11 in TwoLevelVenue(2).bids;
  }

  lemma {:induction false} DeltasKeepNoBuffer(s: State, ds: seq<Delta>, maxBuffered: int)
    requires maxBuffered >= 1 && (s.synced ==> s.last.Some? && s.buffer == [])
    ensures var s' := AfterDeltas(s, ds, maxBuffered); s'.synced ==> s'.buffer == []
    decreases ds
  {
    if ds != [] {
      hide ApplyLevel;
      DeltasKeepNoBuffer(AfterDelta(s, ds[0], maxBuffered).0, ds[1..], maxBuffered);
    }
  }

  lemma {:induction false} SyncedMeansNoBuffer(arrivals: seq<Arrival>, maxBuffered: int)
    requires maxBuffered >= 1
    ensures var s := Run(arrivals, maxBuffered); s.synced ==> s.buffer == []
  {
    if arrivals != [] {
      var init, a := arrivals[..|arrivals| - 1], arrivals[|arrivals| - 1];
      SyncedMeansNoBuffer(init, maxBuffered);
      var s := Run(init, maxBuffered);
      match a
      case Level(u, i) => if i < |u.levels| { DeltasKeepNoBuffer(s, [Deltas(u)[i]], maxBuffered); }
      case Snapshot(q, bids, asks) =>
        DeltasKeepNoBuffer(Adopted(s, q, bids, asks), NewerThan(s.buffer, q), maxBuffered);
    }
  }

  /** After any arrivals at all, a snapshot never takes a book in sync back or out of sync: one that is
      accepted is not older, and one that is not leaves the book as it was. */
  lemma SnapshotNeverRollsBack(arrivals: seq<Arrival>, q: int, bids: Rows, asks: Rows, maxBuffered: int)
    requires maxBuffered >= 1 && Run(arrivals, maxBuffered).synced
    ensures var s, s' := Run(arrivals, maxBuffered), Run(arrivals + [Snapshot(q, bids, asks)], maxBuffered);
            && s'.synced && s'.last.value >= s.last.value
            && (s'.book != s.book || s'.last != s.last ==>
                  s'.last == Some(q) && s'.book == Sides(FromRows(bids), FromRows(asks)))
  {
    SyncedMeansNoBuffer(arrivals, maxBuffered);
    assert (arrivals + [Snapshot(q, bids, asks)])[..|arrivals|] == arrivals;
    hide FromRows, RowsValid;
  }

  /** Updates in order, each meeting the one before and adding something. */
  predicate Chained(us: seq<Update>, q: int) {
    && (forall i :: 0 <= i < |us| ==> us[i].first <= us[i].last && us[i].levels != [])
    && (forall i :: 0 < i < |us| ==> us[i].first <= us[i - 1].last + 1 && us[i - 1].last < us[i].last)
    && (|us| > 0 ==> us[0].first <= q + 1)
  }

  lemma {:induction false} ChainCatchesUp(venue: Venue, s: State, us: seq<Update>, maxBuffered: int)
    requires maxBuffered >= 1 && s.synced && Sound(venue, s, NO_PAST) && s.batch.None?
    requires Chained(us, s.last.value) && forall u :: u in us ==> TrueUpdate(venue, u)
    ensures var s' := AfterDeltas(s, Flatten(UpdatesAfter(us, s.last.value)), maxBuffered);
            && s'.synced && Sound(venue, s', NO_PAST)
            && s'.last == Some(if us == [] then s.last.value else Max(s.last.value, us[|us| - 1].last))
  {
    hide TrueUpdate, ApplyAll;
    if us != [] {
      var init, u := us[..|us| - 1], us[|us| - 1];
      ChainCatchesUp(venue, s, init, maxBuffered);
      var q := s.last.value;
      var kept := UpdatesAfter(init, q);
      var s1 := AfterDeltas(s, Flatten(kept), maxBuffered);
      if u.last > q {
        assert (kept + [u])[..|kept|] == kept;
        AfterDeltasConcat(s, Flatten(kept), Deltas(u), maxBuffered);
        UpdateInSync(venue, s1, u, maxBuffered);
      } else {
        assert kept + [] == kept;
      }
    }
  }

  /** The sync procedure works: a snapshot over a buffer that dropped nothing and misses nothing leaves
      the builder in sync at the newest update, with the venue's book. */
  lemma SnapshotCatchesUp(venue: Venue, s: State, q: int, bids: Rows, asks: Rows, us: seq<Update>, maxBuffered: int)
    requires maxBuffered >= 1 && !s.synced && s.droppedThrough.None? && s.buffer == Flatten(us)
    requires Chained(us, q) && forall u :: u in us ==> TrueUpdate(venue, u)
    requires RowsValid(bids) && RowsValid(asks) && Sides(FromRows(bids), FromRows(asks)) == venue(q)
    ensures var (s', applied) := AfterSnapshot(s, q, bids, asks, maxBuffered);
            && applied == Ok(true) && s'.synced && s'.buffer == []
            && s'.last == Some(if us == [] then q else Max(q, us[|us| - 1].last))
            && s'.book == venue(s'.last.value)
  {
    NewerUpdatesAreWhole(us, q);
    ChainCatchesUp(venue, Adopted(s, q, bids, asks), us, maxBuffered);
  }

  // ----- The builder -----

  /** The sort key of a price: best prices have the smallest keys. */
  function SortKey(price: int, descending: bool): int { if descending then -price else price }

  predicate StrictlySorted(keys: seq<int>) {
    forall i, j :: 0 <= i < j < |keys| ==> keys[i] < keys[j]
  }

  /** `listed` is the best of `levels`, best price first, up to `depth` levels. */
  ghost predicate BestFirst(levels: Levels, descending: bool, depth: Option<nat>, listed: seq<(int, int)>) {
    && (forall i :: 0 <= i < |listed| ==> listed[i].0 in levels && listed[i].1 == levels[listed[i].0])
    && (forall i, j :: 0 <= i < j < |listed| ==> SortKey(listed[i].0, descending) < SortKey(listed[j].0, descending))
    && (forall p :: p in levels && (forall i :: 0 <= i < |listed| ==> listed[i].0 != p) ==>
          && depth.Some? && |listed| == depth.value
          && (forall i :: 0 <= i < |listed| ==> SortKey(listed[i].0, descending) < SortKey(p, descending)))
    && (depth.Some? ==> |listed| <= depth.value)
  }

  /** The key list is strictly sorted and holds exactly the prices of the level map. */
  ghost predicate KeysMatch(keys: seq<int>, levels: Levels, descending: bool) {
    && StrictlySorted(keys)
    && (forall k {:trigger k in keys} :: k in keys <==> SortKey(k, descending) in levels)
  }

  lemma AbsentKeyStaysAbsent(keys: seq<int>, at: nat)
    requires StrictlySorted(keys) && at < |keys|
    ensures StrictlySorted(keys[..at] + keys[at + 1..])
    ensures forall k :: k in keys[..at] + keys[at + 1..] <==> k in keys && k != keys[at]
  {
    var rest := keys[..at] + keys[at + 1..];
    forall k | k in keys && k != keys[at] ensures k in rest {
      var i :| 0 <= i < |keys| && keys[i] == k;
      assert rest[if i < at then i else i - 1] == k;
    }
  }

  lemma RemovingAKey(keys: seq<int>, levels: Levels, descending: bool, price: int, at: nat)
    requires KeysMatch(keys, levels, descending) && at < |keys| && keys[at] == SortKey(price, descending)
    ensures KeysMatch(keys[..at] + keys[at + 1..], levels - {price}, descending)
  {
    AbsentKeyStaysAbsent(keys, at);
    var rest := keys[..at] + keys[at + 1..];
    forall k {:trigger k in rest} ensures k in rest <==> SortKey(k, descending) in levels - {price} {
      assert k in keys <==> SortKey(k, descending) in levels;
    }
  }

  lemma InsertingAKey(keys: seq<int>, levels: Levels, descending: bool, price: int, size: int, at: nat)
    requires KeysMatch(keys, levels, descending) && price !in levels && at <= |keys|
    requires forall i :: 0 <= i < at ==> keys[i] < SortKey(price, descending)
    requires forall i :: at <= i < |keys| ==> SortKey(price, descending) <= keys[i]
    ensures KeysMatch(keys[..at] + [SortKey(price, descending)] + keys[at..], levels[price := size], descending)
  {
    var key := SortKey(price, descending);
    var all := keys[..at] + [key] + keys[at..];
    assert key !in keys;
    assert keys == keys[..at] + keys[at..];
    forall k {:trigger k in all} ensures k in all <==> SortKey(k, descending) in levels[price := size] {
      assert k in all <==> k in keys || k == key;
      assert k in keys <==> SortKey(k, descending) in levels;
    }
    InsertionStaysSorted(keys, key, at);
  }

  lemma InsertionStaysSorted(keys: seq<int>, key: int, at: nat)
    requires StrictlySorted(keys) && key !in keys && at <= |keys|
    requires forall i :: 0 <= i < at ==> keys[i] < key
    requires forall i :: at <= i < |keys| ==> key <= keys[i]
    ensures StrictlySorted(keys[..at] + [key] + keys[at..])
  {
    assert forall i :: at <= i < |keys| ==> keys[i] in keys && key < keys[i];
  }

  lemma ListedAreBest(keys: seq<int>, levels: Levels, descending: bool, depth: Option<nat>, count: nat,
                      listed: seq<(int, int)>)
    requires KeysMatch(keys, levels, descending)
    requires count == (if depth.None? then |keys| else Min(depth.value, |keys|)) && |listed| == count
    requires forall j :: 0 <= j < count ==>
      listed[j].0 == SortKey(keys[j], descending) && listed[j].0 in levels && listed[j].1 == levels[listed[j].0]
    ensures BestFirst(levels, descending, depth, listed)
  {
    assert forall j :: 0 <= j < count ==> SortKey(listed[j].0, descending) == keys[j];
    forall p | p in levels && forall i :: 0 <= i < |listed| ==> listed[i].0 != p
      ensures depth.Some? && |listed| == depth.value
      ensures forall i :: 0 <= i < |listed| ==> SortKey(listed[i].0, descending) < SortKey(p, descending)
    {
      var key := SortKey(p, descending);
      assert SortKey(key, descending) == p;
      assert key in keys;
      assert forall j :: 0 <= j < count ==> keys[j] != key && listed[j].0 != p;
      var k :| 0 <= k < |keys| && keys[k] == key;
    }
  }

  class BookSide {
    const descending: bool
    var levels: Levels
    var keys: seq<int>

    constructor (descending: bool)
      ensures Valid() && levels == map[] && this.descending == descending
    {
      this.descending := descending;
      levels, keys := map[], [];
    }

    ghost predicate Valid()
      reads this
    {
      KeysMatch(keys, levels, descending)
    }

    method BisectLeft(key: int) returns (lo: nat)
      requires StrictlySorted(keys)
      ensures lo <= |keys|
      ensures forall i :: 0 <= i < lo ==> keys[i] < key
      ensures forall i :: lo <= i < |keys| ==> key <= keys[i]
    {
      lo := 0;
      var hi := |keys|;
      while lo < hi
        invariant lo <= hi <= |keys|
        invariant forall i :: 0 <= i < lo ==> keys[i] < key
        invariant forall i :: hi <= i < |keys| ==> key <= keys[i]
      {
        var mid := (lo + hi) / 2;
        if keys[mid] < key { lo := mid + 1; } else { hi := mid; }
      }
    }

    method Set(price: int, size: int)
      requires Valid()
      modifies this
      ensures Valid() && levels == SetLevel(old(levels), price, size)
    {
      var key := SortKey(price, descending);
      if size == 0 {
        if price in levels {
          var at := BisectLeft(key);
          assert key in keys by {
            assert SortKey(key, descending) == price;
          }
          assert at < |keys| && keys[at] == key by {
            var i :| 0 <= i < |keys| && keys[i] == key;
          }
          RemovingAKey(keys, levels, descending, price, at);
          levels := levels - {price};
          keys := keys[..at] + keys[at + 1..];
        } else {
          assert levels - {price} == levels;
        }
        return;
      }
      if price !in levels {
        // Both bisections give one place for a key the list does not hold.
        var at := BisectLeft(key);
        InsertingAKey(keys, levels, descending, price, size, at);
        keys := keys[..at] + [key] + keys[at..];
      }
      levels := levels[price := size];
    }

    method Top(depth: Option<nat>) returns (listed: seq<(int, int)>)
      requires Valid()
      ensures BestFirst(levels, descending, depth, listed)
    {
      var count := if depth.None? then |keys| else Min(depth.value, |keys|);
      listed := [];
      for i := 0 to count
        invariant |listed| == i
        invariant forall j :: 0 <= j < i ==>
          listed[j].0 == SortKey(keys[j], descending) && listed[j].0 in levels && listed[j].1 == levels[listed[j].0]
      {
        assert keys[i] in keys;
        var price := SortKey(keys[i], descending);
        listed := listed + [(price, levels[price])];
      }
      ListedAreBest(keys, levels, descending, depth, count, listed);
    }
  }

  datatype SnapshotError = BadDepth | SequenceGap(expected: int, newest: int)

  datatype BookSnapshot = BookSnapshot(sequence: int, bids: seq<(int, int)>, asks: seq<(int, int)>)

  class BookBuilder {
    var bids: BookSide
    var asks: BookSide
    var last: Option<int>
    var synced: bool
    var buffer: seq<Delta>
    const maxBuffered: int
    var gaps: nat
    var staleDeltas: nat
    var staleSnapshots: nat
    var batch: Option<(int, int)>
    var droppedThrough: Option<int>

    constructor (maxBuffered: int)
      requires maxBuffered >= 1
      ensures Valid() && View() == INITIAL && this.maxBuffered == maxBuffered
      ensures fresh(bids) && fresh(asks)
    {
      this.maxBuffered := maxBuffered;
      bids := new BookSide(true);
      asks := new BookSide(false);
      last, synced, buffer, batch, droppedThrough := None, false, [], None, None;
      gaps, staleDeltas, staleSnapshots := 0, 0, 0;
    }

    ghost predicate Valid()
      reads this, bids, asks
    {
      && maxBuffered >= 1
      && bids != asks && bids.descending && !asks.descending && bids.Valid() && asks.Valid()
      && (synced ==> last.Some?)
    }

    ghost function View(): State
      reads this, bids, asks
    {
      State(Sides(bids.levels, asks.levels), last, synced, buffer, gaps, staleDeltas, staleSnapshots, batch,
            droppedThrough)
    }

    /** Apply one delta. Returns false if it was buffered or ignored as old. */
    method ApplyDelta(d: Delta) returns (applied: bool)
      requires Valid()
      modifies this, bids, asks
      ensures Valid() && bids == old(bids) && asks == old(asks)
      ensures (View(), applied) == AfterDelta(old(View()), d, maxBuffered)
    {
      if !synced {
        BufferDelta(d);
        return false;
      }
      var delta := d.Batch();
      if d.sequence <= last.value && batch != Some(delta) {
        staleDeltas := staleDeltas + 1;
        return false;
      }
      if d.Start() > last.value + 1 {
        gaps := gaps + 1;
        synced := false;
        BufferDelta(d);
        return false;
      }
      if d.side == Buy {
        bids.Set(d.price, d.size);
      } else {
        asks.Set(d.price, d.size);
      }
      last, batch := Some(d.sequence), Some(delta);
      applied := true;
    }

    method BufferDelta(d: Delta)
      requires Valid()
      modifies this`buffer, this`droppedThrough
      ensures Valid() && View() == AfterBuffering(old(View()), d, maxBuffered)
    {
      if |buffer| >= maxBuffered {
        var dropped := buffer[0];
        buffer := buffer[1..];
        droppedThrough := Some(Max(if droppedThrough.Some? then droppedThrough.value else 0, dropped.sequence));
      }
      buffer := buffer + [d];
    }

    static method SideFrom(rows: Rows, descending: bool) returns (side: BookSide, valid: bool)
      ensures fresh(side) && side.Valid() && side.descending == descending
      ensures valid <==> RowsValid(rows)
      ensures valid ==> side.levels == FromRows(rows)
    {
      side := new BookSide(descending);
      for i := 0 to |rows|
        invariant fresh(side) && side.Valid() && side.descending == descending
        invariant RowsValid(rows[..i]) && side.levels == FromRows(rows[..i])
      {
        if rows[i].1 < 0 {
          return side, false;
        }
        side.Set(rows[i].0, rows[i].1);
        assert rows[..i + 1][..i] == rows[..i];
      }
      assert rows[..|rows|] == rows;
      valid := true;
    }

    /** Replace the book, then apply the buffered deltas newer than `sequence`. A refused snapshot is
        counted, and a bad row leaves the book as it was. */
    method ApplySnapshot(sequence: int, bidRows: Rows, askRows: Rows) returns (r: Result<bool, BookError>)
      requires Valid()
      modifies this, bids, asks
      ensures Valid() && (bids == old(bids) || fresh(bids)) && (asks == old(asks) || fresh(asks))
      ensures (View(), r) == AfterSnapshot(old(View()), sequence, bidRows, askRows, maxBuffered)
    {
      hide KeysMatch, AfterDeltas, NewerThan, FromRows, RowsValid;
      var rollsBack := synced && last.Some? && sequence < last.value;
      var missesDropped := droppedThrough.Some? && sequence < droppedThrough.value;
      if rollsBack || missesDropped {
        staleSnapshots := staleSnapshots + 1;
        return Ok(false);
      }
      var newBids, bidsValid := SideFrom(bidRows, true);
      if !bidsValid { return Err(InvalidLevel); }
      var newAsks, asksValid := SideFrom(askRows, false);
      if !asksValid { return Err(InvalidLevel); }
      var buffered := buffer;
      Adopt(sequence, newBids, newAsks);
      assert View() == Adopted(old(View()), sequence, bidRows, askRows);
      hide Adopted;
      Replay(buffered, sequence);
      r := Ok(true);
    }

    method Adopt(sequence: int, newBids: BookSide, newAsks: BookSide)
      modifies this
      ensures bids == newBids && asks == newAsks
      ensures View() == old(View()).(book := Sides(newBids.levels, newAsks.levels), last := Some(sequence),
                                     synced := true,
                                     droppedThrough := None, batch := None, buffer := [])
    {
      bids, asks := newBids, newAsks;
      last, synced, droppedThrough, batch, buffer := Some(sequence), true, None, None, [];
    }

    method Replay(buffered: seq<Delta>, sequence: int)
      requires Valid()
      modifies this, bids, asks
      ensures Valid() && bids == old(bids) && asks == old(asks)
      ensures View() == AfterDeltas(old(View()), NewerThan(buffered, sequence), maxBuffered)
    {
      hide AfterDelta, KeysMatch;
      for i := 0 to |buffered|
        invariant Valid() && bids == old(bids) && asks == old(asks)
        invariant View() == AfterDeltas(old(View()), NewerThan(buffered[..i], sequence), maxBuffered)
      {
        ReplayOneMore(old(View()), buffered, i, sequence, maxBuffered);
        if buffered[i].sequence > sequence {
          var _ := ApplyDelta(buffered[i]);
        }
      }
      assert buffered[..|buffered|] == buffered;
    }

    /** The current book. An error if it may be wrong. */
    method Snapshot(depth: Option<int>) returns (r: Result<BookSnapshot, SnapshotError>)
      requires Valid()
      ensures r.Err? && r.error.BadDepth? <==> depth.Some? && depth.value < 1
      ensures r.Ok? ==>
                && synced && r.value.sequence == last.value
                && BestFirst(View().book.bids, true, depth, r.value.bids)
                && BestFirst(View().book.asks, false, depth, r.value.asks)
      ensures r.Err? && r.error.SequenceGap? ==>
                && !synced
                && r.error.expected == (if last.None? then 0 else last.value + 1)
                && r.error.newest == (if buffer != [] then buffer[|buffer| - 1].sequence else r.error.expected)
    {
      if depth.Some? && depth.value < 1 { return Err(BadDepth); }
      if !synced {
        var expected := if last.None? then 0 else last.value + 1;
        return Err(SequenceGap(expected, if buffer != [] then buffer[|buffer| - 1].sequence else expected));
      }
      var topBids := bids.Top(depth);
      var topAsks := asks.Top(depth);
      r := Ok(BookSnapshot(last.value, topBids, topAsks));
    }
  }

  lemma ReplayOneMore(s: State, buffered: seq<Delta>, i: nat, q: int, maxBuffered: int)
    requires maxBuffered >= 1 && i < |buffered| && (s.synced ==> s.last.Some?)
    ensures AfterDeltas(s, NewerThan(buffered[..i + 1], q), maxBuffered)
         == (var before := AfterDeltas(s, NewerThan(buffered[..i], q), maxBuffered);
             if buffered[i].sequence > q then AfterDelta(before, buffered[i], maxBuffered).0 else before)
  {
    var one := [buffered[i]];
    assert buffered[..i + 1] == buffered[..i] + one;
    NewerThanConcat(buffered[..i], one, q);
    assert one[1..] == [];
    assert NewerThan(one, q) == (if buffered[i].sequence > q then one else []) + NewerThan([], q);
    AfterDeltasConcat(s, NewerThan(buffered[..i], q), NewerThan(one, q), maxBuffered);
    var before := AfterDeltas(s, NewerThan(buffered[..i], q), maxBuffered);
    assert AfterDeltas(before, one, maxBuffered)
        == AfterDeltas(AfterDelta(before, one[0], maxBuffered).0, one[1..], maxBuffered);
  }
}
