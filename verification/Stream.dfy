/** The incremental parser: messages out of bytes that arrive in any pieces, with one marker for each
    stretch of bytes that is no message, and resynchronisation after it. */
module Stream {
  import opened Common
  import opened Bytes
  import opened Codec

  datatype Item = Parsed(message: Message) | GarbledFrame

  /** A delimiter and the start of a BeginString field next to each other. */
  predicate MarkerAt(s: seq<Byte>, j: nat) {
    j + 3 <= |s| && s[j] == SOH && s[j + 1] == 56 && s[j + 2] == EQUALS
  }

  /** The first marker from `lo` on. */
  function FindMarker(s: seq<Byte>, lo: nat): (r: Option<nat>)
    ensures r.Some? ==> lo <= r.value && MarkerAt(s, r.value) && forall j :: lo <= j < r.value ==> !MarkerAt(s, j)
    ensures r.None? ==> forall j :: lo <= j ==> !MarkerAt(s, j)
    decreases |s| - lo
  {
    if lo + 3 > |s| then None else if MarkerAt(s, lo) then Some(lo) else FindMarker(s, lo + 1)
  }

  /** How many bytes at the end could still become a marker. */
  function TailLength(s: seq<Byte>): (n: nat)
    ensures n <= |s|
  {
    if s != [] && s[|s| - 1] == SOH then 1
    else if |s| >= 2 && s[|s| - 2] == SOH && s[|s| - 1] == 56 then 2
    else 0
  }

  function Tail(s: seq<Byte>): (t: seq<Byte>) { s[|s| - TailLength(s)..] }

  /** What a buffer yields, what is left of it, and whether a frame starts there. */
  datatype Yield = Yield(items: seq<Item>, rest: seq<Byte>, synced: bool)

  function After(items: seq<Item>, y: Yield): Yield { y.(items := items + y.items) }

  /** What a synced parser does next: wait, give a garbled marker and look for the next frame, or read one. */
  datatype Turn = Wait | Skip | Read(item: Item, next: nat)

  function TurnAt(s: seq<Byte>, max: nat, df: DataFields): (t: Turn)
    ensures t.Read? ==> 0 < t.next <= |s|
  {
    match ScanFrame(s, max)
    case NeedMore => Wait
    case Garbled => Skip
    case Frame(begin, start, end) =>
      match ParseFrom(s[start..end - TRAILER_LENGTH], NoData, df)
      case Unsplittable => Skip
      case Split(fields, defect) => Read(Item.Parsed(Message(begin, fields, defect)), end)
  }

  /** The whole of a buffer, consumed from the front: the specification of the parser. */
  function Consume(buf: seq<Byte>, synced: bool, max: nat, df: DataFields): Yield
    decreases |buf|, synced
  {
    if buf == [] then Yield([], [], synced)
    else if !synced then
      match FindMarker(buf, 0)
      case None => Yield([], Tail(buf), false)
      case Some(m) => Consume(buf[m + 1..], true, max, df)
    else
      match TurnAt(buf, max, df)
      case Wait => Yield([], buf, true)
      case Skip => After([GarbledFrame], Consume(buf, false, max, df))
      case Read(item, next) => After([item], Consume(buf[next..], true, max, df))
  }

  /** Whatever is decided before all bytes are there stays decided. */
  lemma TurnIsStable(a: seq<Byte>, b: seq<Byte>, max: nat, df: DataFields)
    requires !TurnAt(a, max, df).Wait?
    ensures TurnAt(a + b, max, df) == TurnAt(a, max, df)
  {
    hide ScanFrame, ParseFrom;
    ScanIsStable(a, b, max);
    if ScanFrame(a, max).Frame? {
      var frame := ScanFrame(a, max);
      assert (a + b)[frame.bodyStart..frame.end - TRAILER_LENGTH] == a[frame.bodyStart..frame.end - TRAILER_LENGTH];
    }
  }

  lemma AfterAfter(a: seq<Item>, b: seq<Item>, y: Yield)
    ensures After(a, After(b, y)) == After(a + b, y)
  {
    assert a + (b + y.items) == (a + b) + y.items;
  }

  lemma AfterNothing(items: seq<Item>, rest: seq<Byte>, synced: bool)
    ensures After(items, Yield([], rest, synced)) == Yield(items, rest, synced)
  {
    assert items + [] == items;
  }

  // ----- Chunk invariance -----

  lemma MarkerInside(a: seq<Byte>, b: seq<Byte>, j: nat)
    requires j + 3 <= |a|
    ensures MarkerAt(a + b, j) <==> MarkerAt(a, j)
  {
  }

  /** Whatever follows, the next marker starts in the tail or after it. */
  lemma MarkersStartInTail(a: seq<Byte>, b: seq<Byte>)
    requires FindMarker(a, 0).None?
    ensures forall j :: 0 <= j && MarkerAt(a + b, j) ==> j >= |a| - |Tail(a)|
  {
    hide FindMarker;
    forall j | 0 <= j && MarkerAt(a + b, j) ensures j >= |a| - |Tail(a)| {
      if j + 3 <= |a| { MarkerInside(a, b, j); }
    }
  }

  /** No marker yet: searching the tail and what follows finds what searching everything would. */
  lemma TailSuffices(a: seq<Byte>, b: seq<Byte>)
    requires FindMarker(a, 0).None?
    ensures var whole, part := FindMarker(a + b, 0), FindMarker(Tail(a) + b, 0);
            && (whole.Some? <==> part.Some?)
            && (whole.Some? ==> (a + b)[whole.value + 1..] == (Tail(a) + b)[part.value + 1..])
  {
    var off := |a| - |Tail(a)|;
    var s, u := a + b, Tail(a) + b;
    MarkersStartInTail(a, b);
    hide FindMarker, Tail;
    assert u == s[off..];
    forall j: nat ensures MarkerAt(u, j) <==> MarkerAt(s, j + off) {
      assert j < |u| ==> u[j] == s[j + off];
    }
    var whole, part := FindMarker(s, 0), FindMarker(u, 0);
    if part.Some? {
      assert MarkerAt(s, part.value + off);
    }
    if whole.Some? {
      assert MarkerAt(u, whole.value - off);
      assert whole.value == part.value + off;
    }
  }

  lemma TailOfSuffix(a: seq<Byte>, b: seq<Byte>)
    ensures Tail(a + b) == Tail(Tail(a) + b)
  {
    var s, u := a + b, Tail(a) + b;
    TailLengthOfSuffix(a, b);
    hide TailLength;
    assert s[|s| - TailLength(s)..] == u[|u| - TailLength(s)..] by {
      assert u == s[|a| - TailLength(a)..];
    }
  }

  lemma TailLengthOfSuffix(a: seq<Byte>, b: seq<Byte>)
    ensures TailLength(a + b) == TailLength(Tail(a) + b)
  {
    var s, u := a + b, Tail(a) + b;
    assert Tail(a) != [] ==> Tail(a)[|Tail(a)| - 1] == a[|a| - 1];
    if b == [] {
      assert s == a && u == Tail(a);
    } else {
      assert s[|s| - 1] == u[|u| - 1] == b[|b| - 1];
      if |b| >= 2 { assert s[|s| - 2] == u[|u| - 2] == b[|b| - 2]; }
    }
  }

  lemma MarkerIsStable(a: seq<Byte>, b: seq<Byte>)
    requires FindMarker(a, 0).Some?
    ensures FindMarker(a + b, 0) == FindMarker(a, 0)
  {
    hide FindMarker;
    var m := FindMarker(a, 0).value;
    assert MarkerAt(a + b, m);
    forall j | 0 <= j < m ensures !MarkerAt(a + b, j) { assert !MarkerAt(a, j); }
    var r := FindMarker(a + b, 0);
  }

  /** Between frames with no marker in sight, only the tail matters. */
  lemma UnsyncedTail(a: seq<Byte>, b: seq<Byte>, max: nat, df: DataFields)
    requires a != [] && FindMarker(a, 0).None?
    ensures Consume(a + b, false, max, df) == Consume(Tail(a) + b, false, max, df)
  {
    hide FindMarker, TurnAt, Tail;
    TailSuffices(a, b);
    TailOfSuffix(a, b);
    if Tail(a) + b == [] { assert a + b == a; }
  }

  /** A buffer continued is its yield continued. */
  predicate Continues(a: seq<Byte>, b: seq<Byte>, synced: bool, max: nat, df: DataFields) {
    var y := Consume(a, synced, max, df);
    Consume(a + b, synced, max, df) == After(y.items, Consume(y.rest + b, y.synced, max, df))
  }

  /** Chunk invariance of the specification: consuming a stream in two pieces, in any split, yields the
      same items and leaves the same state as consuming it whole. */
  lemma {:induction false} SplitMakesNoDifference(a: seq<Byte>, b: seq<Byte>, synced: bool, max: nat, df: DataFields)
    ensures Continues(a, b, synced, max, df)
    decreases |a|, synced
  {
    hide FindMarker, Tail, TurnAt;
    if a == [] {
      assert a + b == b;
    } else if !synced {
      var m := FindMarker(a, 0);
      if m.Some? {
        MarkerIsStable(a, b);
        assert (a + b)[m.value + 1..] == a[m.value + 1..] + b;
        SplitMakesNoDifference(a[m.value + 1..], b, true, max, df);
      } else {
        UnsyncedTail(a, b, max, df);
      }
    } else if !TurnAt(a, max, df).Wait? {
      TurnIsStable(a, b, max, df);
      if TurnAt(a, max, df).Skip? {
        SplitMakesNoDifference(a, b, false, max, df);
        var y := Consume(a, false, max, df);
        AfterAfter([GarbledFrame], y.items, Consume(y.rest + b, y.synced, max, df));
      } else {
        var turn := TurnAt(a, max, df);
        assert (a + b)[turn.next..] == a[turn.next..] + b;
        SplitMakesNoDifference(a[turn.next..], b, true, max, df);
        var y := Consume(a[turn.next..], true, max, df);
        AfterAfter([turn.item], y.items, Consume(y.rest + b, y.synced, max, df));
      }
    }
  }

  /** And so in any number of pieces. */
  function ConsumeAll(chunks: seq<seq<Byte>>, buf: seq<Byte>, synced: bool, max: nat, df: DataFields): Yield {
    if chunks == [] then Yield([], buf, synced) else
    var y := ConsumeAll(chunks[..|chunks| - 1], buf, synced, max, df);
    After(y.items, Consume(y.rest + chunks[|chunks| - 1], y.synced, max, df))
  }

  function Flat(chunks: seq<seq<Byte>>): seq<Byte> {
    if chunks == [] then [] else Flat(chunks[..|chunks| - 1]) + chunks[|chunks| - 1]
  }

  /** A state the parser rests in: consuming nothing more changes nothing. */
  predicate AtRest(buf: seq<Byte>, synced: bool, max: nat, df: DataFields) {
    Consume(buf, synced, max, df) == Yield([], buf, synced)
  }

  /** Any split of a stream gives the same items and the same state as feeding it whole. */
  lemma {:induction false} AnySplitMakesNoDifference(chunks: seq<seq<Byte>>, buf: seq<Byte>, synced: bool, max: nat,
                                                     df: DataFields)
    requires AtRest(buf, synced, max, df)
    ensures ConsumeAll(chunks, buf, synced, max, df) == Consume(buf + Flat(chunks), synced, max, df)
  {
    hide Consume;
    if chunks == [] {
      assert buf + [] == buf;
    } else {
      var init, last := chunks[..|chunks| - 1], chunks[|chunks| - 1];
      AnySplitMakesNoDifference(init, buf, synced, max, df);
      SplitMakesNoDifference(buf + Flat(init), last, synced, max, df);
      assert buf + Flat(init) + last == buf + Flat(chunks);
    }
  }

  lemma TailIsAtRest(s: seq<Byte>, max: nat, df: DataFields)
    requires FindMarker(s, 0).None?
    ensures AtRest(Tail(s), false, max, df)
  {
    TailSuffices(s, []);
    TailOfSuffix(s, []);
    assert s + [] == s && Tail(s) + [] == Tail(s);
    hide FindMarker, Tail, TurnAt;
  }

  /** What is left after consuming is at rest, and never more than one unfinished frame. */
  lemma {:induction false} RestIsBounded(buf: seq<Byte>, synced: bool, max: nat, df: DataFields)
    ensures var y := Consume(buf, synced, max, df);
            AtRest(y.rest, y.synced, max, df) && |y.rest| <= MaxBuffered(max)
    decreases |buf|, synced
  {
    hide FindMarker, Tail, TurnAt, MaxBuffered;
    if buf == [] {
    } else if !synced {
      var m := FindMarker(buf, 0);
      if m.Some? {
        RestIsBounded(buf[m.value + 1..], true, max, df);
      } else {
        TailIsAtRest(buf, max, df);
        TailIsShort(buf, max);
      }
    } else {
      match TurnAt(buf, max, df)
      case Wait => WaitingIsBounded(buf, max, df);
      case Skip => RestIsBounded(buf, false, max, df);
      case Read(item, next) => RestIsBounded(buf[next..], true, max, df);
    }
  }

  lemma WaitingIsBounded(s: seq<Byte>, max: nat, df: DataFields)
    requires TurnAt(s, max, df).Wait?
    ensures |s| <= MaxBuffered(max)
  {
    hide ScanFrame, ParseFrom;
    WaitIsBounded(s, max);
  }

  lemma TailIsShort(s: seq<Byte>, max: nat)
    ensures |Tail(s)| <= 2 <= MaxBuffered(max)
  {
  }

  // ----- Messages through the stream -----

  datatype Outgoing = Outgoing(begin: seq<Byte>, fields: seq<Field>)

  predicate Sendable(m: Outgoing, max: nat, df: DataFields) {
    Encode(m.begin, m.fields, df).Ok?
    && WithinLimits(m.begin, m.fields, EncodeFrom(m.fields, None, df).value, max, df)
  }

  function Frames(messages: seq<Outgoing>, df: DataFields): seq<Byte> {
    if messages == [] then [] else
    (match Encode(messages[0].begin, messages[0].fields, df)
     case Err(_) => []
     case Ok(frame) => frame) + Frames(messages[1..], df)
  }

  function Received(messages: seq<Outgoing>): seq<Item> {
    if messages == [] then []
    else [Parsed(Message(messages[0].begin, messages[0].fields, None))] + Received(messages[1..])
  }

  lemma FrameThenRest(m: Outgoing, rest: seq<Byte>, max: nat, df: DataFields)
    requires Sendable(m, max, df)
    ensures Consume(Encode(m.begin, m.fields, df).value + rest, true, max, df)
         == After([Parsed(Message(m.begin, m.fields, None))], Consume(rest, true, max, df))
  {
    hide EncodeFrom, TurnAt, FindMarker;
    var frame := Encode(m.begin, m.fields, df).value;
    FrameIsRead(m, max, df);
    TurnIsStable(frame, rest, max, df);
    assert (frame + rest)[|frame|..] == rest;
  }

  lemma FrameIsRead(m: Outgoing, max: nat, df: DataFields)
    requires Sendable(m, max, df)
    ensures var frame := Encode(m.begin, m.fields, df).value;
            TurnAt(frame, max, df) == Read(Parsed(Message(m.begin, m.fields, None)), |frame|)
  {
    hide EncodeFrom, ParseFrom, ScanFrame, AllReadable, IsBeginString, Printed, Head;
    var body := EncodeFrom(m.fields, None, df).value;
    EncodedEndsInDelimiter(m.fields, None, df);
    PrintedFrameScans(m.begin, body, max);
    BodyOfPrinted(m.begin, body);
    FieldsRoundTripIff(m.fields, None, df);
  }

  /** Frames written one after another stream back as exactly those messages, however they are cut up. */
  lemma {:induction false} FramesStreamBack(messages: seq<Outgoing>, max: nat, df: DataFields)
    requires forall i :: 0 <= i < |messages| ==> Sendable(messages[i], max, df)
    ensures Consume(Frames(messages, df), true, max, df) == Yield(Received(messages), [], true)
  {
    hide Consume, Sendable, Encode;
    if messages == [] {
      ConsumeNothing(max, df);
    } else {
      assert Sendable(messages[0], max, df);
      SendableEncodes(messages[0], max, df);
      FramesStreamBack(messages[1..], max, df);
      FrameThenRest(messages[0], Frames(messages[1..], df), max, df);
    }
  }

  lemma ConsumeNothing(max: nat, df: DataFields)
    ensures Consume([], true, max, df) == Yield([], [], true)
  {
  }

  lemma SendableEncodes(m: Outgoing, max: nat, df: DataFields)
    requires Sendable(m, max, df)
    ensures Encode(m.begin, m.fields, df).Ok?
  {
  }

  /** Together: any number of messages within the limits, in any split of their bytes. */
  lemma ChunkedFramesStreamBack(messages: seq<Outgoing>, chunks: seq<seq<Byte>>, max: nat, df: DataFields)
    requires forall i :: 0 <= i < |messages| ==> Sendable(messages[i], max, df)
    requires Flat(chunks) == Frames(messages, df)
    ensures ConsumeAll(chunks, [], true, max, df) == Yield(Received(messages), [], true)
  {
    hide Consume, Frames, Received, Flat, Sendable;
    ConsumeNothing(max, df);
    AnySplitMakesNoDifference(chunks, [], true, max, df);
    assert [] + Flat(chunks) == Flat(chunks);
    FramesStreamBack(messages, max, df);
  }

  // ----- The parser -----

  class FixStreamParser {
    const max: nat
    const dataFields: DataFields
    var buffer: seq<Byte>
    var synced: bool

    constructor (max: nat, dataFields: DataFields)
      requires max > 0
      ensures this.max == max && this.dataFields == dataFields && buffer == [] && synced && Valid()
    {
      this.max, this.dataFields, buffer, synced := max, dataFields, [], true;
    }

    /** At rest between feeds, holding at most one unfinished frame. */
    ghost predicate Valid()
      reads this
    {
      AtRest(buffer, synced, max, dataFields) && |buffer| <= MaxBuffered(max)
    }

    /** Read what stands at the start of a synced buffer. */
    method TakeFrame(left: seq<Byte>) returns (turn: Turn)
      ensures turn == TurnAt(left, max, dataFields)
    {
      hide ScanFrame, ParseFrom;
      var scanned := ScanFrame(left, max);
      if scanned.NeedMore? { return Wait; }
      if scanned.Garbled? { return Skip; }
      var fields := ParseFields(left[scanned.bodyStart..scanned.end - TRAILER_LENGTH], dataFields);
      if fields.Unsplittable? { return Skip; }
      turn := Read(Parsed(Message(scanned.begin, fields.fields, fields.defect)), scanned.end);
    }

    /** Consume bytes and return what they complete, in order. */
    method Feed(data: seq<Byte>) returns (out: seq<Item>)
      requires Valid()
      modifies this`buffer, this`synced
      ensures Valid()
      ensures Yield(out, buffer, synced) == Consume(old(buffer) + data, old(synced), max, dataFields)
    {
      hide Consume, FindMarker, TurnAt, Tail, MaxBuffered, After;
      var buf := buffer + data;
      ghost var whole := Consume(buf, synced, max, dataFields);
      RestIsBounded(buf, synced, max, dataFields);
      out := [];
      var position := 0;
      LoopStarts(buf, whole);
      while position < |buf|
        invariant 0 <= position <= |buf|
        invariant After(out, Consume(buf[position..], synced, max, dataFields)) == whole
        decreases |buf| - position, synced
      {
        if !synced {
          MarkerStep(buf, position, out, max, dataFields);
          var marker := FindMarker(buf[position..], 0);
          if marker.None? {
            // Keep only what could still become the start of a marker.
            buffer := Tail(buf[position..]);
            return;
          }
          position, synced := position + marker.value + 1, true;
        }
        FrameStep(buf, position, out, max, dataFields);
        var turn := TakeFrame(buf[position..]);
        match turn
        case Wait =>
          buffer := buf[position..];
          return;
        case Skip =>
          out, synced := out + [GarbledFrame], false;
        case Read(item, next) =>
          out, position := out + [item], position + next;
      }
      LoopEnds(buf, out, synced, max, dataFields);
      buffer := [];
    }
  }

  lemma LoopStarts(buf: seq<Byte>, whole: Yield)
    ensures buf[0..] == buf && After([], whole) == whole
  {
    assert [] + whole.items == whole.items;
  }

  lemma LoopEnds(buf: seq<Byte>, out: seq<Item>, synced: bool, max: nat, df: DataFields)
    ensures After(out, Consume(buf[|buf|..], synced, max, df)) == Yield(out, [], synced)
  {
    hide After;
    assert buf[|buf|..] == [];
    OneStep([], synced, max, df);
    AfterNothing(out, [], synced);
  }

  /** Looking for the next frame. */
  lemma MarkerStep(buf: seq<Byte>, position: nat, out: seq<Item>, max: nat, df: DataFields)
    requires position < |buf|
    ensures var left := buf[position..];
            var here, m := After(out, Consume(left, false, max, df)), FindMarker(left, 0);
            && (m.None? ==> here == Yield(out, Tail(left), false))
            && (m.Some? ==> position + m.value + 3 <= |buf|
                            && here == After(out, Consume(buf[position + m.value + 1..], true, max, df)))
  {
    hide Consume, FindMarker, TurnAt, Tail, After;
    var left := buf[position..];
    OneStep(left, false, max, df);
    var m := FindMarker(left, 0);
    if m.None? {
      AfterNothing(out, Tail(left), false);
    } else {
      assert left[m.value + 1..] == buf[position + m.value + 1..];
    }
  }

  /** Reading what stands at a frame's place. */
  lemma FrameStep(buf: seq<Byte>, position: nat, out: seq<Item>, max: nat, df: DataFields)
    requires position < |buf|
    ensures var left := buf[position..];
            var here, turn := After(out, Consume(left, true, max, df)), TurnAt(left, max, df);
            && (turn.Wait? ==> here == Yield(out, left, true))
            && (turn.Skip? ==> here == After(out + [GarbledFrame], Consume(left, false, max, df)))
            && (turn.Read? ==> position + turn.next <= |buf|
                               && here == After(out + [turn.item], Consume(buf[position + turn.next..], true, max, df)))
  {
    hide Consume, FindMarker, TurnAt, Tail, After;
    var left := buf[position..];
    OneStep(left, true, max, df);
    match TurnAt(left, max, df)
    case Wait => AfterNothing(out, left, true);
    case Skip => AfterAfter(out, [GarbledFrame], Consume(left, false, max, df));
    case Read(item, next) =>
      assert left[next..] == buf[position + next..];
      AfterAfter(out, [item], Consume(left[next..], true, max, df));
  }

  /** One turn of the loop. */
  lemma OneStep(s: seq<Byte>, synced: bool, max: nat, df: DataFields)
    ensures s == [] ==> Consume(s, synced, max, df) == Yield([], [], synced)
    ensures s != [] && !synced && FindMarker(s, 0).None? ==> Consume(s, synced, max, df) == Yield([], Tail(s), false)
    ensures s != [] && !synced && FindMarker(s, 0).Some? ==>
      Consume(s, synced, max, df) == Consume(s[FindMarker(s, 0).value + 1..], true, max, df)
    ensures s != [] && synced && TurnAt(s, max, df).Wait? ==> Consume(s, synced, max, df) == Yield([], s, true)
    ensures s != [] && synced && TurnAt(s, max, df).Skip? ==>
      Consume(s, synced, max, df) == After([GarbledFrame], Consume(s, false, max, df))
    ensures s != [] && synced && TurnAt(s, max, df).Read? ==>
      Consume(s, synced, max, df)
      == After([TurnAt(s, max, df).item], Consume(s[TurnAt(s, max, df).next..], true, max, df))
  {
    hide FindMarker, TurnAt, Tail;
    if s == [] { assert Consume([], synced, max, df) == Yield([], [], synced); }
  }
}
