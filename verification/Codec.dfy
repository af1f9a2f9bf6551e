/** FIX tag=value messages: printing fields and frames, and reading them back (FIX Transport, FIXT 1.1,
    sections "What constitutes a garbled message" and "CheckSum Calculation"). A length field says how
    long the data field after it is, so a data value may hold any byte. */
module Codec {
  import opened Common
  import opened Bytes

  /** A field value is its latin-1 text, one byte a character. */
  datatype Field = Field(tag: int, value: seq<Byte>)

  /** Length tag to data tag. */
  type DataFields = map<int, int>

  datatype EncodeError = InvalidTag | NoValue | MisplacedData | HoldsDelimiter | NoMsgType | BadBeginString

  // ----- Printing -----

  function PrintField(f: Field): seq<Byte>
    requires f.tag > 0
  {
    Digits(f.tag) + [EQUALS] + f.value + [SOH]
  }

  /** Whether a field may be printed after `previous`. */
  function FieldError(f: Field, previous: Option<Field>, df: DataFields): Option<EncodeError> {
    if f.tag <= 0 then Some(InvalidTag)
    else if f.value == [] then Some(NoValue)
    else if f.tag in df.Values then
      if previous.Some? && previous.value.tag in df && df[previous.value.tag] == f.tag
         && previous.value.value == Digits(|f.value|)
      then None else Some(MisplacedData)
    else if SOH in f.value then Some(HoldsDelimiter)
    else None
  }

  function EncodeFrom(fields: seq<Field>, previous: Option<Field>, df: DataFields): Result<seq<Byte>, EncodeError> {
    if fields == [] then Ok([]) else
    match FieldError(fields[0], previous, df)
    case Some(error) => Err(error)
    case None =>
      match EncodeFrom(fields[1..], Some(fields[0]), df)
      case Err(error) => Err(error)
      case Ok(rest) => Ok(PrintField(fields[0]) + rest)
  }

  /** The printing loop. */
  method EncodeFields(fields: seq<Field>, df: DataFields) returns (r: Result<seq<Byte>, EncodeError>)
    ensures r == EncodeFrom(fields, None, df)
  {
    hide EncodeFrom, PrintField;
    var out: seq<Byte> := [];
    var previous: Option<Field> := None;
    PrintingStarts(fields, df);
    for i := 0 to |fields|
      invariant EncodeFrom(fields, None, df) == Prefixed(out, EncodeFrom(fields[i..], previous, df))
    {
      var f := fields[i];
      PrintingStep(out, fields, i, previous, df);
      if f.tag <= 0 { return Err(InvalidTag); }
      if f.value == [] { return Err(NoValue); }
      if f.tag in df.Values {
        if !(previous.Some? && previous.value.tag in df && df[previous.value.tag] == f.tag
             && previous.value.value == Digits(|f.value|)) {
          return Err(MisplacedData);
        }
      } else if SOH in f.value {
        return Err(HoldsDelimiter);
      }
      out := out + PrintField(f);
      previous := Some(f);
    }
    PrintingEnds(out, fields, previous, df);
    r := Ok(out);
  }

  function Prefixed(out: seq<Byte>, rest: Result<seq<Byte>, EncodeError>): Result<seq<Byte>, EncodeError> {
    if rest.Ok? then Ok(out + rest.value) else rest
  }

  lemma PrintingStarts(fields: seq<Field>, df: DataFields)
    ensures EncodeFrom(fields, None, df) == Prefixed([], EncodeFrom(fields[0..], None, df))
  {
    hide EncodeFrom;
    assert fields[0..] == fields;
    var r := EncodeFrom(fields, None, df);
    if r.Ok? { assert [] + r.value == r.value; }
  }

  lemma PrintingStep(out: seq<Byte>, fields: seq<Field>, i: nat, previous: Option<Field>, df: DataFields)
    requires i < |fields|
    ensures var error := FieldError(fields[i], previous, df);
            && (error.Some? ==> EncodeFrom(fields[i..], previous, df) == Err(error.value))
            && (error.None? ==>
                  Prefixed(out, EncodeFrom(fields[i..], previous, df))
                  == Prefixed(out + PrintField(fields[i]), EncodeFrom(fields[i + 1..], Some(fields[i]), df)))
  {
    hide PrintField;
    assert fields[i..][0] == fields[i] && fields[i..][1..] == fields[i + 1..];
    var rest := EncodeFrom(fields[i + 1..], Some(fields[i]), df);
    if FieldError(fields[i], previous, df).None? && rest.Ok? {
      assert out + (PrintField(fields[i]) + rest.value) == (out + PrintField(fields[i])) + rest.value;
    }
  }

  lemma PrintingEnds(out: seq<Byte>, fields: seq<Field>, previous: Option<Field>, df: DataFields)
    ensures Prefixed(out, EncodeFrom(fields[|fields|..], previous, df)) == Ok(out)
  {
    assert fields[|fields|..] == [] && out + [] == out;
  }

  const FIX: seq<Byte> := [70, 73, 88]
  const MSG_TYPE: seq<Byte> := [51, 53, 61]

  /** FIX or FIXT, a dot, digits, a dot, digits; a line feed may follow, since `$` matches before it. */
  predicate IsBeginString(s: seq<Byte>) {
    FIX <= s &&
    var rest := if |s| > 3 && s[3] == 84 then s[4..] else s[3..];
    || IsVersion(rest)
    || (rest != [] && rest[|rest| - 1] == 10 && IsVersion(rest[..|rest| - 1]))
  }

  predicate IsVersion(s: seq<Byte>) {
    && s != [] && s[0] == 46
    && exists i :: 1 < i < |s| && s[i] == 46 && AllDigits(s[1..i]) && AllDigits(s[i + 1..])
  }

  lemma BeginStringHasNoDelimiter(s: seq<Byte>)
    requires IsBeginString(s)
    ensures SOH !in s
  {
    hide IsVersion;
    var from := if |s| > 3 && s[3] == 84 then 4 else 3;
    var rest := s[from..];
    if IsVersion(rest) {
      VersionHasNoDelimiter(rest);
    } else {
      VersionHasNoDelimiter(rest[..|rest| - 1]);
      assert rest == rest[..|rest| - 1] + [10];
    }
    assert s[..3] == FIX;
    assert s[..from] == if from == 4 then FIX + [84] else FIX;
    assert s == s[..from] + rest;
  }

  lemma VersionHasNoDelimiter(s: seq<Byte>)
    requires IsVersion(s)
    ensures SOH !in s
  {
    var i :| 1 < i < |s| && s[i] == 46 && AllDigits(s[1..i]) && AllDigits(s[i + 1..]);
    assert s == [46] + s[1..i] + [46] + s[i + 1..];
  }

  function Head(begin: seq<Byte>, bodyLength: nat): seq<Byte> {
    [56, EQUALS] + begin + [SOH] + [57, EQUALS] + Digits(bodyLength) + [SOH]
  }

  function Trailer(framed: seq<Byte>): seq<Byte> { [49, 48, EQUALS] + ThreeDigits(Checksum(framed)) + [SOH] }

  function Printed(begin: seq<Byte>, body: seq<Byte>): seq<Byte> {
    Head(begin, |body|) + body + Trailer(Head(begin, |body|) + body)
  }

  function EncodeFrame(begin: seq<Byte>, body: seq<Byte>): Result<seq<Byte>, EncodeError> {
    if !(MSG_TYPE <= body) then Err(NoMsgType)
    else if !IsBeginString(begin) then Err(BadBeginString)
    else Ok(Printed(begin, body))
  }

  function Encode(begin: seq<Byte>, fields: seq<Field>, df: DataFields): Result<seq<Byte>, EncodeError> {
    match EncodeFrom(fields, None, df)
    case Err(error) => Err(error)
    case Ok(body) => EncodeFrame(begin, body)
  }

  // ----- Reading fields -----

  datatype Defect = InvalidTagNumber | TagWithoutValue(tag: int)

  datatype Parsed = Split(fields: seq<Field>, defect: Option<Defect>) | Unsplittable

  function ParseTag(text: seq<Byte>): Option<int> {
    if !AllDigits(text) || text[0] == 48 || |text| > 9 then None else Some(ValueOf(text))
  }

  /** A data field announced by the length field just read. */
  datatype Pending = NoData | Data(tag: int, length: int)

  datatype FieldStep = Bad | Took(tag: Option<int>, value: seq<Byte>, pending: Pending, next: nat)

  /** One turn of the reading loop, from the start of `raw`. */
  function TakeField(raw: seq<Byte>, pending: Pending, df: DataFields): (r: FieldStep)
    ensures r.Took? ==> 0 < r.next <= |raw|
  {
    var equals := FindIn(raw, EQUALS, 0, |raw|);
    if equals.None? then Bad else
    var tag := ParseTag(raw[..equals.value]);
    var start := equals.value + 1;
    var end := if pending.Data? && tag == Some(pending.tag) then
                 (if pending.length >= 0 && start + pending.length < |raw| && raw[start + pending.length] == SOH
                  then Some(start + pending.length) else None)
               else FindIn(raw, SOH, start, |raw|);
    if end.None? then Bad else
    var value := raw[start..end.value];
    if tag.None? then Took(None, value, NoData, end.value + 1)
    else if tag.value in df then
      if !AllDigits(value) then Bad
      else Took(tag, value, Data(df[tag.value], ValueOf(value[..Min(|value|, 12)])), end.value + 1)
    else Took(tag, value, NoData, end.value + 1)
  }

  function DefectOf(tag: Option<int>, value: seq<Byte>): Option<Defect> {
    if tag.None? then Some(InvalidTagNumber)
    else if value == [] then Some(TagWithoutValue(tag.value))
    else None
  }

  /** The fields found so far and their first defect, then those of the rest. */
  function Joined(fields: seq<Field>, defect: Option<Defect>, rest: Parsed): Parsed {
    if rest.Unsplittable? then rest
    else Split(fields + rest.fields, if defect.Some? then defect else rest.defect)
  }

  function FieldOf(tag: Option<int>, value: seq<Byte>): seq<Field> {
    if tag.Some? then [Field(tag.value, value)] else []
  }

  function ParseFrom(raw: seq<Byte>, pending: Pending, df: DataFields): Parsed
    decreases |raw|
  {
    if raw == [] then Split([], None) else
    match TakeField(raw, pending, df)
    case Bad => Unsplittable
    case Took(tag, value, next, n) => Joined(FieldOf(tag, value), DefectOf(tag, value), ParseFrom(raw[n..], next, df))
  }

  /** The reading loop, with its position and what it expects next. */
  method ParseFields(raw: seq<Byte>, df: DataFields) returns (r: Parsed)
    ensures r == ParseFrom(raw, NoData, df)
  {
    hide ParseFrom, TakeField, Joined;
    var fields: seq<Field> := [];
    var defect: Option<Defect> := None;
    var position := 0;
    var pending := NoData;
    ReadingStarts(raw, df);
    while position < |raw|
      invariant 0 <= position <= |raw|
      invariant ParseFrom(raw, NoData, df) == Joined(fields, defect, ParseFrom(raw[position..], pending, df))
    {
      var step := TakeField(raw[position..], pending, df);
      ReadingStep(fields, defect, raw, position, pending, df);
      if step.Bad? { return Unsplittable; }
      if defect.None? { defect := DefectOf(step.tag, step.value); }
      fields := fields + FieldOf(step.tag, step.value);
      position, pending := position + step.next, step.pending;
    }
    ReadingEnds(fields, defect, raw, pending, df);
    r := Split(fields, defect);
  }

  lemma ReadingStarts(raw: seq<Byte>, df: DataFields)
    ensures ParseFrom(raw, NoData, df) == Joined([], None, ParseFrom(raw[0..], NoData, df))
  {
    hide ParseFrom;
    assert raw[0..] == raw;
    var rest := ParseFrom(raw, NoData, df);
    if rest.Split? { assert [] + rest.fields == rest.fields; }
  }

  lemma ReadingStep(fields: seq<Field>, defect: Option<Defect>, raw: seq<Byte>, position: nat, pending: Pending,
                    df: DataFields)
    requires position < |raw|
    ensures var step := TakeField(raw[position..], pending, df);
            && (step.Bad? ==> Joined(fields, defect, ParseFrom(raw[position..], pending, df)) == Unsplittable)
            && (step.Took? ==>
                  position + step.next <= |raw|
                  && Joined(fields, defect, ParseFrom(raw[position..], pending, df))
                     == Joined(fields + FieldOf(step.tag, step.value),
                               if defect.None? then DefectOf(step.tag, step.value) else defect,
                               ParseFrom(raw[position + step.next..], step.pending, df)))
  {
    hide TakeField, DefectOf, FieldOf;
    var step := TakeField(raw[position..], pending, df);
    if step.Took? {
      assert raw[position..][step.next..] == raw[position + step.next..];
      var rest := ParseFrom(raw[position + step.next..], step.pending, df);
      if rest.Split? {
        var one := FieldOf(step.tag, step.value);
        assert fields + (one + rest.fields) == (fields + one) + rest.fields;
      }
    }
  }

  lemma ReadingEnds(fields: seq<Field>, defect: Option<Defect>, raw: seq<Byte>, pending: Pending, df: DataFields)
    ensures Joined(fields, defect, ParseFrom(raw[|raw|..], pending, df)) == Split(fields, defect)
  {
    assert raw[|raw|..] == [] && fields + [] == fields;
  }

  // ----- Reading frames -----

  datatype Scan = NeedMore | Garbled | Frame(begin: seq<Byte>, bodyStart: nat, end: nat)

  const MAX_BEGIN_STRING_FIELD := 32
  const TRAILER_LENGTH := 7

  function Take(s: seq<Byte>, lo: nat, n: nat): seq<Byte>
    requires lo <= |s|
  {
    if lo + n <= |s| then s[lo..lo + n] else s[lo..]
  }

  /** Each stage of the scan asks for more, finds the frame garbled, or passes on what it found. */
  datatype Stage = More | Broken | BeginAt(soh: nat) | BodyAt(start: nat, length: nat) | Whole(end: nat)

  function ScanBegin(s: seq<Byte>): (r: Stage)
    ensures r.More? || r.Broken? || (r.BeginAt? && 2 <= r.soh < MAX_BEGIN_STRING_FIELD && r.soh < |s|)
  {
    if !(Take(s, 0, 2) <= [56, EQUALS]) then Broken
    else if |s| < 2 then More
    else match FindIn(s, SOH, 2, MAX_BEGIN_STRING_FIELD)
      case None => if |s| >= MAX_BEGIN_STRING_FIELD then Broken else More
      case Some(soh) => if IsBeginString(s[2..soh]) then BeginAt(soh) else Broken
  }

  function ScanLength(s: seq<Byte>, at: nat, max: nat): (r: Stage)
    requires at <= |s|
    ensures r.More? || r.Broken?
         || (r.BodyAt? && at + 2 < r.start <= |s| && r.start <= at + 4 + |Digits(max)| && r.length <= max)
  {
    var prefix := Take(s, at, 2);
    if !(prefix <= [57, EQUALS]) then Broken
    else if |prefix| < 2 then More
    else
      var start, limit := at + 2, |Digits(max)| + 1;
      match FindIn(s, SOH, start, start + limit)
      case None =>
        if |s| - start >= limit then Broken
        else if |s| > start && !AllDigits(s[start..]) then Broken
        else More
      case Some(end) =>
        if !AllDigits(s[start..end]) then Broken
        else
          var length := ValueOf(s[start..end]);
          ValueIsNatural(s[start..end]);
          if length > max then Broken else BodyAt(end + 1, length)
  }

  function ScanBody(s: seq<Byte>, start: nat, length: nat): (r: Stage)
    requires 0 < start <= |s|
    ensures r.More? || r.Broken? || (r.Whole? && r.end == start + length + TRAILER_LENGTH && r.end <= |s|)
  {
    var bodyEnd := start + length;
    var end := bodyEnd + TRAILER_LENGTH;
    if !(Take(s, start, 3) <= MSG_TYPE) then Broken
    else if |s| < end then More
    else if s[bodyEnd - 1] != SOH then Broken
    else if s[bodyEnd..bodyEnd + 3] != [49, 48, EQUALS] || s[end - 1] != SOH then Broken
    else
      var declared := s[bodyEnd + 3..bodyEnd + 6];
      if !AllDigits(declared) || ValueOf(declared) != Checksum(s[..bodyEnd]) then Broken
      else Whole(end)
  }

  /** The frame at the start of `s`: validated, refused as soon as it can be, or incomplete. */
  function ScanFrame(s: seq<Byte>, max: nat): (r: Scan)
    ensures r.Frame? ==> 0 < r.bodyStart && r.bodyStart + TRAILER_LENGTH <= r.end <= |s|
  {
    match ScanBegin(s)
    case More => NeedMore
    case BeginAt(soh) =>
      (match ScanLength(s, soh + 1, max)
       case More => NeedMore
       case BodyAt(start, length) =>
         (match ScanBody(s, start, length)
          case More => NeedMore
          case Whole(end) => Frame(s[2..soh], start, end)
          case _ => Garbled)
       case _ => Garbled)
    case _ => Garbled
  }

  datatype Message = Message(begin: seq<Byte>, fields: seq<Field>, defect: Option<Defect>)

  datatype DecodeError = GarbledMessage | FieldDefect(defect: Defect)

  /** Exactly one frame, strictly. */
  function Decode(frame: seq<Byte>, max: nat, df: DataFields): Result<Message, DecodeError> {
    match ScanFrame(frame, max)
    case NeedMore => Err(GarbledMessage)
    case Garbled => Err(GarbledMessage)
    case Frame(begin, start, end) =>
      if end != |frame| then Err(GarbledMessage) else
      match ParseFrom(frame[start..end - TRAILER_LENGTH], NoData, df)
      case Unsplittable => Err(GarbledMessage)
      case Split(fields, defect) =>
        if defect.Some? then Err(FieldDefect(defect.value)) else Ok(Message(begin, fields, None))
  }

  // ----- Fields round trip -----

  /** What the reader remembers after a field. */
  function PendingAfter(previous: Option<Field>, df: DataFields): Pending {
    if previous.Some? && previous.value.tag in df
    then Data(df[previous.value.tag], ValueOf(previous.value.value[..Min(|previous.value.value|, 12)])) else NoData
  }

  /** What the reader can tell apart: tags of at most nine digits, numeric length fields, and data whose
      length has at most twelve digits. */
  predicate Readable(f: Field, df: DataFields) {
    && f.tag < Pow10(9) && (f.tag in df ==> AllDigits(f.value)) && (f.tag in df.Values ==> |f.value| < Pow10(12))
  }

  predicate AllReadable(fields: seq<Field>, df: DataFields) {
    forall i :: 0 <= i < |fields| ==> Readable(fields[i], df)
  }

  lemma ReadableRest(fields: seq<Field>, df: DataFields)
    requires fields != [] && Readable(fields[0], df)
    ensures AllReadable(fields, df) <==> AllReadable(fields[1..], df)
  {
    hide Readable;
    if AllReadable(fields[1..], df) {
      forall i | 0 <= i < |fields| ensures Readable(fields[i], df) {
        if i > 0 { assert fields[i] == fields[1..][i - 1]; }
      }
    }
  }

  lemma PrintedShape(f: Field, rest: seq<Byte>)
    requires f.tag > 0
    ensures var raw, n := PrintField(f) + rest, |Digits(f.tag)|;
            && |PrintField(f)| == n + 1 + |f.value| + 1
            && raw[..n] == Digits(f.tag) && raw[n] == EQUALS && raw[n + 1..n + 1 + |f.value|] == f.value
            && raw[n + 1 + |f.value|] == SOH && raw[|PrintField(f)|..] == rest
            && FindIn(raw, EQUALS, 0, |raw|) == Some(n)
  {
    var raw, n := PrintField(f) + rest, |Digits(f.tag)|;
    hide Digits;
    assert raw[..n] == Digits(f.tag);
    forall j | 0 <= j < n ensures raw[j] != EQUALS { assert raw[j] == Digits(f.tag)[j]; }
    FindLands(raw, EQUALS, 0, |raw|, n);
  }

  lemma ParsePrintedTag(tag: int)
    requires tag > 0
    ensures ParseTag(Digits(tag)) == if tag < Pow10(9) then Some(tag) else None
  {
    NoLeadingZero(tag);
    DigitCount(tag, 9);
    DigitsRoundTrip(tag);
    hide Digits, Pow10;
  }

  /** A printed value ends where its delimiter is: found by search, or by the length announced. */
  lemma PrintedEnd(f: Field, previous: Option<Field>, rest: seq<Byte>, df: DataFields)
    requires FieldError(f, previous, df).None? && Readable(f, df)
    ensures var raw, start := PrintField(f) + rest, |Digits(f.tag)| + 1;
            && (f.tag in df.Values ==> PendingAfter(previous, df) == Data(f.tag, |f.value|))
            && (f.tag !in df.Values ==>
                  FindIn(raw, SOH, start, |raw|) == Some(start + |f.value|)
                  && !(PendingAfter(previous, df).Data? && PendingAfter(previous, df).tag == f.tag))
  {
    var raw, start := PrintField(f) + rest, |Digits(f.tag)| + 1;
    PrintedShape(f, rest);
    if f.tag in df.Values {
      DigitCount(|f.value|, 12);
      DigitsRoundTrip(|f.value|);
      hide Digits, Pow10;
      assert Digits(|f.value|)[..|Digits(|f.value|)|] == Digits(|f.value|);
    } else {
      hide Digits, Pow10;
      forall j | start <= j < start + |f.value| ensures raw[j] != SOH {
        assert raw[j] == raw[start..start + |f.value|][j - start];
      }
      FindLands(raw, SOH, start, |raw|, start + |f.value|);
    }
  }

  lemma TakePrinted(f: Field, previous: Option<Field>, rest: seq<Byte>, df: DataFields)
    requires FieldError(f, previous, df).None? && Readable(f, df)
    ensures TakeField(PrintField(f) + rest, PendingAfter(previous, df), df)
         == Took(Some(f.tag), f.value, PendingAfter(Some(f), df), |PrintField(f)|)
  {
    hide Digits, Pow10, PrintField, FindIn, ParseTag;
    PrintedShape(f, rest);
    ParsePrintedTag(f.tag);
    PrintedEnd(f, previous, rest, df);
  }

  /** A field the reader cannot tell apart is not read back as it was printed. */
  lemma TakeUnreadable(f: Field, previous: Option<Field>, rest: seq<Byte>, df: DataFields)
    requires FieldError(f, previous, df).None? && !Readable(f, df)
    ensures var step := TakeField(PrintField(f) + rest, PendingAfter(previous, df), df);
            step.Bad? || step.tag.None? || step.value != f.value
  {
    PrintedShape(f, rest);
    ParsePrintedTag(f.tag);
    var n := |Digits(f.tag)|;
    if f.tag < Pow10(9) {
      if f.tag in df.Values && |f.value| >= Pow10(12) {
        DigitCount(|f.value|, 12);
        assert Pow10(12) > 0;
        FewerDigitsIsLess(|f.value|, 12);
      }
      hide Digits, Pow10, PrintField;
    } else {
      hide Digits, Pow10, PrintField;
    }
  }

  /** Printing and reading fields are inverse exactly on the readable ones: the fields come back, data
      values with delimiters included, if and only if every field is readable. */
  lemma {:induction false} FieldsRoundTripIff(fields: seq<Field>, previous: Option<Field>, df: DataFields)
    requires EncodeFrom(fields, previous, df).Ok?
    ensures ParseFrom(EncodeFrom(fields, previous, df).value, PendingAfter(previous, df), df) == Split(fields, None)
       <==> AllReadable(fields, df)
    decreases |fields|
  {
    if fields != [] {
      var f, rest := fields[0], EncodeFrom(fields[1..], Some(fields[0]), df).value;
      var raw := PrintField(f) + rest;
      PrintedShape(f, rest);
      FieldsRoundTripIff(fields[1..], Some(f), df);
      assert fields == [f] + fields[1..];
      hide PrintField, TakeField, Readable, PendingAfter, FieldError;
      if Readable(f, df) {
        TakePrinted(f, previous, rest, df);
        RestDecides(f, fields[1..], ParseFrom(rest, PendingAfter(Some(f), df), df));
        ReadableRest(fields, df);
      } else {
        TakeUnreadable(f, previous, rest, df);
        assert !Readable(fields[0], df);
      }
    }
  }

  lemma RestDecides(f: Field, others: seq<Field>, rest: Parsed)
    ensures Joined([f], None, rest) == Split([f] + others, None) <==> rest == Split(others, None)
  {
    if rest.Split? && [f] + rest.fields == [f] + others {
      assert rest.fields == ([f] + rest.fields)[1..] && others == ([f] + others)[1..];
    }
  }

  // ----- Frames: every verdict but "need more" is final -----

  lemma TakeIsStable(s: seq<Byte>, more: seq<Byte>, lo: nat, n: nat, tag: seq<Byte>)
    requires lo <= |s| && |tag| == n
    ensures !(Take(s, lo, n) <= tag) ==> !(Take(s + more, lo, n) <= tag)
    ensures |Take(s, lo, n)| == n ==> Take(s + more, lo, n) == Take(s, lo, n)
  {
    var a, b := Take(s, lo, n), Take(s + more, lo, n);
    assert |a| <= |b| && forall i :: 0 <= i < |a| ==> b[i] == a[i];
  }

  lemma BeginIsStable(s: seq<Byte>, more: seq<Byte>)
    ensures !ScanBegin(s).More? ==> ScanBegin(s + more) == ScanBegin(s)
  {
    TakeIsStable(s, more, 0, 2, [56, EQUALS]);
    FindIsStable(s, more, SOH, 2, MAX_BEGIN_STRING_FIELD);
    var soh := FindIn(s, SOH, 2, MAX_BEGIN_STRING_FIELD);
    assert soh.Some? ==> (s + more)[2..soh.value] == s[2..soh.value];
    hide IsBeginString, FindIn, Take;
  }

  /** A byte that is no digit stays before any delimiter found later. */
  lemma NonDigitStays(s: seq<Byte>, more: seq<Byte>, start: nat, hi: nat)
    requires start < |s| && !AllDigits(s[start..]) && FindIn(s, SOH, start, hi).None? && |s| < hi
    ensures !AllDigits((s + more)[start..])
    ensures var later := FindIn(s + more, SOH, start, hi); later.Some? ==> !AllDigits((s + more)[start..later.value])
  {
    var t := s + more;
    var i :| 0 <= i < |s[start..]| && !IsDigit(s[start..][i]);
    assert t[start..][i] == s[start..][i];
    var later := FindIn(t, SOH, start, hi);
    hide FindIn;
    if later.Some? {
      assert later.value >= |s|;
      assert t[start..later.value][i] == s[start..][i];
    }
  }

  lemma LengthIsStable(s: seq<Byte>, more: seq<Byte>, at: nat, max: nat)
    requires at <= |s|
    ensures !ScanLength(s, at, max).More? ==> ScanLength(s + more, at, max) == ScanLength(s, at, max)
  {
    hide FindIn, Take, Digits, ValueOf, AllDigits;
    var t, start, limit := s + more, at + 2, |Digits(max)| + 1;
    TakeIsStable(s, more, at, 2, [57, EQUALS]);
    FindIsStable(s, more, SOH, start, start + limit);
    var end := FindIn(s, SOH, start, start + limit);
    if end.Some? {
      assert t[start..end.value] == s[start..end.value];
    } else if start < |s| < start + limit && !AllDigits(s[start..]) {
      NonDigitStays(s, more, start, start + limit);
    }
  }

  lemma BodyIsStable(s: seq<Byte>, more: seq<Byte>, start: nat, length: nat)
    requires 0 < start <= |s|
    ensures !ScanBody(s, start, length).More? ==> ScanBody(s + more, start, length) == ScanBody(s, start, length)
  {
    TakeIsStable(s, more, start, 3, MSG_TYPE);
    var t, bodyEnd := s + more, start + length;
    if bodyEnd + TRAILER_LENGTH <= |s| {
      assert t[bodyEnd..bodyEnd + 3] == s[bodyEnd..bodyEnd + 3];
      assert t[bodyEnd + 3..bodyEnd + 6] == s[bodyEnd + 3..bodyEnd + 6];
      assert t[..bodyEnd] == s[..bodyEnd];
    }
    hide Take, Checksum, ValueOf, AllDigits;
  }

  /** Once a frame is complete or garbled it stays so however many bytes follow. */
  lemma ScanIsStable(s: seq<Byte>, more: seq<Byte>, max: nat)
    requires !ScanFrame(s, max).NeedMore?
    ensures ScanFrame(s + more, max) == ScanFrame(s, max)
  {
    hide ScanBegin, ScanLength, ScanBody;
    BeginIsStable(s, more);
    if ScanBegin(s).BeginAt? {
      var soh := ScanBegin(s).soh;
      assert (s + more)[2..soh] == s[2..soh];
      LengthIsStable(s, more, soh + 1, max);
      if ScanLength(s, soh + 1, max).BodyAt? {
        BodyIsStable(s, more, ScanLength(s, soh + 1, max).start, ScanLength(s, soh + 1, max).length);
      }
    }
  }

  /** The most a parser may hold of one unfinished frame. */
  function MaxBuffered(max: nat): nat { MAX_BEGIN_STRING_FIELD + 3 + |Digits(max)| + 2 + max + TRAILER_LENGTH }

  /** A hostile length cannot make the caller wait on more than the limit. */
  lemma WaitIsBounded(s: seq<Byte>, max: nat)
    requires ScanFrame(s, max).NeedMore?
    ensures |s| <= MaxBuffered(max)
  {
    hide FindIn, Digits, ValueOf, IsBeginString, Checksum, AllDigits;
  }

  // ----- Frames round trip -----

  lemma PrintedBegin(begin: seq<Byte>, rest: seq<Byte>)
    requires IsBeginString(begin)
    ensures ScanBegin([56, EQUALS] + begin + [SOH] + rest)
         == (if |begin| <= 29 then BeginAt(2 + |begin|) else Broken)
  {
    var s := [56, EQUALS] + begin + [SOH] + rest;
    BeginStringHasNoDelimiter(begin);
    hide IsBeginString;
    assert Take(s, 0, 2) == [56, EQUALS];
    assert s[2..2 + |begin|] == begin;
    forall j | 2 <= j < 2 + |begin| ensures s[j] != SOH { assert s[j] == begin[j - 2]; }
    if |begin| <= 29 {
      FindLands(s, SOH, 2, MAX_BEGIN_STRING_FIELD, 2 + |begin|);
    } else {
      hide FindIn;
      assert FindIn(s, SOH, 2, MAX_BEGIN_STRING_FIELD).None?;
    }
  }

  /** Where the search for the delimiter after printed digits lands, in a window of `limit` bytes. */
  lemma PrintedDigitsEnd(before: seq<Byte>, n: nat, rest: seq<Byte>, limit: nat)
    ensures var s, start, d := before + Digits(n) + [SOH] + rest, |before|, |Digits(n)|;
            && s[start..start + d] == Digits(n)
            && FindIn(s, SOH, start, start + limit) == (if d < limit then Some(start + d) else None)
  {
    var s, start, d := before + Digits(n) + [SOH] + rest, |before|, |Digits(n)|;
    hide Digits, FindIn;
    assert s[start..start + d] == Digits(n);
    forall j | start <= j < start + d ensures s[j] != SOH { assert s[j] == Digits(n)[j - start]; }
    if d < limit { FindLands(s, SOH, start, start + limit, start + d); }
  }

  lemma PrintedLength(before: seq<Byte>, n: nat, rest: seq<Byte>, max: nat)
    ensures var s, at := before + [57, EQUALS] + Digits(n) + [SOH] + rest, |before|;
            ScanLength(s, at, max) == (if n <= max then BodyAt(at + 2 + |Digits(n)| + 1, n) else Broken)
  {
    hide Digits, ValueOf, FindIn;
    var s, at := before + [57, EQUALS] + Digits(n) + [SOH] + rest, |before|;
    DigitsRoundTrip(n);
    if n <= max { LongerIsLarger(n, max); }
    PrintedDigitsEnd(before + [57, EQUALS], n, rest, |Digits(max)| + 1);
    assert Take(s, at, 2) == [57, EQUALS];
    hide Take;
  }

  lemma PrintedBody(head: seq<Byte>, body: seq<Byte>)
    requires head != [] && MSG_TYPE <= body && body[|body| - 1] == SOH
    ensures var s := head + body + Trailer(head + body); ScanBody(s, |head|, |body|) == Whole(|s|)
  {
    var framed := head + body;
    var s, bodyEnd := framed + Trailer(framed), |framed|;
    var sum := ThreeDigits(Checksum(framed));
    ThreeDigitsRoundTrip(Checksum(framed));
    hide ThreeDigits, Checksum, ValueOf;
    assert s[|head|..|head| + 3] == body[..3] == MSG_TYPE;
    assert s[bodyEnd - 1] == body[|body| - 1];
    assert s[bodyEnd..bodyEnd + 3] == [49, 48, EQUALS];
    assert s[bodyEnd + 3..bodyEnd + 6] == sum;
    assert s[..bodyEnd] == framed;
  }

  lemma {:induction false} EncodedEndsInDelimiter(fields: seq<Field>, previous: Option<Field>, df: DataFields)
    requires EncodeFrom(fields, previous, df).Ok?
    ensures var body := EncodeFrom(fields, previous, df).value; body == [] || body[|body| - 1] == SOH
  {
    if |fields| > 1 { EncodedEndsInDelimiter(fields[1..], Some(fields[0]), df); }
  }

  lemma BeginOfPrinted(begin: seq<Byte>, body: seq<Byte>)
    requires IsBeginString(begin)
    ensures ScanBegin(Printed(begin, body)) == (if |begin| <= 29 then BeginAt(2 + |begin|) else Broken)
    ensures |Printed(begin, body)| > 2 + |begin| && Printed(begin, body)[2..2 + |begin|] == begin
  {
    hide Digits, Trailer, ScanBegin, IsBeginString;
    var head := Head(begin, |body|);
    var rest := [57, EQUALS] + Digits(|body|) + [SOH] + (body + Trailer(head + body));
    assert Printed(begin, body) == [56, EQUALS] + begin + [SOH] + rest;
    PrintedBegin(begin, rest);
  }

  lemma LengthOfPrinted(begin: seq<Byte>, body: seq<Byte>, max: nat)
    ensures |Printed(begin, body)| > 3 + |begin|
    ensures ScanLength(Printed(begin, body), 3 + |begin|, max)
         == (if |body| <= max then BodyAt(|Head(begin, |body|)|, |body|) else Broken)
  {
    hide Digits, Trailer, ScanLength;
    var head, before := Head(begin, |body|), [56, EQUALS] + begin + [SOH];
    var rest := body + Trailer(head + body);
    assert Printed(begin, body) == before + [57, EQUALS] + Digits(|body|) + [SOH] + rest;
    PrintedLength(before, |body|, rest, max);
  }

  lemma BodyOfPrinted(begin: seq<Byte>, body: seq<Byte>)
    requires MSG_TYPE <= body && body[|body| - 1] == SOH
    ensures 0 < |Head(begin, |body|)| <= |Printed(begin, body)|
    ensures ScanBody(Printed(begin, body), |Head(begin, |body|)|, |body|) == Whole(|Printed(begin, body)|)
    ensures |Printed(begin, body)| == |Head(begin, |body|)| + |body| + TRAILER_LENGTH
    ensures Printed(begin, body)[|Head(begin, |body|)|..|Printed(begin, body)| - TRAILER_LENGTH] == body
  {
    PrintedBody(Head(begin, |body|), body);
    hide ScanBody, ThreeDigits, Digits, Checksum;
  }

  /** A printed frame scans as itself when its BeginString and body are within what the scan allows, and
      is refused otherwise. */
  lemma PrintedFrameScans(begin: seq<Byte>, body: seq<Byte>, max: nat)
    requires EncodeFrame(begin, body).Ok? && (body == [] || body[|body| - 1] == SOH)
    ensures ScanFrame(Printed(begin, body), max)
         == (if |begin| <= 29 && |body| <= max
             then Frame(begin, |Head(begin, |body|)|, |Printed(begin, body)|) else Garbled)
  {
    hide IsBeginString, ScanBegin, ScanLength, ScanBody, Head, Printed;
    BeginOfPrinted(begin, body);
    LengthOfPrinted(begin, body, max);
    BodyOfPrinted(begin, body);
  }

  /** Decoding a printed frame is reading its body back, within the limits of the scan. */
  lemma DecodePrinted(begin: seq<Byte>, body: seq<Byte>, max: nat, df: DataFields)
    requires EncodeFrame(begin, body).Ok? && (body == [] || body[|body| - 1] == SOH)
    ensures Decode(Printed(begin, body), max, df) ==
      (if |begin| > 29 || |body| > max || ParseFrom(body, NoData, df).Unsplittable? then Err(GarbledMessage)
       else if ParseFrom(body, NoData, df).defect.Some? then Err(FieldDefect(ParseFrom(body, NoData, df).defect.value))
       else Ok(Message(begin, ParseFrom(body, NoData, df).fields, None)))
  {
    hide IsBeginString, ParseFrom, ScanFrame, Head, Printed;
    PrintedFrameScans(begin, body, max);
    BodyOfPrinted(begin, body);
  }

  /** What a message must keep to for its frame to be read back. */
  predicate WithinLimits(begin: seq<Byte>, fields: seq<Field>, body: seq<Byte>, max: nat, df: DataFields) {
    |begin| <= 29 && |body| <= max && AllReadable(fields, df)
  }

  /** Round trip, exactly: of the messages the encoder accepts, decoding gives back the BeginString and
      the fields of those within the reader's limits, and of no others. */
  lemma RoundTripIff(begin: seq<Byte>, fields: seq<Field>, max: nat, df: DataFields)
    requires Encode(begin, fields, df).Ok?
    ensures Decode(Encode(begin, fields, df).value, max, df) == Ok(Message(begin, fields, None))
       <==> WithinLimits(begin, fields, EncodeFrom(fields, None, df).value, max, df)
  {
    hide EncodeFrom, ParseFrom, ScanFrame, AllReadable, IsBeginString, Printed, Decode;
    EncodedEndsInDelimiter(fields, None, df);
    DecodePrinted(begin, EncodeFrom(fields, None, df).value, max, df);
    FieldsRoundTripIff(fields, None, df);
  }

  // ----- The limits are needed -----

  /** The length fields the code knows, and the data field each announces. */
  const DATA_FIELDS: DataFields := map[
    93 := 89, 90 := 91, 95 := 96, 212 := 213, 348 := 349, 350 := 351, 352 := 353, 354 := 355, 356 := 357,
    358 := 359, 360 := 361, 362 := 363, 364 := 365, 445 := 446, 618 := 619, 621 := 622, 1401 := 1402,
    1403 := 1404, 1664 := 1665]

  lemma TableFacts()
    ensures 95 in DATA_FIELDS
    ensures forall tag :: tag in {35, 95, 1_000_000_000} ==> tag !in DATA_FIELDS.Values
  {
  }

  const MSG_TYPE_A: Field := Field(35, [65])

  /** FIX.4.4 */
  const FIX_44: seq<Byte> := FIX + [46, 52, 46, 52]

  /** A version long enough to be accepted by the encoder and refused by the decoder. */
  const LONG_VERSION: seq<Byte> := FIX + [46] + seq(25, _ => 49) + [46, 50]

  lemma VersionsAreAccepted()
    ensures IsBeginString(FIX_44) && IsBeginString(LONG_VERSION) && |LONG_VERSION| > 29
  {
    var short, long := FIX_44[3..], LONG_VERSION[3..];
    assert short[1..2] == [52] && short[3..] == [52] && short[2] == 46;
    assert long[1..26] == seq(25, _ => 49) && long[27..] == [50] && long[26] == 46;
    assert IsVersion(short) && IsVersion(long);
    assert FIX_44[..3] == FIX && FIX_44[3] == 46 && LONG_VERSION[..3] == FIX && LONG_VERSION[3] == 46;
  }

  /** A message of type A and one more field is encoded if that field is accepted by itself. */
  lemma TwoFieldsAreEncoded(begin: seq<Byte>, f: Field, df: DataFields)
    requires IsBeginString(begin) && 35 !in df.Values && FieldError(f, Some(MSG_TYPE_A), df).None?
    ensures Encode(begin, [MSG_TYPE_A, f], df).Ok?
  {
    hide PrintField, IsBeginString;
    var fields := [MSG_TYPE_A, f];
    MsgTypeIsPrinted();
    assert fields[1..] == [f] && [f][1..] == [];
    assert EncodeFrom([], Some(f), df) == Ok([]);
    assert EncodeFrom([f], Some(MSG_TYPE_A), df) == Ok(PrintField(f) + []);
    var body := EncodeFrom(fields, None, df).value;
    assert body == PrintField(MSG_TYPE_A) + (PrintField(f) + []);
    assert body[..3] == PrintField(MSG_TYPE_A)[..3];
  }

  lemma MsgTypeIsPrinted()
    ensures PrintField(MSG_TYPE_A) == MSG_TYPE + [65, SOH] && PrintField(MSG_TYPE_A)[..3] == MSG_TYPE
  {
    assert Digits(35) == Digits(3) + [53] == [51, 53];
  }

  /** A BeginString the encoder accepts is garbled to the decoder, whose window for the field is 32 bytes,
      whatever follows it. */
  lemma LongVersionIsNotReadBack(fields: seq<Field>, max: nat, df: DataFields)
    requires EncodeFrom(fields, None, df).Ok? && MSG_TYPE <= EncodeFrom(fields, None, df).value
    ensures var frame := Encode(LONG_VERSION, fields, df);
            frame.Ok? && Decode(frame.value, max, df) == Err(GarbledMessage)
  {
    VersionsAreAccepted();
    hide EncodeFrom, IsBeginString, Decode, Printed;
    EncodedEndsInDelimiter(fields, None, df);
    DecodePrinted(LONG_VERSION, EncodeFrom(fields, None, df).value, max, df);
  }

  lemma UnreadableIsNotReadBack(f: Field, max: nat, df: DataFields)
    requires 35 !in df.Values && FieldError(f, Some(MSG_TYPE_A), df).None? && !Readable(f, df)
    ensures var frame := Encode(FIX_44, [MSG_TYPE_A, f], df);
            frame.Ok? && Decode(frame.value, max, df) != Ok(Message(FIX_44, [MSG_TYPE_A, f], None))
  {
    VersionsAreAccepted();
    hide IsBeginString, Decode, EncodeFrom, Encode, Readable, FieldError;
    TwoFieldsAreEncoded(FIX_44, f, df);
    RoundTripIff(FIX_44, [MSG_TYPE_A, f], max, df);
    assert [MSG_TYPE_A, f][1] == f;
  }

  /** A tag of ten digits is printed, and no limit on the body lets it be read back. */
  lemma TenDigitTagIsNotReadBack(max: nat)
    ensures var fields := [MSG_TYPE_A, Field(1_000_000_000, [49])];
            var frame := Encode(FIX_44, fields, DATA_FIELDS);
            frame.Ok? && Decode(frame.value, max, DATA_FIELDS) != Ok(Message(FIX_44, fields, None))
  {
    TableFacts();
    hide Encode, Decode, DATA_FIELDS;
    assert Pow10(9) == 1_000_000_000;
    UnreadableIsNotReadBack(Field(1_000_000_000, [49]), max, DATA_FIELDS);
  }

  /** A length field that is not a number is printed, and not read back. */
  lemma WordyLengthIsNotReadBack(max: nat)
    ensures var fields := [MSG_TYPE_A, Field(95, [65])];
            var frame := Encode(FIX_44, fields, DATA_FIELDS);
            frame.Ok? && Decode(frame.value, max, DATA_FIELDS) != Ok(Message(FIX_44, fields, None))
  {
    TableFacts();
    hide Encode, Decode, DATA_FIELDS, Pow10;
    var f := Field(95, [65]);
    assert f.value[0] == 65 && !AllDigits(f.value) && SOH !in f.value;
    UnreadableIsNotReadBack(f, max, DATA_FIELDS);
  }
}
