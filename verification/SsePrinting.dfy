/** The two printers of server-sent events, and exactly when the decoder inverts them. */
module SsePrinting {
  import opened CodeUnits
  import opened Options
  import opened UniversalNewlines
  import opened SseDecoding

  const EVENT_PREFIX: Text := EVENT + [COLON, SPACE]
  const DATA_PREFIX: Text := DATA + [COLON, SPACE]

  /** `split('\n')`: at least one piece. */
  function LfPieces(s: Text): (p: seq<Text>)
    ensures |p| >= 1
    decreases |s|
  {
    var n := LfAt(s, 0);
    if n == |s| then [s] else [s[..n]] + LfPieces(s[n + 1..])
  }

  function LfAt(s: Text, i: nat): (n: nat)
    requires i <= |s|
    ensures i <= n <= |s|
    ensures n < |s| ==> s[n] == LF
    ensures forall k :: i <= k < n ==> s[k] != LF
    decreases |s| - i
  {
    if i == |s| || s[i] == LF then i else LfAt(s, i + 1)
  }

  function DataLines(pieces: seq<Text>): seq<Text> {
    if pieces == [] then [] else [DATA_PREFIX + pieces[0]] + DataLines(pieces[1..])
  }

  /** The lines of a serialized record, before the empty one that ends it. */
  function FieldLines(sse: Sse): seq<Text> {
    EventLines(sse.event) + DataLines(LfPieces(sse.data))
  }

  function Serialized(sse: Sse): Text { Written(FieldLines(sse)) + [LF] }

  method SerializeSse(sse: Sse) returns (out: Text)
    ensures out == Serialized(sse)
  {
    out := [];
    ghost var head := EventLines(sse.event);
    if sse.event.Some? {
      out := out + (EVENT_PREFIX + sse.event.value + [LF]);
      assert head[1..] == [];
    }
    assert out == Written(head);
    var pieces := LfPieces(sse.data);
    for i := 0 to |pieces|
      invariant out + Written(DataLines(pieces[i..])) == Written(head) + Written(DataLines(pieces))
    {
      assert pieces[i..][1..] == pieces[i + 1..];
      var line := DATA_PREFIX + pieces[i] + [LF];
      assert DataLines(pieces[i..])[1..] == DataLines(pieces[i + 1..]);
      assert out + (line + Written(DataLines(pieces[i + 1..]))) == out + line + Written(DataLines(pieces[i + 1..]));
      out := out + line;
    }
    WrittenAppend(head, DataLines(pieces));
    out := out + [LF];
  }

  /** What can be written without loss: an event name on one line, and data without a CR. */
  predicate Printable(sse: Sse) {
    && (sse.event.Some? ==> NoNewline(sse.event.value))
    && forall i :: 0 <= i < |sse.data| ==> sse.data[i] != CR
  }

  // ----- reading back one serialized record -----

  lemma {:induction false} JoinedPieces(s: Text)
    ensures Joined(LfPieces(s)) == s
    decreases |s|
  {
    var n := LfAt(s, 0);
    if n < |s| {
      JoinedPieces(s[n + 1..]);
      assert s == s[..n] + [LF] + s[n + 1..];
    }
  }

  lemma {:induction false} PiecesHaveNone(s: Text)
    requires forall i :: 0 <= i < |s| ==> s[i] != CR
    ensures forall p :: p in LfPieces(s) ==> NoNewline(p)
    decreases |s|
  {
    var n := LfAt(s, 0);
    if n < |s| { PiecesHaveNone(s[n + 1..]); }
  }

  lemma PrefixedLine(prefix: Text, name: Text, value: Text)
    requires prefix == name + [COLON, SPACE] && (name == EVENT || name == DATA)
    ensures var l := prefix + value;
      FieldName(l) == name && FieldValue(l) == value && StripBom(l) == l && l != []
  {
    var l := prefix + value;
    ColonIs(l, |name|);
    assert l[..|name|] == name && l[|name| + 2..] == value;
  }

  lemma ColonIs(l: Text, c: nat)
    requires c < |l| && l[c] == COLON && forall k :: 0 <= k < c ==> l[k] != COLON
    ensures ColonAt(l, 0) == c
  {
  }

  lemma TakeEvent(f: Fields, value: Text)
    ensures Take(f, EVENT_PREFIX + value)
         == (Fields(Some(value), f.data, f.raw + [EVENT_PREFIX + value]), None)
  {
    PrefixedLine(EVENT_PREFIX, EVENT, value);
  }

  lemma TakeData(f: Fields, value: Text)
    ensures Take(f, DATA_PREFIX + value)
         == (Fields(f.event, f.data + [value], f.raw + [DATA_PREFIX + value]), None)
  {
    PrefixedLine(DATA_PREFIX, DATA, value);
  }

  lemma {:induction false} FeedData(f: Fields, pieces: seq<Text>)
    ensures var fed := Feed(f, DataLines(pieces));
      fed.0 == Fields(f.event, f.data + pieces, f.raw + DataLines(pieces)) && fed.1 == []
    decreases |pieces|
  {
    hide Feed;
    if pieces == [] {
      FeedNone(f);
      assert f.data + [] == f.data && f.raw + [] == f.raw;
    } else {
      FeedDataOne(f, pieces[0]);
      var first := [DATA_PREFIX + pieces[0]];
      var next := Fields(f.event, f.data + [pieces[0]], f.raw + first);
      FeedData(next, pieces[1..]);
      FeedAppend(f, first, DataLines(pieces[1..]));
      assert next.data + pieces[1..] == f.data + pieces;
      assert next.raw + DataLines(pieces[1..]) == f.raw + DataLines(pieces);
    }
  }

  lemma FeedDataOne(f: Fields, piece: Text)
    ensures var fed := Feed(f, [DATA_PREFIX + piece]);
      fed.0 == Fields(f.event, f.data + [piece], f.raw + [DATA_PREFIX + piece]) && fed.1 == []
  {
    TakeData(f, piece);
    FeedOne(f, DATA_PREFIX + piece);
  }

  function EventLines(event: Option<Text>): seq<Text> {
    if event.Some? then [EVENT_PREFIX + event.value] else []
  }

  lemma FeedEvent(event: Option<Text>)
    ensures Feed(FRESH, EventLines(event)).0 == Fields(event, [], EventLines(event))
    ensures Feed(FRESH, EventLines(event)).1 == []
  {
    if event.Some? {
      TakeEvent(FRESH, event.value);
      FeedOne(FRESH, EVENT_PREFIX + event.value);
    }
  }

  /** Feeding the lines of a serialized record, then the empty one, yields the record and starts afresh. */
  lemma FeedSerialized(sse: Sse)
    ensures var fed := Feed(FRESH, FieldLines(sse) + [[]]);
      fed.0 == FRESH && fed.1 == [Sse(sse.event, sse.data, FieldLines(sse))]
  {
    var pieces, head := LfPieces(sse.data), EventLines(sse.event);
    FeedEvent(sse.event);
    FeedData(Fields(sse.event, [], head), pieces);
    JoinedPieces(sse.data);
    hide Feed, DataLines, LfPieces, Joined;
    FeedAppend(FRESH, head, DataLines(pieces));
    assert [] + pieces == pieces;
    var g := Fields(sse.event, pieces, FieldLines(sse));
    assert Feed(FRESH, FieldLines(sse)).0 == g;
    FeedAppend(FRESH, FieldLines(sse), [[]]);
    FeedOne(g, []);
    assert [] + AsSeq(Take(g, []).1) == AsSeq(Take(g, []).1);
  }

  lemma FieldLinesHaveNone(sse: Sse)
    requires Printable(sse)
    ensures forall l :: l in FieldLines(sse) ==> NoNewline(l)
  {
    PiecesHaveNone(sse.data);
    DataLinesHaveNone(LfPieces(sse.data));
  }

  lemma {:induction false} DataLinesHaveNone(pieces: seq<Text>)
    requires forall p :: p in pieces ==> NoNewline(p)
    ensures forall l :: l in DataLines(pieces) ==> NoNewline(l)
  {
    if pieces != [] {
      assert NoNewline(pieces[0]);
      assert NoNewline(DATA_PREFIX + pieces[0]);
      assert forall p :: p in pieces[1..] ==> p in pieces;
      DataLinesHaveNone(pieces[1..]);
      assert forall l :: l in DataLines(pieces) ==> l == DATA_PREFIX + pieces[0] || l in DataLines(pieces[1..]);
    }
  }

  // ----- reading back any number of them -----

  function SerializedAll(records: seq<Sse>): Text {
    if records == [] then [] else Serialized(records[0]) + SerializedAll(records[1..])
  }

  /** The same events and data; the raw lines are the ones that were printed. */
  predicate SameContent(a: seq<Sse>, b: seq<Sse>) {
    |a| == |b| && forall i :: 0 <= i < |a| ==> a[i].event == b[i].event && a[i].data == b[i].data
  }

  lemma BlankLineLast(lines: seq<Text>)
    ensures Written(lines) + [LF] == Written(lines + [[]])
  {
    var blank: seq<Text> := [[]];
    WrittenAppend(lines, blank);
    assert blank[1..] == [];
    assert Written(blank) == [LF];
  }

  lemma RecordsThen(lines: seq<Text>, f: Fields, sse: Sse, rest: Text)
    requires forall l :: l in lines ==> NoNewline(l)
    requires Feed(FRESH, lines + [[]]).0 == FRESH && Feed(FRESH, lines + [[]]).1 == [sse]
    ensures Records(Written(lines) + [LF] + rest) == [sse] + Records(rest)
  {
    BlankLineLast(lines);
    assert forall l :: l in lines + [[]] ==> NoNewline(l);
    WrittenThen(lines + [[]], rest);
    FeedAppend(FRESH, lines + [[]], Lines(rest));
  }

  /** Decoding inverts serializing, for any sequence of printable records. */
  lemma {:induction false} DecodeSerialized(records: seq<Sse>)
    requires forall r :: r in records ==> Printable(r)
    ensures SameContent(Records(SerializedAll(records)), records)
    decreases |records|
  {
    if records != [] {
      var r := records[0];
      FieldLinesHaveNone(r);
      FeedSerialized(r);
      RecordsThen(FieldLines(r), FRESH, Sse(r.event, r.data, FieldLines(r)), SerializedAll(records[1..]));
      DecodeSerialized(records[1..]);
      var tail := Records(SerializedAll(records[1..]));
      assert Records(SerializedAll(records)) == [Sse(r.event, r.data, FieldLines(r))] + tail;
    }
  }

  // ----- what the decoder can yield at all -----

  predicate FieldsClean(f: Fields) {
    && (f.event.Some? ==> NoNewline(f.event.value))
    && forall d :: d in f.data ==> NoNewline(d)
  }

  lemma {:induction false} JoinedHasNoCr(parts: seq<Text>)
    requires forall p :: p in parts ==> NoNewline(p)
    ensures forall i :: 0 <= i < |Joined(parts)| ==> Joined(parts)[i] != CR
  {
    if parts != [] {
      assert NoNewline(parts[0]);
      if |parts| > 1 {
        assert forall p :: p in parts[1..] ==> p in parts;
        JoinedHasNoCr(parts[1..]);
        assert forall i :: 0 <= i < |Joined(parts)| && i > |parts[0]| ==>
          Joined(parts)[i] == Joined(parts[1..])[i - |parts[0]| - 1];
      }
    }
  }

  lemma TakeClean(f: Fields, line: Text)
    requires FieldsClean(f) && NoNewline(line)
    ensures FieldsClean(Take(f, line).0) && (Take(f, line).1.Some? ==> Printable(Take(f, line).1.value))
  {
    JoinedHasNoCr(f.data);
    hide Joined;
    assert NoNewline(StripBom(line)) && NoNewline(FieldValue(StripBom(line)));
  }

  lemma {:induction false} FeedClean(f: Fields, lines: seq<Text>)
    requires FieldsClean(f) && forall l :: l in lines ==> NoNewline(l)
    ensures FieldsClean(Feed(f, lines).0) && forall r :: r in Feed(f, lines).1 ==> Printable(r)
  {
    hide FieldsClean, Printable, Take, NoNewline;
    if lines != [] {
      var earlier, line := lines[..|lines| - 1], lines[|lines| - 1];
      FeedClean(f, earlier);
      TakeClean(Feed(f, earlier).0, line);
    }
  }

  /** Every decoded record can be printed again without loss. */
  lemma DecodedPrintable(text: Text)
    ensures forall r :: r in Records(text) ==> Printable(r)
  {
    LinesHaveNone(text);
    FeedClean(FRESH, Lines(text));
  }

  lemma SameContentPrintable(back: seq<Sse>, r: Sse)
    requires (forall b :: b in back ==> Printable(b)) && SameContent(back, [r])
    ensures Printable(r)
  {
    assert back[0] in back;
    assert back[0].event == [r][0].event && back[0].data == [r][0].data;
  }

  /** Decoding inverts serializing exactly on the printable records. */
  lemma SerializedIff(r: Sse)
    ensures SameContent(Records(Serialized(r)), [r]) <==> Printable(r)
  {
    DecodedPrintable(Serialized(r));
    if SameContent(Records(Serialized(r)), [r]) {
      SameContentPrintable(Records(Serialized(r)), r);
    }
    if Printable(r) {
      DecodeSerialized([r]);
      assert [r][1..] == [];
      assert SerializedAll([r]) == Serialized(r) + [] == Serialized(r);
    }
  }

  // ----- passing a decoded record through -----

  /** `raw.join('\n') + '\n\n'`, or the serialized form when there are no raw lines. */
  function PassedThrough(sse: Sse): Text {
    if sse.raw != [] then Joined(sse.raw) + [LF, LF] else Serialized(sse)
  }

  lemma {:induction false} JoinedIsWritten(lines: seq<Text>)
    requires lines != []
    ensures Joined(lines) + [LF] == Written(lines)
  {
    if |lines| == 1 {
      assert lines[1..] == [];
    } else {
      JoinedIsWritten(lines[1..]);
    }
  }

  /** What a run of raw lines says: each is a field line as it stands. */
  function Replayed(raw: seq<Text>): Fields {
    if raw == [] then FRESH else Field(Replayed(raw[..|raw| - 1]), raw[|raw| - 1])
  }

  /** The fields are what their raw lines say, and no raw line is empty or holds a newline. */
  predicate FromRaw(f: Fields) {
    && f == Replayed(f.raw)
    && forall l :: l in f.raw ==> l != [] && NoNewline(l)
  }

  /** A record as the decoder makes it. */
  ghost predicate Decoded(r: Sse) {
    exists f :: FromRaw(f) && Blank(f) == (FRESH, Some(r))
  }

  lemma {:induction false} FeedFromRaw(f: Fields, lines: seq<Text>)
    requires FromRaw(f) && forall l :: l in lines ==> NoNewline(l)
    ensures FromRaw(Feed(f, lines).0) && forall r :: r in Feed(f, lines).1 ==> Decoded(r)
  {
    hide FromRaw, Decoded, Take, NoNewline;
    if lines != [] {
      var earlier, line := lines[..|lines| - 1], lines[|lines| - 1];
      FeedFromRaw(f, earlier);
      TakeFromRaw(Feed(f, earlier).0, line);
    }
  }

  lemma TakeFromRaw(g: Fields, line: Text)
    requires FromRaw(g) && NoNewline(line)
    ensures FromRaw(Take(g, line).0) && (Take(g, line).1.Some? ==> Decoded(Take(g, line).1.value))
  {
    hide FromRaw, Decoded, Field, Blank;
    var l := StripBom(line);
    if l == [] {
      BlankFromRaw(g);
    } else {
      assert NoNewline(l);
      FieldFromRaw(g, l);
    }
  }

  lemma BlankFromRaw(g: Fields)
    requires FromRaw(g)
    ensures FromRaw(Blank(g).0) && (Blank(g).1.Some? ==> Decoded(Blank(g).1.value))
  {
    hide Joined, Field;
    if Blank(g).1.Some? { assert Blank(g) == (FRESH, Some(Blank(g).1.value)); }
  }

  lemma FieldFromRaw(g: Fields, l: Text)
    requires FromRaw(g) && l != [] && NoNewline(l)
    ensures FromRaw(Field(g, l))
  {
    hide FieldName, FieldValue, NoNewline;
    var raw := g.raw + [l];
    assert raw[..|g.raw|] == g.raw;
    assert Replayed(raw) == Field(g, l) && Field(g, l).raw == raw;
  }

  lemma AllDecoded(text: Text)
    ensures forall r :: r in Records(text) ==> Decoded(r)
  {
    LinesHaveNone(text);
    FeedFromRaw(FRESH, Lines(text));
  }

  predicate LeadsWithBom(line: Text) { line != [] && line[0] == BOM }

  lemma {:induction false} FeedRaw(raw: seq<Text>)
    requires forall i :: 0 <= i < |raw| ==> raw[i] != [] && !LeadsWithBom(raw[i])
    ensures Feed(FRESH, raw).0 == Replayed(raw) && Feed(FRESH, raw).1 == []
  {
    if raw != [] {
      FeedRaw(raw[..|raw| - 1]);
    }
  }

  function Weight(lines: seq<Text>): nat {
    if lines == [] then 0 else Weight(lines[..|lines| - 1]) + |lines[|lines| - 1]|
  }

  function StrippedWeight(lines: seq<Text>): nat {
    if lines == [] then 0 else StrippedWeight(lines[..|lines| - 1]) + |StripBom(lines[|lines| - 1])|
  }

  function RawWeight(records: seq<Sse>): nat {
    if records == [] then 0 else RawWeight(records[..|records| - 1]) + Weight(records[|records| - 1].raw)
  }

  lemma WeightNext(lines: seq<Text>, line: Text)
    ensures Weight(lines + [line]) == Weight(lines) + |line|
  {
    assert (lines + [line])[..|lines|] == lines;
  }

  lemma RawWeightNext(records: seq<Sse>, r: Sse)
    ensures RawWeight(records + [r]) == RawWeight(records) + Weight(r.raw)
  {
    assert (records + [r])[..|records|] == records;
  }

  /** What one line adds to the raw characters held or sent. */
  lemma TakeBudget(f: Fields, line: Text)
    ensures var after := Take(f, line);
      Weight(after.0.raw) + (if after.1.Some? then Weight(after.1.value.raw) else 0) <= Weight(f.raw) + |StripBom(line)|
  {
    hide FieldName, FieldValue, Joined;
    WeightNext(f.raw, StripBom(line));
  }

  /** The decoder yields no more raw characters than the lines hold once their marks are stripped. */
  lemma {:induction false} RawBudget(lines: seq<Text>)
    ensures RawWeight(Feed(FRESH, lines).1) + Weight(Feed(FRESH, lines).0.raw) <= StrippedWeight(lines)
  {
    hide Take;
    if lines != [] {
      var earlier, line := lines[..|lines| - 1], lines[|lines| - 1];
      RawBudget(earlier);
      var before := Feed(FRESH, earlier);
      TakeBudget(before.0, line);
      var sent := Take(before.0, line).1;
      if sent.Some? { RawWeightNext(before.1, sent.value); } else { assert before.1 + [] == before.1; }
    }
  }

  lemma {:induction false} BomIsLost(lines: seq<Text>, i: nat)
    requires i < |lines| && LeadsWithBom(lines[i])
    ensures StrippedWeight(lines) < Weight(lines)
  {
    if i < |lines| - 1 {
      BomIsLost(lines[..|lines| - 1], i);
    } else {
      StrippedAtMost(lines[..|lines| - 1]);
    }
  }

  lemma StrippedAtMost(lines: seq<Text>)
    ensures StrippedWeight(lines) <= Weight(lines)
  {
  }

  lemma RawWeightOne(r: Sse)
    ensures RawWeight([r]) == Weight(r.raw)
  {
    assert [r][..0] == [];
  }

  lemma PassedThroughLines(r: Sse)
    requires r.raw != [] && forall l :: l in r.raw ==> NoNewline(l)
    ensures Lines(PassedThrough(r)) == r.raw + [[]]
  {
    JoinedIsWritten(r.raw);
    BlankLineLast(r.raw);
    assert Joined(r.raw) + [LF, LF] == Joined(r.raw) + [LF] + [LF];
    var lines := r.raw + [[]];
    assert forall l :: l in lines ==> NoNewline(l);
    WrittenThen(lines, []);
    assert Written(lines) + [] == Written(lines) && lines + [] == lines;
  }

  /** One record's raw lines say it again, if none begins with a mark. */
  lemma RawSaysAgain(r: Sse)
    requires Decoded(r) && forall l :: l in r.raw ==> !LeadsWithBom(l)
    ensures Feed(FRESH, r.raw + [[]]).0 == FRESH && Feed(FRESH, r.raw + [[]]).1 == [r]
  {
    var f :| FromRaw(f) && Blank(f) == (FRESH, Some(r));
    assert forall i :: 0 <= i < |r.raw| ==> r.raw[i] in r.raw;
    FeedRaw(r.raw);
    hide Field, Feed, Joined;
    FeedAppend(FRESH, r.raw, [[]]);
    FeedOne(f, []);
  }

  /** Raw lines without marks say again what they said. */
  lemma PassedWhole(r: Sse)
    requires Decoded(r) && forall l :: l in r.raw ==> !LeadsWithBom(l)
    ensures Records(PassedThrough(r)) == [r]
  {
    RawSaysAgain(r);
    var f :| FromRaw(f) && Blank(f) == (FRESH, Some(r));
    PassedThroughLines(r);
  }

  /** A mark that leads a raw line is gone after the next reading. */
  lemma PassedShort(r: Sse, i: nat)
    requires i < |r.raw| && LeadsWithBom(r.raw[i]) && forall l :: l in r.raw ==> NoNewline(l)
    ensures Records(PassedThrough(r)) != [r]
  {
    PassedThroughLines(r);
    BomIsLost(r.raw, i);
    var lines := r.raw + [[]];
    assert lines[..|lines| - 1] == r.raw;
    RawBudget(lines);
    RawWeightOne(r);
  }

  /** Passing a decoded record through and decoding gives it back, raw lines and all, unless one leads with a BOM. */
  lemma PassThroughIff(r: Sse)
    requires Decoded(r)
    ensures Records(PassedThrough(r)) == [r] <==> forall l :: l in r.raw ==> !LeadsWithBom(l)
  {
    var f :| FromRaw(f) && Blank(f) == (FRESH, Some(r));
    if forall l :: l in r.raw ==> !LeadsWithBom(l) {
      PassedWhole(r);
    } else {
      var i :| 0 <= i < |r.raw| && LeadsWithBom(r.raw[i]);
      PassedShort(r, i);
    }
  }

  /** Every record decoded from any text comes back whole, unless one of its raw lines leads with a BOM. */
  lemma PassThroughDecoded(text: Text, i: nat)
    requires i < |Records(text)|
    ensures var r := Records(text)[i];
      Records(PassedThrough(r)) == [r] <==> forall l :: l in r.raw ==> !LeadsWithBom(l)
  {
    AllDecoded(text);
    PassThroughIff(Records(text)[i]);
  }

  // ----- passing a whole stream through -----

  function PassedAll(records: seq<Sse>): Text {
    if records == [] then [] else PassedAll(records[..|records| - 1]) + PassedThrough(records[|records| - 1])
  }

  /** The raw lines of some records, an empty one after each record's. */
  function RawLines(records: seq<Sse>): seq<Text> {
    if records == [] then []
    else RawLines(records[..|records| - 1]) + (records[|records| - 1].raw + [[]])
  }

  ghost predicate AllAreDecoded(records: seq<Sse>) { forall i :: 0 <= i < |records| ==> Decoded(records[i]) }

  predicate NoMarks(records: seq<Sse>) {
    forall i :: 0 <= i < |records| ==> forall l :: l in records[i].raw ==> !LeadsWithBom(l)
  }

  lemma DecodedRaw(r: Sse)
    requires Decoded(r)
    ensures r.raw != [] && forall l :: l in r.raw ==> NoNewline(l)
  {
    var f :| FromRaw(f) && Blank(f) == (FRESH, Some(r));
    assert f.raw == [] ==> f == FRESH;
  }

  lemma PassedIsWritten(r: Sse)
    requires r.raw != []
    ensures PassedThrough(r) == Written(r.raw + [[]])
  {
    JoinedIsWritten(r.raw);
    BlankLineLast(r.raw);
    assert Joined(r.raw) + [LF, LF] == Joined(r.raw) + [LF] + [LF];
  }

  lemma {:induction false} PassedAllIsWritten(records: seq<Sse>)
    requires AllAreDecoded(records)
    ensures PassedAll(records) == Written(RawLines(records))
    ensures forall l :: l in RawLines(records) ==> NoNewline(l)
  {
    hide Decoded, NoNewline, Written, PassedThrough;
    if records == [] {
      WrittenNone();
    } else {
      var earlier, r := records[..|records| - 1], records[|records| - 1];
      assert forall i :: 0 <= i < |earlier| ==> earlier[i] == records[i];
      PassedAllIsWritten(earlier);
      DecodedRaw(r);
      PassedIsWritten(r);
      WrittenAppend(RawLines(earlier), r.raw + [[]]);
      EmptyHasNone();
    }
  }

  lemma WrittenNone()
    ensures Written([]) == []
  {
  }

  lemma EmptyHasNone()
    ensures NoNewline([])
  {
  }

  lemma PassedAllLines(records: seq<Sse>)
    requires AllAreDecoded(records)
    ensures Lines(PassedAll(records)) == RawLines(records)
  {
    PassedAllIsWritten(records);
    var lines := RawLines(records);
    WrittenThen(lines, []);
    assert Written(lines) + [] == Written(lines) && lines + [] == lines;
  }

  lemma {:induction false} RawLinesSayAgain(records: seq<Sse>)
    requires AllAreDecoded(records) && NoMarks(records)
    ensures Feed(FRESH, RawLines(records)).0 == FRESH && Feed(FRESH, RawLines(records)).1 == records
  {
    hide Decoded, LeadsWithBom, Take;
    if records == [] {
      FeedNone(FRESH);
    } else {
      var earlier, r := records[..|records| - 1], records[|records| - 1];
      assert forall i :: 0 <= i < |earlier| ==> earlier[i] == records[i];
      hide Feed;
      RawLinesSayAgain(earlier);
      RawSaysAgain(r);
      FeedAppend(FRESH, RawLines(earlier), r.raw + [[]]);
      assert earlier + [r] == records;
    }
  }

  lemma {:induction false} WeightAppend(a: seq<Text>, b: seq<Text>)
    ensures Weight(a + b) == Weight(a) + Weight(b) && StrippedWeight(a + b) == StrippedWeight(a) + StrippedWeight(b)
  {
    if b == [] {
      assert a + b == a;
    } else {
      assert (a + b)[..|a + b| - 1] == a + b[..|b| - 1];
      WeightAppend(a, b[..|b| - 1]);
    }
  }

  lemma {:induction false} RawLinesWeigh(records: seq<Sse>)
    ensures Weight(RawLines(records)) == RawWeight(records)
    ensures StrippedWeight(RawLines(records)) <= RawWeight(records)
  {
    StrippedAtMost(RawLines(records));
    if records != [] {
      var earlier, r := records[..|records| - 1], records[|records| - 1];
      RawLinesWeigh(earlier);
      WeightNext(r.raw, []);
      WeightAppend(RawLines(earlier), r.raw + [[]]);
    }
  }

  lemma {:induction false} MarkIsLost(records: seq<Sse>, i: nat, k: nat)
    requires i < |records| && k < |records[i].raw| && LeadsWithBom(records[i].raw[k])
    ensures StrippedWeight(RawLines(records)) < RawWeight(records)
  {
    var earlier, r := records[..|records| - 1], records[|records| - 1];
    RawLinesWeigh(earlier);
    WeightAppend(RawLines(earlier), r.raw + [[]]);
    WeightNext(r.raw, []);
    StrippedAtMost(r.raw + [[]]);
    if i == |records| - 1 {
      assert (r.raw + [[]])[k] == r.raw[k];
      BomIsLost(r.raw + [[]], k);
    } else {
      MarkIsLost(earlier, i, k);
    }
  }

  lemma DecodedInOrder(text: Text)
    ensures AllAreDecoded(Records(text))
  {
    AllDecoded(text);
    hide Decoded, Records;
    assert forall i :: 0 <= i < |Records(text)| ==> Records(text)[i] in Records(text);
  }

  /**
   Passing all the records of a stream through and decoding again gives the same records, raw lines and
   all, exactly when no raw line begins with a byte order mark.
   */
  lemma StreamPassedThrough(text: Text)
    ensures Records(PassedAll(Records(text))) == Records(text) <==> NoMarks(Records(text))
  {
    var records := Records(text);
    DecodedInOrder(text);
    PassedAllLines(records);
    if NoMarks(records) {
      RawLinesSayAgain(records);
    } else {
      var i :| 0 <= i < |records| && !(forall l :: l in records[i].raw ==> !LeadsWithBom(l));
      var l :| l in records[i].raw && LeadsWithBom(l);
      var k :| 0 <= k < |records[i].raw| && records[i].raw[k] == l;
      MarkIsLost(records, i, k);
      RawBudget(RawLines(records));
    }
  }

  /** Such a stream: two marks, a letter, and an empty data field. */
  const MARKED: Text := [BOM, BOM, 0x78, LF] + DATA + [COLON, LF, LF]

  lemma MarkedRecord()
    ensures Records(MARKED) == [Sse(None, [], [[BOM, 0x78], DATA + [COLON]])]
  {
    var first, second: Text := [BOM, BOM, 0x78], DATA + [COLON];
    var lines: seq<Text> := [first, second, []];
    assert lines[1..] == [second, []] && lines[1..][1..] == [[]] && lines[1..][1..][1..] == [];
    assert Written([]) == [];
    assert Written([[]]) == [LF];
    assert Written([second, []]) == second + [LF] + [LF];
    assert Written(lines) == first + [LF] + (second + [LF] + [LF]);
    assert MARKED == Written(lines) + [];
    WrittenThen(lines, []);
    assert lines + Lines([]) == lines;
    assert lines[..2] == [first, second] && lines[..2][..1] == [first] && lines[..2][..1][..0] == [];
    MarkedTaken();
    hide Take;
    FeedNone(FRESH);
    FeedNext(FRESH, lines, 0);
    FeedNext(FRESH, lines, 1);
    FeedNext(FRESH, lines, 2);
    assert lines[..0] == [] && lines[..1] == [first] && lines[..3] == lines;
  }

  lemma MarkedTaken()
    ensures var one := Fields(None, [], [[BOM, 0x78]]);
      var two := Fields(None, [[]], [[BOM, 0x78], DATA + [COLON]]);
      && Take(FRESH, [BOM, BOM, 0x78]) == (one, None) && Take(one, DATA + [COLON]) == (two, None)
      && Take(two, []) == (FRESH, Some(Sse(None, [], two.raw)))
  {
    var marked, empty: Text := [BOM, 0x78], DATA + [COLON];
    assert StripBom([BOM, BOM, 0x78]) == marked;
    assert |FieldName(marked)| <= 2;
    ColonIs(empty, 4);
    assert FieldName(empty) == DATA && FieldValue(empty) == [];
    assert StripBom(empty) == empty && DATA != EVENT;
    assert FRESH.raw + [marked] == [marked] && [marked] + [empty] == [marked, empty];
    var one := Fields(None, [], [marked]);
    assert one.data + [[]] == [[]];
    assert Take(FRESH, [BOM, BOM, 0x78]) == (one, None);
    assert Take(one, empty) == (Fields(None, [[]], [marked, empty]), None);
    assert Joined([[]]) == [];
  }

  /** It is not passed through whole. */
  lemma MarkedIsNotPassedWhole()
    ensures |Records(MARKED)| == 1 && Decoded(Records(MARKED)[0]) && !NoMarks(Records(MARKED))
    ensures Records(PassedAll(Records(MARKED))) != Records(MARKED)
  {
    MarkedRecord();
    DecodedInOrder(MARKED);
    StreamPassedThrough(MARKED);
    hide Records, Decoded, PassedAll;
    assert [BOM, 0x78] in Records(MARKED)[0].raw;
  }
}
