/**
 The incremental server-sent-events decoder. Whatever the chunks, what it yields is what feeding
 the universal-newline lines of the whole text one by one yields.
 */
module SseDecoding {
  import opened Basics
  import opened CodeUnits
  import opened Options
  import opened UniversalNewlines

  datatype Sse = Sse(event: Option<Text>, data: Text, raw: seq<Text>)

  /** The fields of the record being read. */
  datatype Fields = Fields(event: Option<Text>, data: seq<Text>, raw: seq<Text>)

  const FRESH := Fields(None, [], [])

  const EVENT: Text := [0x65, 0x76, 0x65, 0x6E, 0x74]
  const DATA: Text := [0x64, 0x61, 0x74, 0x61]

  function StripBom(line: Text): Text {
    if line != [] && line[0] == BOM then line[1..] else line
  }

  function ColonAt(line: Text, i: nat): (c: nat)
    requires i <= |line|
    ensures i <= c <= |line|
    ensures c < |line| ==> line[c] == COLON
    ensures forall k :: i <= k < c ==> line[k] != COLON
    decreases |line| - i
  {
    if i == |line| || line[i] == COLON then i else ColonAt(line, i + 1)
  }

  function FieldName(line: Text): Text { line[..ColonAt(line, 0)] }

  /** What follows the colon, one space after it taken off; nothing where there is no colon. */
  function FieldValue(line: Text): Text {
    var c := ColonAt(line, 0);
    if c == |line| then []
    else if c + 1 < |line| && line[c + 1] == SPACE then line[c + 2..]
    else line[c + 1..]
  }

  function Joined(parts: seq<Text>): Text {
    if parts == [] then []
    else if |parts| == 1 then parts[0]
    else parts[0] + [LF] + Joined(parts[1..])
  }

  /** A non-empty line: kept, and read if it is an `event` or `data` field. */
  function Field(f: Fields, line: Text): Fields {
    var kept := f.(raw := f.raw + [line]);
    if FieldName(line) == EVENT then kept.(event := Some(FieldValue(line)))
    else if FieldName(line) == DATA then kept.(data := f.data + [FieldValue(line)])
    else kept
  }

  /** An empty line sends the record, unless it has neither an event name nor data. */
  function Blank(f: Fields): (Fields, Option<Sse>) {
    if (f.event == None || f.event == Some([])) && f.data == [] then (f, None)
    else (FRESH, Some(Sse(f.event, Joined(f.data), f.raw)))
  }

  function Take(f: Fields, line: Text): (Fields, Option<Sse>) {
    if StripBom(line) == [] then Blank(f) else (Field(f, StripBom(line)), None)
  }

  function AsSeq<T>(o: Option<T>): seq<T> { if o.Some? then [o.value] else [] }

  function Feed(f: Fields, lines: seq<Text>): (Fields, seq<Sse>) {
    if lines == [] then (f, [])
    else
      var before := Feed(f, lines[..|lines| - 1]);
      var after := Take(before.0, lines[|lines| - 1]);
      (after.0, before.1 + AsSeq(after.1))
  }

  /** The records of a whole text. */
  function Records(text: Text): seq<Sse> { Feed(FRESH, Lines(text)).1 }

  lemma {:induction false} FeedAppend(f: Fields, a: seq<Text>, b: seq<Text>)
    ensures var x := Feed(f, a); var y := Feed(x.0, b);
      Feed(f, a + b).0 == y.0 && Feed(f, a + b).1 == x.1 + y.1
  {
    hide Take, AsSeq;
    if b == [] {
      assert a + b == a;
    } else {
      var earlier := b[..|b| - 1];
      FeedAppend(f, a, earlier);
      assert (a + b)[..|a + b| - 1] == a + earlier;
      var x := Feed(f, a);
      Regroup(x.1, Feed(x.0, earlier).1, AsSeq(Take(Feed(x.0, earlier).0, b[|b| - 1]).1));
    }
  }

  lemma FeedOne(f: Fields, line: Text)
    ensures Feed(f, [line]).0 == Take(f, line).0 && Feed(f, [line]).1 == AsSeq(Take(f, line).1)
  {
    assert [line][..0] == [];
  }

  lemma FeedNone(f: Fields)
    ensures Feed(f, []) == (f, [])
  {
  }

  lemma FeedNext(f: Fields, lines: seq<Text>, i: nat)
    requires i < |lines|
    ensures var before := Feed(f, lines[..i]); var after := Take(before.0, lines[i]);
      Feed(f, lines[..i + 1]).0 == after.0 && Feed(f, lines[..i + 1]).1 == before.1 + AsSeq(after.1)
  {
    assert lines[..i + 1][..i] == lines[..i];
  }

  /** The regular-expression split at CR LF, CR or LF: a newline at the end leaves an empty last piece. */
  function Split(s: Text): seq<Text>
    decreases |s|
  {
    var n := NewlineAt(s, 0);
    if n == |s| then [s] else [s[..n]] + Split(s[NextLine(s, n)..])
  }

  class Decoder {
    var event: Option<Text>
    var data: seq<Text>
    var raw: seq<Text>

    constructor ()
      ensures View() == FRESH
    {
      event, data, raw := None, [], [];
    }

    function View(): Fields
      reads this
    {
      Fields(event, data, raw)
    }

    method TakeLine(received: Text) returns (sse: Option<Sse>)
      modifies this
      ensures (View(), sse) == Take(old(View()), received)
    {
      var line := received;
      if line != [] && line[0] == BOM {
        line := line[1..];
      }
      if line == [] {
        if (event == None || event == Some([])) && data == [] {
          return None;
        }
        sse := Some(Sse(event, Joined(data), raw));
        event, data, raw := None, [], [];
        return;
      }
      raw := raw + [line];
      sse := None;
      var colon := 0;
      while colon < |line| && line[colon] != COLON
        invariant colon <= |line| && ColonAt(line, 0) == ColonAt(line, colon)
      {
        colon := colon + 1;
      }
      if colon == 0 {
        return;
      }
      var name := line[..colon];
      if name != EVENT && name != DATA {
        return;
      }
      var value: Text := [];
      if colon < |line| {
        value := line[if colon + 1 < |line| && line[colon + 1] == SPACE then colon + 2 else colon + 1..];
      }
      if name == EVENT {
        event := Some(value);
      } else {
        data := data + [value];
      }
    }
  }

  // ----- decoding in chunks -----

  /** Having taken the lines of `text` up to `start` and yielded `out`, the rest is still to be done. */
  ghost predicate OnTrack(whole: Text, out: seq<Sse>, f: Fields, left: Text) {
    var rest := Feed(f, Lines(left));
    Feed(FRESH, Lines(whole)).0 == rest.0 && Feed(FRESH, Lines(whole)).1 == out + rest.1
  }

  /** Taking the first of the lines that are left. */
  lemma TakeFirst(whole: Text, out: seq<Sse>, f: Fields, left: Text, line: Text, next: Text)
    requires OnTrack(whole, out, f, left) && Lines(left) == [line] + Lines(next)
    ensures OnTrack(whole, out + AsSeq(Take(f, line).1), Take(f, line).0, next)
  {
    hide Take, Lines, Feed, AsSeq;
    FeedAppend(f, [line], Lines(next));
    FeedOne(f, line);
    var after := Take(f, line);
    Regroup(out, AsSeq(after.1), Feed(after.0, Lines(next)).1);
  }

  /** Taking a line that is known to be finished. */
  lemma TakeFinished(whole: Text, out: seq<Sse>, f: Fields, text: Text, n: nat, rest: Text)
    requires OnTrack(whole, out, f, text + rest)
    requires n < |text| && (forall k :: 0 <= k < n ==> !IsNewline(text[k]))
    requires text[n] == LF || (text[n] == CR && n + 1 < |text|)
    ensures OnTrack(whole, out + AsSeq(Take(f, text[..n]).1), Take(f, text[..n]).0, text[NextLine(text, n)..] + rest)
  {
    hide OnTrack, Take, Lines;
    FirstLine(text, n, rest);
    TakeFirst(whole, out, f, text + rest, text[..n], text[NextLine(text, n)..] + rest);
  }

  /** The same, for the line from `start` to `end` of a longer text. */
  lemma TakeFrom(whole: Text, out: seq<Sse>, more: seq<Sse>, f: Fields, text: Text, start: nat, end: nat, rest: Text)
    requires start <= end < |text| && (forall k :: start <= k < end ==> !IsNewline(text[k]))
    requires text[end] == LF || (text[end] == CR && end + 1 < |text|)
    requires OnTrack(whole, out + more, f, text[start..] + rest)
    ensures var after := Take(f, text[start..end]);
      OnTrack(whole, out + (more + AsSeq(after.1)), after.0, text[NextLine(text, end)..] + rest)
  {
    hide OnTrack, Take;
    var line, n := text[start..], end - start;
    assert line[n] == text[end] && (end + 1 < |text| ==> line[n + 1] == text[end + 1]);
    assert forall k :: 0 <= k < n ==> line[k] == text[start + k];
    TakeFinished(whole, out + more, f, line, n, rest);
    assert line[..n] == text[start..end];
    assert line[NextLine(line, n)..] == text[NextLine(text, end)..];
    assert (out + more) + AsSeq(Take(f, text[start..end]).1) == out + (more + AsSeq(Take(f, text[start..end]).1));
  }

  predicate HasCr(s: Text) { exists i :: 0 <= i < |s| && s[i] == CR }

  /** Between chunks at most a CR at the very end is still unread. */
  predicate Held(text: Text) {
    forall i :: 0 <= i < |text| ==> !IsNewline(text[i]) || (i == |text| - 1 && text[i] == CR)
  }

  /** The fast path, for text without a CR. */
  method TakeLfLines(decoder: Decoder, text: Text, ghost whole: Text, ghost rest: Text, ghost out: seq<Sse>)
    returns (more: seq<Sse>, left: Text)
    requires !HasCr(text) && OnTrack(whole, out, decoder.View(), text + rest)
    modifies decoder
    ensures OnTrack(whole, out + more, decoder.View(), left + rest) && Held(left)
  {
    hide OnTrack, Take, AsSeq;
    var start := 0;
    more := [];
    assert text[start..] == text && out + more == out;
    while true
      invariant start <= |text|
      invariant OnTrack(whole, out + more, decoder.View(), text[start..] + rest)
      decreases |text| - start
    {
      var end := start;
      while end < |text| && text[end] != LF
        invariant start <= end <= |text| && forall k :: start <= k < end ==> text[k] != LF
      {
        end := end + 1;
      }
      assert forall k :: start <= k < |text| ==> text[k] != CR;
      if end == |text| {
        left := text[start..];
        return;
      }
      TakeFrom(whole, out, more, decoder.View(), text, start, end, rest);
      var sse := decoder.TakeLine(text[start..end]);
      more, start := more + AsSeq(sse), end + 1;
    }
  }

  /** The other path: a CR at the end of the text is held back, since an LF may follow it. */
  method TakeAnyLines(decoder: Decoder, text: Text, ghost whole: Text, ghost rest: Text, ghost out: seq<Sse>)
    returns (more: seq<Sse>, left: Text)
    requires OnTrack(whole, out, decoder.View(), text + rest)
    modifies decoder
    ensures OnTrack(whole, out + more, decoder.View(), left + rest) && Held(left)
  {
    hide OnTrack, Take, AsSeq;
    var start, i := 0, 0;
    more := [];
    assert text[start..] == text && out + more == out;
    while i < |text|
      invariant start <= i <= |text|
      invariant forall k :: start <= k < i ==> !IsNewline(text[k])
      invariant OnTrack(whole, out + more, decoder.View(), text[start..] + rest)
    {
      if !IsNewline(text[i]) {
        i := i + 1;
        continue;
      }
      if text[i] == CR && i + 1 == |text| {
        break;
      }
      TakeFrom(whole, out, more, decoder.View(), text, start, i, rest);
      var sse := decoder.TakeLine(text[start..i]);
      more := more + AsSeq(sse);
      if text[i] == CR && text[i + 1] == LF {
        i := i + 1;
      }
      i := i + 1;
      start := i;
    }
    left := text[start..];
  }

  /** What the text decoder gives at the end of its input: nothing, or one replacement character. */
  predicate IsFlush(tail: Text) { tail == [] || tail == [0xFFFD] }

  /** `replace(/\\r$/, '')` then the split gives the lines that are left. */
  lemma SplitLeft(left: Text, tail: Text)
    requires Held(left) && IsFlush(tail) && left + tail != []
    ensures var t := left + tail;
      Split(if t[|t| - 1] == CR then t[..|t| - 1] else t) == Lines(t)
  {
    var t := left + tail;
    if NoNewline(t) {
      OneLine(t);
    } else {
      var n := |left| - 1;
      assert t[n] == CR;
      NewlineIs(t, n);
      if tail == [] {
        assert t[NextLine(t, n)..] == [];
      } else {
        assert t[NextLine(t, n)..] == tail;
        OneLine(tail);
      }
    }
  }

  method Decode(chunks: seq<Text>, tail: Text) returns (events: seq<Sse>)
    requires IsFlush(tail)
    ensures events == Records(Flatten(chunks) + tail)
  {
    hide OnTrack, Lines, Feed;
    var decoder := new Decoder();
    var text: Text := [];
    events := [];
    ghost var whole := Flatten(chunks) + tail;
    OnTrackStart(whole);
    assert chunks[0..] == chunks && text + (Flatten(chunks) + tail) == whole;
    for i := 0 to |chunks|
      invariant fresh(decoder) && Held(text)
      invariant OnTrack(whole, events, decoder.View(), text + (Flatten(chunks[i..]) + tail))
    {
      ghost var rest := Flatten(chunks[i + 1..]) + tail;
      assert chunks[i..][1..] == chunks[i + 1..];
      assert text + (Flatten(chunks[i..]) + tail) == text + chunks[i] + rest;
      text := text + chunks[i];
      var more: seq<Sse>;
      if !HasCr(text) {
        more, text := TakeLfLines(decoder, text, whole, rest, events);
      } else {
        more, text := TakeAnyLines(decoder, text, whole, rest, events);
      }
      events := events + more;
    }
    assert chunks[|chunks|..] == [] && text + ([] + tail) == text + tail;
    OnTrackEnd(whole, events, decoder.View(), text + tail);
    var last := TakeRest(decoder, text, tail);
    events := events + last;
  }

  lemma OnTrackStart(whole: Text)
    ensures OnTrack(whole, [], FRESH, whole)
  {
    hide Feed, Lines;
    assert [] + Feed(FRESH, Lines(whole)).1 == Feed(FRESH, Lines(whole)).1;
  }

  lemma OnTrackEnd(whole: Text, out: seq<Sse>, f: Fields, left: Text)
    requires OnTrack(whole, out, f, left)
    ensures out + Feed(f, Lines(left)).1 == Records(whole)
  {
  }

  method TakeRest(decoder: Decoder, text: Text, tail: Text) returns (more: seq<Sse>)
    requires Held(text) && IsFlush(tail)
    modifies decoder
    ensures var fed := Feed(old(decoder.View()), Lines(text + tail)); decoder.View() == fed.0 && more == fed.1
  {
    more := [];
    var t := text + tail;
    if t != [] {
      SplitLeft(text, tail);
      var lines := Split(if t[|t| - 1] == CR then t[..|t| - 1] else t);
      hide Take, Split, Lines, Feed, AsSeq;
      FeedNone(decoder.View());
      for i := 0 to |lines|
        invariant var fed := Feed(old(decoder.View()), lines[..i]); decoder.View() == fed.0 && more == fed.1
      {
        FeedNext(old(decoder.View()), lines, i);
        var sse := decoder.TakeLine(lines[i]);
        more := more + AsSeq(sse);
      }
      assert lines[..|lines|] == lines;
    }
  }

  // ----- how lines are read -----

  /**
   A line that says `value` for the field `name`: the name, a colon and the value, with one space between if
   the value itself begins with one, and optionally if not; or the name alone, for no value.
   */
  predicate Says(line: Text, name: Text, value: Text) {
    && (forall k :: 0 <= k < |name| ==> name[k] != COLON)
    && (|| line == name + [0x3A, 0x20] + value
        || (line == name + [0x3A] + value && (value == [] || value[0] != 0x20))
        || (line == name && value == []))
  }

  /** The fields after a line that says something: `event` and `data` are read, all others are only kept. */
  function Said(f: Fields, line: Text, name: Text, value: Text): Fields {
    Fields(if name == [0x65, 0x76, 0x65, 0x6E, 0x74] then Some(value) else f.event,
           if name == [0x64, 0x61, 0x74, 0x61] then f.data + [value] else f.data,
           f.raw + [line])
  }

  lemma ColonBehind(name: Text, rest: Text)
    requires (forall k :: 0 <= k < |name| ==> name[k] != COLON) && (rest == [] || rest[0] == COLON)
    ensures ColonAt(name + rest, 0) == |name|
  {
    var line := name + rest;
    assert forall k :: 0 <= k < |name| ==> line[k] == name[k];
    if rest != [] { assert line[|name|] == COLON; }
  }

  /** Every line that is not empty says one thing, and taking it does what it says, its byte order mark aside. */
  lemma TakeSaid(f: Fields, received: Text, line: Text, name: Text, value: Text)
    requires line != [] && Says(line, name, value)
    requires received == [BOM] + line || (received == line && line[0] != BOM)
    ensures Take(f, received) == (Said(f, line, name, value), None)
  {
    var rest := line[|name|..];
    assert line == name + rest;
    ColonBehind(name, rest);
    assert StripBom(received) == line;
    assert FieldName(line) == name;
    if rest == [] {
      assert FieldValue(line) == [] == value;
    } else if line == name + [COLON, SPACE] + value {
      assert line[|name| + 1] == SPACE && line[|name| + 2..] == value;
    } else {
      assert line[|name| + 1..] == value;
      assert value != [] ==> line[|name| + 1] == value[0];
    }
  }

  /** What a line says, for every line. */
  lemma EveryLineSays(line: Text) returns (name: Text, value: Text)
    ensures Says(line, name, value)
  {
    var c := ColonAt(line, 0);
    name, value := line[..c], [];
    if c < |line| {
      value := if c + 1 < |line| && line[c + 1] == SPACE then line[c + 2..] else line[c + 1..];
      if c + 1 < |line| && line[c + 1] == SPACE {
        assert line == name + [COLON, SPACE] + value;
      } else {
        assert line == name + [COLON] + value;
      }
    }
  }

  datatype Saying = Saying(name: Text, value: Text)

  /** The lines of a record and what they say. */
  predicate AllSay(lines: seq<Text>, fields: seq<Saying>) {
    |lines| == |fields| && forall k :: 0 <= k < |lines| ==> SaysAt(lines, fields, k)
  }

  predicate SaysAt(lines: seq<Text>, fields: seq<Saying>, k: nat)
    requires k < |lines| && k < |fields|
  {
    lines[k] != [] && lines[k][0] != BOM && Says(lines[k], fields[k].name, fields[k].value)
  }

  /** The value of the last `event` field. */
  function EventOf(fields: seq<Saying>): Option<Text> {
    if fields == [] then None
    else
      var last := fields[|fields| - 1];
      if last.name == [0x65, 0x76, 0x65, 0x6E, 0x74] then Some(last.value) else EventOf(fields[..|fields| - 1])
  }

  /** The values of all `data` fields. */
  function DataOf(fields: seq<Saying>): seq<Text> {
    if fields == [] then []
    else
      var last := fields[|fields| - 1];
      DataOf(fields[..|fields| - 1]) + (if last.name == [0x64, 0x61, 0x74, 0x61] then [last.value] else [])
  }

  lemma {:induction false} FeedSaid(lines: seq<Text>, fields: seq<Saying>)
    requires AllSay(lines, fields)
    ensures Feed(FRESH, lines) == (Fields(EventOf(fields), DataOf(fields), lines), [])
  {
    if lines != [] {
      var n := |lines| - 1;
      SayEarlier(lines, fields, n);
      FeedSaid(lines[..n], fields[..n]);
      assert SaysAt(lines, fields, n);
      hide Take, Feed, Says, Said, AllSay;
      TakeSaid(Feed(FRESH, lines[..n]).0, lines[n], lines[n], fields[n].name, fields[n].value);
      FeedNext(FRESH, lines, n);
      assert lines[..n + 1] == lines;
      SaidNext(lines, fields, n);
    }
  }

  lemma SayEarlier(lines: seq<Text>, fields: seq<Saying>, n: nat)
    requires AllSay(lines, fields) && n <= |lines|
    ensures AllSay(lines[..n], fields[..n])
  {
    hide Says;
    forall k | 0 <= k < n
      ensures SaysAt(lines[..n], fields[..n], k)
    {
      assert SaysAt(lines, fields, k);
    }
  }

  lemma SaidNext(lines: seq<Text>, fields: seq<Saying>, n: nat)
    requires |lines| == |fields| == n + 1
    ensures var f := Fields(EventOf(fields[..n]), DataOf(fields[..n]), lines[..n]);
      Said(f, lines[n], fields[n].name, fields[n].value)
         == Fields(EventOf(fields), DataOf(fields), lines)
  {
    assert lines[..n] + [lines[n]] == lines;
    assert DataOf(fields[..n]) + [] == DataOf(fields[..n]);
  }

  /** Values written one after another with a line feed between any two. */
  predicate Lined(text: Text, values: seq<Text>) {
    if values == [] then text == []
    else if |values| == 1 then text == values[0]
    else
      var n := |values[0]|;
      n < |text| && text[..n + 1] == values[0] + [0x0A] && Lined(text[n + 1..], values[1..])
  }

  lemma {:induction false} JoinedIsLined(values: seq<Text>)
    ensures Lined(Joined(values), values)
  {
    if |values| > 1 {
      JoinedIsLined(values[1..]);
      var text, n := Joined(values), |values[0]|;
      assert text == values[0] + [LF] + Joined(values[1..]);
      assert text[..n + 1] == values[0] + [LF] && text[n + 1..] == Joined(values[1..]);
    }
  }

  /**
   A record read from lines that say something: its event is what the last `event` field says, its data all
   that the `data` fields say, with line feeds between; it is sent unless it says neither, an empty event
   being none.
   */
  lemma RecordSaid(lines: seq<Text>, fields: seq<Saying>)
    requires AllSay(lines, fields)
    ensures var read := Feed(FRESH, lines + [[]]);
      var event, data := EventOf(fields), DataOf(fields);
      if data == [] && (event.None? || |event.value| == 0) then read == (Fields(event, data, lines), [])
      else read.0 == FRESH && |read.1| == 1 && read.1[0].event == event && read.1[0].raw == lines
           && Lined(read.1[0].data, data)
  {
    FeedSaid(lines, fields);
    FeedAppend(FRESH, lines, [[]]);
    var f := Feed(FRESH, lines).0;
    FeedOne(f, []);
    JoinedIsLined(DataOf(fields));
    hide Says, Joined, Lined;
  }
}
