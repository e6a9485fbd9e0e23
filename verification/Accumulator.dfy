/**
 The stream accumulator: each event updates the message snapshot in place. For a well-formed
 stream the block at position `i` is the one started with index `i` and grown by its own deltas.
 */
module Accumulator {
  import opened CodeUnits
  import opened JsonGrammar
  import opened PartialJsonRepair
  import opened PartialViews
  import opened Options
  import opened MessageEvents

  // ----- one event -----

  /** A content block after one of its deltas; a delta of another block kind's sort is ignored. */
  function ApplyDelta(b: Block, d: Delta): Block {
    match d
    case TextDelta(t) => if b.kind == TextBlock then b.(text := Some(Or(b.text, []) + t)) else b
    case CitationsDelta(c) => if b.kind == TextBlock then b.(citations := Some(Or(b.citations, []) + [c])) else b
    case InputJsonDelta(p) =>
      if b.kind == ToolBlock then
        var buffer := Or(b.json, []) + p;
        b.(json := Some(buffer), input := Lazy(buffer))
      else b
    case ThinkingDelta(t) => if b.kind == ThinkingBlock then b.(thinking := Some(Or(b.thinking, []) + t)) else b
    case SignatureDelta(s) => if b.kind == ThinkingBlock then b.(signature := Some(s)) else b
    case CompactionDelta(c, e) =>
      if b.kind == CompactionBlock then
        b.(content := c, encrypted := if e.Some? then e.value else b.encrypted)
      else b
  }

  /** A content block once it has stopped: a tool input read from JSON is fixed. */
  function Settle(b: Block): Block {
    if b.kind == ToolBlock && b.json.Some? then b.(input := Fixed(b.json.value)) else b
  }

  /** The counters a `message_delta` overwrites when it carries them. */
  const CUMULATIVE := {"input_tokens", "cache_creation_input_tokens", "cache_read_input_tokens",
                       "server_tool_use", "fallback_credit", "output_tokens_details"}

  function MergeUsage(u: Usage, d: Usage): Usage {
    var kept := u.counts - {"output_tokens"};
    var overwritten := map k | k in d.counts && (k == "output_tokens" || k in CUMULATIVE) :: d.counts[k];
    Usage(kept + overwritten, if d.iterations.Some? then d.iterations else u.iterations)
  }

  datatype State = Failed | Live(snapshot: Option<Message>)

  function Accumulate(s: State, e: Event): State {
    if s.Failed? then s
    else if e.MessageStart? then
      if s.snapshot.Some? then Failed else Live(Some(e.message))
    else if s.snapshot.None? then s
    else Live(Some(Updated(s.snapshot.value, e)))
  }

  function Updated(m: Message, e: Event): Message {
    match e
    case MessageDelta(stop, usage, transformations) =>
      m.(stop := Some(stop), usage := MergeUsage(m.usage, usage),
         transformations := if transformations.Some? then transformations else m.transformations)
    case BlockStart(_, b) =>
      m.(content := m.content + [b],
         model := if b.kind == FallbackBlock && b.seam.Some? then b.seam.value.to else m.model)
    case BlockDelta(i, d) =>
      if i < |m.content| then m.(content := m.content[i := ApplyDelta(m.content[i], d)]) else m
    case BlockStop(i) =>
      if i < |m.content| then m.(content := m.content[i := Settle(m.content[i])]) else m
    case _ => m
  }

  class MessageStream {
    var ended: bool
    var errored: bool
    var currentMessageSnapshot: Option<Message>

    constructor ()
      ensures Progress() == Delivered(Live(None), false)
    {
      ended, errored, currentMessageSnapshot := false, false, None;
    }

    function Progress(): Delivered
      reads this
    {
      Delivered(View(), ended)
    }

    function View(): State
      reads this
    {
      if errored then Failed else Live(currentMessageSnapshot)
    }

    /** `#accumulateMessage`, in place; an event out of order raises an error and ends the stream. */
    method AccumulateMessage(event: Event)
      requires !errored
      modifies this
      ensures View() == Accumulate(old(View()), event) && ended == old(ended)
    {
      if event.MessageStart? {
        if currentMessageSnapshot.Some? {
          errored := true;
          return;
        }
        currentMessageSnapshot := Some(event.message);
        return;
      }
      if currentMessageSnapshot.None? {
        return;
      }
      var m := currentMessageSnapshot.value;
      match event {
        case MessageDelta(stop, usage, transformations) =>
          m := m.(stop := Some(stop), usage := MergeUsage(m.usage, usage));
          if transformations.Some? {
            m := m.(transformations := transformations);
          }
        case BlockStart(_, block) =>
          m := m.(content := m.content + [block]);
          if block.kind == FallbackBlock && block.seam.Some? {
            m := m.(model := block.seam.value.to);
          }
        case BlockDelta(index, delta) =>
          if index < |m.content| {
            m := m.(content := m.content[index := ApplyDelta(m.content[index], delta)]);
          }
        case BlockStop(index) =>
          if index < |m.content| {
            m := m.(content := m.content[index := Settle(m.content[index])]);
          }
        case _ =>
      }
      currentMessageSnapshot := Some(m);
    }

    /**
     `#addStreamEvent`: nothing is taken once the stream has ended, be it by an error that the server reports,
     by an event out of order, by an input that cannot be read, or by a text that is not the output asked for.
     With an `inputJson` listener every JSON delta reads the input of the last block.
     */
    method AddStreamEvent(event: Event, listening: bool, reader: Reader)
      modifies this
      ensures Progress() == Deliver(old(Progress()), event, listening, reader)
    {
      if ended {
        return;
      }
      if errored || event.Error? {
        ended := true;
        return;
      }
      var unread := StopFails(View(), event, reader.readable);
      AccumulateMessage(event);
      ended := errored || unread;
      if ended || currentMessageSnapshot.None? {
        return;
      }
      var content := currentMessageSnapshot.value.content;
      match event {
        case BlockDelta(_, delta) =>
          if content == [] {
            ended := true;
            return;
          }
          var last := content[|content| - 1];
          if delta.InputJsonDelta? && last.kind == ToolBlock && listening {
            ended := Unreadable(last, reader.readable);
          }
        case MessageStop =>
          ended := !TextsFit(content, reader.parses);
        case _ =>
      }
    }

    /** `#endRequest`: an error if there is no message, or one with a text that is not the output asked for. */
    method EndRequest(reader: Reader) returns (result: Option<Message>)
      modifies this
      ensures result == RequestResult(old(Progress()), reader)
      ensures Progress() == (if old(errored || ended) then old(Progress()) else Delivered(Live(None), result.None?))
    {
      if errored || ended {
        return None;
      }
      result := currentMessageSnapshot;
      currentMessageSnapshot := None;
      if result.None? || !TextsFit(result.value.content, reader.parses) {
        result, ended := None, true;
      }
    }

    /** A whole stream; `listening(n)` is whether anyone listens for tool inputs at event `n`. */
    method Run(events: seq<Event>, listening: nat -> bool, reader: Reader) returns (result: Option<Message>)
      requires Progress() == Delivered(Live(None), false)
      modifies this
      ensures result == RequestResult(DeliverAll(events, listening, reader), reader)
    {
      for i := 0 to |events|
        invariant Progress() == DeliverAll(events[..i], listening, reader)
      {
        assert events[..i + 1][..i] == events[..i];
        AddStreamEvent(events[i], listening(i), reader);
      }
      assert events[..|events|] == events;
      result := EndRequest(reader);
    }
  }

  /**
   What the client can make of what it gets: the JSON of tool inputs that `JSON.parse` takes once repaired,
   and the texts that parse as the output asked for, which are all texts if nothing was asked for.
   */
  datatype Reader = Reader(readable: Text -> bool, parses: Text -> bool)

  datatype Delivered = Delivered(state: State, ended: bool)

  /** Reading an input fails only while it is lazy, on JSON that is not empty. */
  predicate CanRead(input: Input, readable: Text -> bool) {
    input.Lazy? && input.buffer != [] ==> readable(input.buffer)
  }

  /** Reading a tool block's input fails. */
  predicate Unreadable(b: Block, readable: Text -> bool) { b.kind == ToolBlock && !CanRead(b.input, readable) }

  predicate TextFits(b: Block, parses: Text -> bool) { b.kind == TextBlock ==> parses(Or(b.text, [])) }

  /** Every text block by itself is the output asked for. */
  predicate TextsFit(content: seq<Block>, parses: Text -> bool) {
    forall i :: 0 <= i < |content| ==> TextFits(content[i], parses)
  }

  /** The input of the block that stops is read if it came as JSON. */
  predicate StopFails(s: State, e: Event, readable: Text -> bool) {
    && e.BlockStop? && s.Live? && s.snapshot.Some? && e.index < |s.snapshot.value.content|
    && s.snapshot.value.content[e.index].json.Some?
    && Unreadable(s.snapshot.value.content[e.index], readable)
  }

  /** After a delta the last block is looked at: there must be one, and a listener has its input read. */
  predicate DeltaFails(s: State, e: Event, listening: bool, readable: Text -> bool) {
    && e.BlockDelta? && s.Live? && s.snapshot.Some?
    && var content := s.snapshot.value.content;
       || content == []
       || (listening && e.delta.InputJsonDelta? && Unreadable(content[|content| - 1], readable))
  }

  /** As the message stops its texts are parsed. */
  predicate TextFails(s: State, e: Event, parses: Text -> bool) {
    e.MessageStop? && s.Live? && s.snapshot.Some? && !TextsFit(s.snapshot.value.content, parses)
  }

  function Deliver(d: Delivered, e: Event, listening: bool, reader: Reader): Delivered {
    if d.ended then d
    else if d.state.Failed? || e.Error? then Delivered(d.state, true)
    else
      var state := Accumulate(d.state, e);
      Delivered(state, || state.Failed? || StopFails(d.state, e, reader.readable)
                       || DeltaFails(state, e, listening, reader.readable)
                       || TextFails(d.state, e, reader.parses))
  }

  /** What `#endRequest` returns, if it does not throw. */
  function RequestResult(d: Delivered, reader: Reader): Option<Message> {
    if !d.ended && d.state.Live? && d.state.snapshot.Some? && TextsFit(d.state.snapshot.value.content, reader.parses)
    then d.state.snapshot
    else None
  }

  function DeliverAll(events: seq<Event>, listening: nat -> bool, reader: Reader): Delivered {
    if events == [] then Delivered(Live(None), false)
    else
      var n := |events| - 1;
      Deliver(DeliverAll(events[..n], listening, reader), events[n], listening(n), reader)
  }

  function Folded(s: State, events: seq<Event>): State {
    if events == [] then s else Accumulate(Folded(s, events[..|events| - 1]), events[|events| - 1])
  }

  lemma {:induction false} FoldedAppend(s: State, a: seq<Event>, b: seq<Event>)
    ensures Folded(s, a + b) == Folded(Folded(s, a), b)
  {
    if b == [] {
      assert a + b == a;
    } else {
      assert (a + b)[..|a + b| - 1] == a + b[..|b| - 1];
      FoldedAppend(s, a, b[..|b| - 1]);
    }
  }

  // ----- position and index -----

  /** The block started with index `i`, grown by the deltas that name it, in order. */
  function Built(events: seq<Event>, i: nat): Block {
    if events == [] then EMPTY_BLOCK
    else
      var earlier, e := events[..|events| - 1], events[|events| - 1];
      if e.BlockStart? && e.index == i then e.block
      else if e.BlockDelta? && e.index == i then ApplyDelta(Built(earlier, i), e.delta)
      else if e.BlockStop? && e.index == i then Settle(Built(earlier, i))
      else Built(earlier, i)
  }

  function Started(q: Phase): nat {
    match q
    case Before => 0
    case Streaming(next, _) => next
    case Closing(next) => next
    case Done(next) => next
    case Bad => 0
  }

  /** The block at position `i` is the one started with index `i`. */
  lemma {:induction false} PositionIsIndex(events: seq<Event>)
    requires After(Before, events) != Bad
    ensures var q, s := After(Before, events), Folded(Live(None), events);
      && s.Live?
      && (q == Before <==> s.snapshot.None?)
      && (q != Before ==>
           && |s.snapshot.value.content| == Started(q)
           && forall i :: 0 <= i < Started(q) ==> s.snapshot.value.content[i] == Built(events, i))
  {
    if events != [] {
      var earlier, e := events[..|events| - 1], events[|events| - 1];
      assert After(Before, earlier) != Bad;
      PositionIsIndex(earlier);
      OpenBelowNext(earlier);
    }
  }

  // ----- what the deltas add up to -----

  /** The block that the event starting index `i` carries. */
  function StartOf(events: seq<Event>, i: nat): Block {
    if events == [] then EMPTY_BLOCK
    else
      var earlier, e := events[..|events| - 1], events[|events| - 1];
      if e.BlockStart? && e.index == i then e.block else StartOf(earlier, i)
  }

  /** All the text sent for index `i`. */
  function TextOf(events: seq<Event>, i: nat): Text {
    if events == [] then []
    else
      var earlier, e := events[..|events| - 1], events[|events| - 1];
      TextOf(earlier, i) + (if IsTextFor(e, i) then e.delta.text else [])
  }

  predicate IsTextFor(e: Event, i: nat) { e.BlockDelta? && e.index == i && e.delta.TextDelta? }

  predicate IsJsonFor(e: Event, i: nat) { e.BlockDelta? && e.index == i && e.delta.InputJsonDelta? }

  /** All the tool input JSON sent for index `i`. */
  function JsonOf(events: seq<Event>, i: nat): Text {
    if events == [] then []
    else
      var earlier, e := events[..|events| - 1], events[|events| - 1];
      JsonOf(earlier, i) + (if IsJsonFor(e, i) then e.delta.json else [])
  }

  predicate HasJson(events: seq<Event>, i: nat) {
    events != [] && (IsJsonFor(events[|events| - 1], i) || HasJson(events[..|events| - 1], i))
  }

  predicate Stopped(events: seq<Event>, i: nat) {
    events != [] && (events[|events| - 1] == BlockStop(i) || Stopped(events[..|events| - 1], i))
  }

  predicate IsOpen(events: seq<Event>, i: nat) {
    var q := After(Before, events);
    q.Streaming? && i in q.open
  }

  lemma {:induction false} NothingBeforeStart(events: seq<Event>, i: nat)
    requires After(Before, events) != Bad && i >= Started(After(Before, events))
    ensures TextOf(events, i) == [] && JsonOf(events, i) == [] && !HasJson(events, i)
  {
    if events != [] {
      NothingBeforeStart(events[..|events| - 1], i);
      OpenBelowNext(events[..|events| - 1]);
    }
  }

  /** A text block's text is the text it started with and then all its deltas. */
  lemma {:induction false} TextIsStartPlusDeltas(events: seq<Event>, i: nat)
    requires After(Before, events) != Bad && i < Started(After(Before, events))
    requires StartOf(events, i).kind == TextBlock
    ensures Built(events, i).kind == TextBlock
    ensures Or(Built(events, i).text, []) == Or(StartOf(events, i).text, []) + TextOf(events, i)
  {
    var earlier, e := events[..|events| - 1], events[|events| - 1];
    if e.BlockStart? && e.index == i {
      NothingBeforeStart(earlier, i);
    } else {
      TextIsStartPlusDeltas(earlier, i);
    }
  }

  /** An index that is stopped, or was and is not open, never opens again. */
  lemma StaysClosed(q: Phase, e: Event, i: nat)
    requires Next(q, e) != Bad && OpenBelow(q)
    requires e == BlockStop(i) || (i < Started(q) && (q.Streaming? ==> i !in q.open))
    ensures i < Started(Next(q, e)) && (Next(q, e).Streaming? ==> i !in Next(q, e).open)
  {
  }

  lemma {:induction false} StoppedNotOpen(events: seq<Event>, i: nat)
    requires After(Before, events) != Bad && Stopped(events, i)
    ensures !IsOpen(events, i) && i < Started(After(Before, events))
  {
    var earlier, e := events[..|events| - 1], events[|events| - 1];
    var q := After(Before, earlier);
    OpenBelowNext(earlier);
    if e != BlockStop(i) { StoppedNotOpen(earlier, i); }
    StaysClosed(q, e, i);
  }

  /** A tool block's input is read from all the JSON sent for it, lazily until the block stops. */
  lemma {:induction false} InputIsJsonSent(events: seq<Event>, i: nat)
    requires After(Before, events) != Bad && i < Started(After(Before, events))
    requires StartOf(events, i).kind == ToolBlock && StartOf(events, i).json == None
    ensures var b, json := Built(events, i), JsonOf(events, i);
      && b.kind == ToolBlock
      && b.json == (if HasJson(events, i) then Some(json) else None)
      && b.input == (if !HasJson(events, i) then StartOf(events, i).input
                     else if Stopped(events, i) then Fixed(json)
                     else Lazy(json))
  {
    var earlier, e := events[..|events| - 1], events[|events| - 1];
    if Stopped(earlier, i) { StoppedNotOpen(earlier, i); }
    OpenBelowNext(earlier);
    if e.BlockStart? && e.index == i {
      NothingBeforeStart(earlier, i);
    } else {
      InputIsJsonSent(earlier, i);
      NoJson(earlier, i);
      assert JsonOf(earlier, i) + [] == JsonOf(earlier, i);
      if IsJsonFor(e, i) { assert [] + e.delta.json == e.delta.json; }
    }
  }

  lemma NoJson(events: seq<Event>, i: nat)
    ensures !HasJson(events, i) ==> JsonOf(events, i) == []
  {
  }

  // ----- reading a tool input that is still arriving -----

  /** What reading `.input` gives: lazily an error where the JSON cannot be read, and `{}` once fixed. */
  ghost function InputValue(input: Input): Parsed {
    match input
    case Lazy(buffer) => if buffer == [] then Value(Object([])) else PartialParse(buffer)
    case Fixed(buffer) =>
      if buffer == [] || PartialParse(buffer).SyntaxError? then Value(Object([])) else PartialParse(buffer)
    case _ => SyntaxError
  }

  /** The tool input at `i` after `events`, when JSON for `d` is on its way. */
  predicate Arriving(events: seq<Event>, i: nat, d: Text) {
    && After(Before, events) != Bad && i < Started(After(Before, events))
    && StartOf(events, i).kind == ToolBlock && StartOf(events, i).json == None
    && HasJson(events, i) && JsonOf(events, i) <= d
  }

  predicate InputReadable(json: Text) { json == [] || HasBegun(json) }

  /**
   While the JSON of a tool input object arrives, in whatever pieces, its input can be read exactly
   when the JSON is empty or more than white space; it is then a partial view of the whole input,
   and the whole input once all of it has arrived.
   */
  lemma ToolInputOnTheWay(events: seq<Event>, i: nat, d: Text, v: Json)
    requires Arriving(events, i, d) && Denotes(d, v) && v.Object?
    ensures var r := InputValue(Built(events, i).input);
      && (r.Value? <==> InputReadable(JsonOf(events, i)) || Stopped(events, i))
      && (r.Value? ==> PartialOf(r.v, v))
      && (JsonOf(events, i) == d ==> r == Value(v))
  {
    hide After, Built, JsonOf, HasJson, Stopped, StartOf;
    InputIsJsonSent(events, i);
    var json := JsonOf(events, i);
    assert json == d[..|json|];
    if json != [] { PrefixIsPartialView(d, v, |json|); }
    if json == d {
      WholeDocument(d, v);
      NotEmpty(d, v);
    }
  }

  lemma NotEmpty(d: Text, v: Json)
    requires Denotes(d, v)
    ensures d != []
  {
    if d == [] { ParseNothing(); }
  }

  lemma {:induction false} JsonGrows(events: seq<Event>, i: nat, m: nat)
    requires m <= |events| && After(Before, events) != Bad && i < Started(After(Before, events[..m]))
    ensures After(Before, events[..m]) != Bad && i < Started(After(Before, events))
    ensures JsonOf(events[..m], i) <= JsonOf(events, i) && StartOf(events[..m], i) == StartOf(events, i)
    ensures HasJson(events[..m], i) ==> HasJson(events, i)
  {
    if m == |events| {
      assert events[..m] == events;
    } else {
      var earlier := events[..|events| - 1];
      assert earlier[..m] == events[..m];
      JsonGrows(earlier, i, m);
    }
  }

  /** Later events never take back what reading a tool input showed. */
  lemma ToolInputGrows(events: seq<Event>, i: nat, m: nat, d: Text, v: Json)
    requires m <= |events| && After(Before, events) != Bad && JsonOf(events, i) <= d
    requires Arriving(events[..m], i, d) && !Stopped(events[..m], i)
    requires Denotes(d, v) && v.Object? && InputReadable(JsonOf(events[..m], i)) && InputReadable(JsonOf(events, i))
    ensures var x, y := InputValue(Built(events[..m], i).input), InputValue(Built(events, i).input);
      x.Value? && y.Value? && PartialOf(x.v, y.v)
  {
    JsonGrows(events, i, m);
    InputIsJsonSent(events[..m], i);
    InputIsJsonSent(events, i);
    BuffersGrow(JsonOf(events[..m], i), JsonOf(events, i), d, v);
  }

  lemma BuffersGrow(s: Text, t: Text, d: Text, v: Json)
    requires Denotes(d, v) && v.Object? && s <= t <= d && InputReadable(s) && InputReadable(t)
    ensures InputValue(Lazy(s)).Value? && InputValue(Lazy(t)).Value? && InputValue(Fixed(t)) == InputValue(Lazy(t))
    ensures PartialOf(InputValue(Lazy(s)).v, InputValue(Lazy(t)).v)
  {
    hide Denotes, HasBegun, PartialParse;
    assert s == d[..|s|] && t == d[..|t|];
    if s != [] {
      NeverTakenBack(d, v, |s|, |t|);
    } else if t != [] {
      PrefixIsPartialView(d, v, |t|);
    }
  }

  // ----- a stream that is cut short -----

  predicate Reads(json: Text, readable: Text -> bool) { json == [] || readable(json) }

  /** What has come for a tool that has not stopped can be read. */
  predicate InputReads(events: seq<Event>, i: nat, readable: Text -> bool) {
    StartOf(events, i).kind == ToolBlock && HasJson(events, i) && !Stopped(events, i) ==>
      Reads(JsonOf(events, i), readable)
  }

  /** If `e` stops a block, its input can be read. */
  predicate StopReads(earlier: seq<Event>, e: Event, readable: Text -> bool) {
    e.BlockStop? ==> InputReads(earlier, e.index, readable)
  }

  /** If the last event is a JSON delta, the input of the block started last can be read. */
  predicate DeltaReads(events: seq<Event>, readable: Text -> bool)
    requires events != []
  {
    var e, started := events[|events| - 1], Started(After(Before, events));
    e.BlockDelta? && e.delta.InputJsonDelta? && started > 0 ==> InputReads(events, started - 1, readable)
  }

  /** The text sent for index `i`, what its block started with included. */
  function SentText(events: seq<Event>, i: nat): Text { Or(StartOf(events, i).text, []) + TextOf(events, i) }

  /** Every text sent parses by itself. */
  predicate TextsParse(events: seq<Event>, parses: Text -> bool) {
    forall i :: 0 <= i < Started(After(Before, events)) ==> TextParses(events, i, parses)
  }

  predicate TextParses(events: seq<Event>, i: nat, parses: Text -> bool) {
    StartOf(events, i).kind == TextBlock ==> parses(SentText(events, i))
  }

  /** If `e` stops the message, its texts parse. */
  predicate EndParses(earlier: seq<Event>, e: Event, parses: Text -> bool) {
    e.MessageStop? ==> TextsParse(earlier, parses)
  }

  /**
   Everything can be read when it is: an input as its block stops and at each JSON delta that someone
   listens to, the texts as the message stops; and the server reports no error.
   */
  predicate AllRead(events: seq<Event>, listening: nat -> bool, reader: Reader) {
    forall n :: 0 <= n < |events| ==> ReadAt(events, n, listening, reader)
  }

  predicate ReadAt(events: seq<Event>, n: nat, listening: nat -> bool, reader: Reader)
    requires n < |events|
  {
    && !events[n].Error?
    && StopReads(events[..n], events[n], reader.readable)
    && (listening(n) ==> DeltaReads(events[..n + 1], reader.readable))
    && EndParses(events[..n], events[n], reader.parses)
  }

  /** Blocks start without JSON of their own. */
  predicate StartsClean(events: seq<Event>) {
    forall n :: 0 <= n < |events| && events[n].BlockStart? ==> IsClean(events[n].block)
  }

  predicate IsClean(b: Block) { b.json == None && !b.input.Lazy? }

  lemma {:induction false} CleanStart(events: seq<Event>, i: nat)
    requires StartsClean(events)
    ensures IsClean(StartOf(events, i))
  {
    if events != [] {
      var earlier := events[..|events| - 1];
      assert forall n :: 0 <= n < |earlier| ==> earlier[n] == events[n];
      assert events[|events| - 1].BlockStart? ==> IsClean(events[|events| - 1].block);
      CleanStart(earlier, i);
    }
  }

  lemma {:induction false} KindKept(events: seq<Event>, i: nat)
    ensures Built(events, i).kind == StartOf(events, i).kind
  {
    if events != [] { KindKept(events[..|events| - 1], i); }
  }

  /** What a block holds is what was sent for it. */
  lemma HeldIsSent(events: seq<Event>, i: nat, readable: Text -> bool)
    requires After(Before, events) != Bad && StartsClean(events) && i < Started(After(Before, events))
    ensures Unreadable(Built(events, i), readable) <==> !InputReads(events, i, readable)
    ensures Unreadable(Built(events, i), readable) ==> Built(events, i).json.Some?
  {
    hide Built, StartOf, HasJson, JsonOf, Stopped, StartsClean, After;
    CleanStart(events, i);
    KindKept(events, i);
    if StartOf(events, i).kind == ToolBlock { InputIsJsonSent(events, i); }
  }

  lemma CleanEarlier(events: seq<Event>, n: nat)
    requires StartsClean(events) && n <= |events|
    ensures StartsClean(events[..n])
  {
    assert forall k :: 0 <= k < n ==> events[..n][k] == events[k];
  }

  /** The block that stops is one that was started. */
  lemma StoppingStarted(events: seq<Event>)
    requires events != [] && After(Before, events) != Bad && events[|events| - 1].BlockStop?
    ensures var earlier := events[..|events| - 1];
      After(Before, earlier) != Bad && events[|events| - 1].index < Started(After(Before, earlier))
  {
    OpenBelowNext(events[..|events| - 1]);
  }

  /** The snapshot's block at a position that has been started. */
  lemma BlockAt(events: seq<Event>, i: nat)
    requires After(Before, events) != Bad && i < Started(After(Before, events))
    ensures var s := Folded(Live(None), events);
      && s.Live? && s.snapshot.Some? && |s.snapshot.value.content| == Started(After(Before, events))
      && s.snapshot.value.content[i] == Built(events, i)
  {
    PositionIsIndex(events);
  }

  lemma StopReadsSent(events: seq<Event>, readable: Text -> bool)
    requires events != [] && After(Before, events) != Bad && StartsClean(events)
    ensures var earlier, e := events[..|events| - 1], events[|events| - 1];
      StopFails(Folded(Live(None), earlier), e, readable) <==> !StopReads(earlier, e, readable)
  {
    hide After, StartsClean, Built, InputReads, Folded, Unreadable;
    var earlier, e := events[..|events| - 1], events[|events| - 1];
    if e.BlockStop? {
      StoppingStarted(events);
      CleanEarlier(events, |events| - 1);
      BlockAt(earlier, e.index);
      HeldIsSent(earlier, e.index, readable);
    }
  }

  /** A delta comes only once a block has been started. */
  lemma DeltaStarted(events: seq<Event>)
    requires events != [] && After(Before, events) != Bad && events[|events| - 1].BlockDelta?
    ensures Started(After(Before, events)) > 0 && After(Before, events) != Before
  {
    OpenBelowNext(events[..|events| - 1]);
  }

  lemma DeltaReadsSent(events: seq<Event>, listening: bool, readable: Text -> bool)
    requires events != [] && After(Before, events) != Bad && StartsClean(events)
    ensures DeltaFails(Folded(Live(None), events), events[|events| - 1], listening, readable)
            <==> listening && !DeltaReads(events, readable)
  {
    hide Built, InputReads, StartsClean, After, Folded, Unreadable;
    if events[|events| - 1].BlockDelta? {
      DeltaStarted(events);
      BlockAt(events, Started(After(Before, events)) - 1);
      HeldIsSent(events, Started(After(Before, events)) - 1, readable);
    }
  }

  /** The texts that the snapshot holds are those that were sent. */
  lemma TextsSent(events: seq<Event>, parses: Text -> bool)
    requires After(Before, events) != Bad && After(Before, events) != Before
    ensures var s := Folded(Live(None), events);
      s.Live? && s.snapshot.Some? && (TextsFit(s.snapshot.value.content, parses) <==> TextsParse(events, parses))
  {
    PositionIsIndex(events);
    hide After, Built, StartOf, TextOf, Folded;
    var content := Folded(Live(None), events).snapshot.value.content;
    forall i | 0 <= i < |content|
      ensures TextFits(content[i], parses) <==> TextParses(events, i, parses)
    {
      KindKept(events, i);
      if StartOf(events, i).kind == TextBlock { TextIsStartPlusDeltas(events, i); }
    }
  }

  lemma EndParsesSent(events: seq<Event>, parses: Text -> bool)
    requires events != [] && After(Before, events) != Bad
    ensures var earlier, e := events[..|events| - 1], events[|events| - 1];
      TextFails(Folded(Live(None), earlier), e, parses) <==> !EndParses(earlier, e, parses)
  {
    hide TextsFit, TextsParse, Folded;
    if events[|events| - 1].MessageStop? { TextsSent(events[..|events| - 1], parses); }
  }

  /**
   A well-formed stream is taken to its end exactly when every tool input can be read each time it is,
   every text parses as the output asked for, and no error is reported; then the snapshot is the fold of
   all its events.
   */
  lemma {:induction false} TakenWhole(events: seq<Event>, listening: nat -> bool, reader: Reader)
    requires After(Before, events) != Bad && StartsClean(events)
    ensures !DeliverAll(events, listening, reader).ended <==> AllRead(events, listening, reader)
    ensures AllRead(events, listening, reader) ==>
      DeliverAll(events, listening, reader).state == Folded(Live(None), events)
  {
    if events != [] {
      var n := |events| - 1;
      CleanEarlier(events, n);
      TakenWhole(events[..n], listening, reader);
      PositionIsIndex(events[..n]);
      PositionIsIndex(events);
      StopReadsSent(events, reader.readable);
      DeltaReadsSent(events, listening(n), reader.readable);
      EndParsesSent(events, reader.parses);
      hide StopFails, DeltaFails, TextFails, StopReads, DeltaReads, EndParses, Accumulate, Built, After, StartsClean;
      AllReadNext(events, listening, reader);
    }
  }

  lemma AllReadNext(events: seq<Event>, listening: nat -> bool, reader: Reader)
    requires events != []
    ensures var n := |events| - 1;
      AllRead(events, listening, reader)
      <==> && AllRead(events[..n], listening, reader) && !events[n].Error?
           && StopReads(events[..n], events[n], reader.readable)
           && (listening(n) ==> DeltaReads(events, reader.readable))
           && EndParses(events[..n], events[n], reader.parses)
  {
    hide StopReads, DeltaReads, EndParses;
    var n := |events| - 1;
    assert events[..n + 1] == events;
    assert ReadAt(events, n, listening, reader)
      <==> && !events[n].Error? && StopReads(events[..n], events[n], reader.readable)
           && (listening(n) ==> DeltaReads(events, reader.readable))
           && EndParses(events[..n], events[n], reader.parses);
    forall k | 0 <= k < n
      ensures ReadAt(events[..n], k, listening, reader) <==> ReadAt(events, k, listening, reader)
    {
      assert events[..n][..k + 1] == events[..k + 1] && events[..n][..k] == events[..k];
    }
  }

  /** After its last block a stream sends nothing that changes a text. */
  lemma {:induction false} TextsStay(events: seq<Event>, listening: nat -> bool, reader: Reader)
    requires After(Before, events).Done? && AllRead(events, listening, reader)
    ensures TextsParse(events, reader.parses)
  {
    hide AllRead;
    var n := |events| - 1;
    var earlier, e := events[..n], events[n];
    AllReadNext(events, listening, reader);
    hide StopReads, DeltaReads;
    if !e.MessageStop? { TextsStay(earlier, listening, reader); }
    forall i | 0 <= i < Started(After(Before, events))
      ensures TextParses(events, i, reader.parses)
    {
      assert TextParses(earlier, i, reader.parses);
      assert TextOf(earlier, i) + [] == TextOf(earlier, i);
    }
  }

  /**
   The request behind a stream in good order ends without an error, with the fold of its events, exactly when
   the stream has begun, is taken to its end, and its texts parse; for a complete stream being taken to its
   end is enough.
   */
  lemma RequestSucceeds(events: seq<Event>, listening: nat -> bool, reader: Reader)
    requires After(Before, events) != Bad && StartsClean(events)
    ensures var result := RequestResult(DeliverAll(events, listening, reader), reader);
      && (result.Some?
          <==> AllRead(events, listening, reader) && After(Before, events) != Before
               && TextsParse(events, reader.parses))
      && (WellFormed(events) ==> (result.Some? <==> AllRead(events, listening, reader)))
      && (result.Some? ==> Folded(Live(None), events) == Live(result))
  {
    TakenWhole(events, listening, reader);
    PositionIsIndex(events);
    hide DeliverAll, AllRead, TextsFit, TextsParse, Built, Folded, StartsClean;
    if After(Before, events) != Before { TextsSent(events, reader.parses); }
    if WellFormed(events) && AllRead(events, listening, reader) { TextsStay(events, listening, reader); }
  }

  ghost predicate JsonReads(json: Text) { json == [] || PartialParse(json).Value? }

  /** The JSON of an object that is still arriving can be read, unless only white space has come. */
  lemma ArrivingReads(json: Text, d: Text, v: Json)
    requires Denotes(d, v) && v.Object? && json <= d
    ensures JsonReads(json) <==> InputReadable(json)
  {
    assert json == d[..|json|];
    if json != [] { PrefixIsPartialView(d, v, |json|); }
  }

  /** `json` begins the text of an object. */
  ghost predicate BeginsObject(json: Text) { exists d, v :: Denotes(d, v) && v.Object? && json <= d }

  /** Every tool is sent JSON that begins the text of an object. */
  ghost predicate ToolsArrive(events: seq<Event>) {
    forall i :: 0 <= i < Started(After(Before, events)) && StartOf(events, i).kind == ToolBlock ==>
      BeginsObject(JsonOf(events, i))
  }

  lemma ArrivesEarlier(events: seq<Event>, m: nat, i: nat)
    requires m <= |events| && After(Before, events) != Bad && ToolsArrive(events)
    requires i < Started(After(Before, events[..m])) && StartOf(events[..m], i).kind == ToolBlock
    ensures JsonReads(JsonOf(events[..m], i)) <==> InputReadable(JsonOf(events[..m], i))
  {
    JsonGrows(events, i, m);
    assert BeginsObject(JsonOf(events, i));
    var d, v :| Denotes(d, v) && v.Object? && JsonOf(events, i) <= d;
    ArrivingReads(JsonOf(events[..m], i), d, v);
  }

  /** `readable` is `JSON.parse` after repair; `begun` is being more than white space. */
  ghost predicate Decides(readable: Text -> bool, begun: Text -> bool) {
    forall j :: (readable(j) <==> PartialParse(j).Value?) && (begun(j) <==> HasBegun(j))
  }

  lemma SameReading(events: seq<Event>, m: nat, i: nat, readable: Text -> bool, begun: Text -> bool)
    requires m <= |events| && After(Before, events) != Bad && ToolsArrive(events) && Decides(readable, begun)
    requires i < Started(After(Before, events[..m]))
    ensures InputReads(events[..m], i, readable) <==> InputReads(events[..m], i, begun)
  {
    hide After, StartOf, HasJson, JsonOf, Stopped, ToolsArrive;
    if StartOf(events[..m], i).kind == ToolBlock { ArrivesEarlier(events, m, i); }
  }

  lemma StopArriving(events: seq<Event>, n: nat, readable: Text -> bool, begun: Text -> bool)
    requires n < |events| && After(Before, events) != Bad && ToolsArrive(events) && Decides(readable, begun)
    ensures StopReads(events[..n], events[n], readable) <==> StopReads(events[..n], events[n], begun)
  {
    hide ToolsArrive, Decides, After, InputReads;
    if events[n].BlockStop? {
      var now := events[..n + 1];
      assert now[..n] == events[..n];
      NotBadBefore(events, n + 1);
      StoppingStarted(now);
      SameReading(events, n, events[n].index, readable, begun);
    }
  }

  lemma DeltaArriving(events: seq<Event>, n: nat, readable: Text -> bool, begun: Text -> bool)
    requires n < |events| && After(Before, events) != Bad && ToolsArrive(events) && Decides(readable, begun)
    ensures DeltaReads(events[..n + 1], readable) <==> DeltaReads(events[..n + 1], begun)
  {
    hide ToolsArrive, Decides, After, InputReads;
    var started := Started(After(Before, events[..n + 1]));
    if started > 0 { SameReading(events, n + 1, started - 1, readable, begun); }
  }

  lemma NotBadBefore(events: seq<Event>, n: nat)
    requires n <= |events| && After(Before, events) != Bad
    ensures After(Before, events[..n]) != Bad
  {
    assert events == events[..n] + events[n..];
    AfterAppend(Before, events[..n], events[n..]);
    BadStays(events[n..]);
  }

  /**
   While every tool is sent the JSON of an object, a stream is cut short exactly when, as one of its
   blocks stops or at a JSON delta that someone listens to, what has come is white space and nothing else,
   or when a text does not parse as the message stops, or when an error is reported.
   */
  lemma CutByWhiteSpace(events: seq<Event>, listening: nat -> bool, reader: Reader, begun: Text -> bool)
    requires After(Before, events) != Bad && StartsClean(events) && ToolsArrive(events)
    requires Decides(reader.readable, begun)
    ensures DeliverAll(events, listening, reader).ended
            <==> exists n :: 0 <= n < |events| && !ReadAt(events, n, listening, reader.(readable := begun))
  {
    TakenWhole(events, listening, reader);
    hide DeliverAll, ToolsArrive, Decides, StopReads, DeltaReads, EndParses;
    forall n | 0 <= n < |events|
      ensures ReadAt(events, n, listening, reader) <==> ReadAt(events, n, listening, reader.(readable := begun))
    {
      StopArriving(events, n, reader.readable, begun);
      DeltaArriving(events, n, reader.readable, begun);
    }
  }

  // ----- an input that cannot be read -----

  function FirstPiece(m: Message, tool: Block, json: Text): seq<Event> {
    [MessageStart(m), BlockStart(0, tool), BlockDelta(0, InputJsonDelta(json))]
  }

  /** One more event, and what has been sent for a block. */
  lemma OneMore(events: seq<Event>, e: Event, i: nat)
    ensures var all := events + [e];
      && StartOf(all, i) == (if e.BlockStart? && e.index == i then e.block else StartOf(events, i))
      && JsonOf(all, i) == JsonOf(events, i) + (if IsJsonFor(e, i) then e.delta.json else [])
      && TextOf(all, i) == TextOf(events, i) + (if IsTextFor(e, i) then e.delta.text else [])
      && (HasJson(all, i) <==> IsJsonFor(e, i) || HasJson(events, i))
      && (Stopped(all, i) <==> e == BlockStop(i) || Stopped(events, i))
  {
    assert (events + [e])[..|events|] == events;
  }

  lemma NothingSent(i: nat)
    ensures After(Before, []) == Before && StartOf([], i) == EMPTY_BLOCK && JsonOf([], i) == [] && TextOf([], i) == []
    ensures !HasJson([], i) && !Stopped([], i)
  {
  }

  /** What the first piece of a tool's JSON leaves behind. */
  lemma FirstPieceLeaves(m: Message, tool: Block, json: Text)
    requires m.content == [] && tool.kind == ToolBlock && IsClean(tool)
    ensures var events := FirstPiece(m, tool, json);
      && After(Before, events) == Streaming(1, {0}) && StartsClean(events)
      && StartOf(events, 0) == tool && HasJson(events, 0) && JsonOf(events, 0) == json && !Stopped(events, 0)
      && Built(events, 0).input == Lazy(json)
  {
    var events := FirstPiece(m, tool, json);
    FirstPieceSent(m, tool, json);
    AfterThree(Before, events[0], events[1], events[2]);
    assert events == [events[0], events[1], events[2]] && {} + {0} == {0};
    hide After, StartOf, JsonOf, HasJson, Stopped, Built;
    InputIsJsonSent(events, 0);
  }

  lemma FirstPieceSent(m: Message, tool: Block, json: Text)
    ensures var events := FirstPiece(m, tool, json);
      StartOf(events, 0) == tool && HasJson(events, 0) && JsonOf(events, 0) == json && !Stopped(events, 0)
  {
    var e0, e1, e2 := MessageStart(m), BlockStart(0, tool), BlockDelta(0, InputJsonDelta(json));
    hide StartOf, JsonOf, TextOf, HasJson, Stopped;
    NothingSent(0);
    OneMore([], e0, 0);
    OneMore([e0], e1, 0);
    OneMore([e0, e1], e2, 0);
    assert [] + [e0] == [e0] && [e0] + [e1] == [e0, e1] && [e0, e1] + [e2] == FirstPiece(m, tool, json);
    assert [] + json == json;
  }

  lemma SpaceBeginsObject()
    ensures Denotes([SPACE, LBRACE, RBRACE], Object([])) && BeginsObject([SPACE])
  {
    var d: Text, gaps: seq<Text> := [SPACE, LBRACE, RBRACE], [[SPACE], [], []];
    var v := Object([]);
    assert MemberTokens([]) == [];
    assert Tokens(v) == [OPEN_BRACE, CLOSE_BRACE];
    assert [OPEN_BRACE, CLOSE_BRACE][1..] == [CLOSE_BRACE] && [CLOSE_BRACE][1..] == [];
    assert gaps[1..] == [[], []] && gaps[1..][1..] == [[]];
    assert Render([], [[]]) == [];
    assert Render([CLOSE_BRACE], [[], []]) == [RBRACE];
    assert Render(Tokens(v), gaps) == d;
    assert IsLayout(gaps, Tokens(v));
    BeginsWith([SPACE], d, v);
  }

  lemma BeginsWith(json: Text, d: Text, v: Json)
    requires Denotes(d, v) && v.Object? && json <= d
    ensures BeginsObject(json)
  {
  }

  lemma FirstPieceRead(m: Message, tool: Block, json: Text, listening: nat -> bool, reader: Reader)
    requires m.content == [] && tool.kind == ToolBlock && IsClean(tool)
    ensures AllRead(FirstPiece(m, tool, json), listening, reader)
            <==> (listening(2) ==> Reads(json, reader.readable))
  {
    var events := FirstPiece(m, tool, json);
    FirstPieceLeaves(m, tool, json);
    assert InputReads(events, 0, reader.readable) <==> Reads(json, reader.readable);
    assert DeltaReads(events, reader.readable) <==> Reads(json, reader.readable);
    hide After, StartsClean, StartOf, HasJson, JsonOf, Stopped, Built, InputReads, Reads;
    assert events[..1][0] == events[0] && events[..2][1] == events[1] && events[..3] == events;
    assert ReadAt(events, 0, listening, reader) && ReadAt(events, 1, listening, reader);
    hide DeltaReads;
    assert ReadAt(events, 2, listening, reader) <==> (listening(2) ==> DeltaReads(events, reader.readable));
  }

  /**
   A first piece that is only a space, with all of an object still to come: reading the input fails, and
   whoever listens for inputs ends the stream there, while otherwise it goes on.
   */
  lemma SpaceFirst(m: Message, tool: Block, listening: nat -> bool, reader: Reader)
    requires m.content == [] && tool.kind == ToolBlock && IsClean(tool)
    requires reader.readable([SPACE]) <==> PartialParse([SPACE]).Value?
    ensures var events := FirstPiece(m, tool, [SPACE]);
      && BeginsObject(JsonOf(events, 0)) && InputValue(Built(events, 0).input) == SyntaxError
      && (DeliverAll(events, listening, reader).ended <==> listening(2))
  {
    var events := FirstPiece(m, tool, [SPACE]);
    WhiteSpaceUnread([SPACE]);
    assert InputValue(Lazy([SPACE])) == SyntaxError;
    hide InputValue, Denotes;
    SpaceBeginsObject();
    FirstPieceLeaves(m, tool, [SPACE]);
    hide DeliverAll, AllRead, After, StartsClean, StartOf, HasJson, JsonOf, Stopped, Built, BeginsObject, PartialParse;
    FirstPieceRead(m, tool, [SPACE], listening, reader);
    TakenWhole(events, listening, reader);
  }

  // ----- a text that is not the output asked for -----

  /** A complete message of one text block. */
  function OneText(m: Message, text: Text, stop: Stop, usage: Usage): seq<Event> {
    [MessageStart(m), BlockStart(0, EMPTY_BLOCK.(kind := TextBlock, text := Some(text))), BlockStop(0),
     MessageDelta(stop, usage, None), MessageStop]
  }

  lemma OneTextForm(m: Message, text: Text, stop: Stop, usage: Usage)
    requires m.content == []
    ensures var events := OneText(m, text, stop, usage);
      && WellFormed(events) && Started(After(Before, events)) == 1 && After(Before, events[..4]) == Closing(1)
  {
    var events := OneText(m, text, stop, usage);
    var front, e3, e4 := events[..3], events[3], events[4];
    assert front == [events[0], events[1], events[2]];
    AfterThree(Before, events[0], events[1], events[2]);
    assert {} + {0} == {0} && {0} - {0} == {};
    assert After(Before, front) == Streaming(1, {});
    hide After;
    AfterOne(Streaming(1, {}), e3);
    AfterTwo(Streaming(1, {}), e3, e4);
    assert front + [e3] == events[..4] && front + [e3, e4] == events;
    AfterAppend(Before, front, [e3]);
    AfterAppend(Before, front, [e3, e4]);
  }

  /** After the start of its only block nothing is sent for it. */
  lemma {:induction false} OnlyStart(events: seq<Event>, n: nat)
    requires 2 <= n <= |events| && events[1].BlockStart? && events[1].index == 0
    requires forall k :: 2 <= k < |events| ==> !events[k].BlockStart? && !events[k].BlockDelta?
    requires !events[0].BlockDelta?
    ensures StartOf(events[..n], 0) == events[1].block && TextOf(events[..n], 0) == []
  {
    assert events[..n][..n - 1] == events[..n - 1];
    assert TextOf(events[..n - 1], 0) + [] == TextOf(events[..n - 1], 0);
    if n > 2 {
      OnlyStart(events, n - 1);
    } else {
      assert events[..1][..0] == [];
      assert TextOf(events[..1], 0) == TextOf([], 0) + [];
    }
  }

  lemma OneTextSent(m: Message, text: Text, stop: Stop, usage: Usage, n: nat)
    requires 2 <= n <= 5
    ensures var events := OneText(m, text, stop, usage)[..n];
      StartOf(events, 0).kind == TextBlock && SentText(events, 0) == text
  {
    OnlyStart(OneText(m, text, stop, usage), n);
    assert text + [] == text;
  }

  /** A message of one text is taken to its end exactly when that text is the output asked for. */
  lemma OneTextParsed(m: Message, text: Text, stop: Stop, usage: Usage, listening: nat -> bool, reader: Reader)
    requires m.content == []
    ensures var events := OneText(m, text, stop, usage);
      && (DeliverAll(events, listening, reader).ended <==> !reader.parses(text))
      && (RequestResult(DeliverAll(events, listening, reader), reader).Some? <==> reader.parses(text))
  {
    var events := OneText(m, text, stop, usage);
    OneTextForm(m, text, stop, usage);
    OneTextSent(m, text, stop, usage, 4);
    assert TextsParse(events[..4], reader.parses) <==> reader.parses(text) by {
      assert TextParses(events[..4], 0, reader.parses) <==> reader.parses(text);
    }
    hide After, StartOf, TextOf, HasJson, JsonOf, Stopped, TextsParse, DeliverAll, StartsClean;
    RequestSucceeds(events, listening, reader);
    TakenWhole(events, listening, reader);
    assert ReadAt(events, 4, listening, reader) <==> TextsParse(events[..4], reader.parses);
    NoJsonRead(events, listening, reader);
  }

  /** Without a tool no input is read. */
  lemma NoJsonRead(events: seq<Event>, listening: nat -> bool, reader: Reader)
    requires forall n :: 0 <= n < |events| ==> !events[n].BlockDelta? && !events[n].Error?
    ensures AllRead(events, listening, reader)
            <==> forall n :: 0 <= n < |events| ==> EndParses(events[..n], events[n], reader.parses)
  {
    hide EndParses, After, Started, StartOf;
    forall n | 0 <= n < |events|
      ensures ReadAt(events, n, listening, reader) <==> EndParses(events[..n], events[n], reader.parses)
    {
      if events[n].BlockStop? { NeverJson(events, n, events[n].index); }
      assert events[..n + 1][n] == events[n];
    }
  }

  lemma {:induction false} NeverJson(events: seq<Event>, n: nat, i: nat)
    requires n <= |events| && forall k :: 0 <= k < |events| ==> !events[k].BlockDelta?
    ensures !HasJson(events[..n], i)
  {
    if n > 0 {
      assert events[..n][..n - 1] == events[..n - 1];
      NeverJson(events, n - 1, i);
    }
  }
}
