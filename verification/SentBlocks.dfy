/**
 What was sent for a block and for a message, read off the events alone, and that the accumulator's
 snapshot holds it, field by field.
 */
module SentBlocks {
  import opened CodeUnits
  import opened Options
  import opened MessageEvents
  import opened Accumulator

  // ----- the deltas for one index -----

  /** All the deltas that name index `i`, in order. */
  function DeltasFor(events: seq<Event>, i: nat): seq<Delta> {
    if events == [] then []
    else
      var earlier, e := events[..|events| - 1], events[|events| - 1];
      DeltasFor(earlier, i) + (if e.BlockDelta? && e.index == i then [e.delta] else [])
  }

  /** All the text among some deltas, if there is any. */
  function Texts(ds: seq<Delta>): Option<Text> {
    if ds == [] then None
    else
      var earlier, d := Texts(ds[..|ds| - 1]), ds[|ds| - 1];
      if d.TextDelta? then Some(Or(earlier, []) + d.text) else earlier
  }

  function Thoughts(ds: seq<Delta>): Option<Text> {
    if ds == [] then None
    else
      var earlier, d := Thoughts(ds[..|ds| - 1]), ds[|ds| - 1];
      if d.ThinkingDelta? then Some(Or(earlier, []) + d.thinking) else earlier
  }

  function Jsons(ds: seq<Delta>): Option<Text> {
    if ds == [] then None
    else
      var earlier, d := Jsons(ds[..|ds| - 1]), ds[|ds| - 1];
      if d.InputJsonDelta? then Some(Or(earlier, []) + d.json) else earlier
  }

  function Cited(ds: seq<Delta>): Option<seq<Text>> {
    if ds == [] then None
    else
      var earlier, d := Cited(ds[..|ds| - 1]), ds[|ds| - 1];
      if d.CitationsDelta? then Some(Or(earlier, []) + [d.citation]) else earlier
  }

  /** The last signature. */
  function Signed(ds: seq<Delta>): Option<Text> {
    if ds == [] then None
    else
      var d := ds[|ds| - 1];
      if d.SignatureDelta? then Some(d.signature) else Signed(ds[..|ds| - 1])
  }

  /** The content of the last compaction. */
  function Compacted(ds: seq<Delta>): Option<Option<Text>> {
    if ds == [] then None
    else
      var d := ds[|ds| - 1];
      if d.CompactionDelta? then Some(d.content) else Compacted(ds[..|ds| - 1])
  }

  /** The encrypted content of the last compaction that carries one. */
  function Encrypted(ds: seq<Delta>): Option<Option<Text>> {
    if ds == [] then None
    else
      var d := ds[|ds| - 1];
      if d.CompactionDelta? && d.encrypted.Some? then d.encrypted else Encrypted(ds[..|ds| - 1])
  }

  /** What was there, and what was added, if anything was. */
  function Extended<T>(start: Option<seq<T>>, added: Option<seq<T>>): Option<seq<T>> {
    if added.None? then start else Some(Or(start, []) + added.value)
  }

  /** A block that holds what it started with and what the deltas of its own kind say. */
  predicate Holds(b: Block, start: Block, ds: seq<Delta>) {
    && b.kind == start.kind && b.seam == start.seam
    && b.text == (if start.kind == TextBlock then Extended(start.text, Texts(ds)) else start.text)
    && b.citations == (if start.kind == TextBlock then Extended(start.citations, Cited(ds)) else start.citations)
    && b.thinking == (if start.kind == ThinkingBlock then Extended(start.thinking, Thoughts(ds)) else start.thinking)
    && b.signature
       == (if start.kind == ThinkingBlock && Signed(ds).Some? then Some(Signed(ds).value) else start.signature)
    && b.content == (if start.kind == CompactionBlock then Or(Compacted(ds), start.content) else start.content)
    && b.encrypted == (if start.kind == CompactionBlock then Or(Encrypted(ds), start.encrypted) else start.encrypted)
    && b.json == (if start.kind == ToolBlock then Extended(start.json, Jsons(ds)) else start.json)
  }

  /** The input of a tool that started without JSON: what it came with, or what the JSON sent for it says. */
  predicate InputHolds(b: Block, start: Block, ds: seq<Delta>, stopped: bool) {
    b.input == if start.kind != ToolBlock || Jsons(ds).None? then start.input
               else if stopped then Fixed(Jsons(ds).value)
               else Lazy(Jsons(ds).value)
  }

  lemma NoDeltas()
    ensures Texts([]) == None && Thoughts([]) == None && Jsons([]) == None && Cited([]) == None && Signed([]) == None
    ensures Compacted([]) == None && Encrypted([]) == None
  {
  }

  lemma DeltasNext(ds: seq<Delta>, d: Delta)
    ensures var now := ds + [d];
      && Texts(now) == (if d.TextDelta? then Some(Or(Texts(ds), []) + d.text) else Texts(ds))
      && Thoughts(now) == (if d.ThinkingDelta? then Some(Or(Thoughts(ds), []) + d.thinking) else Thoughts(ds))
      && Jsons(now) == (if d.InputJsonDelta? then Some(Or(Jsons(ds), []) + d.json) else Jsons(ds))
      && Cited(now) == (if d.CitationsDelta? then Some(Or(Cited(ds), []) + [d.citation]) else Cited(ds))
      && Signed(now) == (if d.SignatureDelta? then Some(d.signature) else Signed(ds))
      && Compacted(now) == (if d.CompactionDelta? then Some(d.content) else Compacted(ds))
      && Encrypted(now) == (if d.CompactionDelta? && d.encrypted.Some? then d.encrypted else Encrypted(ds))
  {
    assert (ds + [d])[..|ds|] == ds;
  }

  lemma ExtendedNext<T>(start: Option<seq<T>>, was: Option<seq<T>>, more: seq<T>)
    ensures Extended(start, Some(Or(was, []) + more)) == Some(Or(Extended(start, was), []) + more)
  {
    assert Or(start, []) + (Or(was, []) + more) == Or(start, []) + Or(was, []) + more;
    assert [] + more == more;
    assert Or(start, []) + [] == Or(start, []);
  }

  /** One more delta keeps what is held in step with what was sent. */
  lemma HoldsNext(b: Block, start: Block, ds: seq<Delta>, d: Delta)
    requires Holds(b, start, ds)
    ensures Holds(ApplyDelta(b, d), start, ds + [d])
  {
    DeltasNext(ds, d);
    match d
    case TextDelta(t) => ExtendedNext(start.text, Texts(ds), t);
    case ThinkingDelta(t) => ExtendedNext(start.thinking, Thoughts(ds), t);
    case InputJsonDelta(p) => ExtendedNext(start.json, Jsons(ds), p);
    case CitationsDelta(c) => ExtendedNext(start.citations, Cited(ds), [c]);
    case _ =>
  }

  lemma HoldsSettled(b: Block, start: Block, ds: seq<Delta>)
    requires Holds(b, start, ds)
    ensures Holds(Settle(b), start, ds)
  {
  }

  lemma {:induction false} NoDeltasYet(events: seq<Event>, i: nat)
    requires After(Before, events) != Bad && i >= Started(After(Before, events))
    ensures DeltasFor(events, i) == []
  {
    if events != [] {
      NoDeltasYet(events[..|events| - 1], i);
      OpenBelowNext(events[..|events| - 1]);
    }
  }

  /** The block at each position of the snapshot holds what was sent for that index, field by field. */
  lemma {:induction false} BuiltIsSent(events: seq<Event>, i: nat)
    requires After(Before, events) != Bad && i < Started(After(Before, events))
    ensures Holds(Built(events, i), StartOf(events, i), DeltasFor(events, i))
  {
    var earlier, e := events[..|events| - 1], events[|events| - 1];
    OpenBelowNext(earlier);
    hide ApplyDelta, Settle, Holds;
    if e.BlockStart? && e.index == i {
      NoDeltasYet(earlier, i);
      FreshHolds(e.block);
    } else {
      BuiltIsSent(earlier, i);
      if e.BlockDelta? && e.index == i {
        HoldsNext(Built(earlier, i), StartOf(earlier, i), DeltasFor(earlier, i), e.delta);
      } else if e.BlockStop? && e.index == i {
        HoldsSettled(Built(earlier, i), StartOf(earlier, i), DeltasFor(earlier, i));
      }
      assert DeltasFor(earlier, i) + [] == DeltasFor(earlier, i);
    }
  }

  lemma FreshHolds(b: Block)
    ensures Holds(b, b, [])
  {
    NoDeltas();
  }

  lemma {:induction false} JsonsAreSent(events: seq<Event>, i: nat)
    ensures Jsons(DeltasFor(events, i)) == if HasJson(events, i) then Some(JsonOf(events, i)) else None
  {
    if events != [] {
      var earlier, e := events[..|events| - 1], events[|events| - 1];
      JsonsAreSent(earlier, i);
      NoJson(earlier, i);
      assert DeltasFor(earlier, i) + [] == DeltasFor(earlier, i) && JsonOf(earlier, i) + [] == JsonOf(earlier, i);
      if e.BlockDelta? { DeltasNext(DeltasFor(earlier, i), e.delta); }
    }
  }

  /** A tool's input is read from all the JSON sent for it, lazily until its block stops. */
  lemma InputIsSent(events: seq<Event>, i: nat)
    requires After(Before, events) != Bad && i < Started(After(Before, events)) && StartOf(events, i).json == None
    ensures InputHolds(Built(events, i), StartOf(events, i), DeltasFor(events, i), Stopped(events, i))
  {
    JsonsAreSent(events, i);
    hide After, Built, StartOf, JsonOf, HasJson, Stopped, DeltasFor, Jsons;
    if StartOf(events, i).kind == ToolBlock {
      InputIsJsonSent(events, i);
    } else {
      OtherInput(events, i);
    }
  }

  /** Only a tool's input ever changes. */
  lemma {:induction false} OtherInput(events: seq<Event>, i: nat)
    requires After(Before, events) != Bad && i < Started(After(Before, events))
    requires StartOf(events, i).kind != ToolBlock
    ensures Built(events, i).input == StartOf(events, i).input && Built(events, i).kind == StartOf(events, i).kind
  {
    var earlier, e := events[..|events| - 1], events[|events| - 1];
    if !(e.BlockStart? && e.index == i) { OtherInput(earlier, i); }
  }

  // ----- the message around the blocks -----

  /** What the message_start says. */
  function StartMessage(events: seq<Event>): Option<Message> {
    if events == [] then None
    else
      var e := events[|events| - 1];
      if e.MessageStart? then Some(e.message) else StartMessage(events[..|events| - 1])
  }

  /** The message_delta, once it has come. */
  function EndDelta(events: seq<Event>): Option<Event> {
    if events == [] then None
    else
      var e := events[|events| - 1];
      if e.MessageDelta? then Some(e) else EndDelta(events[..|events| - 1])
  }

  function Get(counts: map<string, nat>, name: string): Option<nat> {
    if name in counts then Some(counts[name]) else None
  }

  /** The counters that the message_delta gives anew when it carries them; it always gives the output tokens. */
  function CounterAfter(start: Usage, end: Usage, name: string): Option<nat> {
    if name == "output_tokens" then Get(end.counts, name)
    else if name in end.counts
            && (|| name == "input_tokens" || name == "cache_creation_input_tokens"
                || name == "cache_read_input_tokens" || name == "server_tool_use" || name == "fallback_credit"
                || name == "output_tokens_details") then Some(end.counts[name])
    else Get(start.counts, name)
  }

  /** A message that says what its start and, once it has come, its message_delta said. */
  ghost predicate Reports(m: Message, start: Message, end: Option<Event>) {
    match end
    case Some(MessageDelta(stop, usage, transformations)) =>
      && m.stop == Some(stop)
      && m.transformations == (if transformations.Some? then transformations else start.transformations)
      && m.usage.iterations == (if usage.iterations.Some? then usage.iterations else start.usage.iterations)
      && forall name: string :: Get(m.usage.counts, name) == CounterAfter(start.usage, usage, name)
    case _ => m.stop == start.stop && m.usage == start.usage && m.transformations == start.transformations
  }

  lemma MergedCounters(u: Usage, d: Usage)
    ensures forall name: string :: Get(MergeUsage(u, d).counts, name) == CounterAfter(u, d, name)
  {
  }

  /** Only one message_delta comes, and nothing of it before. */
  lemma {:induction false} NoEndYet(events: seq<Event>)
    requires After(Before, events).Streaming? || After(Before, events).Before?
    ensures EndDelta(events).None? && (After(Before, events).Before? ==> StartMessage(events).None?)
  {
    if events != [] { NoEndYet(events[..|events| - 1]); }
  }

  /** The rest of the snapshot: stop reason, transformations, and every counter. */
  lemma {:induction false} SnapshotReports(events: seq<Event>)
    requires After(Before, events) != Bad && After(Before, events) != Before
    ensures var s := Folded(Live(None), events);
      && StartMessage(events).Some? && s.Live? && s.snapshot.Some?
      && Reports(s.snapshot.value, StartMessage(events).value, EndDelta(events))
  {
    var earlier, e := events[..|events| - 1], events[|events| - 1];
    PositionIsIndex(earlier);
    PositionIsIndex(events);
    hide Built, MergeUsage, ApplyDelta, Settle, CounterAfter, Get;
    if e.MessageStart? {
      if After(Before, earlier) == Before { NoEndYet(earlier); }
    } else {
      SnapshotReports(earlier);
      if e.MessageDelta? {
        NoEndYet(earlier);
        MergedCounters(StartMessage(events).value.usage, e.usage);
      }
    }
  }

  // ----- streams out of order -----

  function MessageStarts(events: seq<Event>): nat {
    if events == [] then 0
    else MessageStarts(events[..|events| - 1]) + (if events[|events| - 1].MessageStart? then 1 else 0)
  }

  /** Whatever the order, nothing is held before a message_start, and a second one is an error. */
  lemma {:induction false} SecondStartFails(events: seq<Event>)
    ensures var s := Folded(Live(None), events);
      && (s.Failed? <==> MessageStarts(events) >= 2)
      && (s.Live? ==> (s.snapshot.None? <==> MessageStarts(events) == 0))
  {
    if events != [] { SecondStartFails(events[..|events| - 1]); }
  }

  /** That error ends the stream. */
  lemma {:induction false} SecondStartEnds(events: seq<Event>, listening: nat -> bool, reader: Reader)
    ensures var taken := DeliverAll(events, listening, reader);
      && (MessageStarts(events) >= 2 ==> taken.ended)
      && (!taken.ended ==> taken.state == Folded(Live(None), events))
  {
    if events != [] {
      SecondStartEnds(events[..|events| - 1], listening, reader);
      SecondStartFails(events);
      SecondStartFails(events[..|events| - 1]);
      hide StopFails, DeltaFails, TextFails, Updated;
    }
  }

  /** A delta or a stop for an index that has not been started changes nothing. */
  lemma UnknownIndex(m: Message, e: Event)
    requires (e.BlockDelta? || e.BlockStop?) && e.index >= |m.content|
    ensures Accumulate(Live(Some(m)), e) == Live(Some(m))
  {
  }
}
