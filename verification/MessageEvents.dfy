/** The events of a message stream, the blocks they build, and what makes a stream well formed. */
module MessageEvents {
  import opened CodeUnits
  import opened Options

  type Model = string

  // ----- usage -----

  datatype IterationKind = MessageIteration | FallbackMessageIteration

  datatype Iteration = Iteration(kind: IterationKind, model: Model,
                                 input: nat, output: nat, cacheRead: nat, cacheCreation: nat)

  /** Counters by name; a null counter is an absent one. */
  datatype Usage = Usage(counts: map<string, nat>, iterations: Option<seq<Iteration>>)

  function Count(u: Usage, name: string): nat { if name in u.counts then u.counts[name] else 0 }

  // ----- content blocks -----

  datatype BlockKind = TextBlock | ThinkingBlock | ToolBlock | CompactionBlock | FallbackBlock | OtherBlock

  /** What a `fallback` block says: one model boundary. */
  datatype Seam = Seam(from: Model, to: Model, category: Option<string>)

  /**
   A tool's input: as it came, read lazily from the JSON received so far, fixed when the block
   stops, or reparsed for a prefill from text that may not be JSON (`safeJSON(text) ?? otherwise`).
   */
  datatype Input =
    | Given(id: nat)
    | Lazy(buffer: Text)
    | Fixed(buffer: Text)
    | Reparsed(text: Text, otherwise: Input)

  datatype Block = Block(
    kind: BlockKind,
    text: Option<Text>,
    citations: Option<seq<Text>>,
    thinking: Option<Text>,
    signature: Option<Text>,
    content: Option<Text>,
    encrypted: Option<Text>,
    json: Option<Text>,
    input: Input,
    seam: Option<Seam>)

  const EMPTY_BLOCK := Block(OtherBlock, None, None, None, None, None, None, None, Given(0), None)

  datatype Delta =
    | TextDelta(text: Text)
    | InputJsonDelta(json: Text)
    | CitationsDelta(citation: Text)
    | ThinkingDelta(thinking: Text)
    | SignatureDelta(signature: Text)
    | CompactionDelta(content: Option<Text>, encrypted: Option<Option<Text>>)

  // ----- events -----

  /** `stop_details` of a refusal; `token` is the credit token, `claim` the prefill claim. */
  datatype Details = Details(token: Option<string>, claim: bool, category: Option<string>,
                             explanation: Option<string>, recommended: Option<Model>)

  /** A stop reason; a refusal's details are absent when they are not of the refusal sort. */
  datatype Stop = Refusal(details: Option<Details>) | Other(reason: string)

  datatype Transformations = Transformations(id: nat)

  datatype Message = Message(model: Model, content: seq<Block>, usage: Usage, stop: Option<Stop>,
                             transformations: Option<Transformations>)

  datatype Event =
    | MessageStart(message: Message)
    | BlockStart(index: nat, block: Block)
    | BlockDelta(index: nat, delta: Delta)
    | BlockStop(index: nat)
    | MessageDelta(stop: Stop, usage: Usage, transformations: Option<Transformations>)
    | MessageStop
    | Error(body: string)         // the server reports that something went wrong
    | Unrecognised(name: string)  // ping, comments, anything else

  // ----- well-formed streams -----

  datatype Phase =
    | Before
    | Streaming(next: nat, open: set<nat>)
    | Closing(next: nat)
    | Done(next: nat)
    | Bad

  predicate IsSeam(b: Block) { b.kind == FallbackBlock }

  /**
   One `message_start`; blocks started as 0, 1, 2, …; deltas and stops only for blocks that are open;
   a model boundary only when no block is open; one `message_delta`, with no block open unless it
   is a refusal, which may cut a block short; then `message_stop`. Errors and what is not recognised may
   come at any time.
   */
  function Next(q: Phase, e: Event): Phase {
    if e.Error? || e.Unrecognised? then q
    else
      match q
      case Before => if e.MessageStart? && e.message.content == [] then Streaming(0, {}) else Bad
      case Streaming(next, open) => (
        match e
        case BlockStart(i, b) =>
          if i == next && (IsSeam(b) ==> open == {}) then Streaming(next + 1, open + {i}) else Bad
        case BlockDelta(i, _) => if i in open then q else Bad
        case BlockStop(i) => if i in open then Streaming(next, open - {i}) else Bad
        case MessageDelta(stop, _, _) => if open == {} || stop.Refusal? then Closing(next) else Bad
        case _ => Bad
        )
      case Closing(next) => if e.MessageStop? then Done(next) else Bad
      case Done(_) => Bad
      case Bad => Bad
  }

  function After(q: Phase, events: seq<Event>): Phase {
    if events == [] then q else Next(After(q, events[..|events| - 1]), events[|events| - 1])
  }

  predicate WellFormed(events: seq<Event>) { After(Before, events).Done? }

  lemma {:induction false} AfterAppend(q: Phase, a: seq<Event>, b: seq<Event>)
    ensures After(q, a + b) == After(After(q, a), b)
  {
    if b == [] {
      assert a + b == a;
    } else {
      assert (a + b)[..|a + b| - 1] == a + b[..|b| - 1];
      AfterAppend(q, a, b[..|b| - 1]);
    }
  }

  lemma {:induction false} BadStays(events: seq<Event>)
    ensures After(Bad, events) == Bad
  {
    if events != [] { BadStays(events[..|events| - 1]); }
  }

  lemma AfterOne(q: Phase, e: Event)
    ensures After(q, [e]) == Next(q, e)
  {
    assert [e][..0] == [];
  }

  lemma AfterTwo(q: Phase, e: Event, f: Event)
    ensures After(q, [e, f]) == Next(Next(q, e), f)
  {
    assert [e] + [f] == [e, f];
    AfterAppend(q, [e], [f]);
    AfterOne(q, e);
    AfterOne(Next(q, e), f);
  }

  lemma AfterThree(q: Phase, e: Event, f: Event, g: Event)
    ensures After(q, [e, f, g]) == Next(Next(Next(q, e), f), g)
  {
    hide After, Next;
    assert [e, f] + [g] == [e, f, g];
    AfterAppend(q, [e, f], [g]);
    AfterTwo(q, e, f);
    AfterOne(Next(Next(q, e), f), g);
  }

  /** Running from the front, one event at a time. */
  lemma AfterFirst(q: Phase, events: seq<Event>)
    requires events != []
    ensures After(q, events) == After(Next(q, events[0]), events[1..])
  {
    assert events == [events[0]] + events[1..];
    AfterAppend(q, [events[0]], events[1..]);
    AfterOne(q, events[0]);
  }

  /** Open blocks have been started: their indices are below the next one. */
  predicate OpenBelow(q: Phase) { q.Streaming? ==> forall i :: i in q.open ==> i < q.next }

  lemma OpenStaysBelow(q: Phase, e: Event)
    requires OpenBelow(q)
    ensures OpenBelow(Next(q, e))
  {
  }

  lemma {:induction false} OpenBelowNext(events: seq<Event>)
    ensures OpenBelow(After(Before, events))
  {
    if events != [] {
      OpenBelowNext(events[..|events| - 1]);
      OpenStaysBelow(After(Before, events[..|events| - 1]), events[|events| - 1]);
    }
  }
}
