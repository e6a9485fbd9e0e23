/**
 The streaming half of the refusal-fallback middleware: one message stream spliced together from a
 refused stream and the streams of a chain of fallback models. Each method of the program is here
 in its own form, proved equal to a function that the theorems then speak about.
 */
module FallbackSplice {
  import opened Basics
  import opened Options
  import opened MessageEvents

  // ----- requests and replies -----

  datatype Speed = Fast | Named(name: string)

  /** A field of a chain entry: absent, explicitly null, or a value. */
  datatype Patch<+T> = Keep | Unset | Set(value: T)

  datatype Thinking = BetweenTools | Disabled | Configured(id: nat)

  /** A chain entry; the streaming path honours `model` and `speed` only, `others` stands for the rest. */
  datatype Entry = Entry(model: Model, speed: Patch<Speed>, thinking: Patch<Thinking>, others: nat)

  datatype Role = User | Assistant | System

  datatype Turn = Turn(role: Role, content: seq<Block>)

  datatype CreditToken = CreditToken(token: string, bestEffort: bool)

  /** A request body; `rest` is everything this path carries along unread. */
  datatype Body = Body(model: Model, speed: Option<Speed>, thinking: Option<Thinking>,
                       token: Option<CreditToken>, messages: seq<Turn>, rest: nat)

  /** What sending a request comes to: an exception, or a status with the decoded events of its body. */
  datatype Reply = Threw(abort: bool) | Http(status: nat, events: seq<Event>)

  predicate Ok(r: Reply) { r.Http? && 200 <= r.status <= 299 }

  /** The outside world: the reply to the last of the requests sent so far. */
  type Server = seq<Body> -> Reply

  datatype Problem =
    | NoCreditToken
    | ChainExhausted
    | RequestFailed(model: Model, status: Option<nat>)

  function PatchField<T>(current: Option<T>, patch: Patch<T>): Option<T> {
    match patch
    case Keep => current
    case Unset => None
    case Set(v) => Some(v)
  }

  function BuildFallbackRequest(orig: Body, model: Model, speed: Patch<Speed>, token: string,
                                continuation: seq<Block>): Body {
    Body(model,
         PatchField(orig.speed, speed),
         if orig.thinking == Some(BetweenTools) then Some(Disabled) else orig.thinking,
         Some(CreditToken(token, true)),
         if continuation == [] then orig.messages else orig.messages + [Turn(Assistant, continuation)],
         orig.rest)
  }

  // ----- block bookkeeping of one stream -----

  /** A block after a delta, whatever its kind. */
  function ApplyAny(b: Block, d: Delta): Block {
    match d
    case TextDelta(t) => b.(text := Some(Or(b.text, []) + t))
    case InputJsonDelta(p) => b.(json := Some(Or(b.json, []) + p))
    case CitationsDelta(c) => b.(citations := Some(Or(b.citations, []) + [c]))
    case ThinkingDelta(t) => b.(thinking := Some(Or(b.thinking, []) + t))
    case SignatureDelta(s) => b.(signature := Some(s))
    case CompactionDelta(c, e) => b.(content := c, encrypted := if e.Some? then e.value else b.encrypted)
  }

  datatype Accumulated = Accumulated(index: nat, block: Block)

  /** Apply a delta to the first accumulating block with this wire index, if there is one. */
  function ApplyTo(blocks: seq<Accumulated>, index: nat, d: Delta): seq<Accumulated> {
    if blocks == [] then []
    else if blocks[0].index == index then [Accumulated(index, ApplyAny(blocks[0].block, d))] + blocks[1..]
    else [blocks[0]] + ApplyTo(blocks[1..], index, d)
  }

  function Remove(open: seq<nat>, index: nat): seq<nat> {
    if open == [] then []
    else if open[0] == index then open[1..]
    else [open[0]] + Remove(open[1..], index)
  }

  lemma {:induction false} ApplyToAt(blocks: seq<Accumulated>, index: nat, d: Delta, i: nat)
    requires i <= |blocks| && forall k :: 0 <= k < i ==> blocks[k].index != index
    requires i < |blocks| ==> blocks[i].index == index
    ensures ApplyTo(blocks, index, d)
         == if i < |blocks| then blocks[i := Accumulated(index, ApplyAny(blocks[i].block, d))] else blocks
  {
    if i > 0 {
      ApplyToAt(blocks[1..], index, d, i - 1);
      assert blocks == [blocks[0]] + blocks[1..];
    } else if blocks != [] {
      assert blocks == [blocks[0]] + blocks[1..];
    }
  }

  lemma {:induction false} RemoveAt(open: seq<nat>, index: nat, i: nat)
    requires i <= |open| && forall k :: 0 <= k < i ==> open[k] != index
    requires i < |open| ==> open[i] == index
    ensures Remove(open, index) == if i < |open| then open[..i] + open[i + 1..] else open
  {
    if i > 0 {
      RemoveAt(open[1..], index, i - 1);
      assert open == [open[0]] + open[1..];
    }
  }

  datatype Track = Track(base: nat, blocks: seq<Accumulated>, open: seq<nat>, nextIndex: nat)

  function NewTrack(base: nat): Track { Track(base, [], [], base) }

  function TrackStart(t: Track, index: nat, b: Block): Track {
    var shifted := index + t.base;
    Track(t.base, t.blocks + [Accumulated(index, b)], t.open + [shifted], Max(t.nextIndex, shifted + 1))
  }

  function TrackDelta(t: Track, index: nat, d: Delta): Track { t.(blocks := ApplyTo(t.blocks, index, d)) }

  function TrackStop(t: Track, index: nat): Track {
    var shifted := index + t.base;
    t.(open := Remove(t.open, shifted), nextIndex := Max(t.nextIndex, shifted + 1))
  }

  function Stops(open: seq<nat>): seq<Event> {
    if open == [] then [] else [BlockStop(open[0])] + Stops(open[1..])
  }

  function Contents(blocks: seq<Accumulated>): seq<Block> {
    if blocks == [] then [] else [blocks[0].block] + Contents(blocks[1..])
  }

  class BlockTracker {
    const indexBase: nat
    var blocks: seq<Accumulated>
    var nextIndex: nat
    var open: seq<nat>

    constructor (indexBase: nat)
      ensures View() == NewTrack(indexBase)
    {
      this.indexBase := indexBase;
      blocks, nextIndex, open := [], indexBase, [];
    }

    function View(): Track
      reads this
    {
      Track(indexBase, blocks, open, nextIndex)
    }

    /** Track a content_block_start; `shifted` is the index it goes out with. */
    method Start(index: nat, block: Block) returns (shifted: nat)
      modifies this
      ensures View() == TrackStart(old(View()), index, block) && shifted == index + indexBase
    {
      blocks := blocks + [Accumulated(index, block)];
      shifted := index + indexBase;
      open := open + [shifted];
      nextIndex := Max(nextIndex, shifted + 1);
    }

    method Delta(index: nat, delta: Delta) returns (shifted: nat)
      modifies this
      ensures View() == TrackDelta(old(View()), index, delta) && shifted == index + indexBase
    {
      var i := 0;
      while i < |blocks| && blocks[i].index != index
        invariant i <= |blocks| && forall k :: 0 <= k < i ==> blocks[k].index != index
      {
        i := i + 1;
      }
      ApplyToAt(blocks, index, delta, i);
      if i < |blocks| {
        blocks := blocks[i := Accumulated(index, ApplyAny(blocks[i].block, delta))];
      }
      shifted := index + indexBase;
    }

    method Stop(index: nat) returns (shifted: nat)
      modifies this
      ensures View() == TrackStop(old(View()), index) && shifted == index + indexBase
    {
      shifted := index + indexBase;
      var i := 0;
      while i < |open| && open[i] != shifted
        invariant i <= |open| && forall k :: 0 <= k < i ==> open[k] != shifted
      {
        i := i + 1;
      }
      RemoveAt(open, shifted, i);
      if i < |open| {
        open := open[..i] + open[i + 1..];
      }
      nextIndex := Max(nextIndex, shifted + 1);
    }

    /** content_block_stop events for the blocks still open. */
    method CloseOpenBlocks() returns (stops: seq<Event>)
      modifies this
      ensures stops == Stops(old(open)) && View() == old(View()).(open := [])
    {
      stops := [];
      for i := 0 to |open|
        invariant open == old(open) && nextIndex == old(nextIndex) && blocks == old(blocks)
        invariant stops + Stops(open[i..]) == Stops(open)
      {
        assert open[i..][1..] == open[i + 1..];
        stops := stops + [BlockStop(open[i])];
      }
      open := [];
    }

    method ContentBlocks() returns (content: seq<Block>)
      ensures content == Contents(blocks)
    {
      content := [];
      for i := 0 to |blocks|
        invariant content + Contents(blocks[i..]) == Contents(blocks)
      {
        assert blocks[i..][1..] == blocks[i + 1..];
        content := content + [blocks[i].block];
      }
    }
  }

  // ----- consuming one hop -----

  /** `backfill`: the primary's counters, and the fallback's where the primary has none. */
  function Backfill(primary: Usage, fallback: Option<Usage>): Usage {
    match fallback
    case None => primary
    case Some(f) =>
      Usage(f.counts + primary.counts, if primary.iterations.Some? then primary.iterations else f.iterations)
  }

  function ToIteration(kind: IterationKind, model: Model, u: Usage): Iteration {
    Iteration(kind, model, Count(u, "input_tokens"), Count(u, "output_tokens"),
              Count(u, "cache_read_input_tokens"), Count(u, "cache_creation_input_tokens"))
  }

  /** Splice context of a fallback hop. */
  datatype Context = Context(iterations: seq<Iteration>, model: Model)

  datatype Refused = Refused(token: string, claim: bool, usage: Usage, details: Details,
                             transformations: Option<Transformations>)

  /** What a hop's message_start said. */
  datatype Opening = Opening(model: Option<Model>, usage: Option<Usage>, transformations: Option<Transformations>)

  datatype HopState = HopState(track: Track, opening: Opening)

  datatype HopOutcome = HopOutcome(out: seq<Event>, errors: seq<Problem>, refused: Option<Refused>,
                                   model: Option<Model>, blocks: seq<Block>, nextIndex: nat)

  function NewHop(base: nat): HopState { HopState(NewTrack(base), Opening(None, None, None)) }

  function HopEnd(st: HopState): HopOutcome {
    HopOutcome([], [], None, st.opening.model, Contents(st.track.blocks), st.track.nextIndex)
  }

  /** A refusal with a (non-empty) credit token. */
  predicate HasToken(stop: Stop) {
    stop.Refusal? && stop.details.Some? && stop.details.value.token.Some? && stop.details.value.token.value != ""
  }

  predicate Chainable(e: Event, hasNext: bool) { e.MessageDelta? && HasToken(e.stop) && hasNext }

  function RefusedBy(e: Event, st: HopState, splice: Option<Context>): Refused
    requires e.MessageDelta? && HasToken(e.stop)
  {
    var d := e.stop.details.value;
    Refused(d.token.value, d.claim, Backfill(e.usage, st.opening.usage), d,
            if splice.Some? then st.opening.transformations else None)
  }

  /** Why a refusal is surfaced rather than retried. */
  function Surfaced(stop: Stop): seq<Problem> {
    if !stop.Refusal? then [] else if HasToken(stop) then [ChainExhausted] else [NoCreditToken]
  }

  function StepState(st: HopState, e: Event): HopState {
    match e
    case MessageStart(m) =>
      st.(opening := Opening(Some(m.model), Some(m.usage),
                             if m.transformations.Some? then m.transformations else st.opening.transformations))
    case BlockStart(i, b) => st.(track := TrackStart(st.track, i, b))
    case BlockDelta(i, d) => st.(track := TrackDelta(st.track, i, d))
    case BlockStop(i) => st.(track := TrackStop(st.track, i))
    case _ => st
  }

  /** What one event of a hop becomes on the spliced stream. */
  function StepOut(st: HopState, e: Event, splice: Option<Context>): seq<Event> {
    match splice
    case None => [e]
    case Some(ctx) =>
      match e
      case MessageStart(_) => []
      case BlockStart(i, b) => [BlockStart(i + st.track.base, b)]
      case BlockDelta(i, d) => [BlockDelta(i + st.track.base, d)]
      case BlockStop(i) => [BlockStop(i + st.track.base)]
      case MessageDelta(stop, usage, transformations) =>
        var u := Backfill(usage, st.opening.usage);
        var iterations := ctx.iterations + [ToIteration(FallbackMessageIteration, ctx.model, u)];
        [MessageDelta(stop, u.(iterations := Some(iterations)),
                      if transformations.Some? then transformations else st.opening.transformations)]
      case _ => [e]
  }

  function Consume(events: seq<Event>, st: HopState, hasNext: bool, splice: Option<Context>): HopOutcome {
    if events == [] then HopEnd(st)
    else
      var e := events[0];
      if Chainable(e, hasNext) then
        HopOutcome(Stops(st.track.open), [], Some(RefusedBy(e, st, splice)), st.opening.model,
                   Contents(st.track.blocks), st.track.nextIndex)
      else
        var rest := Consume(events[1..], StepState(st, e), hasNext, splice);
        rest.(out := StepOut(st, e, splice) + rest.out,
              errors := (if e.MessageDelta? then Surfaced(e.stop) else []) + rest.errors)
  }

  /** What has been read so far put in front of what is still to come. */
  function Prepend(out: seq<Event>, errors: seq<Problem>, o: HopOutcome): HopOutcome {
    o.(out := out + o.out, errors := errors + o.errors)
  }

  /** One event of a hop that does not end it: track it, and say what goes out for it. */
  method Forward(tracker: BlockTracker, opening: Opening, p: Event, splice: Option<Context>)
    returns (opening': Opening, emitted: seq<Event>)
    modifies tracker
    ensures HopState(tracker.View(), opening') == StepState(HopState(old(tracker.View()), opening), p)
    ensures emitted == StepOut(HopState(old(tracker.View()), opening), p, splice)
  {
    opening', emitted := opening, [p];
    match p {
      case MessageStart(m) =>
        opening' := opening.(model := Some(m.model), usage := Some(m.usage));
        if m.transformations.Some? {
          opening' := opening'.(transformations := m.transformations);
        }
        if splice.Some? {
          emitted := [];
        }
      case BlockStart(index, block) =>
        var shifted := tracker.Start(index, block);
        if splice.Some? {
          emitted := [BlockStart(shifted, block)];
        }
      case BlockDelta(index, delta) =>
        var shifted := tracker.Delta(index, delta);
        if splice.Some? {
          emitted := [BlockDelta(shifted, delta)];
        }
      case BlockStop(index) =>
        var shifted := tracker.Stop(index);
        if splice.Some? {
          emitted := [BlockStop(shifted)];
        }
      case MessageDelta(stop, u, transformations) =>
        if splice.Some? {
          // the hop's own report of itself is replaced, not added to
          var usage := Backfill(u, opening.usage);
          var iterations := splice.value.iterations
                            + [ToIteration(FallbackMessageIteration, splice.value.model, usage)];
          emitted := [MessageDelta(stop, usage.(iterations := Some(iterations)),
                                   if transformations.Some? then transformations else opening.transformations)];
        }
      case _ =>
    }
  }

  method ConsumeHop(events: seq<Event>, indexBase: nat, hasNext: bool, splice: Option<Context>)
    returns (outcome: HopOutcome)
    ensures outcome == Consume(events, NewHop(indexBase), hasNext, splice)
  {
    var tracker := new BlockTracker(indexBase);
    var opening := Opening(None, None, None);
    var out: seq<Event> := [];
    var errors: seq<Problem> := [];
    ghost var whole := Consume(events, NewHop(indexBase), hasNext, splice);
    for n := 0 to |events|
      invariant fresh(tracker)
      invariant whole == Prepend(out, errors, Consume(events[n..], HopState(tracker.View(), opening), hasNext, splice))
    {
      var p := events[n];
      assert events[n..][0] == p && events[n..][1..] == events[n + 1..];
      if Chainable(p, hasNext) {
        var details := p.stop.details.value;
        var usage := Backfill(p.usage, opening.usage);
        var content := tracker.ContentBlocks();
        var stops := tracker.CloseOpenBlocks();
        var refused := Refused(details.token.value, details.claim, usage, details,
                               if splice.Some? then opening.transformations else None);
        return HopOutcome(out + stops, errors + [], Some(refused), opening.model, content, tracker.nextIndex);
      }
      PrependStep(events[n..], HopState(tracker.View(), opening), hasNext, splice, out, errors);
      if p.MessageDelta? && p.stop.Refusal? {
        errors := errors + [if HasToken(p.stop) then ChainExhausted else NoCreditToken];
      } else {
        errors := errors + [];
      }
      var emitted: seq<Event>;
      opening, emitted := Forward(tracker, opening, p, splice);
      out := out + emitted;
    }
    var content := tracker.ContentBlocks();
    assert events[|events|..] == [];
    outcome := HopOutcome(out + [], errors + [], None, opening.model, content, tracker.nextIndex);
  }

  lemma PrependStep(events: seq<Event>, st: HopState, hasNext: bool, splice: Option<Context>,
                    out: seq<Event>, errors: seq<Problem>)
    requires events != [] && !Chainable(events[0], hasNext)
    ensures Prepend(out, errors, Consume(events, st, hasNext, splice))
         == Prepend(out + StepOut(st, events[0], splice),
                    errors + (if events[0].MessageDelta? then Surfaced(events[0].stop) else []),
                    Consume(events[1..], StepState(st, events[0]), hasNext, splice))
  {
    var rest := Consume(events[1..], StepState(st, events[0]), hasNext, splice);
    var more := if events[0].MessageDelta? then Surfaced(events[0].stop) else [];
    assert out + (StepOut(st, events[0], splice) + rest.out) == out + StepOut(st, events[0], splice) + rest.out;
    assert errors + (more + rest.errors) == errors + more + rest.errors;
  }

  // ----- one chain entry -----

  /** The refused output as an assistant turn: tool inputs are put back together from their JSON. */
  function Prefill(blocks: seq<Block>): seq<Block> {
    if blocks == [] then []
    else
      var b := blocks[0];
      [if b.json.Some? then b.(json := None, input := Reparsed(b.json.value, b.input)) else b] + Prefill(blocks[1..])
  }

  datatype Sent = Sent(reply: Reply, dropped: bool, sent: seq<Body>)

  /**
   Send a request; one that is fast only because the original was, and is rejected with 429 or 529, goes
   again without `speed`.
   */
  function Dispatch(server: Server, sent: seq<Body>, entry: Entry, request: Body): Sent {
    var first := sent + [request];
    var reply := server(first);
    if reply.Http? && (reply.status == 429 || reply.status == 529)
       && entry.speed == Keep && request.speed == Some(Fast) then
      var second := first + [request.(speed := None)];
      Sent(server(second), true, second)
    else
      Sent(reply, false, first)
  }

  method SendHop(server: Server, sent: seq<Body>, entry: Entry, request: Body) returns (r: Sent)
    ensures r == Dispatch(server, sent, entry, request)
  {
    var log := sent + [request];
    var reply := server(log);
    if !reply.Http? || (reply.status != 429 && reply.status != 529) || entry.speed != Keep {
      return Sent(reply, false, log);
    }
    if request.speed != Some(Fast) {
      return Sent(reply, false, log);
    }
    log := log + [request.(speed := None)];
    r := Sent(server(log), true, log);
  }

  /** Where the chain stands before an entry is tried. */
  datatype Link = Link(nextIndex: nat, token: string, base: seq<Block>, partial: seq<Block>, fromModel: Model,
                       usage: Usage, details: Details, transformations: Option<Transformations>,
                       iterations: seq<Iteration>, sent: seq<Body>)

  datatype Verdict = Answered(events: seq<Event>) | Failure(problem: Problem) | Abort

  datatype Tried = Tried(verdict: Verdict, continuation: seq<Block>, sent: seq<Body>)

  function Judge(model: Model, reply: Reply): Verdict {
    if reply.Threw? then
      if reply.abort then Abort else Failure(RequestFailed(model, None))
    else if Ok(reply) then Answered(reply.events)
    else Failure(RequestFailed(model, Some(reply.status)))
  }

  /** Try one entry: with the partial output appended, and once more without it after a 400. */
  function Try(server: Server, orig: Body, entry: Entry, link: Link): Tried {
    var full := link.base + link.partial;
    var s0 := Dispatch(server, link.sent, entry,
                       BuildFallbackRequest(orig, entry.model, entry.speed, link.token, full));
    if s0.reply.Http? && s0.reply.status == 400 && link.partial != [] then
      var speed := if s0.dropped then Unset else entry.speed;
      var s1 := Dispatch(server, s0.sent, entry, BuildFallbackRequest(orig, entry.model, speed, link.token, link.base));
      Tried(Judge(entry.model, s1.reply), link.base, s1.sent)
    else
      Tried(Judge(entry.model, s0.reply), full, s0.sent)
  }

  method TryEntry(server: Server, orig: Body, entry: Entry, link: Link) returns (r: Tried)
    ensures r == Try(server, orig, entry, link)
  {
    var speed := entry.speed;
    var continuation := link.base + link.partial;
    var sent := link.sent;
    var attempt := 0;
    while attempt < 2
      invariant attempt <= 1
      invariant attempt == 0 ==> speed == entry.speed && continuation == link.base + link.partial && sent == link.sent
      invariant attempt == 1 ==>
        var s0 := Dispatch(server, link.sent, entry,
                           BuildFallbackRequest(orig, entry.model, entry.speed, link.token, link.base + link.partial));
        && s0.reply.Http? && s0.reply.status == 400 && link.partial != []
        && continuation == link.base && sent == s0.sent && speed == (if s0.dropped then Unset else entry.speed)
      decreases 2 - attempt
    {
      var request := BuildFallbackRequest(orig, entry.model, speed, link.token, continuation);
      var s := SendHop(server, sent, entry, request);
      sent := s.sent;
      if s.reply.Threw? {
        return Tried(if s.reply.abort then Abort else Failure(RequestFailed(entry.model, None)), continuation, sent);
      }
      if s.dropped {
        speed := Unset;
      }
      if Ok(s.reply) {
        return Tried(Answered(s.reply.events), continuation, sent);
      }
      if attempt == 0 && s.reply.status == 400 && link.partial != [] {
        continuation := link.base;
        attempt := attempt + 1;
        continue;
      }
      return Tried(Failure(RequestFailed(entry.model, Some(s.reply.status))), continuation, sent);
    }
    assert false;
  }

  // ----- the whole chain -----

  datatype Ending = PassedThrough | Served | Degraded | Aborted | FellOff

  datatype Run = Run(out: seq<Event>, sent: seq<Body>, errors: seq<Problem>, pins: seq<nat>, ending: Ending)

  function SeamBlock(from: Model, to: Model, category: Option<string>): Block {
    EMPTY_BLOCK.(kind := FallbackBlock, seam := Some(Seam(from, to, category)))
  }

  function Boundary(link: Link, entry: Entry): seq<Event> {
    [BlockStart(link.nextIndex, SeamBlock(link.fromModel, entry.model, link.details.category)),
     BlockStop(link.nextIndex)]
  }

  /** The held refusal, verbatim but for the recommended model, when every request failed. */
  function HeldRefusal(link: Link, entry: Entry): seq<Event> {
    [MessageDelta(Refusal(Some(link.details.(recommended := Some(entry.model)))), link.usage, link.transformations),
     MessageStop]
  }

  function FirstLink(a: HopOutcome): Link
    requires a.refused.Some?
  {
    var r := a.refused.value;
    Link(a.nextIndex, r.token, [], if r.claim then Prefill(a.blocks) else [], Or(a.model, ""), r.usage, r.details,
         r.transformations, [ToIteration(MessageIteration, Or(a.model, ""), r.usage)], [])
  }

  function NextLink(link: Link, entry: Entry, tried: Tried, b: HopOutcome): Link
    requires b.refused.Some?
  {
    var r := b.refused.value;
    Link(b.nextIndex, r.token, tried.continuation, if r.claim then Prefill(b.blocks) else [], entry.model, r.usage,
         r.details, r.transformations, link.iterations + [ToIteration(MessageIteration, entry.model, r.usage)],
         tried.sent)
  }

  function Then(out: seq<Event>, errors: seq<Problem>, hop: nat, r: Run): Run {
    r.(out := out + r.out, errors := errors + r.errors, pins := [hop] + r.pins)
  }

  /** What trying one entry leads to: on to the next entry, or the end of the stream. */
  datatype Turnout =
    | Goes(out: seq<Event>, errors: seq<Problem>, link: Link)
    | Ends(out: seq<Event>, errors: seq<Problem>, sent: seq<Body>, ending: Ending)

  function Hop(server: Server, orig: Body, entry: Entry, hasNext: bool, link: Link): Turnout {
    var boundary := Boundary(link, entry);
    var tried := Try(server, orig, entry, link);
    match tried.verdict
    case Abort => Ends(boundary, [], tried.sent, Aborted)
    case Failure(problem) =>
      if hasNext then
        Goes(boundary, [problem], link.(nextIndex := link.nextIndex + 1, sent := tried.sent))
      else
        Ends(boundary + HeldRefusal(link, entry), [problem], tried.sent, Degraded)
    case Answered(events) =>
      var b := Consume(events, NewHop(link.nextIndex + 1), hasNext, Some(Context(link.iterations, entry.model)));
      if b.refused.None? then Ends(boundary + b.out, b.errors, tried.sent, Served)
      else Goes(boundary + b.out, b.errors, NextLink(link, entry, tried, b))
  }

  function Chain(server: Server, orig: Body, fallbacks: seq<Entry>, hop: nat, link: Link): Run
    requires hop <= |fallbacks|
    decreases |fallbacks| - hop
  {
    if hop == |fallbacks| then Run([], link.sent, [], [], FellOff)
    else
      match Hop(server, orig, fallbacks[hop], hop + 1 < |fallbacks|, link)
      case Goes(out, errors, next) => Then(out, errors, hop, Chain(server, orig, fallbacks, hop + 1, next))
      case Ends(out, errors, sent, ending) => Run(out, sent, errors, [hop], ending)
  }

  function Spliced(server: Server, orig: Body, a: seq<Event>, fallbacks: seq<Entry>, firstHop: nat): Run
    requires firstHop < |fallbacks|
  {
    var o := Consume(a, NewHop(0), true, None);
    if o.refused.None? then Run(o.out, [], o.errors, [], PassedThrough)
    else
      var r := Chain(server, orig, fallbacks, firstHop, FirstLink(o));
      r.(out := o.out + r.out, errors := o.errors + r.errors)
  }

  /** `r` after what has happened so far. */
  function Following(out: seq<Event>, errors: seq<Problem>, pins: seq<nat>, r: Run): Run {
    r.(out := out + r.out, errors := errors + r.errors, pins := pins + r.pins)
  }

  /** One more turn of the loop over the chain, after what has happened so far. */
  lemma ChainTurn(server: Server, orig: Body, fallbacks: seq<Entry>, hop: nat, link: Link,
                  out: seq<Event>, errors: seq<Problem>, pins: seq<nat>, r: Turnout)
    requires hop < |fallbacks| && r == Hop(server, orig, fallbacks[hop], hop + 1 < |fallbacks|, link)
    ensures Following(out, errors, pins, Chain(server, orig, fallbacks, hop, link))
         == if r.Goes? then
              Following(out + r.out, errors + r.errors, pins + [hop], Chain(server, orig, fallbacks, hop + 1, r.link))
            else Run(out + r.out, r.sent, errors + r.errors, pins + [hop], r.ending)
  {
    hide Hop;
    if r.Goes? {
      var rest := Chain(server, orig, fallbacks, hop + 1, r.link);
      assert out + (r.out + rest.out) == out + r.out + rest.out;
      assert errors + (r.errors + rest.errors) == errors + r.errors + rest.errors;
      assert pins + ([hop] + rest.pins) == pins + [hop] + rest.pins;
    }
  }

  lemma ChainStart(server: Server, orig: Body, a: seq<Event>, fallbacks: seq<Entry>, firstHop: nat)
    requires firstHop < |fallbacks| && Consume(a, NewHop(0), true, None).refused.Some?
    ensures var o := Consume(a, NewHop(0), true, None);
      Spliced(server, orig, a, fallbacks, firstHop)
      == Following(o.out, o.errors, [], Chain(server, orig, fallbacks, firstHop, FirstLink(o)))
  {
    var o := Consume(a, NewHop(0), true, None);
    var r := Chain(server, orig, fallbacks, firstHop, FirstLink(o));
    assert [] + r.pins == r.pins;
  }

  /** The body of the loop over the chain. */
  method TakeHop(server: Server, orig: Body, entry: Entry, hasNext: bool, link: Link) returns (r: Turnout)
    ensures r == Hop(server, orig, entry, hasNext, link)
  {
    hide Try, Consume, Prefill, ToIteration;
    var fbIndex := link.nextIndex;
    var boundary := [BlockStart(fbIndex, SeamBlock(link.fromModel, entry.model, link.details.category)),
                     BlockStop(fbIndex)];
    var tried := TryEntry(server, orig, entry, link);
    if tried.verdict.Abort? {
      return Ends(boundary, [], tried.sent, Aborted);
    }
    if tried.verdict.Failure? {
      var problem := tried.verdict.problem;
      if hasNext {
        // the token was never redeemed: it goes to the next entry as it is
        return Goes(boundary, [problem], link.(nextIndex := fbIndex + 1, sent := tried.sent));
      }
      var held := MessageDelta(Refusal(Some(link.details.(recommended := Some(entry.model)))), link.usage,
                               link.transformations);
      return Ends(boundary + [held, MessageStop], [problem], tried.sent, Degraded);
    }
    var b := ConsumeHop(tried.verdict.events, fbIndex + 1, hasNext, Some(Context(link.iterations, entry.model)));
    if b.refused.None? {
      return Ends(boundary + b.out, b.errors, tried.sent, Served);
    }
    var refused := b.refused.value;
    var next := Link(b.nextIndex, refused.token, tried.continuation, if refused.claim then Prefill(b.blocks) else [],
                     entry.model, refused.usage, refused.details, refused.transformations,
                     link.iterations + [ToIteration(MessageIteration, entry.model, refused.usage)], tried.sent);
    r := Goes(boundary + b.out, b.errors, next);
  }

  method SplicedEvents(server: Server, orig: Body, a: seq<Event>, fallbacks: seq<Entry>, firstHop: nat)
    returns (run: Run)
    requires firstHop < |fallbacks|
    ensures run == Spliced(server, orig, a, fallbacks, firstHop)
  {
    var o := ConsumeHop(a, 0, true, None);
    if o.refused.None? {
      return Run(o.out, [], o.errors, [], PassedThrough);
    }
    ChainStart(server, orig, a, fallbacks, firstHop);
    run := SpliceChain(server, orig, fallbacks, firstHop, o);
  }

  method SpliceChain(server: Server, orig: Body, fallbacks: seq<Entry>, firstHop: nat, o: HopOutcome) returns (run: Run)
    requires firstHop < |fallbacks| && o.refused.Some?
    ensures run == Following(o.out, o.errors, [], Chain(server, orig, fallbacks, firstHop, FirstLink(o)))
  {
    hide Hop;
    var refused := o.refused.value;
    var link := Link(o.nextIndex, refused.token, [], if refused.claim then Prefill(o.blocks) else [], Or(o.model, ""),
                     refused.usage, refused.details, refused.transformations,
                     [ToIteration(MessageIteration, Or(o.model, ""), refused.usage)], []);
    var out, errors := o.out, o.errors;
    var pins: seq<nat> := [];
    var hop := firstHop;
    ghost var whole := Following(out, errors, [], Chain(server, orig, fallbacks, firstHop, link));
    while hop < |fallbacks|
      invariant firstHop <= hop <= |fallbacks|
      invariant whole == Following(out, errors, pins, Chain(server, orig, fallbacks, hop, link))
    {
      var r := TakeHop(server, orig, fallbacks[hop], hop + 1 < |fallbacks|, link);
      ChainTurn(server, orig, fallbacks, hop, link, out, errors, pins, r);
      if r.Ends? {
        return Run(out + r.out, r.sent, errors + r.errors, pins + [hop], r.ending);
      }
      out, errors, pins := out + r.out, errors + r.errors, pins + [hop];
      link, hop := r.link, hop + 1;
    }
    run := Run(out + [], link.sent, errors + [], pins + [], FellOff);
  }
}
