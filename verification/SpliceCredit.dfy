/**
 What a refusal grants, read off the events of the refused stream alone; and what is sent and what the
 client's message comes to, in terms of that and of the log.
 */
module SpliceCredit {
  import opened Basics
  import opened CodeUnits
  import opened Options
  import opened MessageEvents
  import opened Accumulator
  import opened SentBlocks
  import opened FallbackSplice
  import opened SpliceForm
  import opened SpliceContent
  import opened SpliceLedger

  // ----- the output of a refused stream -----

  /** A block that has taken every delta sent for it, of whatever kind. */
  predicate Gathers(b: Block, start: Block, ds: seq<Delta>) {
    && b.kind == start.kind && b.seam == start.seam && b.input == start.input
    && b.text == Extended(start.text, Texts(ds)) && b.citations == Extended(start.citations, Cited(ds))
    && b.thinking == Extended(start.thinking, Thoughts(ds))
    && b.signature == (if Signed(ds).Some? then Signed(ds) else start.signature)
    && b.content == Or(Compacted(ds), start.content) && b.encrypted == Or(Encrypted(ds), start.encrypted)
    && b.json == Extended(start.json, Jsons(ds))
  }

  /** The same block as it is sent back: its input read from the JSON sent for it, which is not itself sent. */
  function Resent(start: Block, ds: seq<Delta>): Block {
    var json := Extended(start.json, Jsons(ds));
    Block(start.kind, Extended(start.text, Texts(ds)), Extended(start.citations, Cited(ds)),
          Extended(start.thinking, Thoughts(ds)), if Signed(ds).Some? then Signed(ds) else start.signature,
          Or(Compacted(ds), start.content), Or(Encrypted(ds), start.encrypted),
          None, if json.Some? then Reparsed(json.value, start.input) else start.input, start.seam)
  }

  /** The output of a stream as an assistant's turn, block by block in the order of their indices. */
  function Output(events: seq<Event>): seq<Block> {
    seq(Started(After(Before, events)), i requires 0 <= i => Resent(StartOf(events, i), DeltasFor(events, i)))
  }

  lemma GathersNext(b: Block, start: Block, ds: seq<Delta>, d: Delta)
    requires Gathers(b, start, ds)
    ensures Gathers(ApplyAny(b, d), start, ds + [d])
  {
    DeltasNext(ds, d);
    hide Texts, Thoughts, Cited, Signed, Compacted, Encrypted, Jsons, Extended;
    match d
    case TextDelta(t) => ExtendedNext(start.text, Texts(ds), t);
    case ThinkingDelta(t) => ExtendedNext(start.thinking, Thoughts(ds), t);
    case InputJsonDelta(p) => ExtendedNext(start.json, Jsons(ds), p);
    case CitationsDelta(c) => ExtendedNext(start.citations, Cited(ds), [c]);
    case _ =>
  }

  lemma GathersFirst(b: Block)
    ensures Gathers(b, b, [])
  {
    NoDeltas();
  }

  // ----- the tracker over a whole stream -----

  function TrackAll(st: HopState, events: seq<Event>): HopState {
    if events == [] then st else StepState(TrackAll(st, events[..|events| - 1]), events[|events| - 1])
  }

  /** The tracker has one block for each that was started, under its index and with all that was sent for it. */
  predicate Tracked(blocks: seq<Accumulated>, events: seq<Event>) {
    && |blocks| == Started(After(Before, events))
    && forall i :: 0 <= i < |blocks| ==> TrackedAt(blocks, events, i)
  }

  predicate TrackedAt(blocks: seq<Accumulated>, events: seq<Event>, i: nat)
    requires i < |blocks|
  {
    blocks[i].index == i && Gathers(blocks[i].block, StartOf(events, i), DeltasFor(events, i))
  }

  lemma TrackedStart(blocks: seq<Accumulated>, events: seq<Event>, e: Event)
    requires Tracked(blocks, events) && After(Before, events + [e]) != Bad && e.BlockStart?
    ensures Tracked(blocks + [Accumulated(e.index, e.block)], events + [e])
  {
    var now, all := blocks + [Accumulated(e.index, e.block)], events + [e];
    assert all[..|events|] == events;
    NoDeltasYet(events, e.index);
    GathersFirst(e.block);
    hide Gathers;
    forall i | 0 <= i < |now|
      ensures TrackedAt(now, all, i)
    {
      assert i < |blocks| ==> TrackedAt(blocks, events, i);
      assert DeltasFor(events, i) + [] == DeltasFor(events, i);
    }
  }

  lemma TrackedDelta(blocks: seq<Accumulated>, events: seq<Event>, e: Event)
    requires Tracked(blocks, events) && After(Before, events + [e]) != Bad && e.BlockDelta?
    ensures Tracked(ApplyTo(blocks, e.index, e.delta), events + [e])
  {
    var all := events + [e];
    assert all[..|events|] == events;
    OpenBelowNext(events);
    assert forall k :: 0 <= k < |blocks| ==> TrackedAt(blocks, events, k) && blocks[k].index == k;
    assert After(Before, all) == Next(After(Before, events), e);
    ApplyToAt(blocks, e.index, e.delta, e.index);
    var now := ApplyTo(blocks, e.index, e.delta);
    hide ApplyTo, ApplyAny;
    forall i | 0 <= i < |now|
      ensures TrackedAt(now, all, i)
    {
      assert TrackedAt(blocks, events, i);
      hide Gathers;
      if i == e.index {
        GathersNext(blocks[i].block, StartOf(events, i), DeltasFor(events, i), e.delta);
      } else {
        assert DeltasFor(events, i) + [] == DeltasFor(events, i);
      }
    }
  }

  lemma TrackedOther(blocks: seq<Accumulated>, events: seq<Event>, e: Event)
    requires Tracked(blocks, events) && After(Before, events + [e]) != Bad && !e.BlockStart? && !e.BlockDelta?
    ensures Tracked(blocks, events + [e])
  {
    var all := events + [e];
    assert all[..|events|] == events;
    hide Gathers;
    forall i | 0 <= i < |blocks|
      ensures TrackedAt(blocks, all, i)
    {
      assert TrackedAt(blocks, events, i);
      assert DeltasFor(events, i) + [] == DeltasFor(events, i);
    }
  }

  /** After any part of a well-formed stream the tracker holds what was sent for each block, and the opening. */
  lemma {:induction false} TracksAll(events: seq<Event>, base: nat)
    requires After(Before, events) != Bad
    ensures var st := TrackAll(NewHop(base), events);
      Tracked(st.track.blocks, events) && st.opening == OpeningOf(events)
  {
    if events != [] {
      var earlier, e := events[..|events| - 1], events[|events| - 1];
      assert events == earlier + [e] && events[..|events|] == events;
      TracksAll(earlier, base);
      OpeningNext(events, |events| - 1, TrackAll(NewHop(base), earlier));
      var blocks := TrackAll(NewHop(base), earlier).track.blocks;
      hide Tracked, After, OpeningOf;
      match e
      case BlockStart(_, _) => TrackedStart(blocks, earlier, e);
      case BlockDelta(_, _) => TrackedDelta(blocks, earlier, e);
      case _ => TrackedOther(blocks, earlier, e);
    }
  }

  /** The event starts or stops a block that goes out with this index. */
  predicate Touches(e: Event, shifted: nat, base: nat) {
    (e.BlockStart? || e.BlockStop?) && e.index + base == shifted
  }

  /** For any events, in order or not, the next index is one past the highest that has gone out, or the base. */
  lemma {:induction false} NextIndexIs(events: seq<Event>, base: nat)
    ensures var next := TrackAll(NewHop(base), events).track.nextIndex;
      && next >= base && TrackAll(NewHop(base), events).track.base == base
      && (forall k: nat, i: nat :: 0 <= k < |events| && Touches(events[k], i, base) ==> i < next)
      && (next == base || exists k :: 0 <= k < |events| && Touches(events[k], next - 1, base))
  {
    if events != [] {
      var n := |events| - 1;
      NextIndexIs(events[..n], base);
      var was := TrackAll(NewHop(base), events[..n]).track.nextIndex;
      var next := TrackAll(NewHop(base), events).track.nextIndex;
      if next != was {
        assert Touches(events[n], next - 1, base);
      } else if next != base {
        var k :| 0 <= k < n && Touches(events[..n][k], was - 1, base);
        assert Touches(events[k], next - 1, base);
      }
      forall k: nat, i: nat | 0 <= k < |events| && Touches(events[k], i, base)
        ensures i < next
      {
        if k < n { assert Touches(events[..n][k], i, base); }
      }
    }
  }

  lemma {:induction false} ContentsAt(blocks: seq<Accumulated>, i: nat)
    requires i < |blocks|
    ensures |Contents(blocks)| == |blocks| && Contents(blocks)[i] == blocks[i].block
  {
    if |blocks| > 1 { ContentsAt(blocks[1..], if i > 0 then i - 1 else 0); }
  }

  lemma {:induction false} PrefillAt(blocks: seq<Block>, i: nat)
    requires i < |blocks|
    ensures |Prefill(blocks)| == |blocks|
    ensures var b := blocks[i];
      Prefill(blocks)[i] == if b.json.Some? then b.(json := None, input := Reparsed(b.json.value, b.input)) else b
  {
    if |blocks| > 1 { PrefillAt(blocks[1..], if i > 0 then i - 1 else 0); }
  }

  lemma GathersResent(b: Block, start: Block, ds: seq<Delta>)
    requires Gathers(b, start, ds)
    ensures Resent(start, ds) == if b.json.Some? then b.(json := None, input := Reparsed(b.json.value, b.input)) else b
  {
  }

  /** What the tracker gathers is sent back as the output of the stream. */
  lemma TrackedOutput(blocks: seq<Accumulated>, events: seq<Event>)
    requires Tracked(blocks, events)
    ensures Prefill(Contents(blocks)) == Output(events)
  {
    hide Gathers, Resent;
    if blocks == [] {
      assert Contents(blocks) == [];
    } else {
      ContentsAt(blocks, 0);
      PrefillAt(Contents(blocks), 0);
      forall i | 0 <= i < |blocks|
        ensures Prefill(Contents(blocks))[i] == Output(events)[i]
      {
        assert TrackedAt(blocks, events, i);
        ContentsAt(blocks, i);
        PrefillAt(Contents(blocks), i);
        GathersResent(blocks[i].block, StartOf(events, i), DeltasFor(events, i));
      }
    }
  }

  // ----- the refusal of a stream -----

  /** Where a stream's message_delta stands. */
  function EndAt(events: seq<Event>): (n: nat)
    ensures n <= |events| && (n < |events| ==> events[n].MessageDelta?)
    ensures forall k :: 0 <= k < n ==> !events[k].MessageDelta?
  {
    if events == [] || events[0].MessageDelta? then 0 else 1 + EndAt(events[1..])
  }

  /** The stream ends in a refusal that can be retried: one with a credit token. */
  predicate Refusing(events: seq<Event>) {
    var n := EndAt(events);
    && n < |events| && events[n].stop.Refusal? && events[n].stop.details.Some?
    && events[n].stop.details.value.token.Some? && |events[n].stop.details.value.token.value| > 0
  }

  /** What that refusal grants: its token, and, if it has the claim, all that was sent before it. */
  function Grant(events: seq<Event>, hop: bool, base: seq<Block>, iterations: seq<Iteration>, model: Model): Credit
    requires Refusing(events)
  {
    var n := EndAt(events);
    var details, opening := events[n].stop.details.value, OpeningOf(events);
    var usage := Filled(events[n].usage, opening.usage);
    Credit(details.token.value, base, if details.claim then Output(events[..n]) else [],
           iterations + [IterationSaid(MessageIteration, model, usage)],
           Held(details, usage, if hop then opening.transformations else None), model)
  }

  /** The credit in flight after the requests of a log, `a` being the refused stream before it. */
  function CreditSaid(server: Server, orig: Body, a: seq<Event>, sent: seq<Body>): Credit
    requires Refusing(a)
  {
    if sent == [] then Grant(a, false, [], [], Or(OpeningOf(a).model, ""))
    else
      var request, earlier := sent[|sent| - 1], CreditSaid(server, orig, a, sent[..|sent| - 1]);
      if Ok(server(sent)) && Refusing(server(sent).events) then
        Grant(server(sent).events, true, Carried(orig, request), earlier.iterations, request.model)
      else earlier
  }

  /** Reading on from any point at which no refusal has come to be retried. */
  lemma {:induction false} ConsumeFrom(events: seq<Event>, st: HopState, n: nat, splice: Option<Context>)
    requires n <= |events| && forall k :: 0 <= k < n ==> !events[k].MessageDelta?
    ensures var o := Consume(events, st, true, splice);
      var later := Consume(events[n..], TrackAll(st, events[..n]), true, splice);
      o.refused == later.refused && o.model == later.model && o.blocks == later.blocks && o.nextIndex == later.nextIndex
  {
    if n == 0 {
      assert events[0..] == events && events[..0] == [];
    } else {
      ConsumeFrom(events, st, n - 1, splice);
      assert events[n - 1..][0] == events[n - 1] && events[n - 1..][1..] == events[n..];
      assert events[..n][..n - 1] == events[..n - 1];
    }
  }

  lemma {:induction false} NoMoreEnds(events: seq<Event>, n: nat, k: nat)
    requires n < k < |events| && events[n].MessageDelta? && After(Before, events) != Bad
    ensures !events[k].MessageDelta?
  {
    PrefixNotBad(events, k + 1);
    var now := events[..k + 1];
    assert now[..k] == events[..k];
    ClosedAfter(events, n, k);
  }

  lemma {:induction false} ClosedAfter(events: seq<Event>, n: nat, k: nat)
    requires n < k <= |events| && events[n].MessageDelta? && After(Before, events) != Bad
    ensures var q := After(Before, events[..k]); q.Closing? || q.Done?
  {
    PrefixNotBad(events, k);
    assert events[..k][..k - 1] == events[..k - 1];
    if k > n + 1 { ClosedAfter(events, n, k - 1); }
  }

  lemma {:induction false} NeverRefusing(events: seq<Event>, st: HopState, splice: Option<Context>)
    requires forall k :: 0 <= k < |events| ==> !Chainable(events[k], true)
    ensures Consume(events, st, true, splice).refused.None?
    decreases |events|
  {
    if events != [] { NeverRefusing(events[1..], StepState(st, events[0]), splice); }
  }

  /** A well-formed stream has a message_delta. */
  lemma {:induction false} Ends(events: seq<Event>)
    requires After(Before, events).Closing? || After(Before, events).Done?
    ensures EndAt(events) < |events|
  {
    var earlier, e := events[..|events| - 1], events[|events| - 1];
    if !e.MessageDelta? {
      Ends(earlier);
      assert events[EndAt(earlier)] == earlier[EndAt(earlier)];
    }
  }

  /** Whatever has been read before it, a stream's message_delta decides whether it is retried, and with what. */
  lemma RefusedAtEnd(events: seq<Event>, base: nat, splice: Option<Context>)
    requires WellFormed(events)
    ensures var n := EndAt(events);
      var o, st := Consume(events, NewHop(base), true, splice), TrackAll(NewHop(base), events[..n]);
      && (o.refused.Some? <==> Refusing(events))
      && (o.refused.Some? ==> && o.refused == Some(RefusedBy(events[n], st, splice))
                              && o.blocks == Contents(st.track.blocks) && o.model == st.opening.model)
  {
    var n := EndAt(events);
    Ends(events);
    ConsumeFrom(events, NewHop(base), n, splice);
    assert events[n..][0] == events[n];
    hide TrackAll, After;
    if !Refusing(events) {
      forall k | n < k < |events|
        ensures !events[k].MessageDelta?
      {
        NoMoreEnds(events, n, k);
      }
      NeverRefusing(events[n..], TrackAll(NewHop(base), events[..n]), splice);
    }
  }

  /** The opening is known by the time the message_delta comes. */
  lemma OpenedByEnd(events: seq<Event>)
    requires WellFormed(events)
    ensures var n := EndAt(events);
      After(Before, events[..n]) != Bad && OpeningOf(events[..n]) == OpeningOf(events)
  {
    var n := EndAt(events);
    Ends(events);
    PrefixNotBad(events, n);
    PrefixPhase(events, n);
    NoStartAfter(events, n);
  }

  /** A refusal grants what its stream says. */
  lemma GrantedIsSaid(events: seq<Event>, splice: Option<Context>, base: seq<Block>, iterations: seq<Iteration>,
                      model: Model)
    requires WellFormed(events) && Consume(events, NewHop(0), true, splice).refused.Some?
    ensures Refusing(events)
    ensures var o := Consume(events, NewHop(0), true, splice);
      && Granted(o, base, iterations, model) == Grant(events, splice.Some?, base, iterations, model)
      && o.model == OpeningOf(events).model
  {
    var n := EndAt(events);
    RefusedAtEnd(events, 0, splice);
    OpenedByEnd(events);
    TracksAll(events[..n], 0);
    var st := TrackAll(NewHop(0), events[..n]);
    TrackedOutput(st.track.blocks, events[..n]);
    BackfillFills(events[n].usage, st.opening.usage);
    hide Consume, TrackAll, Tracked, OpeningOf, After, Output, Prefill, Contents, Backfill, Filled;
    IterationIsSaid(MessageIteration, model, Filled(events[n].usage, st.opening.usage));
    hide ToIteration, IterationSaid;
  }

  /** The credit in flight is the one that the refused streams in the log grant. */
  lemma {:induction false} CreditIsSaid(server: Server, orig: Body, a: seq<Event>, sent: seq<Body>)
    requires Honest(server) && WellFormed(a) && Reading(a).refused.Some?
    ensures Refusing(a) && CreditAfter(server, orig, Reading(a), sent) == CreditSaid(server, orig, a, sent)
  {
    hide Consume, Granted, Grant, Carried, Honest;
    if sent == [] {
      GrantedIsSaid(a, None, [], [], Or(OpeningOf(a).model, ""));
    } else {
      CreditIsSaid(server, orig, a, sent[..|sent| - 1]);
      if Ok(server(sent)) {
        HonestAt(server, sent);
        var events, request := server(sent).events, sent[|sent| - 1];
        RefusedAtEnd(events, 0, Some(Context([], "")));
        if Refuses(server(sent)) {
          GrantedIsSaid(events, Some(Context([], "")), Carried(orig, request),
                        CreditSaid(server, orig, a, sent[..|sent| - 1]).iterations, request.model);
        }
      }
    }
  }

  // ----- what is sent -----

  /** Turn `k` is that of the `k`-th entry from `firstHop` on, and redeems what the log before it grants. */
  predicate TurnSaid(server: Server, orig: Body, a: seq<Event>, fallbacks: seq<Entry>, firstHop: nat,
                     turns: seq<seq<Body>>, k: nat)
    requires Refusing(a) && k < |turns|
  {
    && firstHop + k < |fallbacks|
    && TurnOf(server, orig, fallbacks[firstHop + k], CreditSaid(server, orig, a, Log(turns[..k])), Log(turns[..k]),
              turns[k])
  }

  /** The log falls into turns of consecutive entries, each redeeming what the refused streams before it grant. */
  predicate SaidTurns(server: Server, orig: Body, a: seq<Event>, fallbacks: seq<Entry>, firstHop: nat,
                      turns: seq<seq<Body>>, sent: seq<Body>)
    requires Refusing(a)
  {
    sent == Log(turns) && forall k :: 0 <= k < |turns| ==> TurnSaid(server, orig, a, fallbacks, firstHop, turns, k)
  }

  lemma TurnsAreSaid(server: Server, orig: Body, a: seq<Event>, fallbacks: seq<Entry>, firstHop: nat,
                     turns: seq<seq<Body>>, sent: seq<Body>)
    requires Honest(server) && WellFormed(a) && Reading(a).refused.Some?
    requires InTurns(server, orig, Reading(a), fallbacks, firstHop, turns, sent)
    ensures Refusing(a) && SaidTurns(server, orig, a, fallbacks, firstHop, turns, sent)
  {
    CreditIsSaid(server, orig, a, []);
    hide Reading, TurnOf, CreditAfter, CreditSaid, Honest, Refusing;
    forall k | 0 <= k < |turns|
      ensures TurnSaid(server, orig, a, fallbacks, firstHop, turns, k)
    {
      assert TurnAt(server, orig, Reading(a), fallbacks, firstHop, turns, k);
      CreditIsSaid(server, orig, a, Log(turns[..k]));
    }
  }

  // ----- what the client's message comes to -----

  /** A seam: the model that refused, the one asked next, and the refusal's category. */
  function SeamSaid(c: Credit, to: Model): Block {
    EMPTY_BLOCK.(kind := FallbackBlock, seam := Some(Seam(c.from, to, c.held.details.category)))
  }

  /** What turns add to the message: for each its seam, and the blocks of the stream it was answered with, if any. */
  function TurnBlocks(server: Server, orig: Body, a: seq<Event>, fallbacks: seq<Entry>, firstHop: nat,
                      turns: seq<seq<Body>>): seq<Block>
    requires Refusing(a) && firstHop + |turns| <= |fallbacks|
  {
    if turns == [] then []
    else
      var n := |turns| - 1;
      var entry, reply := fallbacks[firstHop + n], server(Log(turns));
      TurnBlocks(server, orig, a, fallbacks, firstHop, turns[..n])
      + [SeamSaid(CreditSaid(server, orig, a, Log(turns[..n])), entry.model)]
      + (if Ok(reply) then OwnBlocks(reply.events, firstHop + n + 1 < |fallbacks|) else [])
  }

  /** The problem that a stream ends in: a refusal that is not retried, since it has no token or no entry is left. */
  function StreamProblems(events: seq<Event>, hasNext: bool): seq<Problem> {
    var n := EndAt(events);
    if n == |events| || !events[n].stop.Refusal? then []
    else if !Refusing(events) then [NoCreditToken]
    else if hasNext then []
    else [ChainExhausted]
  }

  /** The problem that an entry's last reply is. */
  function ReplyProblems(reply: Reply, model: Model, hasNext: bool): seq<Problem> {
    match reply
    case Threw(abort) => if abort then [] else [RequestFailed(model, None)]
    case Http(status, events) =>
      if 200 <= status <= 299 then StreamProblems(events, hasNext) else [RequestFailed(model, Some(status))]
  }

  /** The problems reported over some turns. */
  function TurnProblems(server: Server, fallbacks: seq<Entry>, firstHop: nat, turns: seq<seq<Body>>): seq<Problem>
    requires firstHop + |turns| <= |fallbacks|
  {
    if turns == [] then []
    else
      var n := |turns| - 1;
      TurnProblems(server, fallbacks, firstHop, turns[..n])
      + ReplyProblems(server(Log(turns)), fallbacks[firstHop + n].model, firstHop + n + 1 < |fallbacks|)
  }

  /** Reading a stream reports what its message_delta says. */
  lemma {:induction false} ReportsFrom(events: seq<Event>, st: HopState, n: nat, hasNext: bool, splice: Option<Context>)
    requires n <= |events| && forall k :: 0 <= k < n ==> !events[k].MessageDelta?
    ensures Consume(events, st, hasNext, splice).errors
         == Consume(events[n..], TrackAll(st, events[..n]), hasNext, splice).errors
  {
    if n == 0 {
      assert events[0..] == events && events[..0] == [];
    } else {
      hide Consume;
      ReportsFrom(events, st, n - 1, hasNext, splice);
      var rest, before := events[n - 1..], TrackAll(st, events[..n - 1]);
      assert rest[0] == events[n - 1] && rest[1..] == events[n..];
      assert events[..n][..n - 1] == events[..n - 1];
      assert TrackAll(st, events[..n]) == StepState(before, events[n - 1]);
      NothingReported(rest, before, hasNext, splice);
    }
  }

  lemma NothingReported(events: seq<Event>, st: HopState, hasNext: bool, splice: Option<Context>)
    requires events != [] && !events[0].MessageDelta?
    ensures Consume(events, st, hasNext, splice).errors
         == Consume(events[1..], StepState(st, events[0]), hasNext, splice).errors
  {
    var rest := Consume(events[1..], StepState(st, events[0]), hasNext, splice);
    assert [] + rest.errors == rest.errors;
  }

  lemma {:induction false} ReportsNothing(events: seq<Event>, st: HopState, hasNext: bool, splice: Option<Context>)
    requires forall k :: 0 <= k < |events| ==> !events[k].MessageDelta?
    ensures Consume(events, st, hasNext, splice).errors == []
    decreases |events|
  {
    if events != [] { ReportsNothing(events[1..], StepState(st, events[0]), hasNext, splice); }
  }

  /** What is left of a stream from its message_delta on. */
  lemma EndReports(rest: seq<Event>, st: HopState, hasNext: bool, splice: Option<Context>)
    requires rest != [] && rest[0].MessageDelta?
    requires forall k :: 0 <= k < |rest[1..]| ==> !rest[1..][k].MessageDelta?
    ensures Consume(rest, st, hasNext, splice).errors
         == if Chainable(rest[0], hasNext) then [] else Surfaced(rest[0].stop)
  {
    if !Chainable(rest[0], hasNext) {
      ReportsNothing(rest[1..], StepState(st, rest[0]), hasNext, splice);
      assert Surfaced(rest[0].stop) + [] == Surfaced(rest[0].stop);
      hide Surfaced, StepState, StepOut;
    }
  }

  lemma StreamReports(events: seq<Event>, base: nat, hasNext: bool, splice: Option<Context>)
    requires WellFormed(events)
    ensures Consume(events, NewHop(base), hasNext, splice).errors == StreamProblems(events, hasNext)
  {
    var n := EndAt(events);
    Ends(events);
    ReportsFrom(events, NewHop(base), n, hasNext, splice);
    var st, rest := TrackAll(NewHop(base), events[..n]), events[n..];
    assert rest[0] == events[n];
    forall k | 0 <= k < |rest[1..]|
      ensures !rest[1..][k].MessageDelta?
    {
      NoMoreEnds(events, n, n + 1 + k);
    }
    hide TrackAll, After;
    EndReports(rest, st, hasNext, splice);
  }

  function VerdictProblems(verdict: Verdict, base: nat, hasNext: bool, splice: Option<Context>): seq<Problem> {
    match verdict
    case Abort => []
    case Failure(problem) => [problem]
    case Answered(events) => Consume(events, NewHop(base), hasNext, splice).errors
  }

  /** An entry reports the problem that its last reply is. */
  lemma EntryReports(server: Server, orig: Body, a: HopOutcome, entry: Entry, hasNext: bool, link: Link)
    requires Honest(server) && a.refused.Some? && InFlight(server, orig, a, link)
    ensures var r := Hop(server, orig, entry, hasNext, link);
      r.errors == ReplyProblems(server(SentBy(r)), entry.model, hasNext)
  {
    var turn := TryTurn(server, orig, entry, link, CreditAfter(server, orig, a, link.sent));
    HopLeads(server, orig, entry, hasNext, link);
    HopErrors(server, orig, entry, hasNext, link);
    var t, ctx := Try(server, orig, entry, link), Some(Context(link.iterations, entry.model));
    assert t.sent == SentBy(Hop(server, orig, entry, hasNext, link));
    hide *;
    if Ok(server(t.sent)) { HonestAt(server, t.sent); }
    VerdictReports(server(t.sent), entry.model, link.nextIndex + 1, hasNext, ctx);
  }

  /** What a verdict reports is the problem that the reply is. */
  lemma VerdictReports(reply: Reply, model: Model, base: nat, hasNext: bool, splice: Option<Context>)
    requires Ok(reply) ==> WellFormed(reply.events)
    ensures VerdictProblems(Judge(model, reply), base, hasNext, splice) == ReplyProblems(reply, model, hasNext)
  {
    if Ok(reply) { StreamReports(reply.events, base, hasNext, splice); }
    hide Consume, StreamProblems, WellFormed;
  }

  lemma HopErrors(server: Server, orig: Body, entry: Entry, hasNext: bool, link: Link)
    ensures var r, verdict := Hop(server, orig, entry, hasNext, link), Try(server, orig, entry, link).verdict;
      r.errors == VerdictProblems(verdict, link.nextIndex + 1, hasNext, Some(Context(link.iterations, entry.model)))
  {
    hide Try, Consume, Boundary, HeldRefusal, NextLink;
  }

  lemma TurnProblemsNext(server: Server, fallbacks: seq<Entry>, firstHop: nat, turns: seq<seq<Body>>, turn: seq<Body>)
    requires firstHop + |turns| < |fallbacks|
    ensures var n := |turns|;
      TurnProblems(server, fallbacks, firstHop, turns + [turn])
      == TurnProblems(server, fallbacks, firstHop, turns)
         + ReplyProblems(server(Log(turns) + turn), fallbacks[firstHop + n].model, firstHop + n + 1 < |fallbacks|)
  {
    assert (turns + [turn])[..|turns|] == turns;
    hide ReplyProblems;
  }

  /** One entry's blocks are what its turn adds. */
  lemma EntryAdds(server: Server, orig: Body, a: seq<Event>, entry: Entry, hasNext: bool, link: Link)
    requires Honest(server) && WellFormed(a) && Reading(a).refused.Some? && InFlight(server, orig, Reading(a), link)
    ensures var sent := SentBy(Hop(server, orig, entry, hasNext, link));
      && Refusing(a)
      && EntryBlocks(server, orig, entry, hasNext, link)
         == [SeamSaid(CreditSaid(server, orig, a, link.sent), entry.model)]
            + (if Ok(server(sent)) then OwnBlocks(server(sent).events, hasNext) else [])
  {
    CreditIsSaid(server, orig, a, link.sent);
    var c := CreditAfter(server, orig, Reading(a), link.sent);
    var turn := TryTurn(server, orig, entry, link, c);
    HopLeads(server, orig, entry, hasNext, link);
    hide Hop, Try, Consume, TurnOf, Carried, CreditAfter, CreditSaid, OwnBlocks, NextLink, Reading, Honest, Refusing;
  }

  lemma TurnBlocksNext(server: Server, orig: Body, a: seq<Event>, fallbacks: seq<Entry>, firstHop: nat,
                       turns: seq<seq<Body>>, turn: seq<Body>)
    requires Refusing(a) && firstHop + |turns| < |fallbacks|
    ensures var n, reply := |turns|, server(Log(turns) + turn);
      TurnBlocks(server, orig, a, fallbacks, firstHop, turns + [turn])
      == TurnBlocks(server, orig, a, fallbacks, firstHop, turns)
         + ([SeamSaid(CreditSaid(server, orig, a, Log(turns)), fallbacks[firstHop + n].model)]
            + (if Ok(reply) then OwnBlocks(reply.events, firstHop + n + 1 < |fallbacks|) else []))
  {
    hide OwnBlocks, CreditSaid, Refusing, SeamSaid;
    var all, n := turns + [turn], |turns|;
    assert all[..n] == turns;
    assert Log(all) == Log(turns) + turn;
    var reply := server(Log(all));
    Regroup(TurnBlocks(server, orig, a, fallbacks, firstHop, turns),
            [SeamSaid(CreditSaid(server, orig, a, Log(turns)), fallbacks[firstHop + n].model)],
            if Ok(reply) then OwnBlocks(reply.events, firstHop + n + 1 < |fallbacks|) else []);
  }

  /** Some turns have been taken, and the chain is about to try its next entry. */
  ghost predicate Ready(server: Server, orig: Body, a: seq<Event>, fallbacks: seq<Entry>, firstHop: nat,
                        turns: seq<seq<Body>>, link: Link) {
    && Honest(server) && WellFormed(a) && Reading(a).refused.Some? && firstHop + |turns| < |fallbacks|
    && InFlight(server, orig, Reading(a), link) && (turns != [] ==> Onward(server(link.sent)))
    && InTurns(server, orig, Reading(a), fallbacks, firstHop, turns, link.sent)
  }

  /** `all` are these turns and more, up to the log `sent`, add `blocks` to the message, and report `problems`. */
  predicate Adds(server: Server, orig: Body, a: seq<Event>, fallbacks: seq<Entry>, firstHop: nat,
                 turns: seq<seq<Body>>, all: seq<seq<Body>>, sent: seq<Body>, blocks: seq<Block>,
                 problems: seq<Problem>) {
    && Refusing(a) && Reading(a).refused.Some? && |turns| < |all| && firstHop + |all| <= |fallbacks|
    && InTurns(server, orig, Reading(a), fallbacks, firstHop, all, sent)
    && TurnBlocks(server, orig, a, fallbacks, firstHop, all)
       == TurnBlocks(server, orig, a, fallbacks, firstHop, turns) + blocks
    && TurnProblems(server, fallbacks, firstHop, all) == TurnProblems(server, fallbacks, firstHop, turns) + problems
  }

  /** One turn of the loop, and what it adds. */
  lemma TurnAdds(server: Server, orig: Body, a: seq<Event>, fallbacks: seq<Entry>, firstHop: nat,
                 turns: seq<seq<Body>>, link: Link)
    returns (all: seq<seq<Body>>)
    requires Ready(server, orig, a, fallbacks, firstHop, turns, link)
    ensures var hop := firstHop + |turns|;
      var entry, hasNext := fallbacks[hop], hop + 1 < |fallbacks|;
      var r := Hop(server, orig, entry, hasNext, link);
      && |all| == |turns| + 1
      && Adds(server, orig, a, fallbacks, firstHop, turns, all, SentBy(r),
              EntryBlocks(server, orig, entry, hasNext, link), r.errors)
      && (r.Goes? ==> Ready(server, orig, a, fallbacks, firstHop, all, r.link))
  {
    var hop := firstHop + |turns|;
    var entry, hasNext := fallbacks[hop], hop + 1 < |fallbacks|;
    EntryAdds(server, orig, a, entry, hasNext, link);
    EntryReports(server, orig, Reading(a), entry, hasNext, link);
    assert link.sent == Log(turns);
    hide Hop, InFlight, Onward, CreditAfter, CreditSaid, TurnBlocks, TurnProblems, ReplyProblems, Reading, Honest;
    hide TurnOf, OwnBlocks, SeamSaid, InTurns, TakesTurn, EntryBlocks, Refusing;
    var turn := HopTurn(server, orig, Reading(a), entry, hasNext, link);
    all := turns + [turn];
    TurnsAppend(server, orig, Reading(a), fallbacks, firstHop, turns, link.sent, turn);
    TurnBlocksNext(server, orig, a, fallbacks, firstHop, turns, turn);
    TurnProblemsNext(server, fallbacks, firstHop, turns, turn);
  }

  lemma AddsThen(server: Server, orig: Body, a: seq<Event>, fallbacks: seq<Entry>, firstHop: nat,
                 turns: seq<seq<Body>>, some: seq<seq<Body>>, all: seq<seq<Body>>, was: seq<Body>, sent: seq<Body>,
                 blocks: seq<Block>, more: seq<Block>, problems: seq<Problem>, further: seq<Problem>)
    requires Adds(server, orig, a, fallbacks, firstHop, turns, some, was, blocks, problems)
    requires Adds(server, orig, a, fallbacks, firstHop, some, all, sent, more, further)
    ensures Adds(server, orig, a, fallbacks, firstHop, turns, all, sent, blocks + more, problems + further)
  {
    hide InTurns, Refusing, Reading, TurnBlocks, TurnProblems;
    Regroup(TurnProblems(server, fallbacks, firstHop, turns), problems, further);
    Regroup(TurnBlocks(server, orig, a, fallbacks, firstHop, turns), blocks, more);
  }

  lemma ChainBlocksNext(server: Server, orig: Body, fallbacks: seq<Entry>, hop: nat, link: Link)
    requires hop < |fallbacks|
    ensures var entry, hasNext := fallbacks[hop], hop + 1 < |fallbacks|;
      var r, blocks := Hop(server, orig, entry, hasNext, link), EntryBlocks(server, orig, entry, hasNext, link);
      ChainBlocks(server, orig, fallbacks, hop, link)
      == if r.Goes? then blocks + ChainBlocks(server, orig, fallbacks, hop + 1, r.link) else blocks
  {
    hide Hop, EntryBlocks;
    var blocks := EntryBlocks(server, orig, fallbacks[hop], hop + 1 < |fallbacks|, link);
    assert blocks + [] == blocks;
  }

  /** `all` are these turns and those of the rest of the chain. */
  predicate Finishes(server: Server, orig: Body, a: seq<Event>, fallbacks: seq<Entry>, firstHop: nat,
                     turns: seq<seq<Body>>, all: seq<seq<Body>>, hop: nat, link: Link)
    requires hop <= |fallbacks|
  {
    var r := Chain(server, orig, fallbacks, hop, link);
    && |all| == |turns| + |r.pins|
    && Adds(server, orig, a, fallbacks, firstHop, turns, all, r.sent,
            ChainBlocks(server, orig, fallbacks, hop, link), r.errors)
  }

  /** A turn that ends the chain, or one before the rest of it. */
  lemma FinishesNext(server: Server, orig: Body, a: seq<Event>, fallbacks: seq<Entry>, firstHop: nat,
                     turns: seq<seq<Body>>, some: seq<seq<Body>>, all: seq<seq<Body>>, hop: nat, link: Link)
    requires hop < |fallbacks| && |some| == |turns| + 1
    requires var entry, hasNext := fallbacks[hop], hop + 1 < |fallbacks|;
      var r := Hop(server, orig, entry, hasNext, link);
      && Adds(server, orig, a, fallbacks, firstHop, turns, some, SentBy(r),
              EntryBlocks(server, orig, entry, hasNext, link), r.errors)
      && if r.Goes? then Finishes(server, orig, a, fallbacks, firstHop, some, all, hop + 1, r.link) else all == some
    ensures Finishes(server, orig, a, fallbacks, firstHop, turns, all, hop, link)
  {
    ChainNext(server, orig, fallbacks, hop, link);
    ChainBlocksNext(server, orig, fallbacks, hop, link);
    hide Adds, Hop, Chain, ChainBlocks, EntryBlocks;
    var r := Hop(server, orig, fallbacks[hop], hop + 1 < |fallbacks|, link);
    if r.Goes? {
      AddsThen(server, orig, a, fallbacks, firstHop, turns, some, all, r.link.sent,
               Chain(server, orig, fallbacks, hop + 1, r.link).sent,
               EntryBlocks(server, orig, fallbacks[hop], hop + 1 < |fallbacks|, link),
               ChainBlocks(server, orig, fallbacks, hop + 1, r.link), r.errors,
               Chain(server, orig, fallbacks, hop + 1, r.link).errors);
    }
  }

  lemma ReadyBounds(server: Server, orig: Body, a: seq<Event>, fallbacks: seq<Entry>, firstHop: nat,
                    turns: seq<seq<Body>>, link: Link)
    requires Ready(server, orig, a, fallbacks, firstHop, turns, link)
    ensures firstHop + |turns| < |fallbacks|
  {
  }

  /** The rest of a chain adds to the message what its turns add. */
  lemma {:induction false} ChainAdds(server: Server, orig: Body, a: seq<Event>, fallbacks: seq<Entry>, firstHop: nat,
                                     turns: seq<seq<Body>>, hop: nat, link: Link)
    returns (all: seq<seq<Body>>)
    requires hop == firstHop + |turns| && Ready(server, orig, a, fallbacks, firstHop, turns, link)
    ensures hop < |fallbacks| && Finishes(server, orig, a, fallbacks, firstHop, turns, all, hop, link)
    decreases |fallbacks| - hop
  {
    hide *;
    ReadyBounds(server, orig, a, fallbacks, firstHop, turns, link);
    var some := TurnAdds(server, orig, a, fallbacks, firstHop, turns, link);
    var r := Hop(server, orig, fallbacks[hop], hop + 1 < |fallbacks|, link);
    all := some;
    if r.Goes? { all := ChainAdds(server, orig, a, fallbacks, firstHop, some, hop + 1, r.link); }
    FinishesNext(server, orig, a, fallbacks, firstHop, turns, some, all, hop, link);
  }

  /** A chain from its start. */
  lemma ChainIsSaid(server: Server, orig: Body, a: seq<Event>, fallbacks: seq<Entry>, firstHop: nat)
    returns (turns: seq<seq<Body>>)
    requires Honest(server) && WellFormed(a) && firstHop < |fallbacks| && Reading(a).refused.Some?
    ensures var link := FirstLink(Reading(a));
      var r := Chain(server, orig, fallbacks, firstHop, link);
      && |turns| == |r.pins| && firstHop + |turns| <= |fallbacks| && turns != []
      && Refusing(a) && SaidTurns(server, orig, a, fallbacks, firstHop, turns, r.sent)
      && TurnBlocks(server, orig, a, fallbacks, firstHop, turns)
         == ChainBlocks(server, orig, fallbacks, firstHop, link)
      && TurnProblems(server, fallbacks, firstHop, turns) == r.errors
  {
    hide *;
    ReadyFirst(server, orig, a, fallbacks, firstHop);
    turns := ChainAdds(server, orig, a, fallbacks, firstHop, [], firstHop, FirstLink(Reading(a)));
    FinishesFrom(server, orig, a, fallbacks, firstHop, turns, FirstLink(Reading(a)));
    AddsSaid(server, orig, a, fallbacks, firstHop, turns,
             Chain(server, orig, fallbacks, firstHop, FirstLink(Reading(a))).sent,
             ChainBlocks(server, orig, fallbacks, firstHop, FirstLink(Reading(a))),
             Chain(server, orig, fallbacks, firstHop, FirstLink(Reading(a))).errors);
  }

  lemma FinishesFrom(server: Server, orig: Body, a: seq<Event>, fallbacks: seq<Entry>, firstHop: nat,
                     all: seq<seq<Body>>, link: Link)
    requires firstHop <= |fallbacks| && Finishes(server, orig, a, fallbacks, firstHop, [], all, firstHop, link)
    ensures var r := Chain(server, orig, fallbacks, firstHop, link);
      && |all| == |r.pins|
      && Adds(server, orig, a, fallbacks, firstHop, [], all, r.sent,
              ChainBlocks(server, orig, fallbacks, firstHop, link), r.errors)
  {
    hide Adds, Chain, ChainBlocks;
  }

  lemma ReadyFirst(server: Server, orig: Body, a: seq<Event>, fallbacks: seq<Entry>, firstHop: nat)
    requires Honest(server) && WellFormed(a) && firstHop < |fallbacks| && Reading(a).refused.Some?
    ensures Ready(server, orig, a, fallbacks, firstHop, [], FirstLink(Reading(a)))
  {
    FirstInFlight(server, orig, Reading(a));
    NoTurns(server, orig, Reading(a), fallbacks, firstHop);
    hide InFlight, InTurns, Reading, FirstLink, Honest, After;
  }

  lemma AddsSaid(server: Server, orig: Body, a: seq<Event>, fallbacks: seq<Entry>, firstHop: nat,
                 all: seq<seq<Body>>, sent: seq<Body>, blocks: seq<Block>, problems: seq<Problem>)
    requires Honest(server) && WellFormed(a)
    requires Adds(server, orig, a, fallbacks, firstHop, [], all, sent, blocks, problems)
    ensures all != [] && firstHop + |all| <= |fallbacks| && Refusing(a)
    ensures SaidTurns(server, orig, a, fallbacks, firstHop, all, sent)
    ensures TurnBlocks(server, orig, a, fallbacks, firstHop, all) == blocks
    ensures TurnProblems(server, fallbacks, firstHop, all) == problems
  {
    assert TurnProblems(server, fallbacks, firstHop, []) == [];
    assert TurnBlocks(server, orig, a, fallbacks, firstHop, []) == [];
    hide InTurns, SaidTurns, Reading, Refusing, Honest, After, TurnBlocks, TurnProblems;
    TurnsAreSaid(server, orig, a, fallbacks, firstHop, all, sent);
    assert [] + blocks == blocks && [] + problems == problems;
  }

  /**
   Every run in terms of its log: each entry pinned has its turn; the requests of a turn redeem, for that entry,
   what the stream refused last before it grants; the client's message is the refused stream's blocks and, turn
   by turn, a seam from the model that refused to the entry's and the blocks that answered; and what is reported
   is, stream by stream, the refusals that are not retried and the requests that fail.
   */
  lemma RunIsSaid(server: Server, orig: Body, a: seq<Event>, fallbacks: seq<Entry>, firstHop: nat)
    returns (turns: seq<seq<Body>>)
    requires Honest(server) && WellFormed(a) && firstHop < |fallbacks|
    ensures var r := Spliced(server, orig, a, fallbacks, firstHop);
      var s := Folded(Live(None), r.out);
      && s.Live? && s.snapshot.Some? && |turns| == |r.pins| && firstHop + |turns| <= |fallbacks|
      && (Refusing(a) <==> turns != [])
      && (!Refusing(a) ==> r.sent == [] && r.out == a)
      && r.errors == StreamProblems(a, true) + TurnProblems(server, fallbacks, firstHop, turns)
      && (Refusing(a) ==>
           && SaidTurns(server, orig, a, fallbacks, firstHop, turns, r.sent)
           && s.snapshot.value.content
              == OwnBlocks(a, true) + TurnBlocks(server, orig, a, fallbacks, firstHop, turns))
  {
    turns := [];
    RefusedAtEnd(a, 0, None);
    StreamReports(a, 0, true, None);
    assert TurnProblems(server, fallbacks, firstHop, []) == [];
    assert StreamProblems(a, true) + [] == StreamProblems(a, true);
    SplicedContent(server, orig, a, fallbacks, firstHop);
    PassThrough(a, NewHop(0), true);
    hide Chain, SaidTurns, Consume, Folded, OwnBlocks, Refusing, ChainBlocks, FirstLink, TurnBlocks, Honest;
    hide TurnProblems, StreamProblems;
    if Reading(a).refused.Some? { turns := ChainIsSaid(server, orig, a, fallbacks, firstHop); }
  }

  /** The usage reported at the end of a run that is served, by what the refused streams in the log grant. */
  lemma ServedSaid(server: Server, orig: Body, a: seq<Event>, fallbacks: seq<Entry>, firstHop: nat)
    requires Honest(server) && WellFormed(a) && firstHop < |fallbacks|
    ensures var r := Spliced(server, orig, a, fallbacks, firstHop);
      r.ending == Served ==>
        && Refusing(a) && r.sent != []
        && var n := |r.sent| - 1;
           AllReport(r.out, CreditSaid(server, orig, a, r.sent[..n]).iterations, r.sent[n].model,
                     EventsOf(server(r.sent)))
  {
    ServedUsage(server, orig, a, fallbacks, firstHop);
    var r := Spliced(server, orig, a, fallbacks, firstHop);
    hide Spliced, CreditAfter, CreditSaid, AllReport, Consume, Refusing, Honest;
    if r.ending == Served { CreditIsSaid(server, orig, a, r.sent[..|r.sent| - 1]); }
  }

  // ----- the blocks of one stream -----

  /** What of a stream the client is shown: all of it, or what comes before a refusal that is retried. */
  function Shown(events: seq<Event>, hasNext: bool): seq<Event> {
    if hasNext && Refusing(events) then events[..EndAt(events)] else events
  }

  lemma {:induction false} ForwardedUpTo(events: seq<Event>, st: HopState, n: nat)
    requires n <= |events| && forall k :: 0 <= k < n ==> !events[k].MessageDelta?
    ensures Consume(events, st, true, None).out
         == events[..n] + Consume(events[n..], TrackAll(st, events[..n]), true, None).out
  {
    if n == 0 {
      assert events[0..] == events && events[..0] == [];
    } else {
      ForwardedUpTo(events, st, n - 1);
      var rest := events[n - 1..];
      assert rest[0] == events[n - 1] && rest[1..] == events[n..];
      assert events[..n][..n - 1] == events[..n - 1] && events[..n] == events[..n - 1] + [events[n - 1]];
      Regroup(events[..n - 1], [events[n - 1]], Consume(events[n..], TrackAll(st, events[..n]), true, None).out);
    }
  }

  /** Stops say nothing of what a block holds. */
  lemma {:induction false} StopsSayNothing(events: seq<Event>, stops: seq<Event>, i: nat)
    requires forall e :: e in stops ==> e.BlockStop?
    ensures StartOf(events + stops, i) == StartOf(events, i) && DeltasFor(events + stops, i) == DeltasFor(events, i)
    ensures After(Before, events + stops) != Bad ==>
      Started(After(Before, events + stops)) == Started(After(Before, events)) || After(Before, events) == Bad
  {
    if stops == [] {
      assert events + stops == events;
    } else {
      var n := |stops| - 1;
      assert (events + stops)[..|events| + n] == events + stops[..n] && (events + stops)[|events| + n] == stops[n];
      assert stops[n] in stops && stops[n].BlockStop?;
      assert |events + stops| - 1 == |events| + n;
      StopsSayNothing(events, stops[..n], i);
      assert DeltasFor(events, i) + [] == DeltasFor(events, i);
    }
  }

  /** What the client sees of a stream: what it is shown, and stops for the blocks that a refusal cuts short. */
  lemma OwnIsShown(events: seq<Event>, hasNext: bool) returns (stops: seq<Event>)
    requires WellFormed(events)
    ensures Consume(events, NewHop(0), hasNext, None).out == Shown(events, hasNext) + stops
    ensures forall e :: e in stops ==> e.BlockStop?
    ensures !hasNext || !Refusing(events) ==> stops == []
  {
    stops := [];
    RefusedAtEnd(events, 0, None);
    if hasNext && Refusing(events) {
      var n := EndAt(events);
      ForwardedUpTo(events, NewHop(0), n);
      assert events[n..][0] == events[n];
      stops := Stops(TrackAll(NewHop(0), events[..n]).track.open);
      StopsAreStops(TrackAll(NewHop(0), events[..n]).track.open);
    } else {
      RefusalNeedsNext(events, NewHop(0), hasNext, None);
      PassThrough(events, NewHop(0), hasNext);
      assert events + [] == events;
    }
  }

  /** A stream's blocks in the client's message hold what it was sent for them, as far as it is shown. */
  lemma OwnBlocksHold(events: seq<Event>, hasNext: bool)
    requires WellFormed(events)
    ensures var shown, blocks := Shown(events, hasNext), OwnBlocks(events, hasNext);
      && |blocks| == Started(After(Before, shown))
      && forall i :: 0 <= i < |blocks| ==> Holds(blocks[i], StartOf(shown, i), DeltasFor(shown, i))
  {
    var stops := OwnIsShown(events, hasNext);
    ConsumeForm(events, Before, NewHop(0), hasNext, None);
    var shown, own := Shown(events, hasNext), Consume(events, NewHop(0), hasNext, None).out;
    ShownNotBad(events, hasNext);
    hide Consume, Shown, After, OwnBlocks, Holds;
    assert OwnBlocks(events, hasNext) == GrowAll([], own) by { OwnBlocksAre(events, hasNext); }
    PositionIsIndex(own);
    ContentIsGrown(own);
    StopsSayNothing(shown, stops, 0);
    forall i | 0 <= i < Started(After(Before, own))
      ensures Holds(GrowAll([], own)[i], StartOf(shown, i), DeltasFor(shown, i))
    {
      BuiltIsSent(own, i);
      StopsSayNothing(shown, stops, i);
    }
  }

  lemma OwnBlocksAre(events: seq<Event>, hasNext: bool)
    ensures OwnBlocks(events, hasNext) == GrowAll([], Consume(events, NewHop(0), hasNext, None).out)
  {
  }

  lemma ShownNotBad(events: seq<Event>, hasNext: bool)
    requires WellFormed(events)
    ensures After(Before, Shown(events, hasNext)) != Bad
  {
    PrefixNotBad(events, EndAt(events));
  }
}
