/**
 How the client takes a spliced stream: to its end exactly when it would take each of the hops' streams so,
 and every text of the joint message is the output asked for.
 */
module SpliceClient {
  import opened CodeUnits
  import opened Options
  import opened MessageEvents
  import opened Accumulator
  import opened FallbackSplice
  import opened SpliceForm
  import opened SpliceContent

  // ----- taking events on top of some content -----

  /** The next event ends the client's stream, texts aside. */
  predicate Stalls(c: seq<Block>, e: Event, listening: bool, readable: Text -> bool) {
    match e
    case Error(_) => true
    case BlockStop(i) => i < |c| && c[i].json.Some? && Unreadable(c[i], readable)
    case BlockDelta(_, d) =>
      var grown := Grow(c, e);
      grown == [] || (listening && d.InputJsonDelta? && Unreadable(grown[|grown| - 1], readable))
    case _ => false
  }

  /** The number of the event after `e`; a hop's message_start is not counted, since the client never sees it. */
  function NextSeen(at: nat, e: Event, hop: bool): nat { if hop && e.MessageStart? then at else at + 1 }

  /** None of the events stalls, the first of them being number `at`. */
  predicate Smooth(c: seq<Block>, events: seq<Event>, at: nat, hop: bool,
                   listening: nat -> bool, readable: Text -> bool)
    decreases |events|
  {
    events == []
    || (&& !Stalls(c, events[0], listening(at), readable)
        && Smooth(Grow(c, events[0]), events[1..], NextSeen(at, events[0], hop), hop, listening, readable))
  }

  lemma {:induction false} SmoothAppend(c: seq<Block>, a: seq<Event>, b: seq<Event>, at: nat,
                                        listening: nat -> bool, readable: Text -> bool)
    ensures Smooth(c, a + b, at, false, listening, readable)
            <==> && Smooth(c, a, at, false, listening, readable)
                 && Smooth(GrowAll(c, a), b, at + |a|, false, listening, readable)
    decreases |a|
  {
    if a == [] {
      assert a + b == b;
    } else {
      assert (a + b)[1..] == a[1..] + b;
      SmoothAppend(Grow(c, a[0]), a[1..], b, at + 1, listening, readable);
    }
  }

  lemma SmoothOne(c: seq<Block>, e: Event, at: nat, listening: nat -> bool, readable: Text -> bool)
    ensures Smooth(c, [e], at, false, listening, readable) <==> !Stalls(c, e, listening(at), readable)
  {
    assert [e][1..] == [];
  }

  /** Where the client is after a stream in good order. */
  lemma Snapshot(events: seq<Event>)
    requires After(Before, events) != Bad
    ensures var s, q := Folded(Live(None), events), After(Before, events);
      && s.Live? && (s.snapshot.None? <==> q == Before) && |GrowAll([], events)| == Started(q)
      && (s.snapshot.Some? ==> s.snapshot.value.content == GrowAll([], events))
  {
    PositionIsIndex(events);
    ContentIsGrown(events);
  }

  lemma LastGrown(events: seq<Event>)
    requires events != []
    ensures var earlier, e := events[..|events| - 1], events[|events| - 1];
      && GrowAll([], events) == Grow(GrowAll([], earlier), e)
      && Folded(Live(None), events) == Accumulate(Folded(Live(None), earlier), e)
      && After(Before, events) == Next(After(Before, earlier), e)
  {
    var earlier, e := events[..|events| - 1], events[|events| - 1];
    assert events == earlier + [e];
    GrowAllAppend([], earlier, [e]);
    GrowOne(GrowAll([], earlier), e);
  }

  /** The last event of a stream, as the client takes it on top of what it has. */
  lemma LastDelivered(events: seq<Event>, listening: bool, reader: Reader)
    requires events != [] && After(Before, events) != Bad
    ensures var earlier, e := events[..|events| - 1], events[|events| - 1];
      var c, d := GrowAll([], earlier), Deliver(Delivered(Folded(Live(None), earlier), false), e, listening, reader);
      && (d.ended <==> Stalls(c, e, listening, reader.readable) || (e.MessageStop? && !TextsFit(c, reader.parses)))
      && (!d.ended ==> d.state == Folded(Live(None), events))
  {
    LastGrown(events);
    Snapshot(events[..|events| - 1]);
    Snapshot(events);
    hide After, Folded, GrowAll, Accumulate, ApplyDelta, Settle, TextsFit, Unreadable;
  }

  /** Taken to its end: no event stalls, and once the message has stopped its texts parse. */
  lemma {:induction false} TakenIsSmooth(events: seq<Event>, listening: nat -> bool, reader: Reader)
    requires After(Before, events) != Bad
    ensures var taken := DeliverAll(events, listening, reader);
      && (!taken.ended <==> && Smooth([], events, 0, false, listening, reader.readable)
                            && (WellFormed(events) ==> TextsFit(GrowAll([], events), reader.parses)))
      && (!taken.ended ==> taken.state == Folded(Live(None), events))
  {
    if events != [] {
      var n := |events| - 1;
      var earlier, e := events[..n], events[n];
      assert events == earlier + [e];
      TakenIsSmooth(earlier, listening, reader);
      LastDelivered(events, listening(n), reader);
      SmoothAppend([], earlier, [e], 0, listening, reader.readable);
      SmoothOne(GrowAll([], earlier), e, n, listening, reader.readable);
      GrowAllAppend([], earlier, [e]);
      GrowOne(GrowAll([], earlier), e);
      hide Smooth, Stalls, TextsFit, GrowAll, Deliver, Folded;
    }
  }

  // ----- a hop's events behind what is there -----

  function Starts(events: seq<Event>): (n: nat)
    ensures n <= |events|
  {
    if events == [] then 0
    else Starts(events[..|events| - 1]) + (if events[|events| - 1].MessageStart? then 1 else 0)
  }

  /** Whether anyone listens at a hop's event `k`; the client sees the hop from number `at` on, its start left out. */
  function Heard(own: seq<Event>, at: nat, listening: nat -> bool): nat -> bool {
    (k: nat) => k <= |own| && listening(at + k - Starts(own[..k]))
  }

  lemma {:induction false} HeardSmooth(c: seq<Block>, own: seq<Event>, k: nat, at: nat, listening: nat -> bool,
                                       readable: Text -> bool)
    requires k <= |own|
    ensures Smooth(c, own[k..], at + k - Starts(own[..k]), true, listening, readable)
            <==> Smooth(c, own[k..], k, false, Heard(own, at, listening), readable)
    decreases |own| - k
  {
    hide Stalls, Grow;
    if k < |own| {
      assert own[k..][0] == own[k] && own[k..][1..] == own[k + 1..];
      assert own[..k + 1][..k] == own[..k];
      assert Starts(own[..k + 1]) == Starts(own[..k]) + (if own[k].MessageStart? then 1 else 0);
      hide Starts;
      HeardSmooth(Grow(c, own[k]), own, k + 1, at, listening, readable);
    }
  }

  lemma StallsBehind(front: seq<Block>, own: seq<Block>, q: Phase, st: HopState, e: Event, ctx: Context,
                     listening: bool, readable: Text -> bool)
    requires Next(q, e) != Bad && |own| == Started(q) && st.track.base == |front| && OpenBelow(q)
    ensures var out := StepOut(st, e, Some(ctx));
      && (out == [] <==> e.MessageStart?)
      && (out == [] ==> !Stalls(own, e, listening, readable))
      && (out != [] ==> |out| == 1
                        && (Stalls(front + own, out[0], listening, readable) <==> Stalls(own, e, listening, readable)))
  {
    var out := StepOut(st, e, Some(ctx));
    if out != [] { GrowOne(front + own, out[0]); }
    GrowBehind(front, own, q, st, e, ctx);
    hide Unreadable, ApplyDelta, Settle;
    if e.BlockDelta? {
      var grown := Grow(own, e);
      assert Grow(front + own, out[0]) == front + grown;
      assert (front + grown)[|front + grown| - 1] == grown[|grown| - 1];
    }
  }

  lemma {:induction false} StopsSmooth(front: seq<Block>, own: seq<Block>, alone: seq<nat>, spliced: seq<nat>, at: nat,
                                       listening: nat -> bool, readable: Text -> bool)
    requires Parallel(alone, spliced, |front|) && AllBelow(alone, |own|)
    ensures Smooth(front + own, Stops(spliced), at, false, listening, readable)
            <==> Smooth(own, Stops(alone), at, true, listening, readable)
    decreases |alone|
  {
    if alone != [] {
      var i := alone[0];
      var own' := own[i := Settle(own[i])];
      assert (front + own)[spliced[0] := Settle((front + own)[spliced[0]])] == front + own';
      assert Stops(alone)[1..] == Stops(alone[1..]) && Stops(spliced)[1..] == Stops(spliced[1..]);
      hide Settle, Unreadable;
      StopsSmooth(front, own', alone[1..], spliced[1..], at + 1, listening, readable);
    }
  }

  /** A hop's stream goes as smoothly behind other blocks as it would by itself. */
  lemma {:induction false} HopSmooth(events: seq<Event>, q: Phase, front: seq<Block>, own: seq<Block>,
                                     st: HopState, alone: HopState, hasNext: bool, ctx: Context,
                                     at: nat, listening: nat -> bool, readable: Text -> bool)
    requires After(q, events).Done? && |own| == Started(q)
    requires OpenBelow(q)
    requires st.track.base == |front| && alone.track.base == 0
    requires Parallel(alone.track.open, st.track.open, |front|) && AllBelow(alone.track.open, |own|)
    ensures Smooth(front + own, Consume(events, st, hasNext, Some(ctx)).out, at, false, listening, readable)
            <==> Smooth(own, Consume(events, alone, hasNext, None).out, at, true, listening, readable)
    decreases |events|
  {
    if events != [] {
      var e, rest := events[0], events[1..];
      AfterFirst(q, events);
      if Next(q, e) == Bad { BadStays(rest); }
      if Chainable(e, hasNext) {
        StopsSmooth(front, own, alone.track.open, st.track.open, at, listening, readable);
      } else {
        GrowBehind(front, own, q, st, e, ctx);
        StallsBehind(front, own, q, st, e, ctx, listening(at), readable);
        OpenStaysBelow(q, e);
        OpenParallel(alone, st, e, |front|, |own|, q);
        HopSmooth(rest, Next(q, e), front, Grow(own, e), StepState(st, e), StepState(alone, e), hasNext, ctx,
                  NextSeen(at, e, true), listening, readable);
        var out, later := StepOut(st, e, Some(ctx)), Consume(rest, StepState(st, e), hasNext, Some(ctx)).out;
        var own', later' := Grow(own, e), Consume(rest, StepState(alone, e), hasNext, None).out;
        assert Consume(events, st, hasNext, Some(ctx)).out == out + later;
        assert Consume(events, alone, hasNext, None).out == [e] + later';
        hide Consume, StepOut, StepState, Stalls, Grow, After, Smooth;
        FirstSmooth(front + own, out, later, front + own', at, listening, readable);
        OneSmooth(own, e, later', at, listening, readable);
      }
    }
  }

  lemma OneSmooth(c: seq<Block>, e: Event, later: seq<Event>, at: nat, listening: nat -> bool, readable: Text -> bool)
    ensures Smooth(c, [e] + later, at, true, listening, readable)
            <==> && !Stalls(c, e, listening(at), readable)
                 && Smooth(Grow(c, e), later, NextSeen(at, e, true), true, listening, readable)
  {
    assert ([e] + later)[1..] == later;
    hide Stalls, Grow;
  }

  /** At most one event, and then the rest. */
  lemma FirstSmooth(c: seq<Block>, out: seq<Event>, later: seq<Event>, c': seq<Block>, at: nat,
                    listening: nat -> bool, readable: Text -> bool)
    requires |out| <= 1 && GrowAll(c, out) == c'
    ensures Smooth(c, out + later, at, false, listening, readable)
            <==> && (out != [] ==> !Stalls(c, out[0], listening(at), readable))
                 && Smooth(c', later, at + |out|, false, listening, readable)
  {
    hide Stalls, Grow;
    SmoothAppend(c, out, later, at, listening, readable);
    if out != [] {
      assert out == [out[0]];
      SmoothOne(c, out[0], at, listening, readable);
    }
  }

  // ----- the streams consumed -----

  /** What the client sees of a stream read by itself, up to a refusal that is retried. */
  function Own(events: seq<Event>, hasNext: bool): seq<Event> { Consume(events, NewHop(0), hasNext, None).out }

  /** Everything but the texts can be read on a stream by itself. */
  predicate InputsRead(own: seq<Event>, listening: nat -> bool, readable: Text -> bool) {
    AllRead(own, listening, Reader(readable, (t: Text) => true))
  }

  lemma InputsSmooth(own: seq<Event>, listening: nat -> bool, readable: Text -> bool)
    requires After(Before, own) != Bad && StartsClean(own)
    ensures InputsRead(own, listening, readable) <==> Smooth([], own, 0, false, listening, readable)
  {
    var reader := Reader(readable, (t: Text) => true);
    TakenWhole(own, listening, reader);
    TakenIsSmooth(own, listening, reader);
  }

  /** What an entry streams, if it does, can be read on its own. */
  predicate EntryReads(server: Server, orig: Body, entry: Entry, hasNext: bool, link: Link, at: nat,
                       listening: nat -> bool, readable: Text -> bool) {
    var tried := Try(server, orig, entry, link);
    tried.verdict.Answered? ==>
      var own := Own(tried.verdict.events, hasNext);
      InputsRead(own, Heard(own, at + 2, listening), readable)
  }

  /** So can the streams of all entries tried, the first of them seen from event number `at` on, seam included. */
  predicate ChainReads(server: Server, orig: Body, fallbacks: seq<Entry>, hop: nat, link: Link, at: nat,
                       listening: nat -> bool, readable: Text -> bool)
    requires hop <= |fallbacks|
    decreases |fallbacks| - hop
  {
    hop < |fallbacks| ==>
      && EntryReads(server, orig, fallbacks[hop], hop + 1 < |fallbacks|, link, at, listening, readable)
      && match Hop(server, orig, fallbacks[hop], hop + 1 < |fallbacks|, link)
         case Goes(out, _, next) =>
           ChainReads(server, orig, fallbacks, hop + 1, next, at + |out|, listening, readable)
         case Ends(_, _, _, _) => true
  }

  lemma BoundarySmooth(c: seq<Block>, link: Link, entry: Entry, at: nat, listening: nat -> bool, readable: Text -> bool)
    requires |c| == link.nextIndex
    ensures Smooth(c, Boundary(link, entry), at, false, listening, readable)
  {
    var b := Boundary(link, entry);
    assert b[1..] == [b[1]];
    SmoothOne(Grow(c, b[0]), b[1], at + 1, listening, readable);
  }

  lemma HeldRefusalSmooth(c: seq<Block>, link: Link, entry: Entry, at: nat, listening: nat -> bool,
                          readable: Text -> bool)
    ensures Smooth(c, HeldRefusal(link, entry), at, false, listening, readable)
  {
    var b := HeldRefusal(link, entry);
    assert b[1..] == [b[1]];
    SmoothOne(Grow(c, b[0]), b[1], at + 1, listening, readable);
  }

  lemma OwnForm(events: seq<Event>, hasNext: bool)
    requires WellFormed(events) && StartsClean(events)
    ensures After(Before, Own(events, hasNext)) != Bad && StartsClean(Own(events, hasNext))
  {
    ConsumeForm(events, Before, NewHop(0), hasNext, None);
    ConsumeClean(events, NewHop(0), hasNext, None);
    hide Consume, StartsClean, After;
  }

  lemma AnsweredSmooth(events: seq<Event>, hasNext: bool, link: Link, entry: Entry, c: seq<Block>, at: nat,
                       listening: nat -> bool, readable: Text -> bool)
    requires WellFormed(events) && StartsClean(events) && |c| == link.nextIndex + 1
    ensures var b := Consume(events, NewHop(link.nextIndex + 1), hasNext, Some(Context(link.iterations, entry.model)));
      var own := Own(events, hasNext);
      Smooth(c, b.out, at, false, listening, readable)
      <==> InputsRead(own, Heard(own, at, listening), readable)
  {
    hide Consume, Smooth, StartsClean, InputsRead, After;
    var ctx, own := Context(link.iterations, entry.model), Own(events, hasNext);
    assert c + [] == c;
    HopSmooth(events, Before, c, [], NewHop(link.nextIndex + 1), NewHop(0), hasNext, ctx, at, listening, readable);
    OwnForm(events, hasNext);
    hide Own, Heard;
    assert own[0..] == own && own[..0] == [];
    HeardSmooth([], own, 0, at, listening, readable);
    InputsSmooth(own, Heard(own, at, listening), readable);
  }

  lemma TurnSmooth(server: Server, orig: Body, entry: Entry, hasNext: bool, link: Link, c: seq<Block>, at: nat,
                   listening: nat -> bool, readable: Text -> bool)
    requires Honest(server) && SendsClean(server) && |c| == link.nextIndex
    ensures Smooth(c, Hop(server, orig, entry, hasNext, link).out, at, false, listening, readable)
            <==> EntryReads(server, orig, entry, hasNext, link, at, listening, readable)
  {
    AnsweredByServer(server, orig, entry, link);
    var tried, boundary := Try(server, orig, entry, link), Boundary(link, entry);
    BoundarySmooth(c, link, entry, at, listening, readable);
    BoundaryGrows(c, link, entry);
    HeldRefusalSmooth(GrowAll(c, boundary), link, entry, at + 2, listening, readable);
    assert |boundary| == 2;
    hide Try, Consume, Boundary, HeldRefusal, Smooth, GrowAll, Honest, SendsClean, InputsRead, Heard, Own;
    SmoothAppend(c, boundary, HeldRefusal(link, entry), at, listening, readable);
    if tried.verdict.Answered? {
      HonestSends(server, tried.sent);
      var events, ctx := tried.verdict.events, Context(link.iterations, entry.model);
      AnsweredSmooth(events, hasNext, link, entry, GrowAll(c, boundary), at + 2, listening, readable);
      SmoothAppend(c, boundary, Consume(events, NewHop(link.nextIndex + 1), hasNext, Some(ctx)).out, at, listening,
                   readable);
    }
  }

  lemma HonestSends(server: Server, sent: seq<Body>)
    requires Honest(server) && SendsClean(server) && Ok(server(sent))
    ensures WellFormed(server(sent).events) && StartsClean(server(sent).events)
  {
  }

  lemma {:induction false} ChainSmooth(server: Server, orig: Body, fallbacks: seq<Entry>, hop: nat, link: Link,
                                       c: seq<Block>, at: nat, listening: nat -> bool, readable: Text -> bool)
    requires Honest(server) && SendsClean(server) && hop < |fallbacks| && |c| == link.nextIndex
    ensures Smooth(c, Chain(server, orig, fallbacks, hop, link).out, at, false, listening, readable)
            <==> ChainReads(server, orig, fallbacks, hop, link, at, listening, readable)
    decreases |fallbacks| - hop
  {
    hide Hop, EntryReads, GrowAll, Honest, SendsClean, Smooth;
    var entry, hasNext := fallbacks[hop], hop + 1 < |fallbacks|;
    TurnSmooth(server, orig, entry, hasNext, link, c, at, listening, readable);
    HopBlocks(server, orig, entry, hasNext, link, c);
    HopLength(server, orig, entry, hasNext, link, c);
    HopNeedsNext(server, orig, entry, hasNext, link);
    hide EntryBlocks;
    var r := Hop(server, orig, entry, hasNext, link);
    if r.Goes? {
      var c' := GrowAll(c, r.out);
      ChainSmooth(server, orig, fallbacks, hop + 1, r.link, c', at + |r.out|, listening, readable);
      SmoothAppend(c, r.out, Chain(server, orig, fallbacks, hop + 1, r.link).out, at, listening, readable);
    }
  }

  // ----- blocks start without JSON on a spliced stream too -----

  /** No stream the server sends starts a block with JSON of its own. */
  ghost predicate SendsClean(server: Server) { forall sent :: Ok(server(sent)) ==> StartsClean(server(sent).events) }

  lemma CleanAppend(a: seq<Event>, b: seq<Event>)
    requires StartsClean(a) && StartsClean(b)
    ensures StartsClean(a + b)
  {
  }

  lemma {:induction false} StopsClean(open: seq<nat>)
    ensures StartsClean(Stops(open))
  {
    if open != [] { StopsClean(open[1..]); }
  }

  lemma {:induction false} ConsumeClean(events: seq<Event>, st: HopState, hasNext: bool, splice: Option<Context>)
    requires StartsClean(events)
    ensures StartsClean(Consume(events, st, hasNext, splice).out)
    decreases |events|
  {
    if events != [] {
      var e, rest := events[0], events[1..];
      assert forall n :: 0 <= n < |rest| ==> rest[n] == events[n + 1];
      if Chainable(e, hasNext) {
        StopsClean(st.track.open);
      } else {
        ConsumeClean(rest, StepState(st, e), hasNext, splice);
        assert StartsClean(StepOut(st, e, splice)) by { assert e == events[0]; }
        CleanAppend(StepOut(st, e, splice), Consume(rest, StepState(st, e), hasNext, splice).out);
      }
    }
  }

  lemma SendsCleanAt(server: Server, sent: seq<Body>)
    requires SendsClean(server) && Ok(server(sent))
    ensures StartsClean(server(sent).events)
  {
  }

  lemma OwnEventsClean(link: Link, entry: Entry)
    ensures StartsClean(Boundary(link, entry)) && StartsClean(HeldRefusal(link, entry))
  {
  }

  lemma HopClean(server: Server, orig: Body, entry: Entry, hasNext: bool, link: Link)
    requires SendsClean(server)
    ensures StartsClean(Hop(server, orig, entry, hasNext, link).out)
  {
    AnsweredByServer(server, orig, entry, link);
    OwnEventsClean(link, entry);
    hide Try, Consume, Boundary, HeldRefusal, StartsClean, SendsClean;
    CleanAppend(Boundary(link, entry), HeldRefusal(link, entry));
    var tried, base := Try(server, orig, entry, link), NewHop(link.nextIndex + 1);
    if tried.verdict.Answered? {
      var ctx := Some(Context(link.iterations, entry.model));
      SendsCleanAt(server, tried.sent);
      ConsumeClean(tried.verdict.events, base, hasNext, ctx);
      CleanAppend(Boundary(link, entry), Consume(tried.verdict.events, base, hasNext, ctx).out);
    }
  }

  lemma {:induction false} ChainClean(server: Server, orig: Body, fallbacks: seq<Entry>, hop: nat, link: Link)
    requires SendsClean(server) && hop <= |fallbacks|
    ensures StartsClean(Chain(server, orig, fallbacks, hop, link).out)
    decreases |fallbacks| - hop
  {
    if hop < |fallbacks| {
      HopClean(server, orig, fallbacks[hop], hop + 1 < |fallbacks|, link);
      hide Hop, SendsClean;
      var r := Hop(server, orig, fallbacks[hop], hop + 1 < |fallbacks|, link);
      if r.Goes? {
        ChainClean(server, orig, fallbacks, hop + 1, r.link);
        CleanAppend(r.out, Chain(server, orig, fallbacks, hop + 1, r.link).out);
      }
    }
  }

  // ----- the whole run -----

  /** The content of the client's message: the refused stream's blocks and those of the chain. */
  function JointContent(server: Server, orig: Body, a: seq<Event>, fallbacks: seq<Entry>, firstHop: nat): seq<Block>
    requires firstHop < |fallbacks|
  {
    var o := Consume(a, NewHop(0), true, None);
    OwnBlocks(a, true)
    + (if o.refused.Some? then ChainBlocks(server, orig, fallbacks, firstHop, FirstLink(o)) else [])
  }

  /** Stream A and the streams of the entries tried can be read, texts aside. */
  predicate StreamsRead(server: Server, orig: Body, a: seq<Event>, fallbacks: seq<Entry>, firstHop: nat,
                        listening: nat -> bool, readable: Text -> bool)
    requires firstHop < |fallbacks|
  {
    var o := Consume(a, NewHop(0), true, None);
    && InputsRead(o.out, listening, readable)
    && (o.refused.Some? ==>
         ChainReads(server, orig, fallbacks, firstHop, FirstLink(o), |o.out|, listening, readable))
  }

  /** What an entry streams, if it does, has texts that parse by themselves. */
  predicate EntryParses(server: Server, orig: Body, entry: Entry, hasNext: bool, link: Link, parses: Text -> bool) {
    var tried := Try(server, orig, entry, link);
    tried.verdict.Answered? ==> TextsParse(Own(tried.verdict.events, hasNext), parses)
  }

  predicate ChainParses(server: Server, orig: Body, fallbacks: seq<Entry>, hop: nat, link: Link, parses: Text -> bool)
    requires hop <= |fallbacks|
    decreases |fallbacks| - hop
  {
    hop < |fallbacks| ==>
      && EntryParses(server, orig, fallbacks[hop], hop + 1 < |fallbacks|, link, parses)
      && match Hop(server, orig, fallbacks[hop], hop + 1 < |fallbacks|, link)
         case Goes(_, _, next) => ChainParses(server, orig, fallbacks, hop + 1, next, parses)
         case Ends(_, _, _, _) => true
  }

  /** Each text sent on stream A, cut short or not, and by the entries tried parses by itself. */
  predicate StreamsParse(server: Server, orig: Body, a: seq<Event>, fallbacks: seq<Entry>, firstHop: nat,
                         parses: Text -> bool)
    requires firstHop < |fallbacks|
  {
    var o := Consume(a, NewHop(0), true, None);
    && TextsParse(Own(a, true), parses)
    && (o.refused.Some? ==> ChainParses(server, orig, fallbacks, firstHop, FirstLink(o), parses))
  }

  lemma OwnParses(events: seq<Event>, hasNext: bool, parses: Text -> bool)
    requires WellFormed(events)
    ensures TextsFit(OwnBlocks(events, hasNext), parses) <==> TextsParse(Own(events, hasNext), parses)
  {
    ConsumeForm(events, Before, NewHop(0), hasNext, None);
    hide Consume, TextsFit, TextsParse, GrowAll;
    Snapshot(Own(events, hasNext));
    TextsSent(Own(events, hasNext), parses);
  }

  lemma FitAppend(a: seq<Block>, b: seq<Block>, parses: Text -> bool)
    ensures TextsFit(a + b, parses) <==> TextsFit(a, parses) && TextsFit(b, parses)
  {
    hide TextFits;
    if TextsFit(a + b, parses) {
      assert forall i :: 0 <= i < |a| ==> (a + b)[i] == a[i];
      assert forall i :: 0 <= i < |b| ==> (a + b)[|a| + i] == b[i];
    }
  }

  lemma EntryFit(server: Server, orig: Body, entry: Entry, hasNext: bool, link: Link, parses: Text -> bool)
    requires Honest(server)
    ensures TextsFit(EntryBlocks(server, orig, entry, hasNext, link), parses)
            <==> EntryParses(server, orig, entry, hasNext, link, parses)
  {
    AnsweredByServer(server, orig, entry, link);
    var tried, seam := Try(server, orig, entry, link), SeamBlock(link.fromModel, entry.model, link.details.category);
    assert TextsFit([seam], parses) && TextsFit([], parses);
    hide Try, Consume, OwnBlocks, Own, TextsFit, TextsParse;
    if tried.verdict.Answered? {
      OwnParses(tried.verdict.events, hasNext, parses);
      FitAppend([seam], OwnBlocks(tried.verdict.events, hasNext), parses);
    } else {
      FitAppend([seam], [], parses);
    }
  }

  lemma {:induction false} ChainFit(server: Server, orig: Body, fallbacks: seq<Entry>, hop: nat, link: Link,
                                    parses: Text -> bool)
    requires Honest(server) && hop <= |fallbacks|
    ensures TextsFit(ChainBlocks(server, orig, fallbacks, hop, link), parses)
            <==> ChainParses(server, orig, fallbacks, hop, link, parses)
    decreases |fallbacks| - hop
  {
    if hop < |fallbacks| {
      var entry, hasNext := fallbacks[hop], hop + 1 < |fallbacks|;
      EntryFit(server, orig, entry, hasNext, link, parses);
      var blocks, r := EntryBlocks(server, orig, entry, hasNext, link), Hop(server, orig, entry, hasNext, link);
      assert TextsFit([], parses);
      hide Hop, EntryBlocks, EntryParses, Honest, TextsFit;
      if r.Goes? {
        ChainFit(server, orig, fallbacks, hop + 1, r.link, parses);
        FitAppend(blocks, ChainBlocks(server, orig, fallbacks, hop + 1, r.link), parses);
      } else {
        FitAppend(blocks, [], parses);
      }
    }
  }

  lemma JointFit(server: Server, orig: Body, a: seq<Event>, fallbacks: seq<Entry>, firstHop: nat, parses: Text -> bool)
    requires Honest(server) && WellFormed(a) && firstHop < |fallbacks|
    ensures TextsFit(JointContent(server, orig, a, fallbacks, firstHop), parses)
            <==> StreamsParse(server, orig, a, fallbacks, firstHop, parses)
  {
    OwnParses(a, true, parses);
    var o := Consume(a, NewHop(0), true, None);
    assert TextsFit([], parses);
    hide OwnBlocks, Own, TextsFit, TextsParse, Consume;
    if o.refused.Some? {
      ChainFit(server, orig, fallbacks, firstHop, FirstLink(o), parses);
      FitAppend(OwnBlocks(a, true), ChainBlocks(server, orig, fallbacks, firstHop, FirstLink(o)), parses);
    } else {
      FitAppend(OwnBlocks(a, true), [], parses);
    }
  }

  /** A refused stream leaves as many blocks as the next index says. */
  lemma RefusedLength(a: seq<Event>)
    requires WellFormed(a)
    ensures var o := Consume(a, NewHop(0), true, None);
      o.refused.Some? ==> |GrowAll([], o.out)| == o.nextIndex == FirstLink(o).nextIndex
  {
    ConsumeForm(a, Before, NewHop(0), true, None);
    hide Consume, After;
    GrownLength(Before, [], Consume(a, NewHop(0), true, None).out);
  }

  lemma SplicedSmooth(server: Server, orig: Body, a: seq<Event>, fallbacks: seq<Entry>, firstHop: nat,
                      listening: nat -> bool, readable: Text -> bool)
    requires Honest(server) && SendsClean(server) && WellFormed(a) && StartsClean(a) && firstHop < |fallbacks|
    ensures Smooth([], Spliced(server, orig, a, fallbacks, firstHop).out, 0, false, listening, readable)
            <==> StreamsRead(server, orig, a, fallbacks, firstHop, listening, readable)
  {
    var o := Consume(a, NewHop(0), true, None);
    OwnForm(a, true);
    assert Own(a, true) == o.out;
    RefusedLength(a);
    hide Own, FirstLink, Consume, StartsClean, Smooth, InputsRead, Honest, SendsClean, Chain, ChainReads, GrowAll;
    hide After;
    InputsSmooth(o.out, listening, readable);
    if o.refused.Some? { ChainBehind(server, orig, o, fallbacks, firstHop, listening, readable); }
  }

  /** The whole chain behind stream A. */
  lemma ChainBehind(server: Server, orig: Body, o: HopOutcome, fallbacks: seq<Entry>, firstHop: nat,
                    listening: nat -> bool, readable: Text -> bool)
    requires Honest(server) && SendsClean(server) && firstHop < |fallbacks| && o.refused.Some?
    requires |GrowAll([], o.out)| == FirstLink(o).nextIndex
    ensures Smooth([], o.out + Chain(server, orig, fallbacks, firstHop, FirstLink(o)).out, 0, false, listening,
                   readable)
            <==> && Smooth([], o.out, 0, false, listening, readable)
                 && ChainReads(server, orig, fallbacks, firstHop, FirstLink(o), |o.out|, listening, readable)
  {
    hide Honest, SendsClean, Smooth, Chain, ChainReads, GrowAll, FirstLink;
    ChainSmooth(server, orig, fallbacks, firstHop, FirstLink(o), GrowAll([], o.out), |o.out|, listening, readable);
    SmoothAppend([], o.out, Chain(server, orig, fallbacks, firstHop, FirstLink(o)).out, 0, listening, readable);
  }

  /** Only a run that is aborted leaves its message unfinished. */
  lemma {:induction false} AbortedChain(server: Server, orig: Body, fallbacks: seq<Entry>, hop: nat, link: Link)
    requires Honest(server) && hop < |fallbacks|
    ensures var r := Chain(server, orig, fallbacks, hop, link);
      r.ending == Aborted ==> After(Streaming(link.nextIndex, {}), r.out).Streaming?
    decreases |fallbacks| - hop
  {
    HopForm(server, orig, fallbacks[hop], hop + 1 < |fallbacks|, link);
    AbortedForm(server, orig, fallbacks[hop], hop + 1 < |fallbacks|, link);
    hide Hop;
    var r := Hop(server, orig, fallbacks[hop], hop + 1 < |fallbacks|, link);
    if r.Goes? {
      AbortedChain(server, orig, fallbacks, hop + 1, r.link);
      AfterAppend(Streaming(link.nextIndex, {}), r.out, Chain(server, orig, fallbacks, hop + 1, r.link).out);
    }
  }

  lemma AbortedUnfinished(server: Server, orig: Body, a: seq<Event>, fallbacks: seq<Entry>, firstHop: nat)
    requires Honest(server) && WellFormed(a) && firstHop < |fallbacks|
    ensures var r := Spliced(server, orig, a, fallbacks, firstHop); r.ending != Aborted <==> WellFormed(r.out)
  {
    SplicedIsOneMessage(server, orig, a, fallbacks, firstHop);
    var o := Consume(a, NewHop(0), true, None);
    ConsumeForm(a, Before, NewHop(0), true, None);
    if o.refused.Some? {
      hide Chain;
      AbortedChain(server, orig, fallbacks, firstHop, FirstLink(o));
      AfterAppend(Before, o.out, Chain(server, orig, fallbacks, firstHop, FirstLink(o)).out);
    }
  }

  lemma SplicedClean(server: Server, orig: Body, a: seq<Event>, fallbacks: seq<Entry>, firstHop: nat)
    requires SendsClean(server) && StartsClean(a) && firstHop < |fallbacks|
    ensures StartsClean(Spliced(server, orig, a, fallbacks, firstHop).out)
  {
    var o := Consume(a, NewHop(0), true, None);
    ConsumeClean(a, NewHop(0), true, None);
    if o.refused.Some? {
      ChainClean(server, orig, fallbacks, firstHop, FirstLink(o));
      hide Chain, Consume, StartsClean;
      CleanAppend(o.out, Chain(server, orig, fallbacks, firstHop, FirstLink(o)).out);
    }
  }

  /**
   The client takes a spliced stream to its end exactly when everything on stream A and on each of the streams
   behind it can be read when it is, a block that a refusal cuts short included, and when, unless the run is
   aborted, each text that was sent, again a block that is cut short included, parses by itself; then its
   message has the joint content.
   */
  lemma SplicedTaken(server: Server, orig: Body, a: seq<Event>, fallbacks: seq<Entry>, firstHop: nat,
                     listening: nat -> bool, reader: Reader)
    requires Honest(server) && SendsClean(server) && WellFormed(a) && StartsClean(a) && firstHop < |fallbacks|
    ensures var r, content := Spliced(server, orig, a, fallbacks, firstHop),
                              JointContent(server, orig, a, fallbacks, firstHop);
      var taken := DeliverAll(r.out, listening, reader);
      && (!taken.ended <==> && StreamsRead(server, orig, a, fallbacks, firstHop, listening, reader.readable)
                            && (r.ending != Aborted ==>
                                 StreamsParse(server, orig, a, fallbacks, firstHop, reader.parses)))
      && (!taken.ended <==> AllRead(r.out, listening, reader))
      && (!taken.ended ==>
           taken.state.Live? && taken.state.snapshot.Some? && taken.state.snapshot.value.content == content)
  {
    var r := Spliced(server, orig, a, fallbacks, firstHop);
    SplicedContent(server, orig, a, fallbacks, firstHop);
    SplicedStarted(server, orig, a, fallbacks, firstHop);
    SplicedClean(server, orig, a, fallbacks, firstHop);
    AbortedUnfinished(server, orig, a, fallbacks, firstHop);
    ContentIsGrown(r.out);
    SplicedSmooth(server, orig, a, fallbacks, firstHop, listening, reader.readable);
    hide Spliced, Chain, Consume, StartsClean, DeliverAll, AllRead, Honest, SendsClean, Smooth, StreamsRead;
    JointFit(server, orig, a, fallbacks, firstHop, reader.parses);
    hide TextsFit, GrowAll, Folded, After, StreamsParse;
    TakenIsSmooth(r.out, listening, reader);
    TakenWhole(r.out, listening, reader);
  }

  // ----- a refusal that cuts a text block -----

  /** A stream that is refused in the middle of its only text block. */
  function CutText(m: Message, text: Text, details: Details, usage: Usage): seq<Event> {
    [MessageStart(m), BlockStart(0, EMPTY_BLOCK.(kind := TextBlock, text := Some(text))),
     MessageDelta(Refusal(Some(details)), usage, None), MessageStop]
  }

  /** What the client sees of it, if the refusal is retried. */
  function CutOwn(m: Message, text: Text): seq<Event> {
    [MessageStart(m), BlockStart(0, EMPTY_BLOCK.(kind := TextBlock, text := Some(text))), BlockStop(0)]
  }

  lemma CutForm(m: Message, text: Text, details: Details, usage: Usage)
    requires m.content == []
    ensures WellFormed(CutText(m, text, details, usage)) && After(Before, CutOwn(m, text)) == Streaming(1, {})
  {
    var a, own := CutText(m, text, details, usage), CutOwn(m, text);
    assert {} + {0} == {0} && {0} - {0} == {};
    AfterThree(Before, own[0], own[1], own[2]);
    assert own == [own[0], own[1], own[2]];
    AfterTwo(Before, a[0], a[1]);
    AfterTwo(Streaming(1, {0}), a[2], a[3]);
    hide After;
    assert a == [a[0], a[1]] + [a[2], a[3]];
    AfterAppend(Before, [a[0], a[1]], [a[2], a[3]]);
  }

  lemma CutSent(m: Message, text: Text)
    ensures StartOf(CutOwn(m, text), 0).kind == TextBlock && SentText(CutOwn(m, text), 0) == text
  {
    var own := CutOwn(m, text);
    assert own[..3] == own && text + [] == text;
    OnlyStart(own, 3);
  }

  lemma CutRefused(m: Message, text: Text, details: Details, usage: Usage)
    requires details.token.Some? && details.token.value != ""
    ensures var o := Consume(CutText(m, text, details, usage), NewHop(0), true, None);
      o.refused.Some? && o.out == CutOwn(m, text)
  {
    var a := CutText(m, text, details, usage);
    assert a[1..][1..] == a[2..] && a[2..][0] == a[2];
    var s1 := StepState(NewHop(0), a[0]);
    var s2 := StepState(s1, a[1]);
    assert s2.track.open == [0];
    assert Stops([0]) == [BlockStop(0)] + Stops([]) == [BlockStop(0)];
    var o2 := Consume(a[2..], s2, true, None);
    assert o2.refused.Some? && o2.out == [BlockStop(0)];
    var o1 := Consume(a[1..], s1, true, None);
    assert o1.refused.Some? && o1.out == [a[1]] + [BlockStop(0)];
  }

  lemma {:induction false} NeverRefused(events: seq<Event>, st: HopState, hasNext: bool, splice: Option<Context>)
    requires forall i :: 0 <= i < |events| ==> !Chainable(events[i], hasNext)
    ensures Consume(events, st, hasNext, splice).refused.None?
    decreases |events|
  {
    if events != [] { NeverRefused(events[1..], StepState(st, events[0]), hasNext, splice); }
  }

  /** Without deltas and errors a stream can be read, texts aside. */
  lemma NoTools(own: seq<Event>, listening: nat -> bool, readable: Text -> bool)
    requires forall n :: 0 <= n < |own| ==> !own[n].BlockDelta? && !own[n].Error?
    ensures InputsRead(own, listening, readable)
  {
    NoJsonRead(own, listening, Reader(readable, (t: Text) => true));
  }

  /** The only text of a stream. */
  lemma OnlyText(own: seq<Event>, text: Text, parses: Text -> bool)
    requires Started(After(Before, own)) == 1 && StartOf(own, 0).kind == TextBlock && SentText(own, 0) == text
    ensures TextsParse(own, parses) <==> parses(text)
  {
    assert TextParses(own, 0, parses) <==> parses(text);
    hide StartOf, TextOf, After;
  }

  /** The first entry answers at once. */
  lemma AnsweredAtOnce(server: Server, orig: Body, entry: Entry, hasNext: bool, link: Link, served: Message, rest: Text,
                       reason: string, usage: Usage)
    requires served.content == [] && link.sent == []
    requires forall r :: server([r]) == Http(200, OneText(served, rest, Other(reason), usage))
    ensures var events := OneText(served, rest, Other(reason), usage);
      && Try(server, orig, entry, link).verdict == Answered(events) && Own(events, hasNext) == events
      && Hop(server, orig, entry, hasNext, link).Ends? && Hop(server, orig, entry, hasNext, link).ending == Served
  {
    var events := OneText(served, rest, Other(reason), usage);
    var request := BuildFallbackRequest(orig, entry.model, entry.speed, link.token, link.base + link.partial);
    assert link.sent + [request] == [request];
    NeverRefused(events, NewHop(0), hasNext, None);
    NeverRefused(events, NewHop(link.nextIndex + 1), hasNext, Some(Context(link.iterations, entry.model)));
    PassThrough(events, NewHop(0), hasNext);
    hide Consume, BuildFallbackRequest, Boundary;
  }

  /** A run of which the first entry is the last that is tried. */
  lemma ServedAtOnce(server: Server, orig: Body, a: seq<Event>, fallbacks: seq<Entry>, firstHop: nat,
                     events: seq<Event>, listening: nat -> bool, reader: Reader)
    requires firstHop < |fallbacks| && Consume(a, NewHop(0), true, None).refused.Some?
    requires var link, hasNext := FirstLink(Consume(a, NewHop(0), true, None)), firstHop + 1 < |fallbacks|;
      && Try(server, orig, fallbacks[firstHop], link).verdict == Answered(events) && Own(events, hasNext) == events
      && Hop(server, orig, fallbacks[firstHop], hasNext, link).Ends?
      && Hop(server, orig, fallbacks[firstHop], hasNext, link).ending == Served
    ensures Spliced(server, orig, a, fallbacks, firstHop).ending == Served
    ensures StreamsParse(server, orig, a, fallbacks, firstHop, reader.parses)
            <==> TextsParse(Own(a, true), reader.parses) && TextsParse(events, reader.parses)
    ensures StreamsRead(server, orig, a, fallbacks, firstHop, listening, reader.readable)
            <==> && InputsRead(Own(a, true), listening, reader.readable)
                 && InputsRead(events, Heard(events, |Own(a, true)| + 2, listening), reader.readable)
  {
    hide Consume, Try, Hop, InputsRead, TextsParse, Heard;
  }

  /** As the client takes such a run. */
  lemma ServedTaken(server: Server, orig: Body, a: seq<Event>, fallbacks: seq<Entry>, firstHop: nat,
                    events: seq<Event>, listening: nat -> bool, reader: Reader)
    requires Honest(server) && SendsClean(server) && WellFormed(a) && StartsClean(a) && firstHop < |fallbacks|
    requires Consume(a, NewHop(0), true, None).refused.Some?
    requires var link, hasNext := FirstLink(Consume(a, NewHop(0), true, None)), firstHop + 1 < |fallbacks|;
      && Try(server, orig, fallbacks[firstHop], link).verdict == Answered(events) && Own(events, hasNext) == events
      && Hop(server, orig, fallbacks[firstHop], hasNext, link).Ends?
      && Hop(server, orig, fallbacks[firstHop], hasNext, link).ending == Served
    ensures var run := Spliced(server, orig, a, fallbacks, firstHop);
      && run.ending == Served && WellFormed(run.out)
      && (!DeliverAll(run.out, listening, reader).ended
          <==> && InputsRead(Own(a, true), listening, reader.readable)
               && InputsRead(events, Heard(events, |Own(a, true)| + 2, listening), reader.readable)
               && TextsParse(Own(a, true), reader.parses) && TextsParse(events, reader.parses))
  {
    ServedAtOnce(server, orig, a, fallbacks, firstHop, events, listening, reader);
    hide Spliced, StreamsRead, StreamsParse, DeliverAll, AllRead, JointContent, Honest, SendsClean, StartsClean, After;
    hide Try, Hop, Own, Consume, FirstLink, InputsRead, TextsParse, Heard;
    AbortedUnfinished(server, orig, a, fallbacks, firstHop);
    SplicedTaken(server, orig, a, fallbacks, firstHop, listening, reader);
  }

  /** The two streams can be read, texts aside, and say one text each. */
  lemma CutReads(m: Message, text: Text, served: Message, rest: Text, stop: Stop, usage: Usage,
                 listening: nat -> bool, reader: Reader)
    requires m.content == [] && served.content == []
    ensures var own, events := CutOwn(m, text), OneText(served, rest, stop, usage);
      && InputsRead(own, listening, reader.readable)
      && InputsRead(events, Heard(events, |own| + 2, listening), reader.readable)
      && (TextsParse(own, reader.parses) <==> reader.parses(text))
      && (TextsParse(events, reader.parses) <==> reader.parses(rest))
  {
    var own, events := CutOwn(m, text), OneText(served, rest, stop, usage);
    CutForm(m, text, Details(None, false, None, None, None), usage);
    CutSent(m, text);
    OneTextForm(served, rest, stop, usage);
    OneTextSent(served, rest, stop, usage, 5);
    assert events[..5] == events;
    NoTools(own, listening, reader.readable);
    NoTools(events, Heard(events, |own| + 2, listening), reader.readable);
    hide After, StartOf, TextOf, InputsRead, TextsParse, Heard;
    OnlyText(own, text, reader.parses);
    OnlyText(events, rest, reader.parses);
  }

  /**
   A refusal in the middle of a text, and a fallback that then sends a text of its own: the client parses the
   two texts one by one, so its stream ends in error unless each is the output asked for by itself.
   */
  lemma CutTextParsedAlone(server: Server, orig: Body, fallbacks: seq<Entry>, firstHop: nat, m: Message, text: Text,
                           details: Details, usage: Usage, served: Message, rest: Text, reason: string,
                           listening: nat -> bool, reader: Reader)
    requires Honest(server) && SendsClean(server) && firstHop < |fallbacks| && m.content == [] && served.content == []
    requires details.token.Some? && details.token.value != ""
    requires forall r :: server([r]) == Http(200, OneText(served, rest, Other(reason), usage))
    ensures var run := Spliced(server, orig, CutText(m, text, details, usage), fallbacks, firstHop);
      && run.ending == Served && WellFormed(run.out)
      && (!DeliverAll(run.out, listening, reader).ended <==> reader.parses(text) && reader.parses(rest))
  {
    hide *;
    var a, events := CutText(m, text, details, usage), OneText(served, rest, Other(reason), usage);
    CutRun(m, text, details, usage);
    AnsweredAtOnce(server, orig, fallbacks[firstHop], firstHop + 1 < |fallbacks|,
                   FirstLink(Consume(a, NewHop(0), true, None)), served, rest, reason, usage);
    CutReads(m, text, served, rest, Other(reason), usage, listening, reader);
    ServedTaken(server, orig, a, fallbacks, firstHop, events, listening, reader);
  }

  lemma CutRun(m: Message, text: Text, details: Details, usage: Usage)
    requires m.content == [] && details.token.Some? && details.token.value != ""
    ensures var a := CutText(m, text, details, usage);
      && WellFormed(a) && StartsClean(a) && Own(a, true) == CutOwn(m, text)
      && var o := Consume(a, NewHop(0), true, None); o.refused.Some? && FirstLink(o).sent == []
  {
    CutForm(m, text, details, usage);
    CutRefused(m, text, details, usage);
    LinkSentNothing(Consume(CutText(m, text, details, usage), NewHop(0), true, None));
    hide After, Consume, FirstLink;
  }

  lemma LinkSentNothing(o: HopOutcome)
    requires o.refused.Some?
    ensures FirstLink(o).sent == []
  {
  }
}
