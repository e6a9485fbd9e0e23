/**
 What the accumulator makes of a spliced stream: the blocks of the hops one after another, with a
 seam block before each fallback that was tried.
 */
module SpliceContent {
  import opened Basics
  import opened CodeUnits
  import opened Options
  import opened MessageEvents
  import opened Accumulator
  import opened FallbackSplice
  import opened SpliceForm

  // ----- the content part of the accumulator -----

  function Grow(c: seq<Block>, e: Event): seq<Block> {
    match e
    case BlockStart(_, b) => c + [b]
    case BlockDelta(i, d) => if i < |c| then c[i := ApplyDelta(c[i], d)] else c
    case BlockStop(i) => if i < |c| then c[i := Settle(c[i])] else c
    case _ => c
  }

  function GrowAll(c: seq<Block>, events: seq<Event>): seq<Block>
    decreases |events|
  {
    if events == [] then c else GrowAll(Grow(c, events[0]), events[1..])
  }

  lemma {:induction false} GrowAllAppend(c: seq<Block>, a: seq<Event>, b: seq<Event>)
    ensures GrowAll(c, a + b) == GrowAll(GrowAll(c, a), b)
    decreases |a|
  {
    if a == [] {
      assert a + b == b;
    } else {
      assert (a + b)[1..] == a[1..] + b;
      GrowAllAppend(Grow(c, a[0]), a[1..], b);
    }
  }

  lemma GrowOne(c: seq<Block>, e: Event)
    ensures GrowAll(c, [e]) == Grow(c, e)
  {
    assert [e][1..] == [];
  }

  /** For a stream without errors the snapshot's content is what its events grow. */
  lemma {:induction false} ContentIsGrown(events: seq<Event>)
    requires After(Before, events) != Bad
    ensures var s := Folded(Live(None), events);
      s.Live? && (s.snapshot.Some? ==> s.snapshot.value.content == GrowAll([], events))
    ensures Folded(Live(None), events).snapshot.None? ==> GrowAll([], events) == []
  {
    PositionIsIndex(events);
    hide Built, ApplyDelta, Settle, MergeUsage;
    if events != [] {
      var earlier, e := events[..|events| - 1], events[|events| - 1];
      assert events == earlier + [e];
      PositionIsIndex(earlier);
      ContentIsGrown(earlier);
      GrowAllAppend([], earlier, [e]);
      GrowOne(GrowAll([], earlier), e);
    }
  }

  // ----- a hop's blocks land behind the ones already there -----

  /** The same open blocks, seen from a hop read alone and from the spliced stream. */
  predicate Parallel(alone: seq<nat>, spliced: seq<nat>, base: nat) {
    |alone| == |spliced| && forall k :: 0 <= k < |alone| ==> spliced[k] == alone[k] + base
  }

  lemma {:induction false} RemoveParallel(alone: seq<nat>, spliced: seq<nat>, base: nat, i: nat)
    requires Parallel(alone, spliced, base)
    ensures Parallel(Remove(alone, i), Remove(spliced, i + base), base)
  {
    if alone != [] && alone[0] != i {
      RemoveParallel(alone[1..], spliced[1..], base, i);
    }
  }

  predicate AllBelow(open: seq<nat>, n: nat) { forall k :: 0 <= k < |open| ==> open[k] < n }

  lemma {:induction false} StopsGrow(front: seq<Block>, own: seq<Block>, alone: seq<nat>, spliced: seq<nat>)
    requires Parallel(alone, spliced, |front|) && AllBelow(alone, |own|)
    ensures GrowAll(front + own, Stops(spliced)) == front + GrowAll(own, Stops(alone))
    decreases |alone|
  {
    if alone != [] {
      var i := alone[0];
      var own' := own[i := Settle(own[i])];
      assert (front + own)[spliced[0] := Settle((front + own)[spliced[0]])] == front + own';
      assert Stops(alone)[1..] == Stops(alone[1..]) && Stops(spliced)[1..] == Stops(spliced[1..]);
      StopsGrow(front, own', alone[1..], spliced[1..]);
    }
  }

  /** The hop's next event, if its phase allows it, grows the hop's own blocks the same way. */
  lemma GrowBehind(front: seq<Block>, own: seq<Block>, q: Phase, st: HopState, e: Event, ctx: Context)
    requires Next(q, e) != Bad && |own| == Started(q) && st.track.base == |front|
    requires OpenBelow(q)
    ensures GrowAll(front + own, StepOut(st, e, Some(ctx))) == front + Grow(own, e)
    ensures |Grow(own, e)| == Started(Next(q, e))
  {
    var out := StepOut(st, e, Some(ctx));
    if out != [] { GrowOne(front + own, out[0]); }
    match e
    case BlockStart(_, b) => assert front + own + [b] == front + (own + [b]);
    case BlockDelta(i, d) =>
      assert (front + own)[i + |front| := ApplyDelta(own[i], d)] == front + own[i := ApplyDelta(own[i], d)];
    case BlockStop(i) =>
      assert (front + own)[i + |front| := Settle(own[i])] == front + own[i := Settle(own[i])];
    case _ =>
  }

  lemma BelowKept(open: seq<nat>, i: nat, n: nat)
    requires AllBelow(open, n)
    ensures AllBelow(Remove(open, i), n)
  {
  }

  lemma {:induction false} HopGrows(events: seq<Event>, q: Phase, front: seq<Block>, own: seq<Block>,
                                    st: HopState, alone: HopState, hasNext: bool, ctx: Context)
    requires After(q, events).Done? && |own| == Started(q)
    requires OpenBelow(q)
    requires st.track.base == |front| && alone.track.base == 0
    requires Parallel(alone.track.open, st.track.open, |front|) && AllBelow(alone.track.open, |own|)
    ensures GrowAll(front + own, Consume(events, st, hasNext, Some(ctx)).out)
         == front + GrowAll(own, Consume(events, alone, hasNext, None).out)
    decreases |events|
  {
    if events != [] {
      var e, rest := events[0], events[1..];
      AfterFirst(q, events);
      if Next(q, e) == Bad { BadStays(rest); }
      if Chainable(e, hasNext) {
        StopsGrow(front, own, alone.track.open, st.track.open);
      } else {
        GrowBehind(front, own, q, st, e, ctx);
        OpenStaysBelow(q, e);
        OpenParallel(alone, st, e, |front|, |own|, q);
        HopGrows(rest, Next(q, e), front, Grow(own, e), StepState(st, e), StepState(alone, e), hasNext, ctx);
        GrowAllAppend(front + own, StepOut(st, e, Some(ctx)), Consume(rest, StepState(st, e), hasNext, Some(ctx)).out);
        GrowAllAppend(own, [e], Consume(rest, StepState(alone, e), hasNext, None).out);
        GrowOne(own, e);
      }
    }
  }

  lemma OpenParallel(alone: HopState, st: HopState, e: Event, base: nat, n: nat, q: Phase)
    requires Next(q, e) != Bad && n == Started(q)
    requires st.track.base == base && alone.track.base == 0
    requires Parallel(alone.track.open, st.track.open, base) && AllBelow(alone.track.open, n)
    ensures Parallel(StepState(alone, e).track.open, StepState(st, e).track.open, base)
    ensures AllBelow(StepState(alone, e).track.open, Started(Next(q, e)))
    ensures StepState(st, e).track.base == base && StepState(alone, e).track.base == 0
  {
    if e.BlockStop? {
      RemoveParallel(alone.track.open, st.track.open, base, e.index);
      BelowKept(alone.track.open, e.index, n);
    }
  }

  // ----- the whole run -----

  /** The blocks a stream shows when it is read by itself, cut short at a refusal that is retried. */
  function OwnBlocks(events: seq<Event>, hasNext: bool): seq<Block> {
    GrowAll([], Consume(events, NewHop(0), hasNext, None).out)
  }

  /** What one entry adds to the message: its seam, and its own blocks if it streamed. */
  function EntryBlocks(server: Server, orig: Body, entry: Entry, hasNext: bool, link: Link): seq<Block> {
    var tried := Try(server, orig, entry, link);
    [SeamBlock(link.fromModel, entry.model, link.details.category)]
    + (if tried.verdict.Answered? then OwnBlocks(tried.verdict.events, hasNext) else [])
  }

  function ChainBlocks(server: Server, orig: Body, fallbacks: seq<Entry>, hop: nat, link: Link): seq<Block>
    requires hop <= |fallbacks|
    decreases |fallbacks| - hop
  {
    if hop == |fallbacks| then []
    else
      EntryBlocks(server, orig, fallbacks[hop], hop + 1 < |fallbacks|, link) +
      match Hop(server, orig, fallbacks[hop], hop + 1 < |fallbacks|, link)
      case Goes(_, _, next) => ChainBlocks(server, orig, fallbacks, hop + 1, next)
      case Ends(_, _, _, _) => []
  }

  lemma BoundaryGrows(c: seq<Block>, link: Link, entry: Entry)
    requires |c| == link.nextIndex
    ensures GrowAll(c, Boundary(link, entry)) == c + [SeamBlock(link.fromModel, entry.model, link.details.category)]
  {
    var seam := SeamBlock(link.fromModel, entry.model, link.details.category);
    var b := Boundary(link, entry);
    assert b[1..] == [b[1]];
    GrowOne(c + [seam], b[1]);
    assert Settle(seam) == seam;
    assert (c + [seam])[link.nextIndex := seam] == c + [seam];
  }

  lemma HeldRefusalGrows(c: seq<Block>, link: Link, entry: Entry)
    ensures GrowAll(c, HeldRefusal(link, entry)) == c
  {
    var h := HeldRefusal(link, entry);
    assert h[1..] == [h[1]];
    GrowOne(c, h[1]);
  }

  /** A well-formed stream that is still running has grown as many blocks as it started. */
  lemma {:induction false} GrownLength(q: Phase, c: seq<Block>, events: seq<Event>)
    requires After(q, events) != Bad && |c| == Started(q)
    ensures |GrowAll(c, events)| == Started(After(q, events))
    decreases |events|
  {
    if events != [] {
      AfterFirst(q, events);
      if Next(q, events[0]) == Bad { BadStays(events[1..]); }
      GrownLength(Next(q, events[0]), Grow(c, events[0]), events[1..]);
    }
  }

  lemma AnsweredBlocks(events: seq<Event>, hasNext: bool, link: Link, entry: Entry, c: seq<Block>)
    requires WellFormed(events) && |c| == link.nextIndex
    ensures var seam := SeamBlock(link.fromModel, entry.model, link.details.category);
      var b := Consume(events, NewHop(link.nextIndex + 1), hasNext, Some(Context(link.iterations, entry.model)));
      GrowAll(c, Boundary(link, entry) + b.out) == c + ([seam] + OwnBlocks(events, hasNext))
  {
    var seam := SeamBlock(link.fromModel, entry.model, link.details.category);
    var ctx := Context(link.iterations, entry.model);
    BoundaryGrows(c, link, entry);
    HopGrows(events, Before, c + [seam], [], NewHop(link.nextIndex + 1), NewHop(0), hasNext, ctx);
    hide Consume, Boundary;
    GrowAllAppend(c, Boundary(link, entry), Consume(events, NewHop(link.nextIndex + 1), hasNext, Some(ctx)).out);
    assert c + [seam] + [] == c + [seam];
    Regroup(c, [seam], OwnBlocks(events, hasNext));
  }

  lemma UnansweredBlocks(link: Link, entry: Entry, c: seq<Block>)
    requires |c| == link.nextIndex
    ensures var seam := SeamBlock(link.fromModel, entry.model, link.details.category);
      && GrowAll(c, Boundary(link, entry)) == c + ([seam] + [])
      && GrowAll(c, Boundary(link, entry) + HeldRefusal(link, entry)) == c + ([seam] + [])
  {
    var seam := SeamBlock(link.fromModel, entry.model, link.details.category);
    BoundaryGrows(c, link, entry);
    HeldRefusalGrows(c + [seam], link, entry);
    hide Boundary, HeldRefusal;
    GrowAllAppend(c, Boundary(link, entry), HeldRefusal(link, entry));
    assert [seam] + [] == [seam];
  }

  lemma HopBlocks(server: Server, orig: Body, entry: Entry, hasNext: bool, link: Link, c: seq<Block>)
    requires Honest(server) && |c| == link.nextIndex
    ensures GrowAll(c, Hop(server, orig, entry, hasNext, link).out)
         == c + EntryBlocks(server, orig, entry, hasNext, link)
  {
    AnsweredByServer(server, orig, entry, link);
    hide Try, Consume, Boundary, HeldRefusal, GrowAll, OwnBlocks;
    UnansweredBlocks(link, entry, c);
    var tried := Try(server, orig, entry, link);
    if tried.verdict.Answered? { AnsweredBlocks(tried.verdict.events, hasNext, link, entry, c); }
  }

  /** A hop that is followed by another leaves as many blocks as the next index says. */
  lemma HopLength(server: Server, orig: Body, entry: Entry, hasNext: bool, link: Link, c: seq<Block>)
    requires Honest(server) && |c| == link.nextIndex
    ensures var r := Hop(server, orig, entry, hasNext, link);
      r.Goes? ==> |c + EntryBlocks(server, orig, entry, hasNext, link)| == r.link.nextIndex
  {
    HopBlocks(server, orig, entry, hasNext, link, c);
    HopForm(server, orig, entry, hasNext, link);
    hide Hop, EntryBlocks, GrowAll, After;
    var r := Hop(server, orig, entry, hasNext, link);
    if r.Goes? { GrownLength(Streaming(link.nextIndex, {}), c, r.out); }
  }

  lemma {:induction false} ChainGrows(server: Server, orig: Body, fallbacks: seq<Entry>, hop: nat, link: Link,
                                      c: seq<Block>)
    requires Honest(server) && hop < |fallbacks| && |c| == link.nextIndex
    ensures GrowAll(c, Chain(server, orig, fallbacks, hop, link).out)
         == c + ChainBlocks(server, orig, fallbacks, hop, link)
    decreases |fallbacks| - hop
  {
    hide Hop, EntryBlocks, GrowAll, Honest;
    var entry, hasNext := fallbacks[hop], hop + 1 < |fallbacks|;
    HopBlocks(server, orig, entry, hasNext, link, c);
    HopLength(server, orig, entry, hasNext, link, c);
    HopNeedsNext(server, orig, entry, hasNext, link);
    var r, added := Hop(server, orig, entry, hasNext, link), EntryBlocks(server, orig, entry, hasNext, link);
    if r.Goes? {
      ChainGrows(server, orig, fallbacks, hop + 1, r.link, c + added);
      GrowAllAppend(c, r.out, Chain(server, orig, fallbacks, hop + 1, r.link).out);
      Regroup(c, added, ChainBlocks(server, orig, fallbacks, hop + 1, r.link));
    } else {
      assert added + [] == added;
    }
  }

  /**
   The message the client accumulates: the refused stream's blocks, then for each entry tried a seam
   and that entry's own blocks, in order and nothing else.
   */
  lemma SplicedContent(server: Server, orig: Body, a: seq<Event>, fallbacks: seq<Entry>, firstHop: nat)
    requires Honest(server) && WellFormed(a) && firstHop < |fallbacks|
    ensures var o, r := Consume(a, NewHop(0), true, None), Spliced(server, orig, a, fallbacks, firstHop);
      var s := Folded(Live(None), r.out);
      && s.Live? && s.snapshot.Some?
      && s.snapshot.value.content
         == OwnBlocks(a, true)
            + (if o.refused.Some? then ChainBlocks(server, orig, fallbacks, firstHop, FirstLink(o)) else [])
  {
    var o, r := Consume(a, NewHop(0), true, None), Spliced(server, orig, a, fallbacks, firstHop);
    SplicedStarted(server, orig, a, fallbacks, firstHop);
    ContentIsGrown(r.out);
    PositionIsIndex(r.out);
    if o.refused.Some? {
      ConsumeForm(a, Before, NewHop(0), true, None);
      var c := OwnBlocks(a, true);
      GrownLength(Before, [], o.out);
      ChainGrows(server, orig, fallbacks, firstHop, FirstLink(o), c);
      GrowAllAppend([], o.out, Chain(server, orig, fallbacks, firstHop, FirstLink(o)).out);
    }
  }

  lemma SplicedStarted(server: Server, orig: Body, a: seq<Event>, fallbacks: seq<Entry>, firstHop: nat)
    requires Honest(server) && WellFormed(a) && firstHop < |fallbacks|
    ensures var at := After(Before, Spliced(server, orig, a, fallbacks, firstHop).out); at != Bad && at != Before
  {
    var o := Consume(a, NewHop(0), true, None);
    ConsumeForm(a, Before, NewHop(0), true, None);
    if o.refused.Some? {
      hide Chain;
      ChainRuns(server, orig, fallbacks, firstHop, FirstLink(o));
      AfterAppend(Before, o.out, Chain(server, orig, fallbacks, firstHop, FirstLink(o)).out);
    }
  }

  /** Even an aborted chain leaves the stream in good order. */
  lemma {:induction false} ChainRuns(server: Server, orig: Body, fallbacks: seq<Entry>, hop: nat, link: Link)
    requires Honest(server) && hop < |fallbacks|
    ensures var at := After(Streaming(link.nextIndex, {}), Chain(server, orig, fallbacks, hop, link).out);
      at != Bad && at != Before
    decreases |fallbacks| - hop
  {
    HopForm(server, orig, fallbacks[hop], hop + 1 < |fallbacks|, link);
    AbortedForm(server, orig, fallbacks[hop], hop + 1 < |fallbacks|, link);
    hide Hop;
    var r := Hop(server, orig, fallbacks[hop], hop + 1 < |fallbacks|, link);
    if r.Goes? {
      ChainRuns(server, orig, fallbacks, hop + 1, r.link);
      AfterAppend(Streaming(link.nextIndex, {}), r.out, Chain(server, orig, fallbacks, hop + 1, r.link).out);
    }
  }

  lemma AbortedForm(server: Server, orig: Body, entry: Entry, hasNext: bool, link: Link)
    ensures var r := Hop(server, orig, entry, hasNext, link);
      r.Ends? && r.ending == Aborted ==>
        After(Streaming(link.nextIndex, {}), r.out) == Streaming(link.nextIndex + 1, {})
  {
    BoundaryForm(link, entry);
    hide Try, Consume;
  }
}
