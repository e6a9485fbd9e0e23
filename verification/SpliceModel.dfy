/**
 Whose message it is: the model of the accumulated message is the one its last seam leads to, and
 at the end of a fallback chain that is the model of the last entry tried.
 */
module SpliceModel {
  import opened Options
  import opened MessageEvents
  import opened Accumulator
  import opened FallbackSplice
  import opened SpliceForm
  import opened SpliceContent

  predicate LeadsOn(b: Block) { b.kind == FallbackBlock && b.seam.Some? }

  /** The model that the last seam of `content` leads to, `model` if there is none. */
  function SeamTo(content: seq<Block>, model: Model): Model {
    if content == [] then model
    else
      var earlier, last := content[..|content| - 1], content[|content| - 1];
      if LeadsOn(last) then last.seam.value.to else SeamTo(earlier, model)
  }

  lemma SeamToNext(content: seq<Block>, b: Block, model: Model)
    ensures SeamTo(content + [b], model) == if LeadsOn(b) then b.seam.value.to else SeamTo(content, model)
  {
    assert (content + [b])[..|content|] == content;
  }

  lemma {:induction false} SeamToUpdate(content: seq<Block>, i: nat, b: Block, model: Model)
    requires i < |content| && b.kind == content[i].kind && b.seam == content[i].seam
    ensures SeamTo(content[i := b], model) == SeamTo(content, model)
  {
    var earlier := content[..|content| - 1];
    if i < |content| - 1 {
      SeamToUpdate(earlier, i, b, model);
      assert content[i := b][..|content| - 1] == earlier[i := b];
    } else {
      assert content[i := b][..|content| - 1] == earlier;
    }
  }

  lemma {:induction false} SeamToAppend(a: seq<Block>, b: seq<Block>, model: Model)
    ensures SeamTo(a + b, model) == SeamTo(b, SeamTo(a, model))
  {
    if b == [] {
      assert a + b == a;
    } else {
      assert (a + b)[..|a + b| - 1] == a + b[..|b| - 1];
      SeamToAppend(a, b[..|b| - 1], model);
    }
  }

  /** The model its first event names. */
  function StartModel(events: seq<Event>): Model {
    if events == [] then ""
    else if events[0].MessageStart? then events[0].message.model
    else StartModel(events[1..])
  }

  lemma {:induction false} StartModelAppend(a: seq<Event>, b: seq<Event>)
    ensures StartModel(a + b) == if exists i :: 0 <= i < |a| && a[i].MessageStart? then StartModel(a) else StartModel(b)
  {
    if a == [] {
      assert a + b == b;
    } else {
      assert (a + b)[1..] == a[1..] + b;
      StartModelAppend(a[1..], b);
      assert forall i :: 1 <= i < |a| ==> a[i] == a[1..][i - 1];
    }
  }

  /** A stream that has started has had its message_start. */
  lemma {:induction false} HasStarted(events: seq<Event>)
    requires After(Before, events) != Bad
    ensures After(Before, events) != Before <==> exists i :: 0 <= i < |events| && events[i].MessageStart?
  {
    if events != [] {
      var earlier, e := events[..|events| - 1], events[|events| - 1];
      HasStarted(earlier);
      if e.MessageStart? { assert events[|events| - 1].MessageStart?; }
      assert forall i :: 0 <= i < |earlier| ==> earlier[i] == events[i];
    }
  }

  /** For a stream without errors the snapshot's model is where its last seam leads. */
  lemma {:induction false} ModelIsLastSeam(events: seq<Event>)
    requires After(Before, events) != Bad
    ensures var s := Folded(Live(None), events);
      s.Live? && (s.snapshot.Some? ==>
        s.snapshot.value.model == SeamTo(s.snapshot.value.content, StartModel(events)))
  {
    PositionIsIndex(events);
    if events != [] {
      var earlier, e := events[..|events| - 1], events[|events| - 1];
      assert events == earlier + [e];
      ModelIsLastSeam(earlier);
      PositionIsIndex(earlier);
      HasStarted(earlier);
      StartModelAppend(earlier, [e]);
      var s := Folded(Live(None), earlier);
      if s.snapshot.Some? { ModelStep(s.snapshot.value, e, StartModel(earlier)); }
    }
  }

  lemma ModelStep(m: Message, e: Event, start: Model)
    requires m.model == SeamTo(m.content, start)
    ensures var n := Updated(m, e); n.model == SeamTo(n.content, start)
  {
    match e
    case BlockStart(_, b) => SeamToNext(m.content, b, start);
    case BlockDelta(i, d) =>
      if i < |m.content| { SeamToUpdate(m.content, i, ApplyDelta(m.content[i], d), start); }
    case BlockStop(i) =>
      if i < |m.content| { SeamToUpdate(m.content, i, Settle(m.content[i]), start); }
    case _ =>
  }

  // ----- at the end of a chain -----

  /** No stream that a fallback sends carries a seam of its own. */
  predicate Seamless(events: seq<Event>) {
    forall i :: 0 <= i < |events| ==> events[i].BlockStart? ==> !LeadsOn(events[i].block)
  }

  ghost predicate Direct(server: Server) { forall sent :: Ok(server(sent)) ==> Seamless(server(sent).events) }

  lemma {:induction false} GrownSeamless(c: seq<Block>, events: seq<Event>, model: Model)
    requires Seamless(events)
    ensures SeamTo(GrowAll(c, events), model) == SeamTo(c, model)
    decreases |events|
  {
    if events != [] {
      var e := events[0];
      assert !(e.BlockStart? && LeadsOn(e.block));
      match e {
        case BlockStart(_, b) => SeamToNext(c, b, model);
        case BlockDelta(i, d) => if i < |c| { SeamToUpdate(c, i, ApplyDelta(c[i], d), model); }
        case BlockStop(i) => if i < |c| { SeamToUpdate(c, i, Settle(c[i]), model); }
        case _ =>
      }
      GrownSeamless(Grow(c, e), events[1..], model);
    }
  }

  /** What is consumed of a hop read by itself are its own events, then stops. */
  lemma {:induction false} ConsumedSeamless(events: seq<Event>, st: HopState, hasNext: bool)
    requires Seamless(events)
    ensures Seamless(Consume(events, st, hasNext, None).out)
    decreases |events|
  {
    if events != [] {
      if Chainable(events[0], hasNext) {
        StopsSeamless(st.track.open);
      } else {
        ConsumedSeamless(events[1..], StepState(st, events[0]), hasNext);
      }
    }
  }

  lemma {:induction false} StopsSeamless(open: seq<nat>)
    ensures Seamless(Stops(open))
  {
    if open != [] { StopsSeamless(open[1..]); }
  }

  lemma EntryLeads(server: Server, orig: Body, entry: Entry, hasNext: bool, link: Link, model: Model)
    requires Direct(server)
    ensures SeamTo(EntryBlocks(server, orig, entry, hasNext, link), model) == entry.model
  {
    AnsweredByServer(server, orig, entry, link);
    hide Try, Consume, Direct;
    var seam := SeamBlock(link.fromModel, entry.model, link.details.category);
    SeamToNext([], seam, model);
    assert [] + [seam] == [seam];
    var tried := Try(server, orig, entry, link);
    if tried.verdict.Answered? {
      DirectAt(server, tried.sent);
      ConsumedSeamless(tried.verdict.events, NewHop(0), hasNext);
      GrownSeamless([], Consume(tried.verdict.events, NewHop(0), hasNext, None).out, entry.model);
      SeamToAppend([seam], OwnBlocks(tried.verdict.events, hasNext), model);
    } else {
      assert [seam] + [] == [seam];
    }
  }

  lemma DirectAt(server: Server, sent: seq<Body>)
    requires Direct(server) && Ok(server(sent))
    ensures Seamless(server(sent).events)
  {
  }

  lemma {:induction false} ChainLeads(server: Server, orig: Body, fallbacks: seq<Entry>, hop: nat, link: Link,
                                      model: Model)
    requires Honest(server) && Direct(server) && hop < |fallbacks|
    ensures var r := Chain(server, orig, fallbacks, hop, link);
      && r.pins != [] && r.pins[|r.pins| - 1] < |fallbacks|
      && SeamTo(ChainBlocks(server, orig, fallbacks, hop, link), model) == fallbacks[r.pins[|r.pins| - 1]].model
    decreases |fallbacks| - hop
  {
    hide Hop, EntryBlocks, Honest, Direct, SeamTo;
    var entry, hasNext := fallbacks[hop], hop + 1 < |fallbacks|;
    EntryLeads(server, orig, entry, hasNext, link, model);
    HopNeedsNext(server, orig, entry, hasNext, link);
    var r, added := Hop(server, orig, entry, hasNext, link), EntryBlocks(server, orig, entry, hasNext, link);
    if r.Goes? {
      ChainLeads(server, orig, fallbacks, hop + 1, r.link, entry.model);
      SeamToAppend(added, ChainBlocks(server, orig, fallbacks, hop + 1, r.link), model);
    } else {
      assert added + [] == added;
    }
  }

  /**
   When no fallback's stream carries seams of its own, the message a chain ends with, however it ends,
   is that of the last entry tried.
   */
  lemma SplicedModel(server: Server, orig: Body, a: seq<Event>, fallbacks: seq<Entry>, firstHop: nat)
    requires Honest(server) && Direct(server) && WellFormed(a) && firstHop < |fallbacks|
    ensures var r := Spliced(server, orig, a, fallbacks, firstHop);
      var s := Folded(Live(None), r.out);
      r.ending != PassedThrough ==>
        && s.Live? && s.snapshot.Some?
        && r.pins != [] && r.pins[|r.pins| - 1] < |fallbacks|
        && s.snapshot.value.model == fallbacks[r.pins[|r.pins| - 1]].model
  {
    var o, r := Consume(a, NewHop(0), true, None), Spliced(server, orig, a, fallbacks, firstHop);
    SplicedContent(server, orig, a, fallbacks, firstHop);
    SplicedStarted(server, orig, a, fallbacks, firstHop);
    ModelIsLastSeam(r.out);
    hide Chain, ChainBlocks, SeamTo, Honest, Direct;
    if o.refused.Some? {
      var start := StartModel(r.out);
      ChainLeads(server, orig, fallbacks, firstHop, FirstLink(o), SeamTo(OwnBlocks(a, true), start));
      SeamToAppend(OwnBlocks(a, true), ChainBlocks(server, orig, fallbacks, firstHop, FirstLink(o)), start);
    }
  }
}
