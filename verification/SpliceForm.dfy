/**
 Whatever the fallback chain meets, the client reads one well-formed message stream: the same
 notion of well-formed that each hop's own stream is assumed to satisfy.
 */
module SpliceForm {
  import opened Options
  import opened MessageEvents
  import opened FallbackSplice

  /** Every stream the server sends is well formed; it may refuse, fail or reject as it likes. */
  ghost predicate Honest(server: Server) {
    forall sent :: Ok(server(sent)) ==> WellFormed(server(sent).events)
  }

  function SetOf(open: seq<nat>): set<nat> { set i | i in open }

  predicate NoRepeats(open: seq<nat>) { forall i, j :: 0 <= i < j < |open| ==> open[i] != open[j] }

  function ShiftSet(open: set<nat>, base: nat): set<nat> { set i | i in open :: i + base }

  /** Where the spliced stream stands when a hop's own stream stands at `q`. */
  function Out(q: Phase, base: nat, spliced: bool): Phase {
    match q
    case Before => if spliced then Streaming(base, {}) else Before
    case Streaming(next, open) => Streaming(next + base, ShiftSet(open, base))
    case Closing(next) => Closing(next + base)
    case Done(next) => Done(next + base)
    case Bad => Bad
  }

  /** The tracker knows the phase of the hop it tracks. */
  predicate Tracks(q: Phase, t: Track) {
    && (q.Before? ==> t.open == [] && t.nextIndex == t.base)
    && (q.Streaming? ==>
         && t.nextIndex == q.next + t.base
         && NoRepeats(t.open) && SetOf(t.open) == ShiftSet(q.open, t.base))
    && OpenBelow(q)
  }

  lemma {:induction false} StopsClose(n: nat, open: seq<nat>)
    requires NoRepeats(open)
    ensures After(Streaming(n, SetOf(open)), Stops(open)) == Streaming(n, {})
  {
    if open == [] {
      assert SetOf(open) == {};
    } else {
      var q := Streaming(n, SetOf(open));
      AfterFirst(q, Stops(open));
      assert Stops(open)[1..] == Stops(open[1..]);
      assert SetOf(open) - {open[0]} == SetOf(open[1..]) by {
        assert open == [open[0]] + open[1..];
      }
      StopsClose(n, open[1..]);
    }
  }

  lemma {:induction false} RemoveKeeps(open: seq<nat>, i: nat)
    requires NoRepeats(open)
    ensures NoRepeats(Remove(open, i)) && SetOf(Remove(open, i)) == SetOf(open) - {i}
  {
    if open != [] {
      var x, tail := open[0], open[1..];
      assert open == [x] + tail;
      assert x !in tail;
      assert SetOf(open) == {x} + SetOf(tail);
      if x == i {
        assert i !in SetOf(tail);
      } else {
        RemoveKeeps(tail, i);
        var rest := Remove(tail, i);
        assert x !in SetOf(rest);
        assert x !in rest;
        assert SetOf([x] + rest) == {x} + SetOf(rest);
      }
    }
  }

  lemma ShiftSetAdd(open: set<nat>, base: nat, i: nat)
    ensures ShiftSet(open + {i}, base) == ShiftSet(open, base) + {i + base}
    ensures ShiftSet(open - {i}, base) == ShiftSet(open, base) - {i + base}
    ensures i in open <==> i + base in ShiftSet(open, base)
    ensures open == {} <==> ShiftSet(open, base) == {}
  {
    forall k | k in ShiftSet(open, base) && k != i + base
      ensures k in ShiftSet(open - {i}, base)
    {
      var j :| j in open && k == j + base;
      assert j in open - {i};
    }
    if open != {} {
      var k :| k in open;
      assert k + base in ShiftSet(open, base);
    }
  }

  lemma SetOfAdd(open: seq<nat>, i: nat)
    ensures SetOf(open + [i]) == SetOf(open) + {i}
  {
  }

  lemma TrackStep(q: Phase, st: HopState, e: Event)
    requires Tracks(q, st.track) && Next(q, e) != Bad
    ensures Tracks(Next(q, e), StepState(st, e).track) && StepState(st, e).track.base == st.track.base
  {
    var t := st.track;
    OpenStaysBelow(q, e);
    match e
    case BlockStart(i, b) =>
      ShiftSetAdd(q.open, t.base, i);
      SetOfAdd(t.open, i + t.base);
      assert forall k :: k in t.open ==> k in SetOf(t.open);
      assert forall k :: k in ShiftSet(q.open, t.base) ==> k < i + t.base;
    case BlockStop(i) =>
      ShiftSetAdd(q.open, t.base, i);
      RemoveKeeps(t.open, i + t.base);
    case _ =>
  }

  lemma StepForm(q: Phase, st: HopState, e: Event, splice: Option<Context>)
    requires Next(q, e) != Bad && (splice.None? ==> st.track.base == 0)
    ensures After(Out(q, st.track.base, splice.Some?), StepOut(st, e, splice))
         == Out(Next(q, e), st.track.base, splice.Some?)
  {
    var base := st.track.base;
    var out := StepOut(st, e, splice);
    if out != [] { AfterOne(Out(q, base, splice.Some?), out[0]); }
    if e.BlockStart? || e.BlockStop? || e.BlockDelta? { ShiftSetAdd(q.open, base, e.index); }
    if e.BlockStart? || e.MessageDelta? { ShiftSetAdd(q.open, base, 0); }
    assert ShiftSet({}, base) == {};
  }

  /**
   A hop forwarded onto the stream: refused, it leaves no block open and the next index free;
   otherwise it takes the stream to its end.
   */
  lemma {:induction false} ConsumeForm(events: seq<Event>, q: Phase, st: HopState, hasNext: bool,
                                       splice: Option<Context>)
    requires After(q, events).Done? && Tracks(q, st.track) && (splice.None? ==> st.track.base == 0)
    ensures var o, at := Consume(events, st, hasNext, splice), Out(q, st.track.base, splice.Some?);
      if o.refused.Some? then After(at, o.out) == Streaming(o.nextIndex, {})
      else After(at, o.out) == Out(After(q, events), st.track.base, splice.Some?)
    decreases |events|
  {
    if events != [] {
      var e, rest, base := events[0], events[1..], st.track.base;
      AfterFirst(q, events);
      if Next(q, e) == Bad { BadStays(rest); }
      if Chainable(e, hasNext) {
        StopsClose(st.track.nextIndex, st.track.open);
      } else {
        TrackStep(q, st, e);
        StepForm(q, st, e, splice);
        ConsumeForm(rest, Next(q, e), StepState(st, e), hasNext, splice);
        AfterAppend(Out(q, base, splice.Some?), StepOut(st, e, splice),
                    Consume(rest, StepState(st, e), hasNext, splice).out);
      }
    }
  }

  lemma BoundaryForm(link: Link, entry: Entry)
    ensures After(Streaming(link.nextIndex, {}), Boundary(link, entry)) == Streaming(link.nextIndex + 1, {})
  {
    var q, b := Streaming(link.nextIndex, {}), Boundary(link, entry);
    AfterFirst(q, b);
    AfterOne(Next(q, b[0]), b[1]);
    assert b[1..] == [b[1]];
    assert {} + {link.nextIndex} - {link.nextIndex} == {};
  }

  lemma HeldRefusalForm(n: nat, link: Link, entry: Entry)
    ensures After(Streaming(n, {}), HeldRefusal(link, entry)).Done?
  {
    var q, b := Streaming(n, {}), HeldRefusal(link, entry);
    AfterFirst(q, b);
    AfterOne(Next(q, b[0]), b[1]);
    assert b[1..] == [b[1]];
  }

  lemma HopForm(server: Server, orig: Body, entry: Entry, hasNext: bool, link: Link)
    requires Honest(server)
    ensures var r := Hop(server, orig, entry, hasNext, link);
      var after := After(Streaming(link.nextIndex, {}), r.out);
      && (r.Goes? ==> hasNext && after == Streaming(r.link.nextIndex, {}))
      && (r.Ends? ==> r.ending in {Aborted, Degraded, Served})
      && (r.Ends? && r.ending != Aborted ==> after.Done?)
  {
    BoundaryForm(link, entry);
    AnsweredByServer(server, orig, entry, link);
    hide Try, Consume, Boundary, HeldRefusal;
    var tried := Try(server, orig, entry, link);
    match tried.verdict
    case Abort =>
    case Failure(_) =>
      AfterAppend(Streaming(link.nextIndex, {}), Boundary(link, entry), HeldRefusal(link, entry));
      HeldRefusalForm(link.nextIndex + 1, link, entry);
    case Answered(events) =>
      AnsweredForm(events, link, entry, hasNext);
      var ctx, base := Some(Context(link.iterations, entry.model)), link.nextIndex + 1;
      AfterAppend(Streaming(link.nextIndex, {}), Boundary(link, entry),
                  Consume(events, NewHop(base), hasNext, ctx).out);
  }

  lemma HopNeedsNext(server: Server, orig: Body, entry: Entry, hasNext: bool, link: Link)
    requires Honest(server)
    ensures Hop(server, orig, entry, hasNext, link).Goes? ==> hasNext
  {
    HopForm(server, orig, entry, hasNext, link);
  }

  lemma AnsweredForm(events: seq<Event>, link: Link, entry: Entry, hasNext: bool)
    requires WellFormed(events)
    ensures var base := link.nextIndex + 1;
      var b := Consume(events, NewHop(base), hasNext, Some(Context(link.iterations, entry.model)));
      if b.refused.Some? then hasNext && After(Streaming(base, {}), b.out) == Streaming(b.nextIndex, {})
      else After(Streaming(base, {}), b.out).Done?
  {
    var ctx, base := Some(Context(link.iterations, entry.model)), link.nextIndex + 1;
    ConsumeForm(events, Before, NewHop(base), hasNext, ctx);
    RefusalNeedsNext(events, NewHop(base), hasNext, ctx);
  }

  lemma AnsweredByServer(server: Server, orig: Body, entry: Entry, link: Link)
    ensures var tried := Try(server, orig, entry, link);
      tried.verdict.Answered? ==>
        tried.sent != [] && Ok(server(tried.sent)) && tried.verdict.events == server(tried.sent).events
  {
  }

  lemma {:induction false} RefusalNeedsNext(events: seq<Event>, st: HopState, hasNext: bool, splice: Option<Context>)
    ensures Consume(events, st, hasNext, splice).refused.Some? ==> hasNext
    decreases |events|
  {
    if events != [] && !Chainable(events[0], hasNext) {
      RefusalNeedsNext(events[1..], StepState(st, events[0]), hasNext, splice);
    }
  }

  lemma {:induction false} ChainForm(server: Server, orig: Body, fallbacks: seq<Entry>, hop: nat, link: Link)
    requires Honest(server) && hop < |fallbacks|
    ensures var r := Chain(server, orig, fallbacks, hop, link);
      && r.ending in {Aborted, Degraded, Served}
      && (r.ending != Aborted ==> After(Streaming(link.nextIndex, {}), r.out).Done?)
    decreases |fallbacks| - hop
  {
    HopForm(server, orig, fallbacks[hop], hop + 1 < |fallbacks|, link);
    hide Hop;
    var r := Hop(server, orig, fallbacks[hop], hop + 1 < |fallbacks|, link);
    if r.Goes? {
      ChainForm(server, orig, fallbacks, hop + 1, r.link);
      AfterAppend(Streaming(link.nextIndex, {}), r.out, Chain(server, orig, fallbacks, hop + 1, r.link).out);
    }
  }

  /** A stream that does not end in a refusal to be retried reaches the client event for event. */
  lemma {:induction false} PassThrough(events: seq<Event>, st: HopState, hasNext: bool)
    ensures Consume(events, st, hasNext, None).refused.None? ==> Consume(events, st, hasNext, None).out == events
    decreases |events|
  {
    if events != [] && !Chainable(events[0], hasNext) {
      PassThrough(events[1..], StepState(st, events[0]), hasNext);
      assert events == [events[0]] + events[1..];
    }
  }

  /**
   For every chain and every pattern of refusals, failures and rejections the client reads one
   well-formed message, the loop over the chain never runs out, and only an abort cuts it short.
   */
  lemma SplicedIsOneMessage(server: Server, orig: Body, a: seq<Event>, fallbacks: seq<Entry>, firstHop: nat)
    requires Honest(server) && WellFormed(a) && firstHop < |fallbacks|
    ensures var r := Spliced(server, orig, a, fallbacks, firstHop);
      && r.ending != FellOff
      && (r.ending != Aborted ==> WellFormed(r.out))
      && (r.ending == PassedThrough ==> r.out == a && r.sent == [])
  {
    var o := Consume(a, NewHop(0), true, None);
    ConsumeForm(a, Before, NewHop(0), true, None);
    PassThrough(a, NewHop(0), true);
    if o.refused.Some? {
      hide Chain;
      ChainForm(server, orig, fallbacks, firstHop, FirstLink(o));
      AfterAppend(Before, o.out, Chain(server, orig, fallbacks, firstHop, FirstLink(o)).out);
    }
  }
}
