/**
 What the fallback chain sends. The credit in flight is read off the log of requests and replies
 alone; every request is then the original one, patched, redeeming that credit.
 */
module SpliceLedger {
  import opened Options
  import opened MessageEvents
  import opened SentBlocks
  import opened FallbackSplice
  import opened SpliceForm

  // ----- counters -----

  function Names(u: Option<Usage>): set<string> { if u.Some? then u.value.counts.Keys else {} }

  /** A stream's own counters, and what its message_start says of those that its message_delta does not carry. */
  function Filled(own: Usage, start: Option<Usage>): Usage {
    Usage(map name | name in own.counts.Keys + Names(start) ::
            if name in own.counts then own.counts[name] else start.value.counts[name],
          if own.iterations.Some? then own.iterations
          else if start.Some? then start.value.iterations
          else None)
  }

  /** An entry of `usage.iterations`, with the counters of one stream. */
  function IterationSaid(kind: IterationKind, model: Model, u: Usage): Iteration {
    Iteration(kind, model, Or(Get(u.counts, "input_tokens"), 0), Or(Get(u.counts, "output_tokens"), 0),
              Or(Get(u.counts, "cache_read_input_tokens"), 0), Or(Get(u.counts, "cache_creation_input_tokens"), 0))
  }

  lemma BackfillFills(own: Usage, start: Option<Usage>)
    ensures Backfill(own, start) == Filled(own, start)
  {
    assert Backfill(own, start).counts == Filled(own, start).counts;
  }

  lemma IterationIsSaid(kind: IterationKind, model: Model, u: Usage)
    ensures ToIteration(kind, model, u) == IterationSaid(kind, model, u)
  {
  }

  // ----- the credit in flight -----

  /** What stream A says when it is read by itself: whether and how it refused, and its blocks. */
  function Reading(events: seq<Event>): HopOutcome { Consume(events, NewHop(0), true, None) }

  /** The same for a fallback's stream, whose message_start the client does not see. */
  function HopReading(events: seq<Event>): HopOutcome { Consume(events, NewHop(0), true, Some(Context([], ""))) }

  /** What of a refusal is surfaced if all that follows fails. */
  datatype Held = Held(details: Details, usage: Usage, transformations: Option<Transformations>)

  /** The token in flight, the assistant turn its request carried, the refused output it lets through, who refused. */
  datatype Credit = Credit(token: string, base: seq<Block>, partial: seq<Block>, iterations: seq<Iteration>,
                           held: Held, from: Model)

  /** The assistant turn appended to a request. */
  function Carried(orig: Body, r: Body): seq<Block> {
    if |r.messages| > |orig.messages| then r.messages[|orig.messages|].content else []
  }

  predicate Refuses(r: Reply) { Ok(r) && HopReading(r.events).refused.Some? }

  function HeldOf(r: Refused): Held { Held(r.details, r.usage, r.transformations) }

  /** The credit that a refusal grants. */
  function Granted(o: HopOutcome, base: seq<Block>, iterations: seq<Iteration>, model: Model): Credit
    requires o.refused.Some?
  {
    var r := o.refused.value;
    Credit(r.token, base, if r.claim then Prefill(o.blocks) else [],
           iterations + [ToIteration(MessageIteration, model, r.usage)], HeldOf(r), model)
  }

  /** The credit granted by the latest refusal in the log, `a` being the refused stream before it. */
  function CreditAfter(server: Server, orig: Body, a: HopOutcome, sent: seq<Body>): Credit
    requires a.refused.Some?
  {
    if sent == [] then Granted(a, [], [], Or(a.model, ""))
    else
      var request, earlier := sent[|sent| - 1], CreditAfter(server, orig, a, sent[..|sent| - 1]);
      if Refuses(server(sent)) then
        Granted(HopReading(server(sent).events), Carried(orig, request), earlier.iterations, request.model)
      else earlier
  }

  // ----- the requests of one entry -----

  function AsTurn(content: seq<Block>): seq<Turn> { if content == [] then [] else [Turn(Assistant, content)] }

  function StatusOf(r: Reply): set<nat> { if r.Http? then {r.status} else {} }

  /** The statuses of the replies to the requests of `turn`, sent behind those of `was`. */
  function Statuses(server: Server, was: seq<Body>, turn: seq<Body>): set<nat> {
    if turn == [] then {}
    else Statuses(server, was, turn[..|turn| - 1]) + StatusOf(server(was + turn))
  }

  predicate Throttled(statuses: set<nat>) { 429 in statuses || 529 in statuses }

  predicate Rejected(statuses: set<nat>) { 400 in statuses }

  /** The entry's own speed if it sets one, none if it unsets it, and otherwise the original's. */
  function SpeedFor(orig: Body, entry: Entry): Option<Speed> {
    match entry.speed
    case Set(speed) => Some(speed)
    case Unset => None
    case Keep => orig.speed
  }

  /**
   A request that redeems `c` after replies with these statuses to the same entry's requests: the original body
   with the entry's model, its speed unless that was throttled, the token, and one trailing assistant turn at
   most, which is the credit's base and its partial output, or the base alone if that was rejected.
   */
  predicate Redeems(orig: Body, entry: Entry, c: Credit, r: Body, seen: set<nat>) {
    && r.model == entry.model
    && r.speed == (if Throttled(seen) then None else SpeedFor(orig, entry))
    && r.thinking == (if orig.thinking == Some(BetweenTools) then Some(Disabled) else orig.thinking)
    && r.token == Some(CreditToken(c.token, true)) && r.rest == orig.rest
    && r.messages == orig.messages + AsTurn(if Rejected(seen) then c.base else c.base + c.partial)
  }

  /** A reply that has the same entry asked once more: without its borrowed speed, or without the partial output. */
  predicate CallsAgain(orig: Body, entry: Entry, c: Credit, reply: Reply, seen: set<nat>) {
    || (Throttled(StatusOf(reply)) && entry.speed == Keep && orig.speed == Some(Fast) && !Throttled(seen))
    || (Rejected(StatusOf(reply)) && c.partial != [] && !Rejected(seen))
  }

  predicate RequestOf(server: Server, orig: Body, entry: Entry, c: Credit, was: seq<Body>, turn: seq<Body>, i: nat)
    requires i < |turn|
  {
    var seen := Statuses(server, was, turn[..i]);
    && Redeems(orig, entry, c, turn[i], seen)
    && (i + 1 < |turn| ==> CallsAgain(orig, entry, c, server(was + turn[..i + 1]), seen))
  }

  predicate Underway(server: Server, orig: Body, entry: Entry, c: Credit, was: seq<Body>, turn: seq<Body>) {
    forall i :: 0 <= i < |turn| ==> RequestOf(server, orig, entry, c, was, turn, i)
  }

  /** The last reply, and the statuses before it. */
  predicate CallsOn(server: Server, orig: Body, entry: Entry, c: Credit, was: seq<Body>, turn: seq<Body>)
    requires turn != []
  {
    CallsAgain(orig, entry, c, server(was + turn), Statuses(server, was, turn[..|turn| - 1]))
  }

  /** All the requests that an entry is sent: one, and another exactly while the last reply calls for it. */
  predicate TurnOf(server: Server, orig: Body, entry: Entry, c: Credit, was: seq<Body>, turn: seq<Body>) {
    && 1 <= |turn| <= 3 && Underway(server, orig, entry, c, was, turn)
    && !CallsOn(server, orig, entry, c, was, turn)
  }

  lemma UnderwayAppend(server: Server, orig: Body, entry: Entry, c: Credit, was: seq<Body>, turn: seq<Body>, r: Body)
    requires Underway(server, orig, entry, c, was, turn)
    requires turn != [] ==> CallsOn(server, orig, entry, c, was, turn)
    requires Redeems(orig, entry, c, r, Statuses(server, was, turn))
    ensures Underway(server, orig, entry, c, was, turn + [r])
  {
    hide Redeems, CallsAgain, Statuses;
    var more := turn + [r];
    forall i | 0 <= i < |more|
      ensures RequestOf(server, orig, entry, c, was, more, i)
    {
      assert more[..i] == turn[..i];
      if i < |turn| {
        assert RequestOf(server, orig, entry, c, was, turn, i);
        assert more[..i + 1] == turn[..i + 1];
        if i == |turn| - 1 { assert turn[..i + 1] == turn; }
      } else {
        assert turn[..i] == turn;
      }
    }
  }

  lemma StatusesAppend(server: Server, was: seq<Body>, turn: seq<Body>, r: Body)
    ensures Statuses(server, was, turn + [r]) == Statuses(server, was, turn) + StatusOf(server(was + (turn + [r])))
  {
    assert (turn + [r])[..|turn|] == turn;
  }

  /** A request built for an entry, with the speed as the entry has it or dropped. */
  lemma BuiltRedeems(orig: Body, entry: Entry, c: Credit, seen: set<nat>, continuation: seq<Block>)
    requires continuation == if Rejected(seen) then c.base else c.base + c.partial
    ensures var r := BuildFallbackRequest(orig, entry.model, if Throttled(seen) then Unset else entry.speed, c.token,
                                          continuation);
      Redeems(orig, entry, c, r, seen) && Carried(orig, r) == continuation
  {
    var r := BuildFallbackRequest(orig, entry.model, if Throttled(seen) then Unset else entry.speed, c.token,
                                  continuation);
    assert r.messages == orig.messages + AsTurn(continuation);
  }

  /** The same without its speed, once that has been throttled. */
  lemma SlowedRedeems(orig: Body, entry: Entry, c: Credit, r: Body, seen: set<nat>, now: set<nat>)
    requires Redeems(orig, entry, c, r, seen) && Throttled(now) && (Rejected(now) <==> Rejected(seen))
    ensures Redeems(orig, entry, c, r.(speed := None), now)
    ensures Carried(orig, r.(speed := None)) == Carried(orig, r)
  {
  }

  /** A turn after one dispatch, `turn` being what was sent before it: not throttled again, nor rejected before. */
  predicate Dispatched(server: Server, orig: Body, entry: Entry, c: Credit, was: seq<Body>, turn: seq<Body>, d: Sent,
                       turn': seq<Body>)
  {
    && d.sent == was + turn' && d.reply == server(d.sent)
    && |turn'| == |turn| + (if d.dropped then 2 else 1)
    && Underway(server, orig, entry, c, was, turn')
    && Carried(orig, turn'[|turn'| - 1])
       == (if Rejected(Statuses(server, was, turn)) then c.base else c.base + c.partial)
    && var before, seen := Statuses(server, was, turn), Statuses(server, was, turn'[..|turn'| - 1]);
       && (d.dropped ==> !Throttled(before))
       && (Throttled(seen) <==> Throttled(before) || d.dropped) && (Rejected(seen) <==> Rejected(before))
       && (Throttled(StatusOf(d.reply)) && entry.speed == Keep && orig.speed == Some(Fast) ==> Throttled(seen))
  }

  lemma DispatchTurn(server: Server, orig: Body, entry: Entry, c: Credit, was: seq<Body>, turn: seq<Body>)
    returns (turn': seq<Body>)
    requires Underway(server, orig, entry, c, was, turn)
    requires turn != [] ==> CallsOn(server, orig, entry, c, was, turn)
    ensures var seen := Statuses(server, was, turn);
      var speed := if Throttled(seen) then Unset else entry.speed;
      var continuation := if Rejected(seen) then c.base else c.base + c.partial;
      Dispatched(server, orig, entry, c, was, turn,
                 Dispatch(server, was + turn, entry,
                          BuildFallbackRequest(orig, entry.model, speed, c.token, continuation)),
                 turn')
  {
    var seen := Statuses(server, was, turn);
    var speed := if Throttled(seen) then Unset else entry.speed;
    var continuation := if Rejected(seen) then c.base else c.base + c.partial;
    var r := BuildFallbackRequest(orig, entry.model, speed, c.token, continuation);
    BuiltRedeems(orig, entry, c, seen, continuation);
    assert r.speed == Some(Fast) && entry.speed == Keep <==>
           entry.speed == Keep && orig.speed == Some(Fast) && !Throttled(seen);
    hide Redeems, Carried, BuildFallbackRequest, Underway, Statuses;
    UnderwayAppend(server, orig, entry, c, was, turn, r);
    StatusesAppend(server, was, turn, r);
    var first := turn + [r];
    assert was + turn + [r] == was + first && first[..|first| - 1] == turn;
    hide CallsOn, Rejected, StatusOf;
    if Dispatch(server, was + turn, entry, r).dropped {
      turn' := SentAgain(server, orig, entry, c, was, turn, r);
    } else {
      turn' := first;
    }
  }

  /** A request that is sent again without its speed. */
  lemma SentAgain(server: Server, orig: Body, entry: Entry, c: Credit, was: seq<Body>, turn: seq<Body>, r: Body)
    returns (turn': seq<Body>)
    requires Underway(server, orig, entry, c, was, turn + [r])
    requires Redeems(orig, entry, c, r, Statuses(server, was, turn))
    requires entry.speed == Keep && orig.speed == Some(Fast) && !Throttled(Statuses(server, was, turn))
    requires Throttled(StatusOf(server(was + (turn + [r]))))
    ensures turn' == turn + [r] + [r.(speed := None)] && was + (turn + [r]) + [r.(speed := None)] == was + turn'
    ensures Underway(server, orig, entry, c, was, turn') && Carried(orig, r.(speed := None)) == Carried(orig, r)
    ensures var before, seen := Statuses(server, was, turn), Statuses(server, was, turn'[..|turn'| - 1]);
      Throttled(seen) && (Rejected(seen) <==> Rejected(before))
  {
    var first, r' := turn + [r], r.(speed := None);
    turn' := first + [r'];
    assert first[..|first| - 1] == turn && turn'[..|turn'| - 1] == first;
    StatusesAppend(server, was, turn, r);
    var before, reply := Statuses(server, was, turn), StatusOf(server(was + first));
    assert Rejected(before + reply) <==> Rejected(before);
    SlowedRedeems(orig, entry, c, r, before, Statuses(server, was, first));
    hide Redeems, Carried, Underway, Statuses;
    UnderwayAppend(server, orig, entry, c, was, first, r');
  }

  /** What a credit and a link have in common. */
  predicate Matches(c: Credit, link: Link) {
    c == Credit(link.token, link.base, link.partial, link.iterations,
                Held(link.details, link.usage, link.transformations), link.fromModel)
  }

  /** The two attempts at an entry are a turn of its own: at most three requests, each in answer to the reply before. */
  lemma TryTurn(server: Server, orig: Body, entry: Entry, link: Link, c: Credit) returns (turn: seq<Body>)
    requires Matches(c, link)
    ensures var t := Try(server, orig, entry, link);
      && t.sent == link.sent + turn && TurnOf(server, orig, entry, c, link.sent, turn)
      && t.verdict == Judge(entry.model, server(t.sent))
      && Carried(orig, t.sent[|t.sent| - 1]) == t.continuation
  {
    var was, full := link.sent, link.base + link.partial;
    assert was + [] == was && Statuses(server, was, []) == {};
    turn := DispatchTurn(server, orig, entry, c, was, []);
    var s0 := Dispatch(server, was, entry, BuildFallbackRequest(orig, entry.model, entry.speed, link.token, full));
    assert Dispatched(server, orig, entry, c, was, [], s0, turn);
    hide Dispatch, Carried, BuildFallbackRequest, Underway, Judge;
    if s0.reply.Http? && s0.reply.status == 400 && link.partial != [] {
      assert CallsOn(server, orig, entry, c, was, turn);
      var first := turn;
      turn := DispatchTurn(server, orig, entry, c, was, first);
    }
  }

  /** One more request than before, its reply not a refusal to be retried: the credit in flight stays as it was. */
  lemma CreditKept(server: Server, orig: Body, a: HopOutcome, sent: seq<Body>, r: Body)
    requires a.refused.Some? && !Ok(server(sent + [r]))
    ensures CreditAfter(server, orig, a, sent + [r]) == CreditAfter(server, orig, a, sent)
  {
    assert (sent + [r])[..|sent|] == sent;
  }

  /** All the requests of a turn but the last leave the credit as it was. */
  lemma {:induction false} CreditDuring(server: Server, orig: Body, a: HopOutcome, entry: Entry, c: Credit,
                                        was: seq<Body>, turn: seq<Body>, i: nat)
    requires a.refused.Some? && TurnOf(server, orig, entry, c, was, turn) && i < |turn|
    ensures CreditAfter(server, orig, a, was + turn[..i]) == CreditAfter(server, orig, a, was)
  {
    hide CreditAfter, Redeems;
    if i == 0 {
      assert was + turn[..0] == was;
    } else {
      CreditDuring(server, orig, a, entry, c, was, turn, i - 1);
      assert RequestOf(server, orig, entry, c, was, turn, i - 1);
      assert was + turn[..i] == was + turn[..i - 1] + [turn[i - 1]];
      CreditKept(server, orig, a, was + turn[..i - 1], turn[i - 1]);
    }
  }

  /** A turn of `entry` that redeems the credit in flight after `was`. */
  predicate TakesTurn(server: Server, orig: Body, a: HopOutcome, entry: Entry, was: seq<Body>, turn: seq<Body>)
    requires a.refused.Some?
  {
    TurnOf(server, orig, entry, CreditAfter(server, orig, a, was), was, turn)
  }

  /** The last request of a turn redeems the credit from before it, which is lost only by an answer. */
  lemma LastOfTurn(server: Server, orig: Body, a: HopOutcome, entry: Entry, was: seq<Body>, turn: seq<Body>)
    requires a.refused.Some? && TakesTurn(server, orig, a, entry, was, turn)
    ensures var sent := was + turn;
      && turn != [] && sent[|sent| - 1].model == entry.model
      && CreditAfter(server, orig, a, sent[..|sent| - 1]) == CreditAfter(server, orig, a, was)
      && (!Ok(server(sent)) ==> CreditAfter(server, orig, a, sent) == CreditAfter(server, orig, a, was))
  {
    hide CreditAfter;
    var sent, c, n := was + turn, CreditAfter(server, orig, a, was), |turn| - 1;
    assert RequestOf(server, orig, entry, c, was, turn, n);
    CreditDuring(server, orig, a, entry, c, was, turn, n);
    assert sent[..|sent| - 1] == was + turn[..n];
    assert sent == sent[..|sent| - 1] + [sent[|sent| - 1]];
    if !Ok(server(sent)) { CreditKept(server, orig, a, sent[..|sent| - 1], sent[|sent| - 1]); }
  }

  // ----- the turns of a chain -----

  /** What the loop carries from entry to entry is the credit in flight. */
  predicate InFlight(server: Server, orig: Body, a: HopOutcome, link: Link)
    requires a.refused.Some?
  {
    Matches(CreditAfter(server, orig, a, link.sent), link)
  }

  /** Two readings of a stream behind other streams that agree so far agree on its refusal and its blocks. */
  lemma {:induction false} SameReading(events: seq<Event>, st: HopState, st': HopState, ctx: Context, ctx': Context)
    requires st.opening == st'.opening && st.track.blocks == st'.track.blocks
    ensures var o, o' := Consume(events, st, true, Some(ctx)), Consume(events, st', true, Some(ctx'));
      o.refused == o'.refused && (o.refused.Some? ==> o.blocks == o'.blocks)
    decreases |events|
  {
    if events != [] && !Chainable(events[0], true) {
      SameReading(events[1..], StepState(st, events[0]), StepState(st', events[0]), ctx, ctx');
    }
  }

  /** A reply after which the next entry is tried, if there is one. */
  predicate Onward(r: Reply) { if r.Threw? then !r.abort else Ok(r) ==> Refuses(r) }

  lemma AnsweredReading(events: seq<Event>, base: nat, hasNext: bool, ctx: Context)
    ensures var b := Consume(events, NewHop(base), hasNext, Some(ctx));
      && (b.refused.Some? <==> hasNext && HopReading(events).refused.Some?)
      && (b.refused.Some? ==> b.refused == HopReading(events).refused && b.blocks == HopReading(events).blocks)
  {
    RefusalNeedsNext(events, NewHop(base), hasNext, Some(ctx));
    if hasNext { SameReading(events, NewHop(base), NewHop(0), ctx, Context([], "")); }
  }

  /** A hop that is refused in turn leaves its own credit in flight. */
  lemma RefusedInFlight(server: Server, orig: Body, a: HopOutcome, entry: Entry, link: Link, t: Tried, b: HopOutcome)
    requires a.refused.Some? && InFlight(server, orig, a, link)
    requires t.sent != [] && Refuses(server(t.sent)) && b.refused.Some?
    requires var o := HopReading(server(t.sent).events); b.refused == o.refused && b.blocks == o.blocks
    requires CreditAfter(server, orig, a, t.sent[..|t.sent| - 1]) == CreditAfter(server, orig, a, link.sent)
    requires Carried(orig, t.sent[|t.sent| - 1]) == t.continuation && t.sent[|t.sent| - 1].model == entry.model
    ensures InFlight(server, orig, a, NextLink(link, entry, t, b))
  {
    hide HopReading, Carried, Refuses;
  }

  /** Where a turn of the loop leads, by the verdict on its entry. */
  lemma HopLeads(server: Server, orig: Body, entry: Entry, hasNext: bool, link: Link)
    ensures var r, t := Hop(server, orig, entry, hasNext, link), Try(server, orig, entry, link);
      match t.verdict
      case Abort => r.Ends? && r.sent == t.sent
      case Failure(_) =>
        if hasNext then r.Goes? && r.link == link.(nextIndex := link.nextIndex + 1, sent := t.sent)
        else r.Ends? && r.sent == t.sent
      case Answered(events) =>
        var b := Consume(events, NewHop(link.nextIndex + 1), hasNext, Some(Context(link.iterations, entry.model)));
        if b.refused.Some? then r.Goes? && r.link == NextLink(link, entry, t, b) && r.link.sent == t.sent
        else r.Ends? && r.sent == t.sent
  {
    hide Try, Consume, Boundary, HeldRefusal;
  }

  /** The log when a turn of the loop is over. */
  function SentBy(r: Turnout): seq<Body> { if r.Goes? then r.link.sent else r.sent }

  /** One turn of the loop: the entry's own requests, and on exactly while the last reply and the chain allow. */
  lemma HopTurn(server: Server, orig: Body, a: HopOutcome, entry: Entry, hasNext: bool, link: Link)
    returns (turn: seq<Body>)
    requires a.refused.Some? && InFlight(server, orig, a, link)
    ensures var r := Hop(server, orig, entry, hasNext, link);
      && TakesTurn(server, orig, a, entry, link.sent, turn) && SentBy(r) == link.sent + turn
      && (r.Goes? ==> InFlight(server, orig, a, r.link) && hasNext && Onward(server(SentBy(r))))
      && (r.Ends? && Onward(server(SentBy(r))) ==> !hasNext)
  {
    var t := Try(server, orig, entry, link);
    turn := TryTurn(server, orig, entry, link, CreditAfter(server, orig, a, link.sent));
    HopLeads(server, orig, entry, hasNext, link);
    hide Hop, Try, Consume, TurnOf, Carried, CreditAfter, HopReading, Matches;
    LastOfTurn(server, orig, a, entry, link.sent, turn);
    hide TakesTurn, NextLink;
    if t.verdict.Answered? {
      AnsweredTurn(server, orig, a, entry, hasNext, link);
      hide InFlight, Onward;
    } else if t.verdict.Failure? {
      FailedInFlight(server, orig, a, link, t.sent);
      hide InFlight;
    }
  }

  lemma AnsweredTurn(server: Server, orig: Body, a: HopOutcome, entry: Entry, hasNext: bool, link: Link)
    requires a.refused.Some? && InFlight(server, orig, a, link)
    requires var t := Try(server, orig, entry, link);
      && t.verdict.Answered? && t.verdict == Judge(entry.model, server(t.sent)) && t.sent != []
      && CreditAfter(server, orig, a, t.sent[..|t.sent| - 1]) == CreditAfter(server, orig, a, link.sent)
      && Carried(orig, t.sent[|t.sent| - 1]) == t.continuation && t.sent[|t.sent| - 1].model == entry.model
    ensures var t, ctx := Try(server, orig, entry, link), Some(Context(link.iterations, entry.model));
      var b := Consume(t.verdict.events, NewHop(link.nextIndex + 1), hasNext, ctx);
      && (b.refused.Some? <==> hasNext && Onward(server(t.sent)))
      && (b.refused.Some? ==> InFlight(server, orig, a, NextLink(link, entry, t, b)))
  {
    hide Try, Consume, Carried, CreditAfter, HopReading, InFlight, NextLink;
    var t, ctx := Try(server, orig, entry, link), Context(link.iterations, entry.model);
    AnsweredReading(t.verdict.events, link.nextIndex + 1, hasNext, ctx);
    var b := Consume(t.verdict.events, NewHop(link.nextIndex + 1), hasNext, Some(ctx));
    if b.refused.Some? { RefusedInFlight(server, orig, a, entry, link, t, b); }
  }

  lemma FailedInFlight(server: Server, orig: Body, a: HopOutcome, link: Link, sent: seq<Body>)
    requires a.refused.Some? && InFlight(server, orig, a, link)
    requires CreditAfter(server, orig, a, sent) == CreditAfter(server, orig, a, link.sent)
    ensures InFlight(server, orig, a, link.(nextIndex := link.nextIndex + 1, sent := sent))
  {
    hide CreditAfter;
  }

  /** All the requests of some turns. */
  function Log(turns: seq<seq<Body>>): seq<Body> {
    if turns == [] then [] else Log(turns[..|turns| - 1]) + turns[|turns| - 1]
  }

  /** Turn `k` is that of the `k`-th entry from `firstHop` on; another follows only if its last reply says so. */
  predicate TurnAt(server: Server, orig: Body, a: HopOutcome, fallbacks: seq<Entry>, firstHop: nat,
                   turns: seq<seq<Body>>, k: nat)
    requires a.refused.Some? && k < |turns|
  {
    var was := Log(turns[..k]);
    && firstHop + k < |fallbacks|
    && TurnOf(server, orig, fallbacks[firstHop + k], CreditAfter(server, orig, a, was), was, turns[k])
    && (k + 1 < |turns| ==> Onward(server(was + turns[k])))
  }

  /** The log falls into the turns of consecutive entries. */
  predicate InTurns(server: Server, orig: Body, a: HopOutcome, fallbacks: seq<Entry>, firstHop: nat,
                    turns: seq<seq<Body>>, sent: seq<Body>)
    requires a.refused.Some?
  {
    sent == Log(turns) && forall k :: 0 <= k < |turns| ==> TurnAt(server, orig, a, fallbacks, firstHop, turns, k)
  }

  lemma TurnsAppend(server: Server, orig: Body, a: HopOutcome, fallbacks: seq<Entry>, firstHop: nat,
                    turns: seq<seq<Body>>, was: seq<Body>, turn: seq<Body>)
    requires a.refused.Some? && InTurns(server, orig, a, fallbacks, firstHop, turns, was)
    requires firstHop + |turns| < |fallbacks| && (turns != [] ==> Onward(server(was)))
    requires TakesTurn(server, orig, a, fallbacks[firstHop + |turns|], was, turn)
    ensures InTurns(server, orig, a, fallbacks, firstHop, turns + [turn], was + turn)
  {
    hide TurnOf, CreditAfter, Onward;
    var n, all := |turns|, turns + [turn];
    assert all[..n] == turns;
    forall k | 0 <= k < |all|
      ensures TurnAt(server, orig, a, fallbacks, firstHop, all, k)
    {
      if k < n {
        assert TurnAt(server, orig, a, fallbacks, firstHop, turns, k);
        assert all[..k] == turns[..k] && all[k] == turns[k];
        if k == n - 1 { assert was == Log(turns[..k]) + turns[k]; }
      }
    }
  }

  lemma ChainNext(server: Server, orig: Body, fallbacks: seq<Entry>, hop: nat, link: Link)
    requires hop < |fallbacks|
    ensures var r, c := Hop(server, orig, fallbacks[hop], hop + 1 < |fallbacks|, link),
                        Chain(server, orig, fallbacks, hop, link);
      if r.Goes? then
        var rest := Chain(server, orig, fallbacks, hop + 1, r.link);
        c.sent == rest.sent && c.pins == [hop] + rest.pins && c.ending == rest.ending && c.out == r.out + rest.out
        && c.errors == r.errors + rest.errors
      else c.sent == r.sent && c.pins == [hop] && c.ending == r.ending && c.out == r.out && c.errors == r.errors
  {
    hide Hop;
  }

  lemma NextTurn(server: Server, orig: Body, a: HopOutcome, fallbacks: seq<Entry>, firstHop: nat,
                 turns: seq<seq<Body>>, link: Link)
    returns (all: seq<seq<Body>>)
    requires a.refused.Some? && firstHop + |turns| < |fallbacks| && InFlight(server, orig, a, link)
    requires InTurns(server, orig, a, fallbacks, firstHop, turns, link.sent)
    requires turns != [] ==> Onward(server(link.sent))
    ensures var hop := firstHop + |turns|;
      var r := Hop(server, orig, fallbacks[hop], hop + 1 < |fallbacks|, link);
      && |all| == |turns| + 1 && InTurns(server, orig, a, fallbacks, firstHop, all, SentBy(r))
      && (r.Goes? ==> InFlight(server, orig, a, r.link) && hop + 1 < |fallbacks| && Onward(server(SentBy(r))))
      && (r.Ends? && Onward(server(SentBy(r))) ==> hop + 1 == |fallbacks|)
  {
    var hop := firstHop + |turns|;
    var turn := HopTurn(server, orig, a, fallbacks[hop], hop + 1 < |fallbacks|, link);
    hide Hop, InTurns, InFlight, Onward, TakesTurn, CreditAfter;
    TurnsAppend(server, orig, a, fallbacks, firstHop, turns, link.sent, turn);
    all := turns + [turn];
  }

  predicate Consecutive(pins: seq<nat>, hop: nat) { forall k :: 0 <= k < |pins| ==> pins[k] == hop + k }

  lemma ConsecutiveNext(hop: nat, rest: seq<nat>)
    requires Consecutive(rest, hop + 1)
    ensures Consecutive([hop] + rest, hop)
  {
  }

  /** The rest of a chain adds one turn for each entry that it pins. */
  lemma {:induction false} ChainTurns(server: Server, orig: Body, a: HopOutcome, fallbacks: seq<Entry>, firstHop: nat,
                                      turns: seq<seq<Body>>, link: Link)
    returns (all: seq<seq<Body>>)
    requires a.refused.Some? && firstHop + |turns| < |fallbacks| && InFlight(server, orig, a, link)
    requires InTurns(server, orig, a, fallbacks, firstHop, turns, link.sent)
    requires turns != [] ==> Onward(server(link.sent))
    ensures var hop := firstHop + |turns|; var r := Chain(server, orig, fallbacks, hop, link);
      && InTurns(server, orig, a, fallbacks, firstHop, all, r.sent) && |all| == |turns| + |r.pins|
      && Consecutive(r.pins, hop)
      && r.pins != [] && (Onward(server(r.sent)) ==> firstHop + |all| == |fallbacks|)
    decreases |fallbacks| - |turns|
  {
    var hop := firstHop + |turns|;
    ChainNext(server, orig, fallbacks, hop, link);
    var r := Hop(server, orig, fallbacks[hop], hop + 1 < |fallbacks|, link);
    hide Hop, Chain, InTurns, InFlight, Onward, CreditAfter;
    all := NextTurn(server, orig, a, fallbacks, firstHop, turns, link);
    if r.Goes? {
      all := ChainTurns(server, orig, a, fallbacks, firstHop, all, r.link);
      hide Consecutive;
      ConsecutiveNext(hop, Chain(server, orig, fallbacks, hop + 1, r.link).pins);
    }
  }

  lemma {:induction false} LogLength(server: Server, orig: Body, a: HopOutcome, fallbacks: seq<Entry>, firstHop: nat,
                                     turns: seq<seq<Body>>, n: nat)
    requires a.refused.Some? && InTurns(server, orig, a, fallbacks, firstHop, turns, Log(turns)) && n <= |turns|
    ensures n <= |Log(turns[..n])| <= 3 * n
  {
    hide CreditAfter, Underway, CallsOn, Onward;
    if n > 0 {
      LogLength(server, orig, a, fallbacks, firstHop, turns, n - 1);
      assert TurnAt(server, orig, a, fallbacks, firstHop, turns, n - 1);
      assert turns[..n][..n - 1] == turns[..n - 1];
    }
  }

  /** All the turns of a chain that starts with a refusal of stream A. */
  lemma AllTurns(server: Server, orig: Body, o: HopOutcome, fallbacks: seq<Entry>, firstHop: nat)
    returns (turns: seq<seq<Body>>)
    requires o.refused.Some? && firstHop < |fallbacks|
    ensures var r := Chain(server, orig, fallbacks, firstHop, FirstLink(o));
      && InTurns(server, orig, o, fallbacks, firstHop, turns, r.sent) && |turns| == |r.pins|
      && Consecutive(r.pins, firstHop) && firstHop + |r.pins| <= |fallbacks|
      && 1 <= |r.pins| <= |r.sent| <= 3 * |r.pins|
      && (Onward(server(r.sent)) ==> firstHop + |r.pins| == |fallbacks|)
  {
    FirstInFlight(server, orig, o);
    NoTurns(server, orig, o, fallbacks, firstHop);
    hide InFlight, Chain, Onward, InTurns, Consecutive;
    turns := ChainTurns(server, orig, o, fallbacks, firstHop, [], FirstLink(o));
    TurnsFit(server, orig, o, fallbacks, firstHop, turns);
  }

  lemma NoTurns(server: Server, orig: Body, o: HopOutcome, fallbacks: seq<Entry>, firstHop: nat)
    requires o.refused.Some?
    ensures InTurns(server, orig, o, fallbacks, firstHop, [], FirstLink(o).sent)
  {
  }

  lemma TurnsFit(server: Server, orig: Body, a: HopOutcome, fallbacks: seq<Entry>, firstHop: nat,
                 turns: seq<seq<Body>>)
    requires a.refused.Some? && turns != [] && InTurns(server, orig, a, fallbacks, firstHop, turns, Log(turns))
    ensures |turns| <= |Log(turns)| <= 3 * |turns| && firstHop + |turns| <= |fallbacks|
  {
    LogLength(server, orig, a, fallbacks, firstHop, turns, |turns|);
    assert turns[..|turns|] == turns;
    assert TurnAt(server, orig, a, fallbacks, firstHop, turns, |turns| - 1);
    hide TurnOf, CreditAfter, Onward;
  }

  /**
   Every request of every run redeems the credit in flight for the entry whose turn it is: the log falls into
   one turn for each entry pinned, which are the entries from `firstHop` on one after another, and the last turn
   is that of the last entry unless the reply to it ends the chain.
   */
  lemma EveryRequestRedeems(server: Server, orig: Body, a: seq<Event>, fallbacks: seq<Entry>, firstHop: nat)
    requires firstHop < |fallbacks|
    ensures var o, r := Reading(a), Spliced(server, orig, a, fallbacks, firstHop);
      && (o.refused.None? ==> r.sent == [] && r.pins == [])
      && (o.refused.Some? ==>
           && (exists turns :: |turns| == |r.pins| && InTurns(server, orig, o, fallbacks, firstHop, turns, r.sent))
           && r.pins != [] && (Onward(server(r.sent)) ==> firstHop + |r.pins| == |fallbacks|))
      && Consecutive(r.pins, firstHop)
      && |r.pins| <= |r.sent| <= 3 * |r.pins| && firstHop + |r.pins| <= |fallbacks|
  {
    var o := Reading(a);
    if o.refused.Some? {
      hide Chain, Onward, InTurns, Consecutive, Reading, Consume;
      var turns := AllTurns(server, orig, o, fallbacks, firstHop);
    }
  }

  lemma FirstInFlight(server: Server, orig: Body, o: HopOutcome)
    requires o.refused.Some?
    ensures InFlight(server, orig, o, FirstLink(o))
  {
    var m := Or(o.model, "");
    assert [] + [ToIteration(MessageIteration, m, o.refused.value.usage)]
        == [ToIteration(MessageIteration, m, o.refused.value.usage)];
  }

  // ----- usage.iterations -----

  function RefusalsIn(server: Server, sent: seq<Body>): nat {
    if sent == [] then 0
    else RefusalsIn(server, sent[..|sent| - 1]) + (if Refuses(server(sent)) then 1 else 0)
  }

  /** One `message` iteration per refused stream. */
  lemma {:induction false} OneIterationPerRefusal(server: Server, orig: Body, a: HopOutcome, sent: seq<Body>)
    requires a.refused.Some?
    ensures var it := CreditAfter(server, orig, a, sent).iterations;
      |it| == 1 + RefusalsIn(server, sent) && forall i :: 0 <= i < |it| ==> it[i].kind == MessageIteration
  {
    if sent != [] {
      OneIterationPerRefusal(server, orig, a, sent[..|sent| - 1]);
    }
  }

  /** What a stream's message_start says. */
  function OpeningOf(events: seq<Event>): Opening {
    if events == [] then Opening(None, None, None)
    else
      var last := events[|events| - 1];
      if last.MessageStart? then
        Opening(Some(last.message.model), Some(last.message.usage), last.message.transformations)
      else OpeningOf(events[..|events| - 1])
  }

  /** `e` ends the stream `events` as that itself does, its counters filled up from its message_start. */
  predicate IsOwn(e: Event, events: seq<Event>) {
    e.MessageDelta? && exists k :: 0 <= k < |events| && EndsLike(e, events[k], OpeningOf(events))
  }

  predicate EndsLike(e: Event, own: Event, opening: Opening) {
    && e.MessageDelta? && own.MessageDelta?
    && e.stop == own.stop && e.usage.counts == Filled(own.usage, opening.usage).counts
    && e.transformations == (if own.transformations.Some? then own.transformations else opening.transformations)
  }

  /**
   The usage a terminal delta reports: its own stream's counters, and as iterations the refused streams in
   order and then the one that serves, with those counters.
   */
  predicate Reports(e: Event, iterations: seq<Iteration>, model: Model, events: seq<Event>) {
    e.MessageDelta? ==>
      && IsOwn(e, events)
      && e.usage.iterations == Some(iterations + [IterationSaid(FallbackMessageIteration, model, e.usage)])
  }

  predicate AllReport(out: seq<Event>, iterations: seq<Iteration>, model: Model, events: seq<Event>) {
    forall e :: e in out ==> Reports(e, iterations, model, events)
  }

  function EventsOf(r: Reply): seq<Event> { if r.Http? then r.events else [] }

  /** `AllReport`, of the refusals before a log's last request, of that request's model and of its reply. */
  predicate LogReported(server: Server, orig: Body, a: HopOutcome, out: seq<Event>, sent: seq<Body>)
    requires a.refused.Some?
  {
    && sent != []
    && AllReport(out, CreditAfter(server, orig, a, sent[..|sent| - 1]).iterations, sent[|sent| - 1].model,
                 EventsOf(server(sent)))
  }

  lemma QuietThenReported(server: Server, orig: Body, a: HopOutcome, quiet: seq<Event>, out: seq<Event>,
                          sent: seq<Body>)
    requires a.refused.Some? && LogReported(server, orig, a, out, sent) && forall e :: e in quiet ==> !e.MessageDelta?
    ensures LogReported(server, orig, a, quiet + out, sent)
  {
    hide IsOwn;
  }

  lemma {:induction false} NoStartAfter(events: seq<Event>, n: nat)
    requires n <= |events| && After(Before, events) != Bad && After(Before, events[..n]) != Before
    ensures OpeningOf(events) == OpeningOf(events[..n]) && After(Before, events) != Before
  {
    if n == |events| {
      assert events[..n] == events;
    } else {
      var earlier := events[..|events| - 1];
      assert earlier[..n] == events[..n];
      NoStartAfter(earlier, n);
    }
  }

  /** The terminal delta that goes out for one of a stream's own. */
  lemma StepReports(events: seq<Event>, n: nat, st: HopState, ctx: Context)
    requires n < |events| && After(Before, events).Done? && st.opening == OpeningOf(events[..n])
    ensures AllReport(StepOut(st, events[n], Some(ctx)), ctx.iterations, ctx.model, events)
  {
    var e := events[n];
    if e.MessageDelta? {
      PrefixPhase(events, n);
      NoStartAfter(events, n);
      var out := StepOut(st, e, Some(ctx))[0];
      BackfillFills(e.usage, st.opening.usage);
      assert EndsLike(out, events[n], OpeningOf(events));
    }
  }

  /** A message_delta comes only once the stream has started. */
  lemma PrefixPhase(events: seq<Event>, n: nat)
    requires n < |events| && After(Before, events) != Bad && events[n].MessageDelta?
    ensures After(Before, events[..n]) != Before
  {
    var now := events[..n + 1];
    assert events == now + events[n + 1..];
    AfterAppend(Before, now, events[n + 1..]);
    BadStays(events[n + 1..]);
    assert now[..n] == events[..n] && now[n] == events[n];
    assert After(Before, now) == Next(After(Before, events[..n]), events[n]);
  }

  lemma PrefixNotBad(events: seq<Event>, n: nat)
    requires n <= |events| && After(Before, events) != Bad
    ensures After(Before, events[..n]) != Bad
  {
    assert events == events[..n] + events[n..];
    AfterAppend(Before, events[..n], events[n..]);
    BadStays(events[n..]);
  }

  lemma {:induction false} NotOpenedYet(events: seq<Event>)
    requires After(Before, events) == Before
    ensures OpeningOf(events) == Opening(None, None, None)
  {
    if events != [] { NotOpenedYet(events[..|events| - 1]); }
  }

  lemma OpeningNext(events: seq<Event>, n: nat, st: HopState)
    requires n < |events| && After(Before, events) != Bad && st.opening == OpeningOf(events[..n])
    ensures StepState(st, events[n]).opening == OpeningOf(events[..n + 1])
  {
    assert events[..n + 1][..n] == events[..n];
    PrefixNotBad(events, n + 1);
    if events[n].MessageStart? { NotOpenedYet(events[..n]); }
  }

  lemma {:induction false} ConsumeReports(events: seq<Event>, n: nat, st: HopState, hasNext: bool, ctx: Context)
    requires n <= |events| && After(Before, events).Done? && st.opening == OpeningOf(events[..n])
    ensures AllReport(Consume(events[n..], st, hasNext, Some(ctx)).out, ctx.iterations, ctx.model, events)
    decreases |events| - n
  {
    hide Reports, OpeningOf, After, StepOut;
    if n < |events| {
      assert events[n..][0] == events[n] && events[n..][1..] == events[n + 1..];
      if Chainable(events[n], hasNext) {
        StopsReport(st.track.open, ctx, events);
      } else {
        OpeningNext(events, n, st);
        ConsumeReports(events, n + 1, StepState(st, events[n]), hasNext, ctx);
        StepReports(events, n, st, ctx);
      }
    }
  }

  lemma StopsReport(open: seq<nat>, ctx: Context, events: seq<Event>)
    ensures AllReport(Stops(open), ctx.iterations, ctx.model, events)
  {
    StopsAreStops(open);
  }

  lemma {:induction false} StopsAreStops(open: seq<nat>)
    ensures forall e :: e in Stops(open) ==> e.BlockStop?
  {
    if open != [] { StopsAreStops(open[1..]); }
  }

  /** A stream that is still running has sent no message_delta. */
  lemma {:induction false} NoDeltaYet(q: Phase, events: seq<Event>)
    requires After(q, events).Streaming? || After(q, events).Before?
    ensures forall e :: e in events ==> !e.MessageDelta?
  {
    if events != [] {
      var earlier := events[..|events| - 1];
      NoDeltaYet(q, earlier);
      assert events == earlier + [events[|events| - 1]];
    }
  }

  lemma HopReports(server: Server, orig: Body, entry: Entry, hasNext: bool, link: Link)
    requires Honest(server)
    ensures var r := Hop(server, orig, entry, hasNext, link);
      && (r.Goes? ==> forall e :: e in r.out ==> !e.MessageDelta?)
      && (r.Ends? && r.ending == Served ==> AllReport(r.out, link.iterations, entry.model, EventsOf(server(r.sent))))
  {
    HopForm(server, orig, entry, hasNext, link);
    var r := Hop(server, orig, entry, hasNext, link);
    if r.Goes? {
      hide Hop;
      NoDeltaYet(Streaming(link.nextIndex, {}), r.out);
    } else {
      ServedReports(server, orig, entry, hasNext, link);
    }
  }

  lemma HonestAt(server: Server, sent: seq<Body>)
    requires Honest(server) && Ok(server(sent))
    ensures WellFormed(server(sent).events)
  {
  }

  lemma ServedReports(server: Server, orig: Body, entry: Entry, hasNext: bool, link: Link)
    requires Honest(server)
    ensures var r := Hop(server, orig, entry, hasNext, link);
      r.Ends? && r.ending == Served ==> AllReport(r.out, link.iterations, entry.model, EventsOf(server(r.sent)))
  {
    AnsweredByServer(server, orig, entry, link);
    hide Try, Consume, Honest, Reports;
    var tried := Try(server, orig, entry, link);
    if tried.verdict.Answered? {
      HonestAt(server, tried.sent);
      var events := tried.verdict.events;
      assert events[0..] == events && events[..0] == [];
      ConsumeReports(events, 0, NewHop(link.nextIndex + 1), hasNext, Context(link.iterations, entry.model));
      BoundaryReports(link, entry, events);
    }
  }

  lemma BoundaryReports(link: Link, entry: Entry, events: seq<Event>)
    ensures AllReport(Boundary(link, entry), link.iterations, entry.model, events)
  {
  }

  /** A turn of the loop: quiet when it goes on, with the credit still in flight, and reported when it serves. */
  lemma HopReported(server: Server, orig: Body, a: HopOutcome, entry: Entry, hasNext: bool, link: Link)
    requires Honest(server) && a.refused.Some? && InFlight(server, orig, a, link)
    ensures var r := Hop(server, orig, entry, hasNext, link);
      && (r.Goes? ==> hasNext && InFlight(server, orig, a, r.link) && forall e :: e in r.out ==> !e.MessageDelta?)
      && (r.Ends? && r.ending == Served ==> LogReported(server, orig, a, r.out, r.sent))
  {
    var turn := HopTurn(server, orig, a, entry, hasNext, link);
    HopReports(server, orig, entry, hasNext, link);
    hide Hop, CreditAfter, Honest, AllReport, TakesTurn, InFlight, Onward;
    LastOfTurn(server, orig, a, entry, link.sent, turn);
  }

  lemma {:induction false} ChainReports(server: Server, orig: Body, a: HopOutcome, fallbacks: seq<Entry>, hop: nat,
                                        link: Link)
    requires Honest(server) && a.refused.Some? && hop < |fallbacks| && InFlight(server, orig, a, link)
    ensures var r := Chain(server, orig, fallbacks, hop, link);
      r.ending == Served ==> LogReported(server, orig, a, r.out, r.sent)
    decreases |fallbacks| - hop
  {
    hide Hop, InFlight, Honest, LogReported;
    HopReported(server, orig, a, fallbacks[hop], hop + 1 < |fallbacks|, link);
    var r := Hop(server, orig, fallbacks[hop], hop + 1 < |fallbacks|, link);
    if r.Goes? {
      ChainReports(server, orig, a, fallbacks, hop + 1, r.link);
      var rest := Chain(server, orig, fallbacks, hop + 1, r.link);
      if rest.ending == Served { QuietThenReported(server, orig, a, r.out, rest.out, rest.sent); }
    }
  }

  /**
   When a fallback ends the stream, its message_delta carries the counters of that fallback's own stream,
   and reports one `message` iteration for each refused stream, in order, and one `fallback_message` for
   the model that ends it, with those counters.
   */
  lemma ServedUsage(server: Server, orig: Body, a: seq<Event>, fallbacks: seq<Entry>, firstHop: nat)
    requires Honest(server) && WellFormed(a) && firstHop < |fallbacks|
    ensures var o, r := Reading(a), Spliced(server, orig, a, fallbacks, firstHop);
      r.ending == Served ==>
        && o.refused.Some? && r.sent != []
        && var earlier := r.sent[..|r.sent| - 1];
           var iterations := CreditAfter(server, orig, o, earlier).iterations;
           && |iterations| == 1 + RefusalsIn(server, earlier)
           && AllReport(r.out, iterations, r.sent[|r.sent| - 1].model, EventsOf(server(r.sent)))
  {
    var o := Reading(a);
    if o.refused.Some? {
      ConsumeForm(a, Before, NewHop(0), true, None);
      NoDeltaYet(Before, o.out);
      hide Chain, CreditAfter, AllReport;
      var first := FirstLink(o);
      FirstInFlight(server, orig, o);
      ChainReports(server, orig, o, fallbacks, firstHop, first);
      var rest := Chain(server, orig, fallbacks, firstHop, first);
      if rest.ending == Served {
        QuietThenReported(server, orig, o, o.out, rest.out, rest.sent);
        OneIterationPerRefusal(server, orig, o, rest.sent[..|rest.sent| - 1]);
      }
    }
  }

  // ----- a chain that fails to the end -----

  /** `h` is what the refusal `e` says, filled up from its stream's message_start, which the client saw unless `hop`. */
  predicate Says(h: Held, e: Event, opening: Opening, hop: bool) {
    && e.MessageDelta? && e.stop == Refusal(Some(h.details))
    && h.usage == Filled(e.usage, opening.usage)
    && h.transformations == (if hop then opening.transformations else None)
  }

  predicate Said(h: Held, events: seq<Event>, hop: bool) {
    exists k :: 0 <= k < |events| && Says(h, events[k], OpeningOf(events), hop)
  }

  lemma {:induction false} RefusedSays(events: seq<Event>, n: nat, st: HopState, splice: Option<Context>)
    requires n <= |events| && After(Before, events).Done? && st.opening == OpeningOf(events[..n])
    ensures var o := Consume(events[n..], st, true, splice);
      o.refused.Some? ==> Said(HeldOf(o.refused.value), events, splice.Some?)
    decreases |events| - n
  {
    hide OpeningOf, After, StepOut;
    if n < |events| {
      assert events[n..][0] == events[n] && events[n..][1..] == events[n + 1..];
      if Chainable(events[n], true) {
        PrefixPhase(events, n);
        NoStartAfter(events, n);
        BackfillFills(events[n].usage, st.opening.usage);
        assert Says(HeldOf(RefusedBy(events[n], st, splice)), events[n], OpeningOf(events), splice.Some?);
      } else {
        OpeningNext(events, n, st);
        RefusedSays(events, n + 1, StepState(st, events[n]), splice);
      }
    }
  }

  /** The stream that was refused last: one in the log, or stream A. */
  function LastRefused(server: Server, a: seq<Event>, sent: seq<Body>): seq<Event> {
    if sent == [] then a
    else if Refuses(server(sent)) then server(sent).events
    else LastRefused(server, a, sent[..|sent| - 1])
  }

  /** What is held is what the stream refused last said. */
  lemma {:induction false} HeldSaid(server: Server, orig: Body, a: seq<Event>, sent: seq<Body>)
    requires Honest(server) && WellFormed(a) && Reading(a).refused.Some?
    ensures Said(CreditAfter(server, orig, Reading(a), sent).held, LastRefused(server, a, sent),
                 RefusalsIn(server, sent) > 0)
  {
    hide Said, Consume, Honest;
    if sent == [] {
      assert a[0..] == a && a[..0] == [];
      RefusedSays(a, 0, NewHop(0), None);
    } else if Refuses(server(sent)) {
      HonestAt(server, sent);
      var events := server(sent).events;
      assert events[0..] == events && events[..0] == [];
      RefusedSays(events, 0, NewHop(0), Some(Context([], "")));
    } else {
      HeldSaid(server, orig, a, sent[..|sent| - 1]);
    }
  }

  /** A stream whose one message_delta is a refusal that says what is held, with `model` recommended. */
  predicate EndsHeld(out: seq<Event>, h: Held, model: Model) {
    var n := |out| - 2;
    && n >= 0 && out[n + 1] == MessageStop
    && out[n] == MessageDelta(Refusal(Some(h.details.(recommended := Some(model)))), h.usage, h.transformations)
    && forall i :: 0 <= i < n ==> !out[i].MessageDelta?
  }

  /** The refusal of the stream `events` is what `out` ends in. */
  predicate Surfaces(out: seq<Event>, events: seq<Event>, hop: bool, model: Model) {
    exists k :: 0 <= k < |events| && SurfacesOne(out, events[k], OpeningOf(events), hop, model)
  }

  predicate SurfacesOne(out: seq<Event>, e: Event, opening: Opening, hop: bool, model: Model) {
    && e.MessageDelta? && e.stop.Refusal? && e.stop.details.Some?
    && EndsHeld(out, Held(e.stop.details.value, Filled(e.usage, opening.usage),
                          if hop then opening.transformations else None), model)
  }

  lemma SaidSurfaces(out: seq<Event>, h: Held, events: seq<Event>, hop: bool, model: Model)
    requires EndsHeld(out, h, model) && Said(h, events, hop)
    ensures Surfaces(out, events, hop, model)
  {
    hide EndsHeld;
    var k :| 0 <= k < |events| && Says(h, events[k], OpeningOf(events), hop);
    assert SurfacesOne(out, events[k], OpeningOf(events), hop, model);
  }

  lemma QuietThenHeld(quiet: seq<Event>, out: seq<Event>, h: Held, model: Model)
    requires EndsHeld(out, h, model) && forall e :: e in quiet ==> !e.MessageDelta?
    ensures EndsHeld(quiet + out, h, model)
  {
    assert forall i :: 0 <= i < |quiet| ==> quiet[i] in quiet;
  }

  lemma HopHolds(server: Server, orig: Body, entry: Entry, hasNext: bool, link: Link)
    ensures var r := Hop(server, orig, entry, hasNext, link);
      r.Ends? && r.ending == Degraded ==>
        && !hasNext && Try(server, orig, entry, link).verdict.Failure?
        && EndsHeld(r.out, Held(link.details, link.usage, link.transformations), entry.model)
  {
    hide Try, Consume;
  }

  lemma HopDegrades(server: Server, orig: Body, a: HopOutcome, entry: Entry, hasNext: bool, link: Link)
    requires a.refused.Some? && InFlight(server, orig, a, link)
    ensures var r := Hop(server, orig, entry, hasNext, link);
      r.Ends? && r.ending == Degraded ==>
        !hasNext && EndsHeld(r.out, CreditAfter(server, orig, a, r.sent).held, entry.model)
  {
    var t := Try(server, orig, entry, link);
    var turn := TryTurn(server, orig, entry, link, CreditAfter(server, orig, a, link.sent));
    HopHolds(server, orig, entry, hasNext, link);
    HopLeads(server, orig, entry, hasNext, link);
    hide Hop, Try, Consume, TurnOf, Carried, CreditAfter, EndsHeld, NextLink;
    LastOfTurn(server, orig, a, entry, link.sent, turn);
  }

  lemma {:induction false} ChainDegrades(server: Server, orig: Body, a: HopOutcome, fallbacks: seq<Entry>, hop: nat,
                                         link: Link)
    requires Honest(server) && a.refused.Some? && hop < |fallbacks| && InFlight(server, orig, a, link)
    ensures var r := Chain(server, orig, fallbacks, hop, link);
      r.ending == Degraded ==>
        EndsHeld(r.out, CreditAfter(server, orig, a, r.sent).held, fallbacks[|fallbacks| - 1].model)
    decreases |fallbacks| - hop
  {
    ChainNext(server, orig, fallbacks, hop, link);
    hide Hop, Chain, InFlight, Honest, EndsHeld, CreditAfter;
    var entry, hasNext := fallbacks[hop], hop + 1 < |fallbacks|;
    HopReported(server, orig, a, entry, hasNext, link);
    HopDegrades(server, orig, a, entry, hasNext, link);
    var r := Hop(server, orig, entry, hasNext, link);
    if r.Goes? {
      ChainDegrades(server, orig, a, fallbacks, hop + 1, r.link);
      var rest := Chain(server, orig, fallbacks, hop + 1, r.link);
      if rest.ending == Degraded {
        QuietThenHeld(r.out, rest.out, CreditAfter(server, orig, a, rest.sent).held,
                      fallbacks[|fallbacks| - 1].model);
      }
    }
  }

  /**
   When every request behind the last refusal fails, that refusal is surfaced: the only message_delta is the one
   of the stream refused last, verbatim but for the last entry's model as the recommended one, its counters and,
   for a fallback's stream, its transformations filled up from the message_start that the client did not see.
   */
  lemma DegradedSurfaces(server: Server, orig: Body, a: seq<Event>, fallbacks: seq<Entry>, firstHop: nat)
    requires Honest(server) && WellFormed(a) && firstHop < |fallbacks|
    ensures var r := Spliced(server, orig, a, fallbacks, firstHop);
      r.ending == Degraded ==>
        Surfaces(r.out, LastRefused(server, a, r.sent), RefusalsIn(server, r.sent) > 0,
                 fallbacks[|fallbacks| - 1].model)
  {
    var o := Reading(a);
    if o.refused.Some? {
      ConsumeForm(a, Before, NewHop(0), true, None);
      NoDeltaYet(Before, o.out);
      hide Chain, CreditAfter, EndsHeld, Said, Consume;
      var link := FirstLink(o);
      FirstInFlight(server, orig, o);
      ChainDegrades(server, orig, o, fallbacks, firstHop, link);
      var rest := Chain(server, orig, fallbacks, firstHop, link);
      if rest.ending == Degraded {
        var h, model := CreditAfter(server, orig, o, rest.sent).held, fallbacks[|fallbacks| - 1].model;
        QuietThenHeld(o.out, rest.out, h, model);
        HeldSaid(server, orig, a, rest.sent);
        SaidSurfaces(o.out + rest.out, h, LastRefused(server, a, rest.sent), RefusalsIn(server, rest.sent) > 0, model);
      }
    }
  }
}
