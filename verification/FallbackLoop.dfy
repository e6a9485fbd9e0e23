/**
 The other half of the refusal-fallback middleware: without streaming, a refused request is sent
 again down the chain, and the message that is served at last opens with one seam per model boundary.
 */
module FallbackLoop {
  import opened Options
  import opened MessageEvents
  import opened FallbackSplice

  /** What parsing a response gives; an odd message has no list for its content. */
  datatype Parsed = NotAMessage | Odd(message: Message) | Proper(message: Message)

  /** What lies outside: the server, how its replies parse, and how an entry patches the fields carried along unread. */
  datatype Outside = Outside(server: Server, parse: Reply -> Parsed, patchRest: (nat, nat) -> nat)

  predicate Refuses(p: Parsed) { !p.NotAMessage? && p.message.stop.Some? && p.message.stop.value.Refusal? }

  function ApplyFallbackPatch(body: Body, entry: Entry, env: Outside): Body {
    Body(entry.model,
         PatchField(body.speed, entry.speed),
         if entry.thinking == Keep && body.thinking == Some(BetweenTools) then Some(Disabled)
         else PatchField(body.thinking, entry.thinking),
         body.token, body.messages, env.patchRest(body.rest, entry.others))
  }

  /** The request of one hop: the original patched, with the token of the refusal before it if that has one. */
  function HopRequest(body: Body, entry: Entry, refusal: Stop, env: Outside): Body {
    var patched := ApplyFallbackPatch(body, entry, env);
    if HasToken(refusal) then patched.(token := Some(CreditToken(refusal.details.value.token.value, true))) else patched
  }

  function Category(refusal: Stop): Option<string> {
    if refusal.Refusal? && refusal.details.Some? then refusal.details.value.category else None
  }

  /**
   Where the loop stands. For the record: `refused` has the refusals it has read, `pins` the entries it has
   pinned, and `starts` how much had been sent before each of them was tried.
   */
  datatype Progress = Progress(index: int, reply: Reply, requested: Model, seams: seq<Block>,
                               refused: seq<Stop>, pins: seq<int>, starts: seq<nat>, sent: seq<Body>)

  datatype Outcome = Thrown(abort: bool) | Verbatim(reply: Reply) | Relabelled(message: Message)

  predicate GoesOn(p: Progress, fallbacks: seq<Entry>, env: Outside) {
    p.index < |fallbacks| - 1 && p.reply.Http? && Refuses(env.parse(p.reply))
  }

  /** A first response that is not a success is returned before the loop. */
  predicate Enters(p: Progress) { p.reply.Http? ==> Ok(p.reply) }

  function HopOn(p: Progress, body: Body, fallbacks: seq<Entry>, env: Outside): Progress
    requires -1 <= p.index && GoesOn(p, fallbacks, env)
  {
    var refusal := env.parse(p.reply).message.stop.value;
    var entry := fallbacks[p.index + 1];
    var s := Dispatch(env.server, p.sent, entry, HopRequest(body, entry, refusal, env));
    Progress(p.index + 1, s.reply, entry.model, p.seams + [SeamBlock(p.requested, entry.model, Category(refusal))],
             p.refused + [refusal], p.pins + [p.index + 1], p.starts + [|p.sent|], s.sent)
  }

  function HopAll(p: Progress, body: Body, fallbacks: seq<Entry>, env: Outside): Progress
    requires -1 <= p.index
    decreases |fallbacks| - p.index
  {
    if GoesOn(p, fallbacks, env) then HopAll(HopOn(p, body, fallbacks, env), body, fallbacks, env) else p
  }

  function Looped(first: Progress, body: Body, fallbacks: seq<Entry>, env: Outside): Progress
    requires -1 <= first.index
  {
    if Enters(first) then HopAll(first, body, fallbacks, env) else first
  }

  function Concluded(p: Progress, env: Outside): Outcome {
    if p.reply.Threw? then Thrown(p.reply.abort)
    else if p.seams == [] then Verbatim(p.reply)
    else
      var served := env.parse(p.reply);
      if !served.Proper? || Refuses(served) then Verbatim(p.reply)
      else Relabelled(served.message.(content := p.seams + served.message.content))
  }

  /** From the reply to the first request, made at `startIndex` (-1 for the original model), to what the caller gets. */
  method RunLoop(first: Progress, body: Body, fallbacks: seq<Entry>, env: Outside)
    returns (p: Progress, outcome: Outcome)
    requires -1 <= first.index && first.seams == []
    ensures p == Looped(first, body, fallbacks, env) && outcome == Concluded(p, env)
  {
    p := first;
    if p.reply.Http? && !Ok(p.reply) {
      return p, Verbatim(p.reply);
    }
    while p.index < |fallbacks| - 1
      invariant -1 <= p.index && HopAll(p, body, fallbacks, env) == HopAll(first, body, fallbacks, env)
      decreases |fallbacks| - p.index
    {
      if p.reply.Threw? {
        return p, Thrown(p.reply.abort);
      }
      var message := env.parse(p.reply);
      if !Refuses(message) {
        break;
      }
      var refusal := message.message.stop.value;
      var index := p.index + 1;
      var entry := fallbacks[index];
      var seam := SeamBlock(p.requested, entry.model, Category(refusal));
      var s := SendHop(env.server, p.sent, entry, HopRequest(body, entry, refusal, env));
      p := Progress(index, s.reply, entry.model, p.seams + [seam], p.refused + [refusal], p.pins + [index],
                    p.starts + [|p.sent|], s.sent);
    }
    if p.reply.Threw? {
      return p, Thrown(p.reply.abort);
    }
    if p.seams == [] {
      return p, Verbatim(p.reply);
    }
    var served := env.parse(p.reply);
    if !served.Proper? || Refuses(served) {
      return p, Verbatim(p.reply);
    }
    outcome := Relabelled(served.message.(content := p.seams + served.message.content));
  }

  // ----- what every run comes to -----

  /** The model asked before the `k`-th boundary. */
  function Asked(first: Progress, fallbacks: seq<Entry>, k: nat): Model
    requires -1 <= first.index && first.index + k < |fallbacks|
  {
    if k == 0 then first.requested else fallbacks[first.index + k].model
  }

  /** A message, odd or not, whose stop reason is a refusal. */
  predicate SaysRefusal(p: Parsed) {
    match p
    case Odd(Message(_, _, _, Some(Refusal(_)), _)) => true
    case Proper(Message(_, _, _, Some(Refusal(_)), _)) => true
    case _ => false
  }

  /** The category that a refusal names, if it has details. */
  function CategoryOf(refusal: Stop): Option<string> {
    match refusal
    case Refusal(Some(details)) => details.category
    case _ => None
  }

  /** One seam, one pin and one recorded refusal per hop, in order, each boundary starting where the last one led. */
  predicate Chained(first: Progress, p: Progress, fallbacks: seq<Entry>)
    requires -1 <= first.index
  {
    && first.index <= p.index && (first.index < |fallbacks| ==> p.index < |fallbacks|)
    && |p.seams| == |p.pins| == |p.refused| == p.index - first.index
    && (forall k :: 0 <= k < |p.pins| ==> p.pins[k] == first.index + 1 + k)
    && (first.index < |fallbacks| ==>
         && p.requested == Asked(first, fallbacks, p.index - first.index)
         && forall k :: 0 <= k < |p.seams| ==>
              p.seams[k] == EMPTY_BLOCK.(kind := FallbackBlock,
                                         seam := Some(Seam(Asked(first, fallbacks, k), Asked(first, fallbacks, k + 1),
                                                           CategoryOf(p.refused[k])))))
    && |first.sent| <= |p.sent| <= |first.sent| + 2 * (p.index - first.index)
  }

  lemma HopChained(first: Progress, p: Progress, body: Body, fallbacks: seq<Entry>, env: Outside)
    requires -1 <= first.index < |fallbacks| && Chained(first, p, fallbacks) && GoesOn(p, fallbacks, env)
    ensures Chained(first, HopOn(p, body, fallbacks, env), fallbacks)
  {
  }

  lemma {:induction false} HopsChained(first: Progress, p: Progress, body: Body, fallbacks: seq<Entry>, env: Outside)
    requires -1 <= first.index < |fallbacks| && Chained(first, p, fallbacks)
    ensures var end := HopAll(p, body, fallbacks, env);
      Chained(first, end, fallbacks) && !GoesOn(end, fallbacks, env)
    decreases |fallbacks| - p.index
  {
    if GoesOn(p, fallbacks, env) {
      HopChained(first, p, body, fallbacks, env);
      HopsChained(first, HopOn(p, body, fallbacks, env), body, fallbacks, env);
    }
  }

  /** A loop that has just begun. */
  predicate Begins(p: Progress) { p.seams == [] && p.refused == [] && p.pins == [] && p.starts == [] }

  /**
   Exactly one seam per hop, each one's `to` the next one's `from`, put in front of the content of a
   message that is not a refusal; anything else is returned as it came, and a refusal in a first response
   that succeeded only from the last entry of the chain.
   */
  lemma OneSeamPerHop(first: Progress, body: Body, fallbacks: seq<Entry>, env: Outside)
    requires -1 <= first.index < |fallbacks| && Begins(first)
    ensures var end := Looped(first, body, fallbacks, env);
      var outcome := Concluded(end, env);
      && Chained(first, end, fallbacks)
      && (!Enters(first) ==> end == first && outcome == Verbatim(first.reply))
      && (outcome.Relabelled? <==> end.index > first.index && end.reply.Http? && env.parse(end.reply).Proper?
                                   && !SaysRefusal(env.parse(end.reply)))
      && (outcome.Relabelled? ==> outcome.message.content == end.seams + env.parse(end.reply).message.content)
      && (outcome.Verbatim? ==> outcome.reply == end.reply)
      && (outcome.Verbatim? && Enters(first) && SaysRefusal(env.parse(end.reply)) ==> end.index == |fallbacks| - 1)
  {
    if Enters(first) { HopsChained(first, first, body, fallbacks, env); }
  }

  // ----- what is sent -----

  /** A field that an entry sets, unsets or leaves alone. */
  predicate Patched<T(==)>(now: Option<T>, was: Option<T>, patch: Patch<T>) {
    match patch
    case Set(v) => now == Some(v)
    case Unset => now == None
    case Keep => now == was
  }

  /** The credit token of a refusal, if it has one. */
  function TokenOf(refusal: Stop): Option<string> {
    match refusal
    case Refusal(Some(details)) =>
      if details.token.Some? && |details.token.value| > 0 then details.token else None
    case _ => None
  }

  /**
   `r` is the original body as the entry patches it: its model, its speed and thinking where it sets or unsets
   them (thinking between tools is disabled where it does not), the token of `refusal` if it has one, and the
   original's messages. `slowed` is whether the speed borrowed from the original was dropped.
   */
  predicate Patches(r: Body, body: Body, entry: Entry, refusal: Stop, slowed: bool, env: Outside) {
    && r.model == entry.model && r.messages == body.messages && r.rest == env.patchRest(body.rest, entry.others)
    && (if slowed then r.speed == None else Patched(r.speed, body.speed, entry.speed))
    && (if entry.thinking == Keep && body.thinking == Some(BetweenTools) then r.thinking == Some(Disabled)
        else Patched(r.thinking, body.thinking, entry.thinking))
    && r.token == (if TokenOf(refusal).Some? then Some(CreditToken(TokenOf(refusal).value, true)) else body.token)
  }

  /** A reply that has a fast request sent again without its speed. */
  predicate Slows(reply: Reply, body: Body, entry: Entry) {
    reply.Http? && (reply.status == 429 || reply.status == 529) && entry.speed == Keep && body.speed == Some(Fast)
  }

  /** Where the requests of the `k`-th hop end in the log. */
  function HopEnds(p: Progress, k: nat): nat
    requires k < |p.starts|
  {
    if k + 1 < |p.starts| then p.starts[k + 1] else |p.sent|
  }

  /** The reply that the `k`-th hop was made for: the first one, or the one to the last request before it. */
  function ReadBefore(first: Progress, p: Progress, k: nat, env: Outside): Reply
    requires k < |p.starts| && p.starts[k] <= |p.sent|
  {
    if k == 0 then first.reply else env.server(p.sent[..p.starts[k]])
  }

  /** `refusal` is what `reply` says. */
  predicate Reads(reply: Reply, refusal: Stop, env: Outside) {
    reply.Http? && SaysRefusal(env.parse(reply)) && refusal == env.parse(reply).message.stop.value
  }

  /**
   The `k`-th hop: one request right behind the ones before, patching the original for the refusal just read,
   and exactly when the reply to it calls for that, a second without the speed.
   */
  predicate HopSends(first: Progress, p: Progress, k: nat, body: Body, fallbacks: seq<Entry>, env: Outside) {
    && k < |p.starts| && k < |p.pins| && k < |p.refused| && 0 <= p.pins[k] < |fallbacks|
    && (k == 0 ==> p.starts[k] == |first.sent|)
    && p.starts[k] < HopEnds(p, k) <= |p.sent|
    && Reads(ReadBefore(first, p, k, env), p.refused[k], env)
    && var entry, n := fallbacks[p.pins[k]], p.starts[k];
       && Patches(p.sent[n], body, entry, p.refused[k], false, env)
       && (if Slows(env.server(p.sent[..n + 1]), body, entry) then
             HopEnds(p, k) == n + 2 && Patches(p.sent[n + 1], body, entry, p.refused[k], true, env)
           else HopEnds(p, k) == n + 1)
  }

  /** Every request after the first one's belongs to a hop, and the reply held is the one to the last of them. */
  predicate AllPatch(first: Progress, p: Progress, body: Body, fallbacks: seq<Entry>, env: Outside) {
    && |p.starts| == |p.pins| == |p.refused|
    && (forall k :: 0 <= k < |p.starts| ==> HopSends(first, p, k, body, fallbacks, env))
    && (if p.starts == [] then p.sent == first.sent && p.reply == first.reply else p.reply == env.server(p.sent))
  }

  lemma DispatchPatches(sent: seq<Body>, body: Body, entry: Entry, refusal: Stop, env: Outside)
    ensures var d := Dispatch(env.server, sent, entry, HopRequest(body, entry, refusal, env));
      && |sent| < |d.sent| && d.sent[..|sent|] == sent && d.reply == env.server(d.sent)
      && Patches(d.sent[|sent|], body, entry, refusal, false, env)
      && (if Slows(env.server(d.sent[..|sent| + 1]), body, entry) then
            |d.sent| == |sent| + 2 && Patches(d.sent[|sent| + 1], body, entry, refusal, true, env)
          else |d.sent| == |sent| + 1)
  {
    var r := HopRequest(body, entry, refusal, env);
    var d := Dispatch(env.server, sent, entry, r);
    assert d.sent[..|sent| + 1] == sent + [r];
    assert entry.speed == Keep ==> r.speed == body.speed;
  }

  lemma HopPatches(first: Progress, p: Progress, body: Body, fallbacks: seq<Entry>, env: Outside)
    requires -1 <= p.index && GoesOn(p, fallbacks, env) && AllPatch(first, p, body, fallbacks, env)
    ensures AllPatch(first, HopOn(p, body, fallbacks, env), body, fallbacks, env)
  {
    var n, last := HopOn(p, body, fallbacks, env), |p.starts|;
    var refusal := env.parse(p.reply).message.stop.value;
    DispatchPatches(p.sent, body, fallbacks[p.index + 1], refusal, env);
    hide Dispatch, Patches, HopRequest, Slows;
    forall k | 0 <= k < |n.starts|
      ensures HopSends(first, n, k, body, fallbacks, env)
    {
      if k < last {
        assert HopSends(first, p, k, body, fallbacks, env);
        assert n.starts[k] == p.starts[k] && n.pins[k] == p.pins[k] && n.refused[k] == p.refused[k];
        assert HopEnds(n, k) == HopEnds(p, k);
        assert n.sent[..p.starts[k]] == p.sent[..p.starts[k]];
        assert n.sent[..p.starts[k] + 1] == p.sent[..p.starts[k] + 1];
        assert forall i :: 0 <= i < |p.sent| ==> n.sent[i] == n.sent[..|p.sent|][i];
      } else {
        assert n.starts[k] == |p.sent| && n.pins[k] == p.index + 1 && n.refused[k] == refusal;
        assert n.sent[..|p.sent|] == p.sent;
      }
    }
  }

  lemma {:induction false} HopsPatch(first: Progress, p: Progress, body: Body, fallbacks: seq<Entry>, env: Outside)
    requires -1 <= p.index && AllPatch(first, p, body, fallbacks, env)
    ensures AllPatch(first, HopAll(p, body, fallbacks, env), body, fallbacks, env)
    decreases |fallbacks| - p.index
  {
    if GoesOn(p, fallbacks, env) {
      HopPatches(first, p, body, fallbacks, env);
      HopsPatch(first, HopOn(p, body, fallbacks, env), body, fallbacks, env);
    }
  }

  /**
   Over the whole loop every hop sends the original body patched by its own entry, with the token of the
   refusal just read.
   */
  lemma EveryHopPatches(first: Progress, body: Body, fallbacks: seq<Entry>, env: Outside)
    requires -1 <= first.index && Begins(first)
    ensures AllPatch(first, Looped(first, body, fallbacks, env), body, fallbacks, env)
  {
    if Enters(first) { HopsPatch(first, first, body, fallbacks, env); }
  }
}
