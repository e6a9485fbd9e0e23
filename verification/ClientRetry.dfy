/**
 One call of the client: attempts, the delays between them, the single refresh of a token after a
 401, and the abort listeners that the attempts leave behind.
 */
module ClientRetry {
  import opened Options

  // ----- the world a call meets -----

  /** A number as `parseFloat` or a date gives it. */
  datatype Number = NotANumber | Infinite | Finite(value: real)

  /** A `retry-after` header: its number, and the date it may be instead, as an offset in milliseconds. */
  datatype RetryAfter = RetryAfter(seconds: Number, dateOffset: Number)

  datatype Headers = Headers(shouldRetry: Option<string>, afterMs: Option<Number>, after: Option<RetryAfter>)

  const NO_HEADERS := Headers(None, None, None)

  /**
   What an attempt comes to: the caller has aborted before it or during it, the request fails in a way
   that may be retried or not, or a response arrives.
   */
  datatype Reply =
    | AbortedBefore
    | AbortedDuring
    | Broken(retryable: bool)
    | Response(status: nat, headers: Headers)

  predicate Ok(r: Reply) { r.Response? && 200 <= r.status <= 299 }

  /** `reply(k)` and `random(k)` are what the `k`-th attempt and the jitter after it meet. */
  datatype World = World(reply: nat -> Reply, random: nat -> real, bearer: bool)

  /** Chance lies between 0 and 1; 1 itself is let in, since what is computed from a chance just below it may round. */
  ghost predicate Fair(w: World) { forall k :: 0.0 <= w.random(k) <= 1.0 }

  datatype Ending = Succeeded | UserAbort | Rejected

  /** What a call does: the retry counts it sends, the delays it takes, refreshes, and attempts still listened for. */
  datatype Log = Log(attempts: seq<nat>, sleeps: seq<real>, refreshes: nat, listening: set<nat>, ending: Ending)

  // ----- delays -----

  const MAX_TIMER: real := 2147483647.0

  function Power2(n: nat): real { if n == 0 then 1.0 else 2.0 * Power2(n - 1) }

  function DefaultDelay(numRetries: nat, random: real): real {
    var backoff := 0.5 * Power2(numRetries);
    (if backoff < 8.0 then backoff else 8.0) * (1.0 - random * 0.25) * 1000.0
  }

  function Scaled(n: Number): Number { if n.Finite? then Finite(n.value * 1000.0) else n }

  /** The delay the headers ask for: milliseconds first, and the other header when they give none or zero. */
  function Asked(h: Headers): Option<Number> {
    var ms := if h.afterMs.Some? && !h.afterMs.value.NotANumber? then h.afterMs else None;
    if h.after.Some? && (ms == None || ms == Some(Finite(0.0))) then
      if h.after.value.seconds.NotANumber? then Some(h.after.value.dateOffset) else Some(Scaled(h.after.value.seconds))
    else ms
  }

  predicate Usable(n: Option<Number>) { n.Some? && n.value.Finite? && 0.0 < n.value.value <= MAX_TIMER }

  function Delay(h: Headers, numRetries: nat, random: real): real {
    if Usable(Asked(h)) then Asked(h).value.value else DefaultDelay(numRetries, random)
  }

  // ----- the call -----

  predicate RetryableStatus(status: nat) { status == 408 || status == 409 || status == 429 || status >= 500 }

  predicate Refreshes(r: Reply, bearer: bool, refreshed: bool) {
    r.Response? && r.status == 401 && bearer && !refreshed
  }

  /** The policy for a response that is not a success. */
  predicate ShouldRetry(r: Reply, bearer: bool, refreshed: bool)
    requires r.Response?
  {
    if Refreshes(r, bearer, refreshed) then true
    else if r.headers.shouldRetry == Some("true") then true
    else if r.headers.shouldRetry == Some("false") then false
    else RetryableStatus(r.status)
  }

  /** Whether the `k`-th attempt is followed by another when there are retries left. */
  predicate Again(w: World, k: nat, refreshed: bool) {
    var r := w.reply(k);
    (r.Broken? && r.retryable) || (r.Response? && !Ok(r) && ShouldRetry(r, w.bearer, refreshed))
  }

  function HeadersOf(r: Reply): Headers { if r.Response? then r.headers else NO_HEADERS }

  /** One log after another; how the first ended no longer matters. */
  function Plus(a: Log, b: Log): Log {
    Log(a.attempts + b.attempts, a.sleeps + b.sleeps, a.refreshes + b.refreshes, a.listening + b.listening, b.ending)
  }

  lemma PlusAssoc(a: Log, b: Log, c: Log)
    ensures Plus(Plus(a, b), c) == Plus(a, Plus(b, c))
  {
    assert a.attempts + b.attempts + c.attempts == a.attempts + (b.attempts + c.attempts);
    assert a.sleeps + b.sleeps + c.sleeps == a.sleeps + (b.sleeps + c.sleeps);
    assert a.listening + b.listening + c.listening == a.listening + (b.listening + c.listening);
  }

  /** The rest of a call from its `k`-th attempt on, with `remaining` retries left. */
  function Rest(w: World, k: nat, remaining: nat, refreshed: bool): Log
    decreases remaining
  {
    var r := w.reply(k);
    var refreshes := if r.Response? && !Ok(r) && Refreshes(r, w.bearer, refreshed) then 1 else 0;
    if r.AbortedBefore? || r.AbortedDuring? then Log([k], [], 0, {}, UserAbort)
    else if Ok(r) then Log([k], [], 0, {k}, Succeeded)
    else if remaining > 0 && Again(w, k, refreshed) then
      Plus(Log([k], [Delay(HeadersOf(r), k, w.random(k))], refreshes, {}, Rejected),
           Rest(w, k + 1, remaining - 1, refreshed || refreshes == 1))
    else Log([k], [], refreshes, {}, Rejected)
  }

  function Called(w: World, maxRetries: nat, streamBody: bool): Log {
    Rest(w, 0, if streamBody then 0 else maxRetries, false)
  }

  /** The rest of a call, by what its first attempt meets. */
  lemma RestCases(w: World, k: nat, remaining: nat, refreshed: bool)
    ensures var r, rest := w.reply(k), Rest(w, k, remaining, refreshed);
      && (r.AbortedBefore? || r.AbortedDuring? ==> rest == Log([k], [], 0, {}, UserAbort))
      && (Ok(r) ==> rest == Log([k], [], 0, {k}, Succeeded))
      && (r.Broken? && r.retryable && remaining > 0 ==>
           rest == Plus(Log([k], [Delay(NO_HEADERS, k, w.random(k))], 0, {}, Rejected),
                        Rest(w, k + 1, remaining - 1, refreshed)))
      && (r.Broken? && !(r.retryable && remaining > 0) ==> rest == Log([k], [], 0, {}, Rejected))
      && (r.Response? && !Ok(r) ==>
           var now := Refreshes(r, w.bearer, refreshed);
           var refreshes := if now then 1 else 0;
           if ShouldRetry(r, w.bearer, refreshed) && remaining > 0 then
             rest == Plus(Log([k], [Delay(r.headers, k, w.random(k))], refreshes, {}, Rejected),
                          Rest(w, k + 1, remaining - 1, refreshed || now))
           else rest == Log([k], [], refreshes, {}, Rejected))
  {
    hide Delay, Plus, ShouldRetry, Refreshes;
  }

  lemma AddRemove(s: set<nat>, k: nat)
    requires k !in s
    ensures s + {k} - {k} == s
  {
  }

  /** An attempt, then its delay, then the rest. */
  lemma Retried(w: World, was: Log, k: nat, remaining: nat, refreshes: nat, h: Headers, refreshed: bool)
    requires remaining > 0
    ensures var rest := Rest(w, k + 1, remaining - 1, refreshed);
      var delay := Delay(h, k, w.random(k));
      Plus(Plus(was, Log([k], [], refreshes, {}, Rejected)), Plus(Log([], [delay], 0, {}, Rejected), rest))
      == Plus(was, Plus(Log([k], [delay], refreshes, {}, Rejected), rest))
  {
    hide Rest, Delay;
    var delay := Delay(h, k, w.random(k));
    var attempt, sleep := Log([k], [], refreshes, {}, Rejected), Log([], [delay], 0, {}, Rejected);
    var rest := Rest(w, k + 1, remaining - 1, refreshed);
    assert Plus(attempt, sleep) == Log([k], [delay], refreshes, {}, Rejected);
    hide Plus;
    PlusAssoc(was, attempt, Plus(sleep, rest));
    PlusAssoc(attempt, sleep, rest);
  }

  class Client {
    var attempts: seq<nat>
    var sleeps: seq<real>
    var refreshes: nat
    /** Attempts whose abort listener is still on the caller's signal. */
    var listening: set<nat>
    var didRefreshFor401: bool

    constructor ()
      ensures attempts == [] && sleeps == [] && refreshes == 0 && listening == {} && !didRefreshFor401
    {
      attempts, sleeps, refreshes, listening, didRefreshFor401 := [], [], 0, {}, false;
    }

    /** What has been done so far. */
    ghost function SoFar(ending: Ending): Log
      reads this
    {
      Log(attempts, sleeps, refreshes, listening, ending)
    }

    method CheckRetry(w: World, r: Reply) returns (again: bool)
      requires r.Response?
      modifies this`refreshes, this`didRefreshFor401
      ensures again == ShouldRetry(r, w.bearer, old(didRefreshFor401))
      ensures refreshes == old(refreshes) + (if Refreshes(r, w.bearer, old(didRefreshFor401)) then 1 else 0)
      ensures didRefreshFor401 == (old(didRefreshFor401) || Refreshes(r, w.bearer, old(didRefreshFor401)))
    {
      if r.status == 401 && w.bearer && !didRefreshFor401 {
        didRefreshFor401 := true;
        refreshes := refreshes + 1;
        return true;
      }
      if r.headers.shouldRetry == Some("true") {
        return true;
      }
      if r.headers.shouldRetry == Some("false") {
        return false;
      }
      again := r.status == 408 || r.status == 409 || r.status == 429 || r.status >= 500;
    }

    /** A call from the top: a body that is a stream cannot be sent again. */
    method Request(w: World, maxRetries: nat, streamBody: bool) returns (ending: Ending)
      requires listening == {}
      modifies this
      ensures var log := Called(w, maxRetries, streamBody); SoFar(ending) == Plus(old(SoFar(Rejected)), log)
    {
      var allowed := if streamBody then 0 else maxRetries;
      didRefreshFor401 := false;
      ending := MakeRequest(w, allowed, allowed);
    }

    method MakeRequest(w: World, maxRetries: nat, retriesRemaining: nat) returns (ending: Ending)
      requires retriesRemaining <= maxRetries && forall j :: j in listening ==> j < maxRetries - retriesRemaining
      modifies this
      ensures var rest := Rest(w, maxRetries - retriesRemaining, retriesRemaining, old(didRefreshFor401));
        SoFar(ending) == Plus(old(SoFar(Rejected)), rest)
      decreases retriesRemaining, 2
    {
      RestCases(w, maxRetries - retriesRemaining, retriesRemaining, didRefreshFor401);
      hide Delay, Rest, ShouldRetry, Refreshes, Ok;
      ghost var was := SoFar(Rejected);
      var retryCount := maxRetries - retriesRemaining;
      attempts := attempts + [retryCount];
      var response := w.reply(retryCount);
      if response.AbortedBefore? {
        return UserAbort;
      }
      AddRemove(listening, retryCount);
      assert SoFar(Rejected) == Plus(was, Log([retryCount], [], 0, {}, Rejected));
      assert SoFar(UserAbort) == Plus(was, Log([retryCount], [], 0, {}, UserAbort));
      listening := listening + {retryCount};
      match response
      case AbortedDuring =>
        hide Plus;
        listening := listening - {retryCount};
        ending := UserAbort;
      case Broken(retryable) =>
        hide Plus;
        listening := listening - {retryCount};
        ending := AfterFailure(w, maxRetries, retriesRemaining, retryable, NO_HEADERS, was, 0);
      case Response(status, headers) =>
        if Ok(response) {
          return Succeeded;
        }
        var shouldRetry := CheckRetry(w, response);
        listening := listening - {retryCount};
        assert SoFar(Rejected) == Plus(was, Log([retryCount], [], refreshes - was.refreshes, {}, Rejected));
        ending := AfterFailure(w, maxRetries, retriesRemaining, shouldRetry, headers, was, refreshes - was.refreshes);
    }

    /** A failed attempt: another one if there are retries left, and otherwise the end. */
    method AfterFailure(w: World, maxRetries: nat, retriesRemaining: nat, again: bool, headers: Headers,
                        ghost was: Log, ghost newRefreshes: nat)
      returns (ending: Ending)
      requires retriesRemaining <= maxRetries && forall j :: j in listening ==> j <= maxRetries - retriesRemaining
      requires SoFar(Rejected) == Plus(was, Log([maxRetries - retriesRemaining], [], newRefreshes, {}, Rejected))
      modifies this
      ensures var k := maxRetries - retriesRemaining;
        SoFar(ending) == Plus(was,
          if again && retriesRemaining > 0 then
            Plus(Log([k], [Delay(headers, k, w.random(k))], newRefreshes, {}, Rejected),
                 Rest(w, k + 1, retriesRemaining - 1, old(didRefreshFor401)))
          else Log([k], [], newRefreshes, {}, Rejected))
      decreases retriesRemaining, 1
    {
      hide Plus, Rest, Delay;
      if retriesRemaining > 0 && again {
        Retried(w, was, maxRetries - retriesRemaining, retriesRemaining, newRefreshes, headers, didRefreshFor401);
        ending := RetryRequest(w, maxRetries, retriesRemaining, headers);
      } else {
        ending := Rejected;
      }
    }

    method RetryRequest(w: World, maxRetries: nat, retriesRemaining: nat, headers: Headers) returns (ending: Ending)
      requires 0 < retriesRemaining <= maxRetries && forall j :: j in listening ==> j <= maxRetries - retriesRemaining
      modifies this
      ensures var k := maxRetries - retriesRemaining;
        var rest := Rest(w, k + 1, retriesRemaining - 1, old(didRefreshFor401));
        SoFar(ending) == Plus(old(SoFar(Rejected)),
                              Plus(Log([], [Delay(headers, k, w.random(k))], 0, {}, Rejected), rest))
      decreases retriesRemaining, 0
    {
      hide Rest, Delay;
      var k := maxRetries - retriesRemaining;
      var timeoutMillis := TimeoutMillis(headers, k, w.random(k));
      ghost var was := SoFar(Rejected);
      sleeps := sleeps + [timeoutMillis];
      ghost var slept := Log([], [timeoutMillis], 0, {}, Rejected);
      assert SoFar(Rejected) == Plus(was, slept);
      hide Plus;
      ending := MakeRequest(w, maxRetries, retriesRemaining - 1);
      PlusAssoc(was, slept, Rest(w, k + 1, retriesRemaining - 1, old(didRefreshFor401)));
    }
  }

  method TimeoutMillis(headers: Headers, k: nat, random: real) returns (delay: real)
    ensures delay == Delay(headers, k, random)
  {
    var timeoutMillis: Option<Number> := None;
    if headers.afterMs.Some? && !headers.afterMs.value.NotANumber? {
      timeoutMillis := headers.afterMs;
    }
    if headers.after.Some? && (timeoutMillis == None || timeoutMillis == Some(Finite(0.0))) {
      if !headers.after.value.seconds.NotANumber? {
        timeoutMillis := Some(Scaled(headers.after.value.seconds));
      } else {
        timeoutMillis := Some(headers.after.value.dateOffset);
      }
    }
    if Usable(timeoutMillis) {
      return timeoutMillis.value.value;
    }
    delay := DefaultDelay(k, random);
  }

  // ----- what every call comes to -----

  lemma {:induction false} PowerAtLeastOne(n: nat)
    ensures Power2(n) >= 1.0
  {
    if n > 0 { PowerAtLeastOne(n - 1); }
  }

  /** With jitter the default delay stays between three eighths of a second and eight seconds. */
  lemma DefaultInRange(numRetries: nat, random: real)
    requires 0.0 <= random <= 1.0
    ensures 375.0 <= DefaultDelay(numRetries, random) <= 8000.0
  {
    PowerAtLeastOne(numRetries);
    var backoff := 0.5 * Power2(numRetries);
    var capped := if backoff < 8.0 then backoff else 8.0;
    var jitter := 1.0 - random * 0.25;
    assert 0.5 <= capped <= 8.0 && 0.75 <= jitter <= 1.0;
    Product(capped, jitter);
    assert DefaultDelay(numRetries, random) == capped * jitter * 1000.0;
  }

  lemma Product(capped: real, jitter: real)
    requires 0.5 <= capped <= 8.0 && 0.75 <= jitter <= 1.0
    ensures 0.375 <= capped * jitter <= 8.0
  {
    assert capped * jitter >= 0.5 * jitter;
    assert capped * jitter <= capped * 1.0;
  }

  // ----- the policy, case by case -----

  /** What a timer can take. */
  function ForTimer(millis: real): Option<real> { if 0.0 < millis <= 2147483647.0 then Some(millis) else None }

  /** The delay that `retry-after` asks for: seconds, or the time until a date. */
  function WishedAfter(after: RetryAfter): Option<real> {
    match after
    case RetryAfter(Finite(seconds), _) => ForTimer(seconds * 1000.0)
    case RetryAfter(NotANumber, Finite(millis)) => ForTimer(millis)
    case _ => None
  }

  /** The delay in milliseconds that the headers ask for, if a timer can take it; `retry-after-ms` goes first. */
  function Wished(h: Headers): Option<real> {
    match h.afterMs
    case Some(Infinite) => None
    case Some(Finite(millis)) =>
      if millis != 0.0 then ForTimer(millis) else if h.after.Some? then WishedAfter(h.after.value) else None
    case _ => if h.after.Some? then WishedAfter(h.after.value) else None
  }

  /** The default doubles from half a second up to eight seconds. */
  function Backoff(k: nat): real {
    match k
    case 0 => 500.0
    case 1 => 1000.0
    case 2 => 2000.0
    case 3 => 4000.0
    case _ => 8000.0
  }

  /** The delay after the `k`-th attempt; chance takes off up to a quarter of the default. */
  function Wait(h: Headers, k: nat, random: real): real {
    if Wished(h).Some? then Wished(h).value else Backoff(k) - Backoff(k) * random / 4.0
  }

  predicate IsSuccess(r: Reply) { r.Response? && 200 <= r.status < 300 }

  /** A token that was sent and refused. */
  predicate Unauthorized(r: Reply, bearer: bool) { r.Response? && r.status == 401 && bearer }

  /**
   What is tried again: a broken connection that may be; a first refused token; and what the server says
   should be, or where it does not say, a timeout, a conflict, too many requests, or an internal error.
   */
  predicate TriedAgain(r: Reply, bearer: bool, refreshed: bool) {
    match r
    case Broken(retryable) => retryable
    case Response(status, headers) =>
      && !IsSuccess(r)
      && (|| (Unauthorized(r, bearer) && !refreshed)
          || headers.shouldRetry == Some("true")
          || (headers.shouldRetry != Some("false") && (status in {408, 409, 429} || status > 499)))
    case _ => false
  }

  function EndingOf(r: Reply): Ending {
    if IsSuccess(r) then Succeeded else if r.AbortedBefore? || r.AbortedDuring? then UserAbort else Rejected
  }

  lemma {:induction false} PowerAtLeastSixteen(n: nat)
    requires n >= 4
    ensures Power2(n) >= 16.0
  {
    if n == 4 {
      assert Power2(4) == 2.0 * (2.0 * (2.0 * (2.0 * 1.0)));
    } else {
      PowerAtLeastSixteen(n - 1);
    }
  }

  lemma DefaultIsBackoff(k: nat, random: real)
    ensures DefaultDelay(k, random) == Backoff(k) - Backoff(k) * random / 4.0
  {
    if k >= 4 {
      PowerAtLeastSixteen(k);
    } else {
      assert Power2(0) == 1.0 && Power2(1) == 2.0 && Power2(2) == 4.0 && Power2(3) == 8.0;
    }
  }

  lemma DelayIsWait(h: Headers, k: nat, random: real)
    ensures Delay(h, k, random) == Wait(h, k, random)
  {
    DefaultIsBackoff(k, random);
    hide DefaultDelay, Backoff;
  }

  lemma AgainIsTried(w: World, k: nat, refreshed: bool)
    ensures Again(w, k, refreshed) <==> TriedAgain(w.reply(k), w.bearer, refreshed)
    ensures Ok(w.reply(k)) <==> IsSuccess(w.reply(k))
  {
  }

  /** Every delay is one that a timer can take, and where the headers do not ask for one, from 375 to 8000. */
  lemma WaitInRange(h: Headers, k: nat, random: real)
    requires 0.0 <= random <= 1.0
    ensures 0.0 < Wait(h, k, random) <= MAX_TIMER
    ensures Wished(h).None? ==> 375.0 <= Wait(h, k, random) <= 8000.0
  {
    DefaultInRange(k, random);
    DefaultIsBackoff(k, random);
    hide DefaultDelay, Backoff;
  }

  // ----- every call -----

  /** Among the replies to the `n` attempts from `k` on there is a refused token. */
  predicate AnyUnauthorized(w: World, k: nat, n: nat) {
    exists j :: k <= j < k + n && Unauthorized(w.reply(j), w.bearer)
  }

  /** Whether the token has been refreshed by the time attempt `k + i` is answered. */
  predicate RefreshedBy(w: World, k: nat, i: nat, refreshed: bool) { refreshed || AnyUnauthorized(w, k, i) }

  predicate GoneOn(w: World, k: nat, i: nat, refreshed: bool) {
    TriedAgain(w.reply(k + i), w.bearer, RefreshedBy(w, k, i, refreshed))
  }

  /** The delay behind attempt `k + i`. */
  function WaitAt(w: World, k: nat, i: nat): real {
    Wait(HeadersOf(w.reply(k + i)), k + i, w.random(k + i))
  }

  /** What the rest of any call is: its attempts, what each of them leads to, and how it ends. */
  predicate Orderly(w: World, log: Log, k: nat, remaining: nat, refreshed: bool) {
    var n := |log.attempts|;
    && 1 <= n <= remaining + 1
    && (forall i :: 0 <= i < n ==> log.attempts[i] == k + i)
    && (forall i :: 0 <= i < n - 1 ==> GoneOn(w, k, i, refreshed))
    && (n == remaining + 1 || !GoneOn(w, k, n - 1, refreshed))
    && |log.sleeps| == n - 1 && (forall i :: 0 <= i < n - 1 ==> log.sleeps[i] == WaitAt(w, k, i))
    && log.refreshes == (if !refreshed && AnyUnauthorized(w, k, n) then 1 else 0)
    && log.ending == EndingOf(w.reply(k + n - 1))
    && log.listening == (if log.ending == Succeeded then {k + n - 1} else {})
  }

  lemma AnyUnauthorizedNext(w: World, k: nat, n: nat)
    ensures AnyUnauthorized(w, k, n + 1) <==> Unauthorized(w.reply(k), w.bearer) || AnyUnauthorized(w, k + 1, n)
    ensures !AnyUnauthorized(w, k, 0)
  {
    hide Unauthorized;
  }

  /** An attempt seen from the one before the rest. */
  lemma GoneOnNext(w: World, k: nat, i: nat, was: bool)
    ensures GoneOn(w, k, i + 1, was) <==> GoneOn(w, k + 1, i, was || Unauthorized(w.reply(k), w.bearer))
    ensures GoneOn(w, k, 0, was) <==> TriedAgain(w.reply(k), w.bearer, was)
    ensures WaitAt(w, k, i + 1) == WaitAt(w, k + 1, i)
  {
    hide TriedAgain, Unauthorized, Wait;
    AnyUnauthorizedNext(w, k, i);
    assert k + (i + 1) == k + 1 + i && k + 0 == k;
  }

  lemma OneMoreOrderly(w: World, rest: Log, k: nat, remaining: nat, was: bool)
    requires remaining > 0 && TriedAgain(w.reply(k), w.bearer, was)
    requires Orderly(w, rest, k + 1, remaining - 1, was || Unauthorized(w.reply(k), w.bearer))
    ensures var refreshes := if Unauthorized(w.reply(k), w.bearer) && !was then 1 else 0;
      Orderly(w, Plus(Log([k], [WaitAt(w, k, 0)], refreshes, {}, Rejected), rest), k, remaining, was)
  {
    hide TriedAgain, Unauthorized, AnyUnauthorized, GoneOn, WaitAt, EndingOf;
    var n := |rest.attempts|;
    var attempts, sleeps := [k] + rest.attempts, [WaitAt(w, k, 0)] + rest.sleeps;
    AnyUnauthorizedNext(w, k, n);
    GoneOnNext(w, k, n - 1, was);
    assert forall i :: 1 <= i < n + 1 ==> attempts[i] == rest.attempts[i - 1];
    forall i | 0 <= i < n
      ensures GoneOn(w, k, i, was) && sleeps[i] == WaitAt(w, k, i)
    {
      if i > 0 {
        GoneOnNext(w, k, i - 1, was);
        assert sleeps[i] == rest.sleeps[i - 1];
      } else {
        GoneOnNext(w, k, 0, was);
      }
    }
    assert k + (n + 1) - 1 == k + 1 + n - 1;
  }

  /** A single attempt. */
  lemma LastOrderly(w: World, k: nat, remaining: nat, was: bool, log: Log)
    requires remaining == 0 || !TriedAgain(w.reply(k), w.bearer, was)
    requires log.attempts == [k] && log.sleeps == [] && log.ending == EndingOf(w.reply(k))
    requires log.refreshes == (if Unauthorized(w.reply(k), w.bearer) && !was then 1 else 0)
    requires log.listening == (if log.ending == Succeeded then {k} else {})
    ensures Orderly(w, log, k, remaining, was)
  {
    hide TriedAgain, Unauthorized, EndingOf;
    AnyUnauthorizedNext(w, k, 0);
    AnyUnauthorizedNext(w, k + 1, 0);
    GoneOnNext(w, k, 0, was);
  }

  lemma {:induction false} RestOrderly(w: World, k: nat, remaining: nat, refreshed: bool)
    ensures Orderly(w, Rest(w, k, remaining, refreshed), k, remaining, refreshed)
    decreases remaining
  {
    var r := w.reply(k);
    AgainIsTried(w, k, refreshed);
    var now := Unauthorized(r, w.bearer);
    var refreshes := if now && !refreshed then 1 else 0;
    assert refreshes == (if r.Response? && !Ok(r) && Refreshes(r, w.bearer, refreshed) then 1 else 0);
    if !r.AbortedBefore? && !r.AbortedDuring? && !Ok(r) && remaining > 0 && Again(w, k, refreshed) {
      RestOrderly(w, k + 1, remaining - 1, refreshed || now);
      DelayIsWait(HeadersOf(r), k, w.random(k));
      assert WaitAt(w, k, 0) == Delay(HeadersOf(r), k, w.random(k));
      hide Orderly, Delay, WaitAt, TriedAgain, Unauthorized;
      OneMoreOrderly(w, Rest(w, k + 1, remaining - 1, refreshed || now), k, remaining, refreshed);
    } else {
      hide Orderly, Delay, Again;
      LastOrderly(w, k, remaining, refreshed, Rest(w, k, remaining, refreshed));
    }
  }

  /**
   Every call, whatever it meets: the `k`-th attempt is sent with retry count `k`; another one follows exactly
   when the reply is to be tried again and retries are left, none with a stream body; each delay is what the
   policy says, which a timer can take; the token is refreshed once, if at all; and only a successful attempt
   leaves its listener behind.
   */
  lemma CallOrderly(w: World, maxRetries: nat, streamBody: bool)
    ensures var log := Called(w, maxRetries, streamBody);
      && Orderly(w, log, 0, if streamBody then 0 else maxRetries, false)
      && (streamBody ==> log.attempts == [0])
      && (Fair(w) ==> forall i :: 0 <= i < |log.sleeps| ==> 0.0 < log.sleeps[i] <= MAX_TIMER)
  {
    RestOrderly(w, 0, if streamBody then 0 else maxRetries, false);
    var log := Called(w, maxRetries, streamBody);
    hide Called, Wait;
    if Fair(w) {
      forall i | 0 <= i < |log.sleeps|
        ensures 0.0 < log.sleeps[i] <= MAX_TIMER
      {
        WaitInRange(HeadersOf(w.reply(i)), i, w.random(i));
        assert log.sleeps[i] == WaitAt(w, 0, i);
      }
    }
  }
}
