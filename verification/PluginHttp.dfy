/**
 One outgoing plugin call: the rate gate, the request, and the two response interceptors
 that classify replies and retry. The collaborators' answers are given by number.
 */
module PluginHttp {
  const MAX_RETRIES: nat := 3

  const MAX_RETRY_AFTER_MS := 30000.0

  /** A Retry-After header, as Number and Date.parse read it; a date is given by the time left until it. */
  datatype Header = NoHeader | Seconds(seconds: real) | Date(msLeft: real) | Unreadable

  datatype Reply = Response(status: nat, retryAfter: Header) | NetworkFailure(retryableCode: bool)

  datatype Gate = Passes | AtCeiling | RedisError(retryableCode: bool)

  datatype Outcome = Ok(status: nat) | AuthError | RateLimitError | TransientError | PermanentError | TypeError

  function Backoff(attempt: nat): real {
    if attempt == 0 then 250.0 else if attempt == 1 then 1000.0 else 4000.0
  }

  function Least(a: real, b: real): real { if a <= b then a else b }

  function AtLeastZero(a: real): real { if a >= 0.0 then a else 0.0 }

  /** Never above the cap, so the comparison with the cap that follows it never holds. */
  function ParseRetryAfterMs(header: Header): (ms: real)
    ensures ms <= MAX_RETRY_AFTER_MS
  {
    match header
    case NoHeader => Backoff(0)
    case Seconds(s) => Least(s * 1000.0, MAX_RETRY_AFTER_MS)
    case Date(left) => AtLeastZero(Least(left, MAX_RETRY_AFTER_MS))
    case Unreadable => Backoff(0)
  }

  predicate Success(r: Reply) { r.Response? && 200 <= r.status < 400 }

  /** The replies after which a call is sent again while attempts are left. */
  predicate Retryable(r: Reply) {
    if r.NetworkFailure? then r.retryableCode else r.status == 429 || 500 <= r.status < 600
  }

  /** How long the call sleeps before it is sent again. */
  function Pause(r: Reply, attempt: nat): real {
    if r.Response? && r.status == 429 then AtLeastZero(ParseRetryAfterMs(r.retryAfter)) else Backoff(attempt)
  }

  /** The last interceptor passes rate-limit and auth errors on and wraps every other error. */
  function Wrapped(o: Outcome): Outcome {
    if o.Ok? || o == AuthError || o == RateLimitError then o else TransientError
  }

  /** What the first interceptor makes of a reply that is not sent again. */
  function Classified(status: nat): Outcome {
    if 200 <= status < 400 then Ok(status)
    else if status == 401 || status == 403 then AuthError
    else if status == 429 then RateLimitError
    else if 500 <= status < 600 then TransientError
    else PermanentError
  }

  /** What a call comes to: its outcome, how many requests were sent, and its sleeps. */
  datatype Trace = Trace(outcome: Outcome, sent: nat, sleeps: seq<real>)

  /** The call from the n-th request and gate check on. */
  function Run(reply: nat -> Reply, gate: nat -> Gate, n: nat): Trace
    requires n <= MAX_RETRIES
    decreases MAX_RETRIES - n
  {
    match gate(n)
    case AtCeiling => Trace(RateLimitError, 0, [])
    case RedisError(code) => if code then Trace(TypeError, 0, [Backoff(0)]) else Trace(TransientError, 0, [])
    case Passes =>
      var r := reply(n);
      if Success(r) then Trace(Ok(r.status), 1, [])
      else if Retryable(r) && n < MAX_RETRIES then
        var rest := Run(reply, gate, n + 1);
        Trace(if r.NetworkFailure? then rest.outcome else Wrapped(rest.outcome),
              rest.sent + 1, [Pause(r, n)] + rest.sleeps)
      else
        Trace(if r.NetworkFailure? then TransientError else Wrapped(Classified(r.status)), 1, [])
  }

  /** Run, case by case. */
  lemma RunUnfolds(reply: nat -> Reply, gate: nat -> Gate, n: nat)
    requires n <= MAX_RETRIES
    ensures gate(n) == AtCeiling ==> Run(reply, gate, n) == Trace(RateLimitError, 0, [])
    ensures gate(n) == RedisError(true) ==> Run(reply, gate, n) == Trace(TypeError, 0, [250.0])
    ensures gate(n) == RedisError(false) ==> Run(reply, gate, n) == Trace(TransientError, 0, [])
    ensures gate(n) == Passes && !(Retryable(reply(n)) && n < MAX_RETRIES) ==>
      Run(reply, gate, n)
        == Trace(if reply(n).NetworkFailure? then TransientError else Wrapped(Classified(reply(n).status)), 1, [])
    ensures gate(n) == Passes && Retryable(reply(n)) && n < MAX_RETRIES ==>
      var (t, rest) := (Run(reply, gate, n), Run(reply, gate, n + 1));
      && t.outcome == (if reply(n).NetworkFailure? then rest.outcome else Wrapped(rest.outcome))
      && t.sent == rest.sent + 1 && t.sleeps == [Pause(reply(n), n)] + rest.sleeps
  {
  }

  class PluginCall {
    const reply: nat -> Reply
    const gate: nat -> Gate
    var gateChecks: nat
    var sent: nat
    var sleeps: seq<real>

    constructor (reply: nat -> Reply, gate: nat -> Gate)
      ensures this.reply == reply && this.gate == gate && gateChecks == 0 && sent == 0 && sleeps == []
    {
      this.reply, this.gate := reply, gate;
      gateChecks, sent, sleeps := 0, 0, [];
    }

    method Sleep(ms: real)
      modifies this`sleeps
      ensures sleeps == old(sleeps) + [AtLeastZero(ms)]
    {
      sleeps := sleeps + [AtLeastZero(ms)];
    }

    /** The attempt number travels in the request's config; every attempt passes the gate again. */
    method Request(attempt: nat) returns (o: Outcome)
      requires attempt <= MAX_RETRIES && gateChecks == attempt && sent == attempt
      modifies this
      ensures var t := Run(reply, gate, attempt);
        o == t.outcome && sent == attempt + t.sent && sleeps == old(sleeps) + t.sleeps
      decreases MAX_RETRIES - attempt
    {
      hide Run, Least, ParseRetryAfterMs;
      RunUnfolds(reply, gate, attempt);
      var g := gate(gateChecks);
      gateChecks := gateChecks + 1;
      if g == AtCeiling {
        return RateLimitError;
      }
      if g.RedisError? {
        if g.retryableCode {
          // the error carries no request config, so setting the next attempt on it throws
          Sleep(Backoff(0));
          return TypeError;
        }
        return TransientError;
      }
      var r := reply(sent);
      sent := sent + 1;
      if r.NetworkFailure? {
        if r.retryableCode && attempt < MAX_RETRIES {
          Sleep(Backoff(attempt));
          o := Request(attempt + 1);
          return;
        }
        return TransientError;
      }
      o := Classify(r, attempt);
      o := Wrapped(o);
    }

    /** The first response interceptor. */
    method Classify(r: Reply, attempt: nat) returns (o: Outcome)
      requires r.Response? && attempt <= MAX_RETRIES && gateChecks == attempt + 1 && sent == attempt + 1
      modifies this
      ensures
        if Success(r) then o == Ok(r.status) && sent == old(sent) && sleeps == old(sleeps)
        else if Retryable(r) && attempt < MAX_RETRIES then
          var t := Run(reply, gate, attempt + 1);
          o == t.outcome && sent == old(sent) + t.sent && sleeps == old(sleeps) + ([Pause(r, attempt)] + t.sleeps)
        else
          && sent == old(sent) && sleeps == old(sleeps)
          && o == Classified(r.status)
      decreases MAX_RETRIES - attempt, 0
    {
      hide Run;
      if 200 <= r.status < 400 {
        return Ok(r.status);
      }
      if r.status == 401 || r.status == 403 {
        return AuthError;
      }
      if r.status == 429 {
        var retryAfterMs := ParseRetryAfterMs(r.retryAfter);
        if attempt >= MAX_RETRIES || retryAfterMs > MAX_RETRY_AFTER_MS {
          return RateLimitError;
        }
        Sleep(retryAfterMs);
        o := Request(attempt + 1);
        return;
      }
      if 500 <= r.status < 600 {
        if attempt >= MAX_RETRIES {
          return TransientError;
        }
        Sleep(Backoff(attempt));
        o := Request(attempt + 1);
        return;
      }
      return PermanentError;
    }
  }

  function Total(sleeps: seq<real>): real {
    if sleeps == [] then 0.0 else sleeps[0] + Total(sleeps[1..])
  }

  predicate GateCrashes(gate: nat -> Gate) {
    exists n: nat :: n <= MAX_RETRIES && gate(n) == RedisError(true)
  }

  lemma {:induction false} RunBounds(reply: nat -> Reply, gate: nat -> Gate, n: nat)
    requires n <= MAX_RETRIES
    ensures var t := Run(reply, gate, n);
      && t.sent <= MAX_RETRIES - n + 1
      && Total(t.sleeps) <= (MAX_RETRIES - n) as real * 30000.0 + (if GateCrashes(gate) then 250.0 else 0.0)
    decreases MAX_RETRIES - n
  {
    var t := Run(reply, gate, n);
    if gate(n) == Passes && !Success(reply(n)) && Retryable(reply(n)) && n < MAX_RETRIES {
      RunBounds(reply, gate, n + 1);
      assert t.sleeps[1..] == Run(reply, gate, n + 1).sleeps;
      assert Pause(reply(n), n) <= 30000.0;
    }
  }

  /**
   Whatever is answered, one call sends at most 4 requests and sleeps at most 90 seconds;
   the one exception is a Redis error that looks like a network error, which adds 250 ms.
   */
  lemma CallBounds(reply: nat -> Reply, gate: nat -> Gate)
    ensures Run(reply, gate, 0).sent <= 4
    ensures Total(Run(reply, gate, 0).sleeps) <= 90250.0
    ensures !GateCrashes(gate) ==> Total(Run(reply, gate, 0).sleeps) <= 90000.0
  {
    RunBounds(reply, gate, 0);
  }

  function AlwaysBusy(n: nat): Reply { Response(429, Seconds(3600.0)) }

  function AlwaysOpen(n: nat): Gate { Passes }

  /** Redis fails with a network code when the call is to be sent for the fourth time. */
  function FailsLast(n: nat): Gate { if n < MAX_RETRIES then Passes else RedisError(true) }

  lemma {:induction false} BusyRun(gate: nat -> Gate, n: nat)
    requires n <= MAX_RETRIES && forall k: nat :: k < MAX_RETRIES ==> gate(k) == Passes
    ensures var t, last := Run(AlwaysBusy, gate, n), Run(AlwaysBusy, gate, MAX_RETRIES);
      && t.sent == MAX_RETRIES - n + last.sent
      && Total(t.sleeps) == (MAX_RETRIES - n) as real * 30000.0 + Total(last.sleeps)
    decreases MAX_RETRIES - n
  {
    if n < MAX_RETRIES {
      BusyRun(gate, n + 1);
      var t, rest := Run(AlwaysBusy, gate, n), Run(AlwaysBusy, gate, n + 1);
      assert gate(n) == Passes;
      assert t.sleeps == [30000.0] + rest.sleeps;
      assert t.sleeps[1..] == rest.sleeps;
    }
  }

  /**
   All bounds are reached: by a server that always answers 429 and asks for a long wait,
   and with 250 ms more when Redis fails before the fourth request.
   */
  lemma BoundsReached()
    ensures !GateCrashes(AlwaysOpen)
    ensures Run(AlwaysBusy, AlwaysOpen, 0).sent == 4 && Total(Run(AlwaysBusy, AlwaysOpen, 0).sleeps) == 90000.0
    ensures Total(Run(AlwaysBusy, FailsLast, 0).sleeps) == 90250.0
  {
    BusyRun(AlwaysOpen, 0);
    BusyRun(FailsLast, 0);
    assert Run(AlwaysBusy, AlwaysOpen, MAX_RETRIES) == Trace(RateLimitError, 1, []);
    var last := Run(AlwaysBusy, FailsLast, MAX_RETRIES).sleeps;
    assert last == [250.0] && last[1..] == [];
  }

  /** The call is sent again after the n-th reply. */
  predicate GoesOn(reply: nat -> Reply, gate: nat -> Gate, n: nat) {
    gate(n) == Passes && !Success(reply(n)) && Retryable(reply(n))
  }

  lemma RunStep(reply: nat -> Reply, gate: nat -> Gate, n: nat)
    requires n <= MAX_RETRIES
    ensures n < MAX_RETRIES && GoesOn(reply, gate, n) ==>
      Total(Run(reply, gate, n).sleeps) == Pause(reply(n), n) + Total(Run(reply, gate, n + 1).sleeps)
    ensures !(n < MAX_RETRIES && GoesOn(reply, gate, n)) ==>
      Total(Run(reply, gate, n).sleeps) == if gate(n) == RedisError(true) then 250.0 else 0.0
  {
    var t := Run(reply, gate, n);
    if n < MAX_RETRIES && GoesOn(reply, gate, n) {
      assert t.sleeps[1..] == Run(reply, gate, n + 1).sleeps;
    } else if gate(n) == RedisError(true) {
      assert t.sleeps == [250.0] && t.sleeps[1..] == [];
    }
  }

  /**
   A call sleeps for more than 90 seconds exactly when three replies send it back after
   nearly the longest pauses and Redis then fails with a network code.
   */
  lemma LongSleepExactly(reply: nat -> Reply, gate: nat -> Gate)
    ensures Total(Run(reply, gate, 0).sleeps) > 90000.0 <==>
      && GoesOn(reply, gate, 0) && GoesOn(reply, gate, 1) && GoesOn(reply, gate, 2) && gate(3) == RedisError(true)
      && Pause(reply(0), 0) + Pause(reply(1), 1) + Pause(reply(2), 2) > 89750.0
  {
    hide Run, Total, GoesOn, ParseRetryAfterMs;
    RunStep(reply, gate, 0);
    RunStep(reply, gate, 1);
    RunStep(reply, gate, 2);
    RunStep(reply, gate, 3);
  }

  /** No call ends in a permanent error: the last interceptor wraps it. */
  lemma {:induction false} NeverPermanent(reply: nat -> Reply, gate: nat -> Gate, n: nat)
    requires n <= MAX_RETRIES
    ensures Run(reply, gate, n).outcome != PermanentError
    decreases MAX_RETRIES - n
  {
    if n < MAX_RETRIES && GoesOn(reply, gate, n) {
      NeverPermanent(reply, gate, n + 1);
    }
  }

  /**
   After any number of retries, a reply that the first interceptor finds permanent ends the
   call, and the caller sees a transient error.
   */
  lemma {:induction false} PermanentSurfacesAsTransient(reply: nat -> Reply, gate: nat -> Gate, n: nat, k: nat)
    requires n <= k <= MAX_RETRIES && forall j: nat :: n <= j < k ==> GoesOn(reply, gate, j)
    requires gate(k) == Passes && reply(k).Response? && Classified(reply(k).status) == PermanentError
    ensures Run(reply, gate, n).outcome == TransientError && Run(reply, gate, n).sent == k - n + 1
    decreases k - n
  {
    if n < k {
      assert GoesOn(reply, gate, n);
      PermanentSurfacesAsTransient(reply, gate, n + 1, k);
    }
  }

  // ----- what every call comes to -----

  /** How long a call waits before it is sent again after this reply, as its n-th attempt. */
  ghost predicate Waits(r: Reply, n: nat, ms: real) {
    if r.Response? && r.status == 429 then
      match r.retryAfter
      case NoHeader => ms == 250.0
      case Unreadable => ms == 250.0
      case Seconds(s) =>
        && (s <= 0.0 ==> ms == 0.0) && (0.0 <= s <= 30.0 ==> ms == 1000.0 * s) && (s >= 30.0 ==> ms == 30000.0)
      case Date(left) =>
        && (left <= 0.0 ==> ms == 0.0) && (0.0 <= left <= 30000.0 ==> ms == left) && (left >= 30000.0 ==> ms == 30000.0)
    else (n == 0 ==> ms == 250.0) && (n == 1 ==> ms == 1000.0) && (n >= 2 ==> ms == 4000.0)
  }

  /** The call is sent again: let through, and answered 429, 5xx or with a retryable network failure. */
  predicate SentAgain(reply: nat -> Reply, gate: nat -> Gate, n: nat) {
    && gate(n) == Passes
    && match reply(n)
       case Response(status, _) => status == 429 || 500 <= status < 600
       case NetworkFailure(code) => code
  }

  /** The k-th attempt is the last of a call that starts with its n-th. */
  ghost predicate EndsAt(reply: nat -> Reply, gate: nat -> Gate, n: nat, k: nat) {
    && n <= k <= 3 && (k < 3 ==> !SentAgain(reply, gate, k))
    && forall j: nat :: n <= j < k ==> SentAgain(reply, gate, j)
  }

  /**
   The outcome, from the last attempt. A TypeError of the interceptor survives only while no
   earlier attempt was answered: the handler of an answered one wraps it.
   */
  ghost predicate ComesTo(reply: nat -> Reply, gate: nat -> Gate, n: nat, k: nat, o: Outcome) {
    match gate(k)
    case AtCeiling => o == RateLimitError
    case RedisError(false) => o == TransientError
    case RedisError(true) =>
      if forall j: nat :: n <= j < k ==> reply(j).NetworkFailure? then o == TypeError else o == TransientError
    case Passes =>
      match reply(k)
      case NetworkFailure(_) => o == TransientError
      case Response(status, _) =>
        && (200 <= status < 400 ==> o == Ok(status))
        && (status == 401 || status == 403 ==> o == AuthError)
        && (status == 429 ==> o == RateLimitError)
        && (!(200 <= status < 400) && status != 401 && status != 403 && status != 429 ==> o == TransientError)
  }

  lemma PauseByValue(r: Reply, n: nat)
    ensures Waits(r, n, Pause(r, n))
  {
  }

  lemma GoesOnExactly(reply: nat -> Reply, gate: nat -> Gate, n: nat)
    ensures GoesOn(reply, gate, n) <==> SentAgain(reply, gate, n)
  {
  }

  /**
   Every call, from any attempt on: one attempt is the last; it decides the outcome, every
   attempt but one stopped at the gate is a request, and between attempts the call waits as
   long as the replies say.
   */
  lemma {:induction false} CallMeaning(reply: nat -> Reply, gate: nat -> Gate, n: nat) returns (k: nat)
    requires n <= MAX_RETRIES
    ensures EndsAt(reply, gate, n, k)
    ensures var t := Run(reply, gate, n);
      && ComesTo(reply, gate, n, k, t.outcome)
      && t.sent == k - n + (if gate(k) == Passes then 1 else 0)
      && |t.sleeps| == k - n + (if gate(k) == RedisError(true) then 1 else 0)
      && (forall j: nat :: n <= j < k ==> Waits(reply(j), j, t.sleeps[j - n]))
      && (gate(k) == RedisError(true) ==> t.sleeps[k - n] == 250.0)
    decreases MAX_RETRIES - n
  {
    hide Run, Waits, ComesTo, SentAgain, Pause;
    if n < MAX_RETRIES && SentAgain(reply, gate, n) {
      k := CallMeaning(reply, gate, n + 1);
      PauseByValue(reply(n), n);
      OneMore(reply, gate, n, k);
      LaterWaits(reply, n, k, Pause(reply(n), n), Run(reply, gate, n + 1).sleeps);
    } else {
      k := n;
      LastAttempt(reply, gate, n);
    }
  }

  lemma LaterWaits(reply: nat -> Reply, n: nat, k: nat, first: real, rest: seq<real>)
    requires n < k && |rest| >= k - n - 1 && Waits(reply(n), n, first)
    requires forall j: nat :: n + 1 <= j < k ==> Waits(reply(j), j, rest[j - n - 1])
    ensures forall j: nat :: n <= j < k ==> Waits(reply(j), j, ([first] + rest)[j - n])
  {
    hide Waits;
    forall j: nat | n <= j < k ensures Waits(reply(j), j, ([first] + rest)[j - n]) {
      if j > n { assert ([first] + rest)[j - n] == rest[j - n - 1]; }
    }
  }

  lemma LastAttempt(reply: nat -> Reply, gate: nat -> Gate, n: nat)
    requires n <= MAX_RETRIES && !(n < MAX_RETRIES && SentAgain(reply, gate, n))
    ensures EndsAt(reply, gate, n, n)
    ensures var t := Run(reply, gate, n);
      && ComesTo(reply, gate, n, n, t.outcome)
      && t.sent == (if gate(n) == Passes then 1 else 0)
      && t.sleeps == (if gate(n) == RedisError(true) then [250.0] else [])
  {
  }

  lemma OneMore(reply: nat -> Reply, gate: nat -> Gate, n: nat, k: nat)
    requires n < MAX_RETRIES && SentAgain(reply, gate, n) && EndsAt(reply, gate, n + 1, k)
    requires ComesTo(reply, gate, n + 1, k, Run(reply, gate, n + 1).outcome)
    ensures EndsAt(reply, gate, n, k)
    ensures var (t, rest) := (Run(reply, gate, n), Run(reply, gate, n + 1));
      && ComesTo(reply, gate, n, k, t.outcome)
      && t.sent == rest.sent + 1 && t.sleeps == [Pause(reply(n), n)] + rest.sleeps
  {
    GoesOnExactly(reply, gate, n);
  }

  /** The k-th reply is a success, and everything before it is worth another attempt. */
  predicate SucceedsAt(reply: nat -> Reply, gate: nat -> Gate, n: nat, k: nat) {
    && n <= k <= MAX_RETRIES && gate(k) == Passes && Success(reply(k))
    && forall j: nat :: n <= j < k ==> gate(j) == Passes && Retryable(reply(j))
  }

  lemma {:induction false} RunSucceedsExactly(reply: nat -> Reply, gate: nat -> Gate, n: nat)
    requires n <= MAX_RETRIES
    ensures Run(reply, gate, n).outcome.Ok? <==> exists k: nat :: SucceedsAt(reply, gate, n, k)
    ensures forall k: nat :: SucceedsAt(reply, gate, n, k) ==>
      Run(reply, gate, n).outcome == Ok(reply(k).status) && Run(reply, gate, n).sent == k - n + 1
    decreases MAX_RETRIES - n
  {
    if gate(n) == Passes && Success(reply(n)) {
      assert SucceedsAt(reply, gate, n, n);
      forall k: nat | SucceedsAt(reply, gate, n, k) ensures k == n {
        assert k > n ==> Retryable(reply(n));
      }
    } else if gate(n) == Passes && Retryable(reply(n)) && n < MAX_RETRIES {
      RunSucceedsExactly(reply, gate, n + 1);
      forall k: nat ensures SucceedsAt(reply, gate, n, k) <==> SucceedsAt(reply, gate, n + 1, k) {
        ShiftSuccess(reply, gate, n, k);
      }
      var m := n + 1;
      var t, rest := Run(reply, gate, n), Run(reply, gate, m);
      assert t.sent == rest.sent + 1;
      assert t.outcome.Ok? <==> rest.outcome.Ok?;
      assert rest.outcome.Ok? ==> t.outcome == rest.outcome;
      if k: nat :| SucceedsAt(reply, gate, m, k) {
        assert SucceedsAt(reply, gate, n, k);
      }
    } else {
      forall k: nat ensures !SucceedsAt(reply, gate, n, k) {
        NoSuccess(reply, gate, n, k);
      }
    }
  }

  lemma NoSuccess(reply: nat -> Reply, gate: nat -> Gate, n: nat, k: nat)
    requires gate(n) != Passes || (!Success(reply(n)) && (!Retryable(reply(n)) || n == MAX_RETRIES))
    ensures !SucceedsAt(reply, gate, n, k)
  {
  }

  lemma ShiftSuccess(reply: nat -> Reply, gate: nat -> Gate, n: nat, k: nat)
    requires gate(n) == Passes && !Success(reply(n)) && Retryable(reply(n))
    ensures SucceedsAt(reply, gate, n, k) <==> SucceedsAt(reply, gate, n + 1, k)
  {
  }

  /** A call succeeds exactly when one of the first four replies does and all before it were retryable. */
  lemma CallSucceedsExactly(reply: nat -> Reply, gate: nat -> Gate)
    ensures Run(reply, gate, 0).outcome.Ok? <==> exists k: nat :: SucceedsAt(reply, gate, 0, k)
  {
    RunSucceedsExactly(reply, gate, 0);
  }
}
