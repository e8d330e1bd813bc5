/**
 The HTTP layer: what one request's fate on the wire tells the caller, the circuit
 breaker whose cooldown grows, and the throttle that learns a host's limit.
 Times are real seconds on one monotonic clock.
 */
module Transport {
  import opened Wrappers
  import opened Prices

  // ---------------------------------------------------------------- outcomes

  /** An HTTP status that is reported as an error: a redirect that was not followed, 4xx or 5xx. */
  type ErrorCode = c: int | 300 <= c < 600 witness 400

  /** What actually happened to one request. */
  datatype Wire =
    | NotSent                  // the circuit was open
    | ErrorStatus(code: ErrorCode)
    | NoReply                  // the connection failed or timed out after the request left
    | BadBody                  // a success status whose body could not be parsed
    | ErrorEnvelope            // a success status whose body says the command was refused
    | Reply(withId: bool)      // a success status, with or without an order id in it
    | BrokenReply              // an answer cut off mid-body, not UTF-8, or without a usable status line
    | BrokenError(code: ErrorCode) // an error status whose own body could not be read

  /**
   The exception (or value) the caller of a broker write sees. `Raised` is an exception that
   is none of the bot's own: neither the transport nor the callers above it have a handler.
   */
  datatype Outcome = Accepted(withId: bool) | Rejected | AuthRefused | RateLimited | Shed | Unknown | Errored | Raised

  /**
   Whether the command may have taken effect at the broker. A 3xx or 4xx answer means the
   server did not act on the request (sections 15.4 and 15.5 of RFC 9110); a 5xx
   answer proves nothing (section 15.6).
   */
  predicate MayHaveLanded(wire: Wire) {
    match wire
    case NotSent => false
    case ErrorStatus(code) => code >= 500
    case NoReply => true
    case BadBody => true
    case ErrorEnvelope => false
    case Reply(_) => true
    case BrokenReply => true
    case BrokenError(code) => code >= 500
  }

  /** The answers the transport fails on before it has classified them. */
  predicate Unclassified(wire: Wire) { wire.BrokenReply? || wire.BrokenError? }

  /** How the transport (and the envelope check above it) classifies one attempt. */
  function Classify(wire: Wire, isWrite: bool): Outcome {
    match wire
    case NotSent => Shed
    case ErrorStatus(code) =>
      if code == 401 || code == 403 then AuthRefused
      else if code == 429 then RateLimited
      else if 500 <= code < 600 then (if isWrite then Unknown else Errored)
      else Rejected
    case NoReply => if isWrite then Unknown else Errored
    case BadBody => if isWrite then Unknown else Errored
    case ErrorEnvelope => Rejected
    case Reply(withId) => Accepted(withId)
    case BrokenReply => Raised
    case BrokenError(_) => Raised
  }

  /**
   A write that may have landed is never reported as refused. It surfaces as accepted or
   unknown exactly when its answer could be classified; the rest escape as `Raised`, and
   whether those landed is not told.
   */
  lemma PossiblyLandedWriteIsNeverReportedAsRefused(wire: Wire)
    ensures MayHaveLanded(wire) ==> Classify(wire, true).Accepted? || Classify(wire, true).Unknown? || Classify(wire, true).Raised?
    ensures Classify(wire, true).Accepted? || Classify(wire, true).Unknown? <==> MayHaveLanded(wire) && !Unclassified(wire)
    ensures Classify(wire, true).Raised? <==> Unclassified(wire)
  {
  }

  /** Whether such an escape landed cannot be told from it: both kinds occur. */
  lemma AnEscapeTellsNothing()
    ensures exists a: Wire, b: Wire :: Classify(a, true).Raised? && Classify(b, true).Raised? && MayHaveLanded(a) && !MayHaveLanded(b)
  {
    assert MayHaveLanded(BrokenReply) && !MayHaveLanded(BrokenError(400));
  }

  /** What the world does to one attempt of a request, should that attempt be made. */
  datatype Attempt = Attempt(
    asked: real, overshoot: real, wire: Wire, retryAfter: Option<real>, settled: real)
  {
    /** A sent attempt got some answer, or none; refusing to send is the circuit's decision. */
    ghost predicate Plausible() { wire != NotSent && overshoot >= 0.0 }
  }

  /** What each outcome means on the wire. Only a read can fail plainly, and only that is ever resent. */
  lemma OutcomesMean(wire: Wire, isWrite: bool)
    ensures
      var outcome := Classify(wire, isWrite);
      var unproven := wire in {NoReply, BadBody} || (wire.ErrorStatus? && wire.code >= 500);
      && (outcome.Accepted? <==> wire.Reply?) && (outcome.Accepted? ==> outcome.withId == wire.withId)
      && (outcome == Errored <==> unproven && !isWrite)
      && (outcome == Unknown <==> unproven && isWrite)
      && (outcome == RateLimited <==> wire == ErrorStatus(429))
      && (outcome == AuthRefused <==> wire == ErrorStatus(401) || wire == ErrorStatus(403))
      && (outcome == Rejected <==> wire == ErrorEnvelope || (wire.ErrorStatus? && wire.code < 500 && wire.code !in {401, 403, 429}))
  {
  }

  // ---------------------------------------------------------------- circuit breaker

  function Pow2(n: nat): real { if n == 0 then 1.0 else 2.0 * Pow2(n - 1) }

  datatype CircuitConfig = CircuitConfig(threshold: nat, resetSeconds: real, maxResetSeconds: real) {
    ghost predicate Valid() { threshold >= 1 }

    /** The wait the n-th consecutive opening earns. */
    function Cooldown(opens: nat): real {
      Min(resetSeconds * Pow2(if opens == 0 then 0 else opens - 1), maxResetSeconds)
    }

    /** The total wait the first n openings earn. */
    function TotalCooldown(opens: nat): real {
      if opens == 0 then 0.0 else TotalCooldown(opens - 1) + Cooldown(opens)
    }
  }

  /** The breaker's state as a value. */
  datatype CircuitState = CircuitState(failures: nat, openedAt: real, halfOpen: bool, opens: nat)

  class CircuitBreaker {
    const config: CircuitConfig
    var failures: nat
    var openedAt: real
    var halfOpen: bool
    var consecutiveOpens: nat

    ghost predicate Valid()
      reads this
    {
      config.Valid() && failures <= config.threshold
    }

    ghost function State(): CircuitState
      reads this
    {
      CircuitState(failures, openedAt, halfOpen, consecutiveOpens)
    }

    constructor (config: CircuitConfig)
      requires config.Valid()
      ensures Valid() && this.config == config
      ensures State() == CircuitState(0, 0.0, false, 0)
    {
      this.config := config;
      failures, openedAt, halfOpen, consecutiveOpens := 0, 0.0, false, 0;
    }

    /** Says whether a call may go out now; a call let through an open circuit is a probe. */
    method BeforeCall(now: real) returns (allowed: bool)
      requires Valid()
      modifies this`halfOpen
      ensures Valid()
      ensures allowed == Allows(config, old(State()), now)
      ensures State() == AfterGate(config, old(State()), now)
    {
      if failures < config.threshold {
        return true;
      }
      var wait := config.Cooldown(consecutiveOpens);
      var elapsed := now - openedAt;
      if elapsed < wait {
        return false;
      }
      halfOpen := true;
      return true;
    }

    method RecordSuccess()
      requires Valid()
      modifies this
      ensures Valid()
      ensures State() == AfterSuccess(old(State()))
    {
      failures := 0;
      halfOpen := false;
      consecutiveOpens := 0;
    }

    method RecordFailure(now: real)
      requires Valid()
      modifies this
      ensures Valid()
      ensures State() == AfterFailure(config, old(State()), now)
    {
      failures := failures + 1;
      if failures == config.threshold {
        openedAt := now;
        consecutiveOpens := consecutiveOpens + 1;
      } else if failures > config.threshold {
        openedAt := now;
        consecutiveOpens := consecutiveOpens + 1;
        failures := config.threshold;
      }
      halfOpen := false;
    }
  }

  predicate Allows(config: CircuitConfig, s: CircuitState, now: real) {
    s.failures < config.threshold || now - s.openedAt >= config.Cooldown(s.opens)
  }

  function AfterGate(config: CircuitConfig, s: CircuitState, now: real): CircuitState {
    if s.failures >= config.threshold && Allows(config, s, now) then s.(halfOpen := true) else s
  }

  function AfterSuccess(s: CircuitState): CircuitState {
    s.(failures := 0, halfOpen := false, opens := 0)
  }

  function AfterFailure(config: CircuitConfig, s: CircuitState, now: real): CircuitState {
    if s.failures + 1 < config.threshold then s.(failures := s.failures + 1, halfOpen := false)
    else CircuitState(config.threshold, now, false, s.opens + 1)
  }

  /** What a settled attempt says about the broker's health. */
  datatype Verdict = Silent | Healthy | Failing | HealthyThenFailing

  function VerdictOf(wire: Wire, isWrite: bool): Verdict {
    match wire
    case NotSent => Silent
    case ErrorStatus(code) =>
      if code == 429 then Silent                                // a rate limit is not an outage
      else if code >= 500 then (if isWrite then Silent else Failing) // the write path leaves before counting it
      else Healthy
    case NoReply => Failing
    case BadBody => HealthyThenFailing
    case ErrorEnvelope => Healthy
    case Reply(_) => Healthy
    case BrokenReply => Silent
    case BrokenError(_) => Silent
  }

  /** What a settled attempt teaches the circuit breaker that let it through. */
  function CircuitAfterAnswer(config: CircuitConfig, s: CircuitState, a: Attempt, isWrite: bool): CircuitState {
    match VerdictOf(a.wire, isWrite)
    case Silent => s
    case Healthy => AfterSuccess(s)
    case Failing => AfterFailure(config, s, a.settled)
    case HealthyThenFailing => AfterFailure(config, AfterSuccess(s), a.settled)
  }

  /** One call put to the breaker, and how it would go if let through. */
  datatype Call = Call(attempt: Attempt, isWrite: bool) {
    function Verdict(): Verdict { VerdictOf(attempt.wire, isWrite) }
  }

  /** A call the breaker sheds changes nothing. */
  function AfterCall(config: CircuitConfig, s: CircuitState, call: Call): CircuitState {
    if !Allows(config, s, call.attempt.asked) then s
    else CircuitAfterAnswer(config, AfterGate(config, s, call.attempt.asked), call.attempt, call.isWrite)
  }

  function AfterCalls(config: CircuitConfig, s: CircuitState, calls: seq<Call>): CircuitState
    decreases |calls|
  {
    if calls == [] then s
    else AfterCall(config, AfterCalls(config, s, calls[..|calls| - 1]), calls[|calls| - 1])
  }

  /** Requests made one after another are one run of calls. */
  lemma {:induction false} RequestsCompose(config: CircuitConfig, s: CircuitState, a: seq<Call>, b: seq<Call>)
    ensures AfterCalls(config, s, a + b) == AfterCalls(config, AfterCalls(config, s, a), b)
    decreases |b|
  {
    if b == [] {
      assert a + b == a;
    } else {
      RequestsCompose(config, s, a, b[..|b| - 1]);
      assert (a + b)[..|a + b| - 1] == a + b[..|b| - 1];
    }
  }

  /** Calls made one after another, none starting before `from`. */
  ghost predicate Sequential(calls: seq<Call>, from: real) {
    (forall i :: 0 <= i < |calls| ==> from <= calls[i].attempt.asked <= calls[i].attempt.settled)
    && (forall i, j :: 0 <= i < j < |calls| ==> calls[i].attempt.settled <= calls[j].attempt.asked)
  }

  /** How many of the calls were let through and failed. */
  function FailedProbes(config: CircuitConfig, s: CircuitState, calls: seq<Call>): nat
    decreases |calls|
  {
    if calls == [] then 0
    else
      var n := |calls| - 1;
      FailedProbes(config, s, calls[..n])
      + (if calls[n].Verdict() == Failing && Allows(config, AfterCalls(config, s, calls[..n]), calls[n].attempt.asked) then 1 else 0)
  }

  /**
   After the circuit opens at `openAt`, as long as nothing succeeds, the j-th probe that
   fails (at `openedAt`, which restarts the wait) does so no earlier than the sum of the
   first j cooldowns after the opening. Stored failures stay at the threshold throughout.
   Reads and writes, shed calls, rate limits and 5xx answers to writes may be among them.
   */
  lemma {:induction false} FailedProbesSpreadOut(config: CircuitConfig, openAt: real, calls: seq<Call>)
    requires config.Valid() && Sequential(calls, openAt)
    requires forall i :: 0 <= i < |calls| ==> calls[i].Verdict() in {Silent, Failing}
    ensures
      var start := CircuitState(config.threshold, openAt, false, 1);
      var end := AfterCalls(config, start, calls);
      var j := FailedProbes(config, start, calls);
      && end.failures == config.threshold
      && end.opens == j + 1
      && end.openedAt >= openAt + config.TotalCooldown(j)
  {
    hide CircuitConfig.Cooldown;
    if calls != [] {
      FailedProbesSpreadOut(config, openAt, calls[..|calls| - 1]);
      assert calls[|calls| - 1].Verdict() in {Silent, Failing};
    }
  }

  /** The first opening waits for the configured time, and each further one twice as long, up to the ceiling. */
  lemma CooldownsDouble(config: CircuitConfig, n: nat)
    requires n >= 1 && config.resetSeconds >= 0.0 && config.maxResetSeconds >= 0.0
    ensures config.Cooldown(1) == Min(config.resetSeconds, config.maxResetSeconds)
    ensures config.Cooldown(n + 1) == Min(2.0 * config.Cooldown(n), config.maxResetSeconds)
  {
    var before, after := config.resetSeconds * Pow2(n - 1), config.resetSeconds * Pow2(n);
    assert Pow2(n) == 2.0 * Pow2(n - 1);
    assert after == 2.0 * before;
    PowersArePositive(n - 1);
    assert before >= 0.0;
  }

  lemma {:induction false} PowersArePositive(n: nat)
    ensures Pow2(n) > 0.0
  {
    if n > 0 {
      PowersArePositive(n - 1);
    }
  }

  /** A closed circuit opens at the threshold's failure in a row and not before, and then waits out its cooldown. */
  lemma {:induction false} OpensAtTheThreshold(config: CircuitConfig, at: real, calls: seq<Call>, now: real)
    requires config.Valid() && |calls| <= config.threshold
    requires forall i :: 0 <= i < |calls| ==> calls[i].Verdict() == Failing
    ensures
      var end := AfterCalls(config, CircuitState(0, at, false, 0), calls);
      && end.failures == |calls| && !end.halfOpen
      && (|calls| < config.threshold ==> end.opens == 0 && Allows(config, end, now))
      && (|calls| == config.threshold ==>
            && end.opens == 1 && end.openedAt == calls[|calls| - 1].attempt.settled
            && (Allows(config, end, now) <==> now >= end.openedAt + config.Cooldown(1)))
  {
    hide CircuitConfig.Cooldown;
    if calls != [] {
      var n := |calls| - 1;
      OpensAtTheThreshold(config, at, calls[..n], calls[n].attempt.asked);
      assert calls[n].Verdict() == Failing;
    }
  }

  /** One success closes the circuit and forgets the whole escalation. */
  lemma SuccessRestoresTheFirstCooldown(config: CircuitConfig, s: CircuitState, call: Call)
    requires config.Valid() && call.Verdict() == Healthy && Allows(config, s, call.attempt.asked)
    ensures
      var after := AfterCall(config, s, call);
      && after.failures == 0 && after.opens == 0 && !after.halfOpen
      && (forall now: real :: Allows(config, after, now))
      && config.Cooldown(after.opens) == config.Cooldown(1)
  {
  }

  /** Any number of 5xx answers to writes, with rate limits and broken answers among them, count for nothing. */
  lemma {:induction false} WritesAnswered5xxNeverCount(config: CircuitConfig, s: CircuitState, calls: seq<Call>)
    requires forall i :: 0 <= i < |calls| ==>
               || (calls[i].isWrite && calls[i].attempt.wire.ErrorStatus? && calls[i].attempt.wire.code >= 500)
               || calls[i].attempt.wire == ErrorStatus(429) || Unclassified(calls[i].attempt.wire)
    ensures AfterCalls(config, s, calls) == s.(halfOpen := AfterCalls(config, s, calls).halfOpen)
  {
    if calls != [] {
      WritesAnswered5xxNeverCount(config, s, calls[..|calls| - 1]);
      assert calls[|calls| - 1].Verdict() == Silent;
    }
  }

  /**
   An unparsable body is booked as a success before it is booked as a failure. However many
   follow each other, one failure is stored: they open a closed circuit only at a threshold
   of one.
   */
  lemma {:induction false} UnparsableBodiesOpenExactlyWhen(config: CircuitConfig, s: CircuitState, calls: seq<Call>)
    requires config.Valid() && s.failures < config.threshold && calls != []
    requires forall i :: 0 <= i < |calls| ==> calls[i].attempt.wire == BadBody
    ensures AfterCalls(config, s, calls).failures == 1
    ensures AfterCalls(config, s, calls).failures == config.threshold <==> config.threshold == 1
  {
    var n := |calls| - 1;
    assert calls[n].attempt.wire == BadBody;
    if n > 0 {
      UnparsableBodiesOpenExactlyWhen(config, s, calls[..n]);
    }
  }

  // ---------------------------------------------------------------- throttle

  const BACKOFF_FACTOR: real := 1.6
  const RECOVERY_SUCCESSES: nat := 40
  const RECOVERY_STEP: real := 0.05
  const MIN_RATE_LIMIT_COOLDOWN: real := 60.0

  datatype Band = Band(minInterval: real, maxInterval: real) {
    ghost predicate Valid() { 0.0 <= minInterval <= maxInterval }
  }

  datatype Pace = Pace(interval: real, successes: nat, last: real, penaltyUntil: real)

  class Throttle {
    const band: Band
    var interval: real
    var successes: nat
    var last: real
    var penaltyUntil: real

    ghost predicate Valid()
      reads this
    {
      band.Valid() && band.minInterval <= interval <= band.maxInterval
    }

    ghost function State(): Pace
      reads this
    {
      Pace(interval, successes, last, penaltyUntil)
    }

    constructor (minInterval: real, maxInterval: real)
      requires 0.0 <= minInterval
      ensures Valid() && band == Band(minInterval, Max(minInterval, maxInterval))
      ensures State() == Pace(minInterval, 0, 0.0, 0.0)
    {
      band := Band(minInterval, Max(minInterval, maxInterval));
      interval, successes, last, penaltyUntil := minInterval, 0, 0.0, 0.0;
    }

    /** Start from a stored value, clamped to the band; an unusable value changes nothing. */
    method Restore(stored: Option<real>)
      requires Valid()
      modifies this
      ensures Valid()
      ensures State() == AfterOp(band, old(State()), ThrottleOp.Restore(stored))
    {
      if stored.None? || stored.value <= 0.0 {
        return;
      }
      interval := Max(band.minInterval, Min(band.maxInterval, stored.value));
      successes := 0;
    }

    method Penalise(now: real, seconds: real)
      requires Valid()
      modifies this
      ensures Valid()
      ensures State() == AfterOp(band, old(State()), ThrottleOp.Penalise(now, seconds))
    {
      penaltyUntil := Max(penaltyUntil, now + Max(0.0, seconds));
      interval := Min(band.maxInterval, Max(interval, band.minInterval) * BACKOFF_FACTOR);
      successes := 0;
    }

    method RecordSuccess()
      requires Valid()
      modifies this
      ensures Valid()
      ensures State() == AfterOp(band, old(State()), ThrottleOp.Success)
    {
      if interval <= band.minInterval {
        return;
      }
      successes := successes + 1;
      if successes >= RECOVERY_SUCCESSES {
        successes := 0;
        interval := Max(band.minInterval, interval - RECOVERY_STEP);
      }
    }

    /** Sleeps until the spacing and any penalty allow a request. A sleep may overshoot. */
    method Wait(now: real, overshoot: real)
      requires Valid() && overshoot >= 0.0
      modifies this
      ensures Valid()
      ensures State() == AfterOp(band, old(State()), ThrottleOp.Wait(now, overshoot))
    {
      var delay := Max(interval - (now - last), penaltyUntil - now);
      last := now + Max(0.0, delay) + overshoot;
    }
  }

  datatype ThrottleOp =
    | Penalise(at: real, seconds: real)
    | Success
    | Restore(stored: Option<real>)
    | Wait(asked: real, overshoot: real)

  function AfterOp(band: Band, p: Pace, op: ThrottleOp): Pace {
    match op
    case Penalise(at, seconds) =>
      p.(penaltyUntil := Max(p.penaltyUntil, at + Max(0.0, seconds)),
         interval := Min(band.maxInterval, Max(p.interval, band.minInterval) * BACKOFF_FACTOR),
         successes := 0)
    case Success =>
      if p.interval <= band.minInterval then p
      else if p.successes + 1 >= RECOVERY_SUCCESSES then
        p.(successes := 0, interval := Max(band.minInterval, p.interval - RECOVERY_STEP))
      else p.(successes := p.successes + 1)
    case Restore(stored) =>
      if stored.None? || stored.value <= 0.0 then p
      else p.(interval := Max(band.minInterval, Min(band.maxInterval, stored.value)), successes := 0)
    case Wait(asked, overshoot) =>
      p.(last := asked + Max(0.0, Max(p.interval - (asked - p.last), p.penaltyUntil - asked)) + overshoot)
  }

  function AfterOps(band: Band, p: Pace, ops: seq<ThrottleOp>): Pace
    decreases |ops|
  {
    if ops == [] then p else AfterOp(band, AfterOps(band, p, ops[..|ops| - 1]), ops[|ops| - 1])
  }

  ghost predicate InBand(band: Band, p: Pace) {
    band.Valid() && band.minInterval <= p.interval <= band.maxInterval
  }

  lemma {:induction false} IntervalStaysInBand(band: Band, p: Pace, ops: seq<ThrottleOp>)
    requires InBand(band, p)
    ensures InBand(band, AfterOps(band, p, ops))
  {
    if ops != [] {
      IntervalStaysInBand(band, p, ops[..|ops| - 1]);
    }
  }

  /** Nothing but a wait moves the last completion, and it only ever moves forward. */
  lemma {:induction false} CompletionsAndPenaltiesOnlyAdvance(band: Band, p: Pace, ops: seq<ThrottleOp>)
    requires InBand(band, p)
    requires forall k :: 0 <= k < |ops| && ops[k].Wait? ==> ops[k].overshoot >= 0.0
    ensures AfterOps(band, p, ops).last >= p.last
    ensures AfterOps(band, p, ops).penaltyUntil >= p.penaltyUntil
  {
    if ops != [] {
      CompletionsAndPenaltiesOnlyAdvance(band, p, ops[..|ops| - 1]);
      IntervalStaysInBand(band, p, ops[..|ops| - 1]);
    }
  }

  lemma {:induction false} AfterOpsSplit(band: Band, p: Pace, a: seq<ThrottleOp>, b: seq<ThrottleOp>)
    ensures AfterOps(band, p, a + b) == AfterOps(band, AfterOps(band, p, a), b)
    decreases |b|
  {
    if b == [] {
      assert a + b == a;
    } else {
      AfterOpsSplit(band, p, a, b[..|b| - 1]);
      assert (a + b)[..|a + b| - 1] == a + b[..|b| - 1];
    }
  }

  /**
   In any interleaving, a wait completes at least the interval then in force after every
   earlier wait, and not before any penalty imposed earlier has run out.
   */
  lemma WaitsAreSpacedAndServePenalties(band: Band, p: Pace, ops: seq<ThrottleOp>, earlier: nat, now: nat)
    requires InBand(band, p) && earlier < now < |ops| && ops[now].Wait?
    requires forall k :: 0 <= k < |ops| && ops[k].Wait? ==> ops[k].overshoot >= 0.0
    ensures
      var done := AfterOps(band, p, ops[..now + 1]).last;
      && (ops[earlier].Wait? ==>
            done >= AfterOps(band, p, ops[..earlier + 1]).last + AfterOps(band, p, ops[..now]).interval)
      && (ops[earlier].Penalise? ==> done >= ops[earlier].at + ops[earlier].seconds)
  {
    var here := ops[..earlier + 1];
    var between := ops[earlier + 1..now];
    assert ops[..now] == here + between;
    assert here[..|here| - 1] == ops[..earlier];
    assert ops[..now + 1][..now] == ops[..now];
    AfterOpsSplit(band, p, here, between);
    IntervalStaysInBand(band, p, here);
    CompletionsAndPenaltiesOnlyAdvance(band, AfterOps(band, p, here), between);
  }

  /** A wait ends at the latest of the moment it was asked for, the spacing and the penalty, and then overshoots. */
  lemma WaitsEndAtTheLatest(band: Band, p: Pace, asked: real, overshoot: real)
    ensures AfterOp(band, p, ThrottleOp.Wait(asked, overshoot))
            == p.(last := Max(asked, Max(p.last + p.interval, p.penaltyUntil)) + overshoot)
  {
  }

  /** The interval widened by three fifths so many times. */
  function Widened(interval: real, times: nat): real { if times == 0 then interval else 1.6 * Widened(interval, times - 1) }

  /** Each refusal in a row widens the spacing by three fifths, up to the ceiling. */
  lemma {:induction false} RefusalsWidenTheSpacing(band: Band, p: Pace, ops: seq<ThrottleOp>)
    requires InBand(band, p) && forall i :: 0 <= i < |ops| ==> ops[i].Penalise?
    ensures
      var end := AfterOps(band, p, ops);
      && end.interval == Min(band.maxInterval, Widened(p.interval, |ops|)) && Widened(p.interval, |ops|) >= 0.0
      && end.last == p.last && (ops != [] ==> end.successes == 0)
  {
    if ops != [] {
      RefusalsWidenTheSpacing(band, p, ops[..|ops| - 1]);
      IntervalStaysInBand(band, p, ops[..|ops| - 1]);
      assert ops[|ops| - 1].Penalise?;
    }
  }

  /** The penalty in force is the longest of the refusals' and the one there was; a negative cooldown counts as none. */
  lemma {:induction false} PenaltiesHoldToTheLongest(band: Band, p: Pace, ops: seq<ThrottleOp>)
    requires forall i :: 0 <= i < |ops| ==> ops[i].Penalise?
    ensures
      var until := AfterOps(band, p, ops).penaltyUntil;
      && until >= p.penaltyUntil
      && (forall i :: 0 <= i < |ops| ==> until >= ops[i].at && until >= ops[i].at + ops[i].seconds)
      && (until == p.penaltyUntil || exists i :: 0 <= i < |ops| && until == ops[i].at + Max(0.0, ops[i].seconds))
  {
    if ops != [] {
      var n := |ops| - 1;
      PenaltiesHoldToTheLongest(band, p, ops[..n]);
      assert ops[n].Penalise?;
      var before, until := AfterOps(band, p, ops[..n]).penaltyUntil, AfterOps(band, p, ops).penaltyUntil;
      assert until == Max(before, ops[n].at + Max(0.0, ops[n].seconds));
      hide AfterOps, AfterOp;
      if until == before && before != p.penaltyUntil {
        var i :| 0 <= i < n && before == ops[..n][i].at + Max(0.0, ops[..n][i].seconds);
        assert ops[..n][i] == ops[i];
      }
    }
  }

  function Successes(k: nat): seq<ThrottleOp> { seq(k, _ => ThrottleOp.Success) }

  function Ceiling(x: real): int { -((-x).Floor) }

  /** The interval after k uninterrupted successes: one step down for every forty. */
  lemma {:induction false} RecoveryClosedForm(band: Band, p: Pace, k: nat)
    requires InBand(band, p) && p.successes == 0
    ensures
      var end := AfterOps(band, p, Successes(k));
      && end.interval == Max(band.minInterval, p.interval - RECOVERY_STEP * (k / RECOVERY_SUCCESSES) as real)
      && (end.interval > band.minInterval ==> end.successes == k % RECOVERY_SUCCESSES)
      && (end.interval == band.minInterval ==> end.successes == 0)
  {
    if k > 0 {
      RecoveryClosedForm(band, p, k - 1);
      assert Successes(k)[..k - 1] == Successes(k - 1);
      assert k / 40 == (k - 1) / 40 || (k / 40 == (k - 1) / 40 + 1 && (k - 1) % 40 == 39);
    }
  }

  /** Recovery reaches the floor at exactly this many successes, and not one earlier. */
  lemma RecoveryReachesTheFloor(band: Band, p: Pace, k: nat)
    requires InBand(band, p) && p.successes == 0
    ensures
      AfterOps(band, p, Successes(k)).interval == band.minInterval
      <==> k >= RECOVERY_SUCCESSES * Ceiling((p.interval - band.minInterval) / RECOVERY_STEP)
  {
    RecoveryClosedForm(band, p, k);
    var steps := Ceiling((p.interval - band.minInterval) / RECOVERY_STEP);
    var taken := k / RECOVERY_SUCCESSES;
    assert taken >= steps <==> k >= RECOVERY_SUCCESSES * steps;
    assert taken >= steps <==> RECOVERY_STEP * taken as real >= p.interval - band.minInterval;
  }

  // ---------------------------------------------------------------- one request

  /** The answers that are booked as replies before anything else is done with them. */
  predicate BookedAsReply(wire: Wire) { wire.Reply? || wire.ErrorEnvelope? || wire.BadBody? }

  /** What a settled attempt teaches the throttle. A stated Retry-After is a floor, and never below the minimum. */
  function PaceAfterAnswer(band: Band, p: Pace, a: Attempt): Pace {
    if BookedAsReply(a.wire) then AfterOp(band, p, ThrottleOp.Success)
    else if a.wire == ErrorStatus(429) then
      AfterOp(band, p, ThrottleOp.Penalise(a.settled, Max(if a.retryAfter.Some? then a.retryAfter.value else 0.0, MIN_RATE_LIMIT_COOLDOWN)))
    else p
  }

  function PaceAfterAttempt(band: Band, p: Pace, a: Attempt): Pace {
    PaceAfterAnswer(band, AfterOp(band, p, ThrottleOp.Wait(a.asked, a.overshoot)), a)
  }

  function PaceAfter(band: Band, p: Pace, made: seq<Attempt>): Pace
    decreases |made|
  {
    if made == [] then p else PaceAfterAttempt(band, PaceAfter(band, p, made[..|made| - 1]), made[|made| - 1])
  }

  /** How many of the attempts were booked as replies. */
  function Booked(made: seq<Attempt>): nat {
    if made == [] then 0 else Booked(made[..|made| - 1]) + (if BookedAsReply(made[|made| - 1].wire) then 1 else 0)
  }

  function CallsOf(made: seq<Attempt>, isWrite: bool): (calls: seq<Call>)
    ensures |calls| == |made| && forall i :: 0 <= i < |made| ==> calls[i] == Call(made[i], isWrite)
  {
    seq(|made|, i requires 0 <= i < |made| => Call(made[i], isWrite))
  }

  /**
   What each answer counts for. The breaker hears of a failure when nothing usable came back
   (a 5xx answer to a write aside), of a success when the broker answered at all; the
   throttle earns speed on every reply with a success status, and a 429 costs a minute or more.
   */
  lemma AnswersCountFor(config: CircuitConfig, s: CircuitState, band: Band, p: Pace, a: Attempt, isWrite: bool)
    requires a.Plausible()
    ensures
      var wire, circuit, pace := a.wire, CircuitAfterAnswer(config, s, a, isWrite), PaceAfterAnswer(band, p, a);
      var replied := wire.Reply? || wire.ErrorEnvelope?;
      var failed := wire.NoReply? || (wire.ErrorStatus? && wire.code >= 500 && !isWrite);
      && (replied || (wire.ErrorStatus? && wire.code < 500 && wire.code != 429) ==>
            circuit == CircuitState(0, s.openedAt, false, 0))
      && (failed ==> circuit == AfterFailure(config, s, a.settled))
      && (wire == BadBody ==> circuit == AfterFailure(config, CircuitState(0, s.openedAt, false, 0), a.settled))
      && (wire == ErrorStatus(429) || (wire.ErrorStatus? && wire.code >= 500 && isWrite) || Unclassified(wire) ==> circuit == s)
      && (replied || wire == BadBody ==> pace == AfterOp(band, p, ThrottleOp.Success))
      && (wire == ErrorStatus(429) ==>
            pace == AfterOp(band, p, ThrottleOp.Penalise(
                              a.settled, if a.retryAfter.Some? && a.retryAfter.value > 60.0 then a.retryAfter.value else 60.0)))
      && (!replied && wire != BadBody && wire != ErrorStatus(429) ==> pace == p)
  {
    hide AfterOp, AfterFailure;
  }

  class HttpTransport {
    const maxAttempts: nat
    const circuit: CircuitBreaker
    const throttle: Throttle
    var calls: nat
    var rateLimited: nat

    ghost predicate Valid()
      reads this, circuit, throttle
    {
      maxAttempts >= 1 && circuit.Valid() && throttle.Valid()
    }

    constructor (maxAttempts: nat, circuit: CircuitBreaker, throttle: Throttle)
      requires circuit.Valid() && throttle.Valid()
      ensures Valid() && this.circuit == circuit && this.throttle == throttle
      ensures this.maxAttempts == (if maxAttempts >= 1 then maxAttempts else 1)
      ensures calls == 0 && rateLimited == 0
    {
      this.maxAttempts := if maxAttempts >= 1 then maxAttempts else 1;
      this.circuit, this.throttle := circuit, throttle;
      calls, rateLimited := 0, 0;
    }

    /** Books what one attempt taught the breaker, the throttle and the counters. */
    method Digest(a: Attempt, isWrite: bool)
      requires Valid() && a.Plausible()
      modifies this, circuit, throttle
      ensures Valid()
      ensures circuit.State() == CircuitAfterAnswer(circuit.config, old(circuit.State()), a, isWrite)
      ensures throttle.State() == PaceAfterAnswer(throttle.band, old(throttle.State()), a)
      ensures calls == old(calls) + (if BookedAsReply(a.wire) then 1 else 0)
      ensures rateLimited == old(rateLimited) + (if Classify(a.wire, isWrite) == RateLimited then 1 else 0)
      ensures Classify(a.wire, isWrite) == RateLimited ==>
                throttle.penaltyUntil >= a.settled + MIN_RATE_LIMIT_COOLDOWN
    {
      match a.wire {
        case Reply(_) =>
          BookReply();
        case ErrorEnvelope =>
          BookReply();
        case BadBody =>
          BookReply();
          circuit.RecordFailure(a.settled);
        case NoReply =>
          circuit.RecordFailure(a.settled);
        case BrokenReply =>
        case BrokenError(_) =>
        case ErrorStatus(code) =>
          if code == 429 {
            var floor := if a.retryAfter.Some? then a.retryAfter.value else 0.0;
            throttle.Penalise(a.settled, Max(floor, MIN_RATE_LIMIT_COOLDOWN));
            rateLimited := rateLimited + 1;
          } else if code >= 500 {
            if !isWrite {
              circuit.RecordFailure(a.settled);
            }
          } else {
            circuit.RecordSuccess();
          }
      }
    }

    method BookReply()
      requires Valid()
      modifies this`calls, circuit, throttle
      ensures Valid() && calls == old(calls) + 1
      ensures circuit.State() == AfterSuccess(old(circuit.State()))
      ensures throttle.State() == AfterOp(throttle.band, old(throttle.State()), ThrottleOp.Success)
    {
      calls := calls + 1;
      circuit.RecordSuccess();
      throttle.RecordSuccess();
    }

    /** One attempt, if the breaker lets it through: wait, send, digest the answer. */
    method TryOnce(a: Attempt, isWrite: bool) returns (allowed: bool)
      requires Valid() && a.Plausible()
      modifies this, circuit, throttle
      ensures Valid()
      ensures allowed == Allows(circuit.config, old(circuit.State()), a.asked)
      ensures circuit.State() == AfterCall(circuit.config, old(circuit.State()), Call(a, isWrite))
      ensures throttle.State() == if allowed then PaceAfterAttempt(throttle.band, old(throttle.State()), a) else old(throttle.State())
      ensures calls == old(calls) + (if allowed && BookedAsReply(a.wire) then 1 else 0)
      ensures rateLimited == old(rateLimited) + (if allowed && Classify(a.wire, isWrite) == RateLimited then 1 else 0)
      ensures allowed && Classify(a.wire, isWrite) == RateLimited ==>
                throttle.penaltyUntil >= a.settled + MIN_RATE_LIMIT_COOLDOWN
    {
      hide CircuitAfterAnswer, AfterOp, PaceAfterAnswer;
      allowed := circuit.BeforeCall(a.asked);
      if allowed {
        throttle.Wait(a.asked, a.overshoot);
        Digest(a, isWrite);
      }
    }

    /**
     One API call. `world` says how each attempt would go; `sent` counts the attempts that left
     this process. A write leaves at most once, whatever happens to it.
     */
    method Request(isWrite: bool, idempotent: Option<bool>, world: seq<Attempt>)
      returns (outcome: Outcome, sent: nat)
      requires Valid() && |world| >= maxAttempts
      requires forall i :: 0 <= i < |world| ==> world[i].Plausible()
      modifies this, circuit, throttle
      ensures Valid()
      ensures sent <= maxAttempts && (isWrite || idempotent == Some(false) ==> sent <= 1)
      ensures circuit.State() == AfterCalls(circuit.config, old(circuit.State()), CallsOf(world[..sent], isWrite))
      ensures throttle.State() == PaceAfter(throttle.band, old(throttle.State()), world[..sent])
      ensures calls == old(calls) + Booked(world[..sent])
      // the breaker let every attempt through, and the request stops only at an answer, a shut breaker or the last attempt
      ensures forall i :: 0 <= i < sent ==>
                Allows(circuit.config, AfterCalls(circuit.config, old(circuit.State()), CallsOf(world[..i], isWrite)), world[i].asked)
      ensures outcome == Errored ==> sent == if isWrite || idempotent == Some(false) then 1 else maxAttempts
      // every attempt before the last was a plain failure: nothing else is ever resent
      ensures forall i :: 0 <= i < sent - 1 ==> Classify(world[i].wire, isWrite) == Errored
      // the result is the last attempt's, unless the open circuit shed the next one
      ensures outcome != Shed ==> sent >= 1 && outcome == Classify(world[sent - 1].wire, isWrite)
      ensures outcome == Shed ==>
                (sent == 0 || Classify(world[sent - 1].wire, isWrite) == Errored)
                && sent < maxAttempts && !Allows(circuit.config, circuit.State(), world[sent].asked)
      ensures rateLimited == old(rateLimited) + (if outcome == RateLimited then 1 else 0)
      ensures outcome == RateLimited ==>
                throttle.penaltyUntil >= world[sent - 1].settled + MIN_RATE_LIMIT_COOLDOWN
      // what a caller of a write may conclude
      ensures isWrite ==>
                && ((outcome.Accepted? || outcome.Unknown?) <==>
                      (sent == 1 && MayHaveLanded(world[0].wire) && !Unclassified(world[0].wire)))
                && (outcome.Raised? <==> sent == 1 && Unclassified(world[0].wire))
    {
      hide AfterCall, AfterCalls, PaceAfterAttempt, PaceAfter, Booked, Classify, MayHaveLanded, Unclassified, Allows, BookedAsReply;
      NoAttemptYet(circuit.config, circuit.State(), throttle.band, throttle.State(), world, isWrite);
      var retryable := if idempotent.None? then !isWrite else idempotent.value && !isWrite;
      var attempts := if retryable then maxAttempts else 1;
      sent := 0;
      outcome := Errored;
      while sent < attempts
        invariant Valid() && sent <= attempts
        invariant rateLimited == old(rateLimited) && calls == old(calls) + Booked(world[..sent])
        invariant circuit.State() == AfterCalls(circuit.config, old(circuit.State()), CallsOf(world[..sent], isWrite))
        invariant throttle.State() == PaceAfter(throttle.band, old(throttle.State()), world[..sent])
        invariant forall i :: 0 <= i < sent ==> Classify(world[i].wire, isWrite) == Errored
        invariant forall i :: 0 <= i < sent ==>
                    Allows(circuit.config, AfterCalls(circuit.config, old(circuit.State()), CallsOf(world[..i], isWrite)), world[i].asked)
        invariant sent > 0 ==> outcome == Errored && !isWrite
      {
        var a := world[sent];
        ghost var before := circuit.State();
        OneMoreAttempt(circuit.config, old(circuit.State()), throttle.band, old(throttle.State()), world, sent, isWrite);
        WhatASentAttemptSays(a.wire, isWrite);
        var allowed := TryOnce(a, isWrite);
        if !allowed {
          ShedChangesNothing(circuit.config, before, Call(a, isWrite));
          return Shed, sent;
        }
        sent := sent + 1;
        outcome := Classify(a.wire, isWrite);
        if outcome != Errored {
          return;
        }
      }
    }
  }

  lemma NoAttemptYet(config: CircuitConfig, s: CircuitState, band: Band, p: Pace, world: seq<Attempt>, isWrite: bool)
    ensures AfterCalls(config, s, CallsOf(world[..0], isWrite)) == s && PaceAfter(band, p, world[..0]) == p && Booked(world[..0]) == 0
  {
  }

  lemma OneMoreAttempt(config: CircuitConfig, s: CircuitState, band: Band, p: Pace, world: seq<Attempt>, n: nat, isWrite: bool)
    requires n < |world|
    ensures AfterCalls(config, s, CallsOf(world[..n + 1], isWrite))
            == AfterCall(config, AfterCalls(config, s, CallsOf(world[..n], isWrite)), Call(world[n], isWrite))
    ensures PaceAfter(band, p, world[..n + 1]) == PaceAfterAttempt(band, PaceAfter(band, p, world[..n]), world[n])
    ensures Booked(world[..n + 1]) == Booked(world[..n]) + (if BookedAsReply(world[n].wire) then 1 else 0)
  {
    hide AfterCall, PaceAfterAttempt;
    assert world[..n + 1][..n] == world[..n];
    assert CallsOf(world[..n + 1], isWrite)[..n] == CallsOf(world[..n], isWrite);
  }

  lemma WhatASentAttemptSays(wire: Wire, isWrite: bool)
    requires wire != NotSent
    ensures Classify(wire, isWrite) != Shed && (isWrite ==> Classify(wire, isWrite) != Errored)
    ensures isWrite ==>
              && (Classify(wire, isWrite).Accepted? || Classify(wire, isWrite).Unknown? <==> MayHaveLanded(wire) && !Unclassified(wire))
              && (Classify(wire, isWrite).Raised? <==> Unclassified(wire))
  {
  }

  lemma ShedChangesNothing(config: CircuitConfig, s: CircuitState, call: Call)
    requires !Allows(config, s, call.attempt.asked)
    ensures AfterCall(config, s, call) == s
  {
  }
}
