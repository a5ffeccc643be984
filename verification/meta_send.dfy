/** Meta's answers to a send, how the gateway reads them, and the pacing arithmetic
    (packages/core/src/send.ts, apps/gateway/src/broadcasts.ts). */
module MetaSend {
  import opened Core

  /** `NotOk` carries the HTTP status (0 when there was no answer at all) and Graph's error code. */
  datatype SendResult = Accepted(id: string) | NotOk(status: int, errorCode: Option<int>)

  datatype Verdict = VThrottled | VUnknown | VHalt | VFailed

  const THROTTLE_CODES: set<int> := {4, 80007, 130429, 131056}
  const HALT_CODES: set<int> :=
    {10, 190, 200, 368, 131031, 131042, 131045, 131048, 132001, 132007, 132015, 132016, 133010}
  const PARAMETER_CODES: set<int> := {132000, 132005, 132012}

  /** A failure that may still have been delivered: no answer, a 5xx, or a 2xx with no message id. */
  predicate OutcomeUnknown(r: SendResult) {
    r.NotOk? && (r.status == 0 || r.status >= 500 || r.status < 300)
  }

  /** Meta answered, and its answer proves the message was not sent. */
  predicate DefinitelyRefused(r: SendResult) {
    r.NotOk? && 300 <= r.status < 500
  }

  function ClassifySendFailure(status: int, unknown: bool, code: Option<int>, ownValues: bool): (v: Verdict)
  {
    if unknown then VUnknown
    else if status == 429 || (code.Some? && code.value in THROTTLE_CODES) then VThrottled
    else if code.None? then VFailed
    else if code.value in HALT_CODES then VHalt
    else if code.value in PARAMETER_CODES then if ownValues then VFailed else VHalt
    else VFailed
  }

  /** The verdict the engines act on. Only an answer that proves "not sent" may be acted on as a refusal. */
  function VerdictOf(r: SendResult, ownValues: bool): (v: Verdict)
    requires r.NotOk?
    ensures v != VUnknown <==> DefinitelyRefused(r)
  {
    ClassifySendFailure(r.status, OutcomeUnknown(r), r.errorCode, ownValues)
  }

  /** Meta answered that it sends too fast: the message did not go out and may be tried again. */
  predicate IsThrottle(r: SendResult) {
    DefinitelyRefused(r) && (r.status == 429 || r.errorCode in {Some(4), Some(80007), Some(130429), Some(131056)})
  }

  /** Meta answered with an error of the token, permission, account, number, payment or template; or one of the
      template's values, when the message brought none of its own. */
  predicate IsHalt(r: SendResult, ownValues: bool) {
    && DefinitelyRefused(r)
    && (|| r.errorCode in {Some(10), Some(190), Some(200), Some(368), Some(131031), Some(131042), Some(131045), Some(131048)}
        || r.errorCode in {Some(132001), Some(132007), Some(132015), Some(132016), Some(133010)}
        || (!ownValues && r.errorCode in {Some(132000), Some(132005), Some(132012)}))
  }

  /** Which verdict each answer gets: lost answers first, then Meta's throttle status and codes, then its codes
      that no other recipient escapes; every other refusal is the recipient's own. */
  lemma VerdictsByCode(r: SendResult, ownValues: bool)
    requires r.NotOk?
    ensures VerdictOf(r, ownValues).VUnknown? <==> r.status < 300 || r.status >= 500
    ensures VerdictOf(r, ownValues).VThrottled? <==> IsThrottle(r)
    ensures VerdictOf(r, ownValues).VHalt? <==> IsHalt(r, ownValues) && r.status != 429
  {
    assert r.errorCode in {Some(4), Some(80007), Some(130429), Some(131056)} <==> r.errorCode.Some? && r.errorCode.value in THROTTLE_CODES;
  }

  function Pow2(n: nat): (p: nat)
    ensures p >= 1
  {
    if n == 0 then 1 else 2 * Pow2(n - 1)
  }

  /** Wait after the nth throttled attempt: 5, 10, 20... seconds, up to 5 minutes. */
  function ThrottleDelayMs(attempts: int): (ms: int)
    ensures 5_000 <= ms <= 300_000
    ensures attempts <= 1 ==> ms == 5_000
  {
    Min(5_000 * Pow2(Max(0, attempts - 1)), 300_000)
  }

  lemma {:induction false} Pow2Monotone(a: nat, b: nat)
    requires a <= b
    ensures Pow2(a) <= Pow2(b)
  {
    if a < b {
      Pow2Monotone(a, b - 1);
    }
  }

  /** A recipient that keeps being throttled is never tried sooner than before. */
  lemma ThrottleDelayGrows(a: int, b: int)
    requires a <= b
    ensures ThrottleDelayMs(a) <= ThrottleDelayMs(b)
  {
    Pow2Monotone(Max(0, a - 1), Max(0, b - 1));
  }

  /** Each throttled attempt doubles the wait of the one before, up to five minutes. */
  lemma ThrottleDelayDoubles(attempts: int)
    ensures attempts >= 1 ==> ThrottleDelayMs(attempts + 1) == Min(2 * ThrottleDelayMs(attempts), 300_000)
  {
    if attempts >= 1 {
      assert Pow2(attempts) == 2 * Pow2(attempts - 1);
    }
  }

  datatype Pace = Pace(perTick: int, tickMs: int)

  function Ceil(x: real): (c: int)
    ensures (c - 1) as real < x <= c as real
  {
    -((-x).Floor)
  }

  /** Sends a minute a broadcast may use: 80% of the account's rate, at least one. */
  function Budget(ratePerMinute: int): (b: real)
    ensures b >= 1.0
  {
    var share := ratePerMinute as real * 0.8;
    if share > 1.0 then share else 1.0
  }

  function Pacing(ratePerMinute: int): (p: Pace)
    ensures p.perTick >= 1 && p.tickMs >= 1_000
  {
    var budget := Budget(ratePerMinute);
    if budget >= 60.0 then
      assert budget / 60.0 >= 1.0;
      Pace((budget / 60.0).Floor, 1_000)
    else
      assert 60_000.0 / budget > 1_000.0;
      Pace(1, Ceil(60_000.0 / budget))
  }

  /** The long-run rate of a broadcast stays inside 80% of the account's rate, whichever branch of
      the pacing is taken, exactly when the account may send at least two messages a minute: at one
      a minute the floor of one send a minute already uses all of it. */
  lemma PaceStaysInShare(ratePerMinute: int)
    requires ratePerMinute >= 0
    ensures var p := Pacing(ratePerMinute);
            (p.perTick as real * 60_000.0 <= 0.8 * ratePerMinute as real * p.tickMs as real)
            <==> ratePerMinute >= 2
  {
    var p := Pacing(ratePerMinute);
    var b := Budget(ratePerMinute);
    if ratePerMinute >= 2 {
      assert b == ratePerMinute as real * 0.8;
      if b >= 60.0 {
        assert p.perTick as real <= b / 60.0;
      } else {
        TimesQuotient(60_000.0, b, p.tickMs as real);
      }
    } else {
      assert b == 1.0;
      assert p == Pace(1, 60_000) by {
        assert 60_000.0 / 1.0 == 60_000.0;
      }
    }
  }

  /** And no pace of whole sends and milliseconds with the same tick, or the same sends, is faster. */
  lemma PaceIsTheFastest(ratePerMinute: int)
    ensures var p, share := Pacing(ratePerMinute), Budget(ratePerMinute);
            && (share >= 60.0 ==> p.tickMs == 1_000 && p.perTick as real <= share / 60.0 < (p.perTick + 1) as real)
            && (share < 60.0 ==> p.perTick == 1 && (p.tickMs - 1) as real < 60_000.0 / share <= p.tickMs as real)
    ensures ratePerMinute >= 2 ==> Budget(ratePerMinute) * 10.0 == 8.0 * ratePerMinute as real
    ensures ratePerMinute <= 1 ==> Budget(ratePerMinute) == 1.0
  {
  }

  lemma TimesQuotient(x: real, b: real, c: real)
    requires b > 0.0 && c >= x / b
    ensures b * c >= x
  {
    assert b * (x / b) == x;
  }

  /** A throttled tick asks for a pause of at least 5 s; that is never shorter than the tick itself
      exactly from 15 messages a minute up. */
  lemma TickFitsThrottlePause(ratePerMinute: int)
    requires ratePerMinute >= 0
    ensures Pacing(ratePerMinute).tickMs <= 5_000 <==> ratePerMinute >= 15
  {
    var b := Budget(ratePerMinute);
    if ratePerMinute >= 15 {
      assert b >= 12.0;
      if b < 60.0 {
        assert 60_000.0 / b <= 5_000.0 by { QuotientBound(60_000.0, b, 5_000.0); }
      }
    } else {
      assert b <= 11.2;
      assert 60_000.0 / b > 5_000.0 by { QuotientAbove(60_000.0, b, 5_000.0); }
    }
  }

  lemma QuotientBound(x: real, b: real, c: real)
    requires b > 0.0 && b * c >= x
    ensures x / b <= c
  {
    assert b * (x / b) == x;
  }

  lemma QuotientAbove(x: real, b: real, c: real)
    requires b > 0.0 && b * c < x
    ensures x / b > c
  {
    assert b * (x / b) == x;
  }
}
