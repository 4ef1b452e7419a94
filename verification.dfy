/** The identity-verification mock (src/mocks/verificationMock.js): session
    identifiers, the QR-code link, the SMS hand-off and the simulated
    verification outcome. The clock, `Math.random()` and the ISO time stamps
    are parameters; the simulated latencies are left out. */
module Verification {
  import opened Common
  import Handoff
  import Chainalysis

  const SessionPrefix := "vs_"

  const QrPrefix := "https://verify.arqitech.com/session/"

  const InvalidPhone := "Invalid phone number format"

  const SmsFailed := "Failed to send SMS. Please try again."

  const SmsSentPrefix := "Verification link sent to "

  const VerificationFailed := "Verification failed. Please try again."

  /** `VERIFICATION_STATES`. */
  const Pending := "pending"
  const InProgress := "in_progress"
  const Completed := "completed"
  const Failed := "failed"

  const FailureReasons: seq<string> := [
    "Document image quality too low",
    "Face match confidence below threshold",
    "Document may be expired",
    "Unable to verify address from document",
    "Verification session timed out"]

  // ---------------------------------------------------------------------------
  // Session identifier and QR link

  /** `vs_${Date.now()}_${random}`, where `random` is the base-36 rendering of
      `Math.random()` cut to characters 2..11. */
  function GenerateSessionId(now: nat, randomText: string): (id: string)
  {
    SessionPrefix + Handoff.ToRadix(now, 10) + "_" + Slice(randomText, 2, 11)
  }

  /** A decimal rendering holds decimal digits only. */
  lemma {:induction false} DecimalDigits(n: nat)
    ensures AllDigits(Handoff.ToRadix(n, 10))
    decreases n
  {
    if n >= 10 {
      DecimalDigits(n / 10);
    }
  }

  /** The session identifier is 'vs_', the decimal time (which reads back as
      the time), '_' and at most nine random characters. */
  lemma SessionIdShape(now: nat, randomText: string)
    ensures var id := GenerateSessionId(now, randomText);
            var stamp := Handoff.ToRadix(now, 10);
            && id[..3] == SessionPrefix
            && id[3..3 + |stamp|] == stamp && AllDigits(stamp)
            && id[3 + |stamp|] == '_'
            && Handoff.ParseRadix(stamp, 10) == now
            && |id| <= 3 + |stamp| + 1 + 9
  {
    var stamp := Handoff.ToRadix(now, 10);
    var id := GenerateSessionId(now, randomText);
    assert id == SessionPrefix + stamp + "_" + Slice(randomText, 2, 11);
    assert id[..3] == SessionPrefix;
    assert id[3..3 + |stamp|] == stamp;
    DecimalDigits(now);
    Handoff.RadixRoundTrip(now, 10);
  }

  /** Sessions opened at different times get different identifiers, whatever
      the random parts: the time ends at the first '_' after the prefix. */
  lemma SessionIdsDifferInTime(now1: nat, r1: string, now2: nat, r2: string)
    requires now1 != now2
    ensures GenerateSessionId(now1, r1) != GenerateSessionId(now2, r2)
  {
    var id1, id2 := GenerateSessionId(now1, r1), GenerateSessionId(now2, r2);
    var s1, s2 := Handoff.ToRadix(now1, 10), Handoff.ToRadix(now2, 10);
    SessionIdShape(now1, r1);
    SessionIdShape(now2, r2);
    if |s1| < |s2| {
      assert id1[3 + |s1|] != id2[3 + |s1|] by {
        assert id2[3 + |s1|] == s2[|s1|] && IsDigit(s2[|s1|]);
      }
    } else if |s2| < |s1| {
      assert id1[3 + |s2|] != id2[3 + |s2|] by {
        assert id1[3 + |s2|] == s1[|s2|] && IsDigit(s1[|s2|]);
      }
    } else {
      assert id1[3..3 + |s1|] != id2[3..3 + |s2|];
    }
  }

  /** The QR code carries the verification link of the session. */
  function QrCodeData(sessionId: string): (url: string)
    ensures |url| == |QrPrefix| + |sessionId|
    ensures url[..|QrPrefix|] == QrPrefix
    ensures url[|QrPrefix|..] == sessionId
  {
    QrPrefix + sessionId
  }

  /** Different sessions get different links. */
  lemma QrCodeDataInjective(a: string, b: string)
    requires QrCodeData(a) == QrCodeData(b)
    ensures a == b
  {
    assert a == QrCodeData(a)[|QrPrefix|..];
  }

  // ---------------------------------------------------------------------------
  // SMS

  /** `s.slice(-4)`: the last four characters, or all of a shorter string. */
  function LastFour(s: string): (r: string)
    ensures |r| == Min(4, |s|)
    ensures forall i :: 0 <= i < |r| ==> r[i] == s[|s| - |r| + i]
  {
    s[|s| - Min(4, |s|)..]
  }

  /** `s.padStart(len, c)`. */
  function PadStart(s: string, len: nat, c: char): (r: string)
    ensures |s| >= len ==> r == s
    ensures |s| < len ==> |r| == len
    ensures |s| < len ==> r[len - |s|..] == s && forall i :: 0 <= i < len - |s| ==> r[i] == c
  {
    if |s| >= len then s else Repeat(c, len - |s|) + s
  }

  function Repeat(c: char, n: nat): (r: string)
    ensures |r| == n
    ensures forall i :: 0 <= i < n ==> r[i] == c
  {
    if n == 0 then [] else Repeat(c, n - 1) + [c]
  }

  /** `phone.slice(-4).padStart(phone.length, '*')`: the number with every
      character but the last four replaced by '*'. */
  function MaskPhone(phone: string): (r: string)
    ensures |r| == |phone|
    ensures forall i :: 0 <= i < |phone| ==> r[i] == (if i < |phone| - 4 then '*' else phone[i])
  {
    PadStart(LastFour(phone), |phone|, '*')
  }

  /** Two numbers of one length that end alike are masked alike: the mask
      gives away nothing but the length and the last four characters. */
  lemma MaskHidesAllButLastFour(p: string, q: string)
    requires |p| == |q| && LastFour(p) == LastFour(q)
    ensures MaskPhone(p) == MaskPhone(q)
  {
    forall i | 0 <= i < |p|
      ensures MaskPhone(p)[i] == MaskPhone(q)[i]
    {
      if i >= |p| - 4 {
        assert p[i] == LastFour(p)[i - (|p| - Min(4, |p|))];
      }
    }
  }

  datatype SmsResult = SmsResult(success: bool, message: string, sessionId: Option<string>)

  /** `sendVerificationSMS(phoneNumber, sessionId)`; `draw` is the
      `Math.random()` that decides delivery (95% of the time). */
  function SendVerificationSms(phone: string, sessionId: string, draw: real): (r: SmsResult)
    ensures |phone| < 10 <==> r.sessionId.None?
    ensures |phone| < 10 ==> !r.success && r.message == InvalidPhone
    ensures |phone| >= 10 ==> r.sessionId == Some(sessionId) && (r.success <==> draw < 0.95)
    ensures r.success ==> r.message == SmsSentPrefix + MaskPhone(phone)
    ensures |phone| >= 10 && !r.success ==> r.message == SmsFailed
  {
    if phone == "" || |phone| < 10 then SmsResult(false, InvalidPhone, None)
    else
      var success := draw < 0.95;
      SmsResult(success, if success then SmsSentPrefix + MaskPhone(phone) else SmsFailed, Some(sessionId))
  }

  /** What a delivered SMS reports depends only on the number's length and last four characters. */
  lemma SmsMessageRevealsOnlyLastFour(p: string, q: string, sessionId: string, draw: real)
    requires |p| == |q| && LastFour(p) == LastFour(q)
    ensures SendVerificationSms(p, sessionId, draw) == SendVerificationSms(q, sessionId, draw)
  {
    MaskHidesAllButLastFour(p, q);
  }

  // ---------------------------------------------------------------------------
  // Simulated verification

  /** The `result` object of a simulated verification. */
  datatype VerificationResult =
    | Verified(
        verifiedAt: string,
        documentType: string,
        documentCountry: string,
        nameMatch: bool,
        addressMatch: bool,
        dobMatch: bool,
        riskSignals: seq<string>,
        confidenceScore: int,
        verificationId: string,
        message: string)
    | NotVerified(failedAt: string, reason: string, canRetry: bool, message: string)

  datatype Simulation = Simulation(success: bool, status: string, result: VerificationResult)

  /** The options the caller may leave out (`duration` only sets the latency). */
  datatype SimulationOptions = SimulationOptions(successRate: Option<real>, ownerName: Option<string>)

  /** The random draws and clock readings one simulation consumes. */
  datatype SimulationDraws = SimulationDraws(
    success: real, confidence: real, reason: real, now: nat, nowIso: string)

  predicate ValidSimulationDraws(d: SimulationDraws)
  {
    0.0 <= d.success < 1.0 && 0.0 <= d.confidence < 1.0 && 0.0 <= d.reason < 1.0
  }

  function OrElse<T>(o: Option<T>, default: T): T
  {
    if o.Some? then o.value else default
  }

  /** `simulateVerification(options)`. */
  function SimulateVerification(opts: SimulationOptions, d: SimulationDraws): (r: Simulation)
    requires ValidSimulationDraws(d)
    ensures r.success <==> d.success < OrElse(opts.successRate, 0.85)
    ensures r.success ==> r.status == Completed && r.result.Verified?
    ensures !r.success ==> r.status == Failed && r.result.NotVerified?
    ensures r.result.Verified? ==>
              && 85 <= r.result.confidenceScore <= 99
              && r.result.riskSignals == []
              && r.result.nameMatch && r.result.addressMatch && r.result.dobMatch
              && r.result.message == "Identity verified for " + OrElse(opts.ownerName, "Unknown")
              && r.result.verificationId == "ver_" + Handoff.ToRadix(d.now, 10)
    ensures r.result.NotVerified? ==>
              r.result.canRetry && r.result.reason in FailureReasons && r.result.message == VerificationFailed
  {
    if d.success < OrElse(opts.successRate, 0.85) then
      Chainalysis.FloorBelow(d.confidence, 15);
      Simulation(true, Completed, Verified(
        d.nowIso, "PASSPORT", "US", true, true, true, [],
        85 + (d.confidence * 15.0).Floor,
        "ver_" + Handoff.ToRadix(d.now, 10),
        "Identity verified for " + OrElse(opts.ownerName, "Unknown")))
    else
      Chainalysis.FloorBelow(d.reason, |FailureReasons|);
      Simulation(false, Failed, NotVerified(
        d.nowIso,
        FailureReasons[(d.reason * |FailureReasons| as real).Floor],
        true,
        VerificationFailed))
  }

  /** Without options the success rate is 85%; a rate of one or more always
      succeeds and a rate of zero or less always fails. */
  lemma SuccessRateBounds(opts: SimulationOptions, d: SimulationDraws)
    requires ValidSimulationDraws(d)
    ensures opts.successRate.None? ==> (SimulateVerification(opts, d).success <==> d.success < 0.85)
    ensures opts.successRate.Some? && opts.successRate.value >= 1.0 ==> SimulateVerification(opts, d).success
    ensures opts.successRate.Some? && opts.successRate.value <= 0.0 ==> !SimulateVerification(opts, d).success
  {
  }

  /** The reported status and the `verified` flag always agree. */
  lemma StatusMatchesVerified(opts: SimulationOptions, d: SimulationDraws)
    requires ValidSimulationDraws(d)
    ensures var r := SimulateVerification(opts, d);
            (r.status == Completed <==> r.result.Verified?) && (r.status == Failed <==> r.result.NotVerified?)
  {
  }
}
