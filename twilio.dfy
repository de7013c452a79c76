/** The telephony adapter's own logic (server/src/services/twilio.service.ts): the
    phone-number normaliser toward the ITU-T Rec. E.164 form `+<country code><national
    number>`, the choice between the provider and the demo mode, and the demo
    answers of `initiateCall` and `getCallStatus`. The provider client itself is
    not modelled; the environment and the clock are parameters. */
module Twilio {
  import opened Wrappers
  import Text

  // ---------------------------------------------------------------------------
  // formatPhoneNumber
  // ---------------------------------------------------------------------------

  predicate StartsWithPlus(s: string) {
    |s| > 0 && s[0] == '+'
  }

  // The one number that gets a hand-written format, in its three groups.
  const VerifiedArea: string := "901"
  const VerifiedExchange: string := "457"
  const VerifiedLine: string := "0987"

  /** The digits of that number: 9014570987. */
  const VerifiedDigits: string := VerifiedArea + VerifiedExchange + VerifiedLine

  /** Its hand-written format "+1 901 457 0987" (spaced, so not E.164). */
  const VerifiedFormat: string := "+1" + " " + VerifiedArea + " " + VerifiedExchange + " " + VerifiedLine

  /** `formatPhoneNumber(phoneNumber)`. Whatever the input, the result starts with '+'. */
  function FormatPhoneNumber(phoneNumber: string): (r: string)
    ensures |r| > 0 && r[0] == '+'
    ensures StartsWithPlus(phoneNumber) ==> r == phoneNumber
  {
    if StartsWithPlus(phoneNumber) then phoneNumber
    else
      var digits := Text.Digits(phoneNumber);
      if digits == VerifiedDigits then VerifiedFormat
      else if |digits| == 10 then "+1" + digits
      else if |digits| == 11 && digits[0] == '1' then "+" + digits
      else "+1" + digits
  }

  /** Outside the pass-through and the hand-written case, the result is '+' followed
      only by digits: the input's digits, in order, preceded by the country code 1
      unless they are eleven digits that already start with 1. */
  lemma FormatE164(phoneNumber: string)
    requires !StartsWithPlus(phoneNumber) && Text.Digits(phoneNumber) != VerifiedDigits
    ensures var r := FormatPhoneNumber(phoneNumber);
      var d := Text.Digits(phoneNumber);
      && Text.AllDigits(r[1..])
      && |d| <= |r| - 1 && r[|r| - |d|..] == d
      && (if |d| == 11 && d[0] == '1' then r == "+" + d else r == "+1" + d)
  {
  }

  /** The number dialled is the same however the input is written: the digits of the
      result are the input's digits with the country code 1 put in front when it is
      missing. This holds for the hand-written case too. */
  lemma FormatKeepsNumber(phoneNumber: string)
    requires !StartsWithPlus(phoneNumber)
    ensures var d := Text.Digits(phoneNumber);
      Text.Digits(FormatPhoneNumber(phoneNumber)) == if |d| == 11 && d[0] == '1' then d else "1" + d
  {
    var d := Text.Digits(phoneNumber);
    Text.DigitsOfDigits(d);
    if d == VerifiedDigits {
      VerifiedKeepsNumber(phoneNumber);
    } else if |d| == 11 && d[0] == '1' {
      Text.DigitsAppend("+", d);
    } else {
      Text.DigitsAppend("+1", d);
      assert Text.Digits("+1") == "1";
    }
  }

  lemma VerifiedKeepsNumber(phoneNumber: string)
    requires !StartsWithPlus(phoneNumber) && Text.Digits(phoneNumber) == VerifiedDigits
    ensures Text.Digits(FormatPhoneNumber(phoneNumber)) == "1" + VerifiedDigits
  {
    assert FormatPhoneNumber(phoneNumber) == VerifiedFormat;
    VerifiedFormatDigits(VerifiedArea, VerifiedExchange, VerifiedLine);
  }

  /** A number spelled as the hand-written format spells it dials 1 followed by its
      three groups. */
  lemma VerifiedFormatDigits(area: string, exchange: string, line: string)
    requires Text.AllDigits(area) && Text.AllDigits(exchange) && Text.AllDigits(line)
    ensures Text.Digits("+1" + " " + area + " " + exchange + " " + line) == "1" + area + exchange + line
  {
    var s1 := "+1" + " ";
    var s2 := s1 + area;
    var s3 := s2 + " ";
    var s4 := s3 + exchange;
    var s5 := s4 + " ";
    assert Text.Digits(" ") == "";
    assert Text.Digits("+1") == "1";
    Text.DigitsAppend("+1", " ");
    assert Text.Digits(s1) == "1";
    Text.DigitsOfDigits(area);
    Text.DigitsAppend(s1, area);
    assert Text.Digits(s2) == "1" + area;
    Text.DigitsAppend(s2, " ");
    assert Text.Digits(s3) == "1" + area;
    Text.DigitsOfDigits(exchange);
    Text.DigitsAppend(s3, exchange);
    assert Text.Digits(s4) == "1" + area + exchange;
    Text.DigitsAppend(s4, " ");
    assert Text.Digits(s5) == "1" + area + exchange;
    Text.DigitsOfDigits(line);
    Text.DigitsAppend(s5, line);
  }

  /** Formatting a formatted number changes nothing. */
  lemma FormatIdempotent(phoneNumber: string)
    ensures FormatPhoneNumber(FormatPhoneNumber(phoneNumber)) == FormatPhoneNumber(phoneNumber)
  {
  }

  // ---------------------------------------------------------------------------
  // Demo mode
  // ---------------------------------------------------------------------------

  /** The environment the module reads when it loads; `None` is an unset variable.
      `clientStarts` says whether constructing the provider client succeeds. */
  datatype Environment = Environment(
    demoMode: Option<string>,
    accountSid: Option<string>,
    authToken: Option<string>,
    phoneNumber: Option<string>,
    clientStarts: bool)

  predicate IsDemo(env: Environment) {
    env.demoMode == Some("true")
  }

  /** `hasValidTwilioCredentials`. */
  predicate HasValidCredentials(env: Environment) {
    && Text.Truthy(env.accountSid) && Text.Truthy(env.authToken) && Text.Truthy(env.phoneNumber)
    && "AC" <= env.accountSid.value
  }

  /** A provider client exists: valid credentials, no demo mode, and a client that
      started. */
  predicate HasClient(env: Environment) {
    HasValidCredentials(env) && !IsDemo(env) && env.clientStarts
  }

  /** `useDemo` of `initiateCall`. */
  predicate UseDemo(env: Environment) {
    IsDemo(env) || !HasValidCredentials(env) || !HasClient(env)
  }

  const DemoPrefix: string := "demo-call-"

  /** `useDemo` of `getCallStatus`: demo mode, or an id the demo mode made. */
  predicate UseDemoForStatus(env: Environment, callSid: string) {
    UseDemo(env) || DemoPrefix <= callSid
  }

  /** Demo mode is used exactly when no provider client exists. */
  lemma DemoIffNoClient(env: Environment)
    ensures UseDemo(env) <==> !HasClient(env)
  {
  }

  /** `twilioPhoneNumber || '+15551234567'`. */
  function FromNumber(env: Environment): string {
    if Text.Truthy(env.phoneNumber) then env.phoneNumber.value else "+15551234567"
  }

  /** What `initiateCall` returns. */
  datatype CallInfo = CallInfo(callSid: string, status: string, dateCreated: int, to: string, from: string)

  /** The demo branch of `initiateCall(expertPhoneNumber, callbackUrl)` at time `now`. */
  function DemoInitiate(env: Environment, expertPhoneNumber: string, now: nat): (r: CallInfo)
    ensures DemoPrefix <= r.callSid && r.status == "queued"
    ensures r.to == FormatPhoneNumber(expertPhoneNumber)
  {
    CallInfo(DemoPrefix + Text.NatToString(now), "queued", now, FormatPhoneNumber(expertPhoneNumber), FromNumber(env))
  }

  /** The provider statuses the demo mode reports. */
  datatype ProviderStatus = Queued | Ringing | InProgress | Completed

  function ProviderStatusText(s: ProviderStatus): string {
    match s
    case Queued => "queued"
    case Ringing => "ringing"
    case InProgress => "in-progress"
    case Completed => "completed"
  }

  /** The position of a status in the list `['queued', 'ringing', 'in-progress', 'completed']`. */
  function Rank(s: ProviderStatus): nat {
    match s
    case Queued => 0
    case Ringing => 1
    case InProgress => 2
    case Completed => 3
  }

  /** The demo status after `elapsed` milliseconds; `None` (NaN) compares false
      everywhere and so gives `queued`. */
  function DemoStatus(elapsed: Option<int>): (r: ProviderStatus)
    ensures elapsed.None? ==> r == Queued
    ensures elapsed.Some? ==>
      Rank(r) == (if elapsed.value > 5000 then 1 else 0) + (if elapsed.value > 15000 then 1 else 0)
                 + (if elapsed.value > 30000 then 1 else 0)
  {
    if elapsed.None? then Queued
    else if elapsed.value > 30000 then Completed
    else if elapsed.value > 15000 then InProgress
    else if elapsed.value > 5000 then Ringing
    else Queued
  }

  /** The demo status never goes back as time passes. */
  lemma DemoStatusMonotone(e1: int, e2: int)
    requires e1 <= e2
    ensures Rank(DemoStatus(Some(e1))) <= Rank(DemoStatus(Some(e2)))
  {
  }

  /** The status reached at each threshold: more than 5, 15 and 30 seconds. */
  lemma DemoStatusThresholds(elapsed: int)
    ensures DemoStatus(Some(elapsed)) == Completed <==> elapsed > 30000
    ensures Rank(DemoStatus(Some(elapsed))) >= 2 <==> elapsed > 15000
    ensures Rank(DemoStatus(Some(elapsed))) >= 1 <==> elapsed > 5000
  {
  }

  /** The largest absolute time value a `Date` holds; beyond it, and for NaN,
      `toISOString` throws. */
  const MaxTime: int := 8_640_000_000_000_000

  /** What `getCallStatus` returns; times are milliseconds. */
  datatype StatusReport = StatusReport(
    callSid: string,
    status: ProviderStatus,
    duration: string,
    direction: string,
    from: string,
    to: string,
    startTime: int,
    endTime: Option<int>)

  /** The time stamp the demo mode reads from a call id: the text after the first
      `demo-call-` (up to a second one), read by `parseInt`; the current time when the
      id has no such prefix; `None` for NaN. */
  function DemoTimeStamp(callSid: string, now: int): Option<int> {
    match Text.SecondSplitPart(callSid, DemoPrefix)
    case None => Some(now)
    case Some(part) => Text.ParseInt(part)
  }

  /** The demo branch of `getCallStatus(callSid)` at time `now`. A time stamp that is
      NaN or out of range makes `new Date(timeStamp).toISOString()` throw. */
  function DemoCallStatus(env: Environment, callSid: string, now: int): (r: Result<StatusReport>)
    ensures r.Failure? <==> DemoTimeStamp(callSid, now).None? || DemoTimeStamp(callSid, now).value < -MaxTime
                            || DemoTimeStamp(callSid, now).value > MaxTime
    ensures r.Failure? ==> r.error == "Invalid time value"
    ensures r.Success? ==>
      var rep := r.value;
      && rep.callSid == callSid
      && rep.startTime == DemoTimeStamp(callSid, now).value
      && rep.status == DemoStatus(Some(now - rep.startTime))
      && (rep.status == Completed <==> rep.endTime == Some(now))
      && (rep.status != Completed <==> rep.endTime.None?)
      && (rep.status == Completed ==>
            Text.AllDigits(rep.duration) && Text.ParseDigits(rep.duration) == (now - rep.startTime) / 1000 && (now - rep.startTime) / 1000 >= 30)
      && (rep.status != Completed ==> rep.duration == "0")
  {
    var ts := DemoTimeStamp(callSid, now);
    var elapsed := if ts.Some? then Some(now - ts.value) else None;
    var status := DemoStatus(elapsed);
    if ts.None? || ts.value < -MaxTime || ts.value > MaxTime then Failure("Invalid time value")
    else if status == Completed then
      var seconds: nat := (now - ts.value) / 1000;
      Text.ParseNatToString(seconds);
      Success(StatusReport(callSid, status, Text.NatToString(seconds), "outbound-api", FromNumber(env), "+15559876543",
                           ts.value, Some(now)))
    else
      Success(StatusReport(callSid, status, "0", "outbound-api", FromNumber(env), "+15559876543", ts.value, None))
  }

  /** The time stamp of a demo id reads back whenever the status is asked for. */
  lemma DemoTimeStampOfIdAtAnyTime(t: nat)
    ensures forall now :: DemoTimeStamp(DemoPrefix + Text.NatToString(t), now) == Some(t)
  {
    forall now {
      DemoTimeStampOfId(t, now);
    }
  }

  /** The time stamp of a demo id is read back from the text after the prefix. */
  lemma DemoTimeStampOfId(t: nat, now: int)
    ensures DemoTimeStamp(DemoPrefix + Text.NatToString(t), now) == Some(t)
  {
    var digits := Text.NatToString(t);
    var sid := DemoPrefix + digits;
    assert Text.OccursAt(sid, DemoPrefix, 0);
    assert Text.IndexOf(sid, DemoPrefix, 0) == Some(0);
    forall k | |DemoPrefix| <= k
      ensures !Text.OccursAt(sid, DemoPrefix, k)
    {
      if k + |DemoPrefix| <= |sid| {
        assert sid[k] == digits[k - |DemoPrefix|] && Text.IsDigit(sid[k]);
        assert sid[k..k + |DemoPrefix|][0] == sid[k];
      }
    }
    assert sid[|DemoPrefix|..] == digits;
    Text.ParseIntOfNat(t);
  }

  /** A demo call asked about `elapsed` milliseconds after it was made reports the
      status for that time, starting at the moment it was made. */
  lemma DemoRoundTrip(env: Environment, expertPhoneNumber: string, created: nat, elapsed: int)
    requires created <= MaxTime
    ensures var info := DemoInitiate(env, expertPhoneNumber, created);
      var r := DemoCallStatus(env, info.callSid, created + elapsed);
      && r.Success?
      && r.value.startTime == created
      && r.value.status == DemoStatus(Some(elapsed))
  {
    DemoTimeStampOfId(created, created + elapsed);
  }
}
