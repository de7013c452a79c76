/** The call details page (src/pages/Calls/CallDetails.tsx): how the page chooses
    where a call comes from by its id, the record it builds from a provider answer,
    the duration text, which buttons it offers, and the three handlers
    that change the record shown. The client call service is not part of this model:
    what it answers is a parameter. */
module CallDetails {
  import opened Wrappers
  import opened CallModel
  import Text
  import Twilio

  /** A call as the page holds it. Times are ISO strings. */
  datatype DetailCall = DetailCall(
    id: string,
    goal: string,
    expertId: string,
    expertName: string,
    expertPhoneNumber: string,
    status: CallStatus,
    createdAt: string,
    completedAt: Option<string>,
    durationSeconds: Option<int>,
    summary: Option<string>,
    transcript: Option<string>,
    notes: Option<string>)

  // ---------------------------------------------------------------------------
  // formatDuration
  // ---------------------------------------------------------------------------

  /** JavaScript's `a % b` for `b > 0`: the remainder takes the sign of `a`. */
  function JsRem(a: int, b: int): (r: int)
    requires b > 0
    ensures a >= 0 ==> r == a % b
    ensures -b < r < b && (a < 0 ==> r <= 0)
    ensures (a - r) % b == 0
  {
    if a >= 0 then
      RemainderGap(a, b);
      a % b
    else
      RemainderGap(-a, b);
      -((-a) % b)
  }

  /** Taking its remainder from `n` leaves a multiple of `b`, and so does the
      negation of that difference. */
  lemma RemainderGap(n: int, b: int)
    requires b > 0
    ensures (n - n % b) % b == 0 && (-(n - n % b)) % b == 0
  {
    var q := n / b;
    assert n - n % b == b * q;
    MultipleMod(b, q);
    assert -(n - n % b) == b * -q;
    MultipleMod(b, -q);
  }

  /** A multiple of `b` leaves no remainder. */
  lemma MultipleMod(b: int, k: int)
    requires b > 0
    ensures (b * k) % b == 0
  {
    var m := b * k;
    var d := k - m / b;
    assert m % b == b * d;
    MultipleBounds(b, d);
  }

  /** A non-zero multiple of `b` is at least `b` away from zero. */
  lemma MultipleBounds(b: int, d: int)
    requires b > 0
    ensures d > 0 ==> b * d >= b
    ensures d < 0 ==> b * d <= -b
  {
  }

  /** `formatDuration(seconds)`: "N/A" for an absent or zero duration, otherwise the
      minutes (`Math.floor(seconds / 60)`, which Dafny's division by a positive
      number is) and the remainder padded with one '0' when below 10. */
  function FormatDuration(seconds: Option<int>): (r: string)
    ensures seconds.None? || seconds.value == 0 <==> r == "N/A"
  {
    if seconds.None? || seconds.value == 0 then "N/A"
    else
      var minutes := seconds.value / 60;
      var rest := JsRem(seconds.value, 60);
      Text.IntToString(minutes) + ":" + (if rest < 10 then "0" else "") + Text.IntToString(rest)
  }

  /** The two-character seconds field of a positive duration. */
  lemma SecondsField(rest: nat)
    requires rest < 60
    ensures var t := (if rest < 10 then "0" else "") + Text.NatToString(rest);
      |t| == 2 && Text.AllDigits(t) && Text.ParseDigits(t) == rest
  {
    var t := (if rest < 10 then "0" else "") + Text.NatToString(rest);
    Text.ParseNatToString(rest);
    if rest < 10 {
      assert t[..1] == "0";
    } else {
      assert Text.NatToString(rest) == Text.NatToString(rest / 10) + [Text.DigitChar(rest % 10)];
    }
  }

  /** A positive duration reads back as minutes, a colon and two digits of seconds
      below 60 that together give the duration. */
  lemma DurationRoundTrip(seconds: nat)
    requires seconds > 0
    ensures var r := FormatDuration(Some(seconds));
      && |r| >= 4 && r[|r| - 3] == ':'
      && Text.AllDigits(r[..|r| - 3]) && Text.AllDigits(r[|r| - 2..])
      && Text.ParseDigits(r[|r| - 2..]) < 60
      && Text.ParseDigits(r[..|r| - 3]) * 60 + Text.ParseDigits(r[|r| - 2..]) == seconds
  {
    FormatDurationShape(seconds);
    DurationFields(seconds);
  }

  /** A positive duration is its minutes, a colon and its padded seconds. */
  lemma FormatDurationShape(seconds: nat)
    requires seconds > 0
    ensures FormatDuration(Some(seconds)) == MinutesSeconds(seconds)
  {
    assert JsRem(seconds, 60) == seconds % 60;
  }

  /** "m:ss" for a duration in seconds. */
  function MinutesSeconds(seconds: nat): string {
    Text.NatToString(seconds / 60) + ":" + ((if seconds % 60 < 10 then "0" else "") + Text.NatToString(seconds % 60))
  }

  /** The fields of "m:ss" read back as the duration they were made from. */
  lemma DurationFields(seconds: nat)
    ensures var r := MinutesSeconds(seconds);
      && |r| >= 4 && r[|r| - 3] == ':'
      && Text.AllDigits(r[..|r| - 3]) && Text.AllDigits(r[|r| - 2..])
      && Text.ParseDigits(r[|r| - 2..]) < 60
      && Text.ParseDigits(r[..|r| - 3]) * 60 + Text.ParseDigits(r[|r| - 2..]) == seconds
  {
    var m := Text.NatToString(seconds / 60);
    var t := (if seconds % 60 < 10 then "0" else "") + Text.NatToString(seconds % 60);
    SecondsField(seconds % 60);
    Text.ParseNatToString(seconds / 60);
    ColonSplit(m, t);
  }

  /** Where the colon of "m:ss" sits, and the two fields it separates. */
  lemma ColonSplit(m: string, t: string)
    requires |m| >= 1 && |t| == 2
    ensures var r := m + ":" + t;
      |r| >= 4 && r[|r| - 3] == ':' && r[..|r| - 3] == m && r[|r| - 2..] == t
  {
    var r := m + ":" + t;
    assert r[..|r| - 3] == m;
    assert r[|r| - 2..] == t;
  }

  /** The example of the page's mock call: 352 seconds read "5:52". */
  lemma DurationExample()
    ensures FormatDuration(Some(352)) == "5:52"
  {
    assert Text.NatToString(5) == "5";
    assert Text.NatToString(52) == Text.NatToString(5) + "2";
  }

  // ---------------------------------------------------------------------------
  // Where a call comes from
  // ---------------------------------------------------------------------------

  datatype Source = Demo | Provider | Mock

  /** The branch `fetchCallDetails` takes for the route id `id` (`None` when the
      route has none). */
  function SourceOf(id: Option<string>): (r: Source)
    ensures r == Demo <==> id.Some? && Twilio.DemoPrefix <= id.value
    ensures r == Provider <==> id.Some? && !(Twilio.DemoPrefix <= id.value) && Text.Utf16Length(id.value) > 8
  {
    if Text.Truthy(id) && Twilio.DemoPrefix <= id.value then Demo
    else if Text.Truthy(id) && Text.Utf16Length(id.value) > 8 && !(Twilio.DemoPrefix <= id.value) then Provider
    else Mock
  }

  /** A call the demo mode of the telephony adapter started is shown from the demo
      path, whatever number it dialled and whenever it started. */
  lemma DemoCallsTakeDemoPath(env: Twilio.Environment, phone: string, now: nat)
    ensures SourceOf(Some(Twilio.DemoInitiate(env, phone, now).callSid)) == Demo
  {
  }

  /** The provider's call status as the page shows it. */
  function ProviderToStatus(status: string): (r: CallStatus)
    ensures r in {Pending, Dialing, InProgress, Completed, Failed}
    ensures r == Pending <==> status !in {"completed", "in-progress", "ringing", "failed"}
    ensures status == "completed" ==> r == Completed
    ensures status == "in-progress" ==> r == InProgress
    ensures status == "ringing" ==> r == Dialing
    ensures status == "failed" ==> r == Failed
  {
    if status == "completed" then Completed
    else if status == "in-progress" then InProgress
    else if status == "ringing" then Dialing
    else if status == "failed" then Failed
    else Pending
  }

  /** The place of a status in the lifecycle a call goes through. */
  function Stage(s: CallStatus): nat {
    match s
    case Pending => 0
    case Dialing => 1
    case Connected => 2
    case InProgress => 3
    case Summarizing => 4
    case NeedsFollowup => 5
    case Completed => 6
    case Failed => 7
  }

  /** The demo statuses the adapter reports are shown as pending, dialing, in
      progress and completed, and a later report is never shown as an earlier
      stage. */
  lemma DemoStatusesShownInOrder(e1: int, e2: int)
    requires e1 <= e2
    ensures var s1 := ProviderToStatus(Twilio.ProviderStatusText(Twilio.DemoStatus(Some(e1))));
      var s2 := ProviderToStatus(Twilio.ProviderStatusText(Twilio.DemoStatus(Some(e2))));
      && s1 in {Pending, Dialing, InProgress, Completed}
      && Stage(s1) <= Stage(s2)
  {
    Twilio.DemoStatusMonotone(e1, e2);
  }

  /** What the provider answers about a call. */
  datatype ProviderInfo = ProviderInfo(to: Option<string>, status: string, endTime: Option<string>, duration: string)

  /** The record built from a provider answer; `createdAt` is the current time. */
  function ProviderCall(id: string, info: ProviderInfo, now: string): (c: DetailCall)
    ensures c.id == id && c.status == ProviderToStatus(info.status) && c.completedAt == info.endTime
    ensures c.expertPhoneNumber == (if Text.Truthy(info.to) then info.to.value else "Unknown")
    ensures c.durationSeconds.Some? && (Text.ParseInt(info.duration).None? ==> c.durationSeconds == Some(0))
    ensures Text.ParseInt(info.duration).Some? ==> c.durationSeconds == Text.ParseInt(info.duration)
    ensures c.summary.None? && c.transcript.None? && c.notes.None?
  {
    DetailCall(
      id, "Phone call via Twilio", "101", "External Call",
      if Text.Truthy(info.to) then info.to.value else "Unknown",
      ProviderToStatus(info.status), now, info.endTime,
      Some(Text.ParseInt(info.duration).GetOr(0)), None, None, None)
  }

  /** A provider answer without a readable duration shows "N/A". */
  lemma UnreadableDurationShownAsMissing(id: string, info: ProviderInfo, now: string)
    requires Text.ParseInt(info.duration).None?
    ensures FormatDuration(ProviderCall(id, info, now).durationSeconds) == "N/A"
  {
  }

  /** The times and texts of the page's built-in sample call, which the page takes
      from the clock and from its own sample data. */
  datatype SampleTexts = SampleTexts(createdAt: string, completedAt: string, summary: string, transcript: string)

  const SampleNotes: string := "Follow up with client to inform about the approval. Make sure they receive the pre-approval letter."

  /** The built-in sample call shown for any other id (`'1'` without an id). */
  function SampleCall(id: Option<string>, texts: SampleTexts): (c: DetailCall)
    ensures c.status == Completed && c.durationSeconds == Some(352) && c.notes == Some(SampleNotes)
    ensures c.id == if Text.Truthy(id) then id.value else "1"
  {
    DetailCall(
      if Text.Truthy(id) then id.value else "1",
      "Check mortgage approval status", "101", "John Doe (Lender)", "(555) 123-4567", Completed,
      texts.createdAt, Some(texts.completedAt), Some(352), Some(texts.summary), Some(texts.transcript),
      Some(SampleNotes))
  }

  // ---------------------------------------------------------------------------
  // What the page shows
  // ---------------------------------------------------------------------------

  /** End Call is offered while the call is dialing, connected or in progress. */
  predicate OffersEndCall(s: CallStatus): (r: bool)
    ensures r <==> exists i :: 1 <= i <= 3 && AllStatuses[i] == s
  {
    assert AllStatuses[1] == Dialing && AllStatuses[2] == Connected && AllStatuses[3] == InProgress;
    s == InProgress || s == Connected || s == Dialing
  }

  /** Retry Call is offered for a failed call. */
  predicate OffersRetry(s: CallStatus): (r: bool)
    ensures r <==> StatusText(s) == "failed"
    ensures r ==> !OffersEndCall(s)
  {
    s == Failed
  }

  datatype Screen =
    | Loading
    | ErrorScreen(message: string)
    | NotFound
    | Details(call: DetailCall, endCall: bool, retry: bool)

  /** The screen for a page state: loading first, then an error, then a missing call. */
  function ScreenOf(loading: bool, error: Option<string>, call: Option<DetailCall>): (r: Screen)
    ensures r.Details? <==> !loading && !Text.Truthy(error) && call.Some?
    ensures r.Details? ==> r.call == call.value
    ensures r.Details? ==> (r.endCall <==> call.value.status in {Dialing, Connected, InProgress})
    ensures r.Details? ==> (r.retry <==> call.value.status == Failed) && !(r.endCall && r.retry)
  {
    if loading then Loading
    else if Text.Truthy(error) then ErrorScreen(error.value)
    else if call.None? then NotFound
    else Details(call.value, OffersEndCall(call.value.status), OffersRetry(call.value.status))
  }

  // ---------------------------------------------------------------------------
  // The page state and its handlers
  // ---------------------------------------------------------------------------

  class CallDetailsPage {
    const id: Option<string>
    var call: Option<DetailCall>
    var loading: bool
    var error: Option<string>
    var notes: string
    var savingNotes: bool
    var retryingCall: bool
    var endingCall: bool

    constructor(id: Option<string>)
      ensures this.id == id && call.None? && loading && error.None? && notes == ""
      ensures !savingNotes && !retryingCall && !endingCall
    {
      this.id := id;
      call := None;
      loading := true;
      error := None;
      notes := "";
      savingNotes := false;
      retryingCall := false;
      endingCall := false;
    }

    /** `fetchCallDetails`, where `demo` and `provider` are what the call service
        answers for the id on each path. A provider failure is only logged: the
        page keeps loading. */
    method Load(demo: Result<DetailCall>, provider: Result<ProviderInfo>, now: string, texts: SampleTexts)
      modifies this
      ensures savingNotes == old(savingNotes) && retryingCall == old(retryingCall) && endingCall == old(endingCall)
      ensures match SourceOf(id)
        case Demo =>
          && !loading
          && (demo.Success? ==> call == Some(demo.value) && notes == demo.value.notes.GetOr("") && error == old(error))
          && (demo.Failure? ==> error == Some("Failed to load call details. Please try again.")
                                && call == old(call) && notes == old(notes))
        case Provider =>
          && notes == old(notes) && error == old(error)
          && (provider.Success? ==> call == Some(ProviderCall(id.value, provider.value, now)) && !loading)
          && (provider.Failure? ==> call == old(call) && loading)
        case Mock =>
          call == Some(SampleCall(id, texts)) && notes == SampleNotes && !loading && error == old(error)
    {
      loading := true;
      match SourceOf(id)
      case Demo =>
        if demo.Success? {
          call := Some(demo.value);
          notes := demo.value.notes.GetOr("");
        } else {
          error := Some("Failed to load call details. Please try again.");
        }
        loading := false;
      case Provider =>
        if provider.Success? {
          call := Some(ProviderCall(id.value, provider.value, now));
          loading := false;
        }
      case Mock =>
        var sample := SampleCall(id, texts);
        call := Some(sample);
        notes := sample.notes.GetOr("");
        loading := false;
    }

    /** The notes text area. */
    method EditNotes(value: string)
      modifies this
      ensures notes == value
      ensures call == old(call) && loading == old(loading) && error == old(error)
      ensures savingNotes == old(savingNotes) && retryingCall == old(retryingCall) && endingCall == old(endingCall)
    {
      notes := value;
    }

    /** `handleSaveNotes`: the call's notes become the text area's, nothing else. */
    method SaveNotes()
      modifies this
      ensures call == if old(call).Some? then Some(old(call).value.(notes := Some(old(notes)))) else None
      ensures !savingNotes
      ensures notes == old(notes) && loading == old(loading) && error == old(error)
      ensures retryingCall == old(retryingCall) && endingCall == old(endingCall)
    {
      savingNotes := true;
      if call.Some? {
        call := Some(call.value.(notes := Some(notes)));
      }
      savingNotes := false;
    }

    /** `handleRetryCall`: the call goes back to pending, nothing else changes. */
    method RetryCall()
      modifies this
      ensures call == if old(call).Some? then Some(old(call).value.(status := Pending)) else None
      ensures !retryingCall
      ensures notes == old(notes) && loading == old(loading) && error == old(error)
      ensures savingNotes == old(savingNotes) && endingCall == old(endingCall)
    {
      retryingCall := true;
      if call.Some? {
        call := Some(call.value.(status := Pending));
      }
      retryingCall := false;
    }

    /** `handleEndCall`, where `ended` is what the call service answers and `now` the
        current time: nothing without a call or an id; on success the call is
        completed at `now` and nothing else changes; on failure the error is shown. */
    method EndCall(ended: Outcome, now: string)
      modifies this
      ensures old(call).None? || !Text.Truthy(id) ==>
        call == old(call) && error == old(error) && endingCall == old(endingCall)
      ensures old(call).Some? && Text.Truthy(id) && ended.Pass? ==>
        call == Some(old(call).value.(status := Completed, completedAt := Some(now))) && error == old(error)
        && !endingCall
      ensures old(call).Some? && Text.Truthy(id) && ended.Fail? ==>
        call == old(call) && error == Some(if ended.error == "" then "Error ending call" else ended.error)
        && !endingCall
      ensures notes == old(notes) && loading == old(loading)
      ensures savingNotes == old(savingNotes) && retryingCall == old(retryingCall)
    {
      if call.None? || !Text.Truthy(id) {
        return;
      }
      endingCall := true;
      match ended {
        case Pass =>
          call := Some(call.value.(status := Completed, completedAt := Some(now)));
        case Fail(message) =>
          error := Some(if message == "" then "Error ending call" else message);
      }
      endingCall := false;
    }
  }
}
