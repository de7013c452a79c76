/** The Call record: its status enumeration and what the schema requires, defaults
    and normalises when a record is created (server/src/models/call.model.ts). */
module CallModel {
  import opened Wrappers
  import opened Mongoose
  import Text

  /** The lifecycle status of a call. */
  datatype CallStatus =
    | Pending | Dialing | Connected | InProgress | Summarizing | NeedsFollowup | Completed | Failed

  /** The string stored for each status. */
  function StatusText(s: CallStatus): string {
    match s
    case Pending => "pending"
    case Dialing => "dialing"
    case Connected => "connected"
    case InProgress => "in_progress"
    case Summarizing => "summarizing"
    case NeedsFollowup => "needs_followup"
    case Completed => "completed"
    case Failed => "failed"
  }

  /** `Object.values(CallStatus)`, in declaration order. */
  const AllStatuses: seq<CallStatus> :=
    [Pending, Dialing, Connected, InProgress, Summarizing, NeedsFollowup, Completed, Failed]

  /** The `enum` check of the schema: the status whose string is `t`, if any. */
  function ParseStatus(t: string): (r: Option<CallStatus>)
    ensures r.Some? ==> StatusText(r.value) == t
    ensures r.None? ==> forall s :: StatusText(s) != t
  {
    if t == "pending" then Some(Pending)
    else if t == "dialing" then Some(Dialing)
    else if t == "connected" then Some(Connected)
    else if t == "in_progress" then Some(InProgress)
    else if t == "summarizing" then Some(Summarizing)
    else if t == "needs_followup" then Some(NeedsFollowup)
    else if t == "completed" then Some(Completed)
    else if t == "failed" then Some(Failed)
    else None
  }

  /** There are exactly eight statuses, listed once each, with eight distinct strings,
      and parsing a status's string gives that status back. */
  lemma StatusEnumeration()
    ensures |AllStatuses| == 8
    ensures forall s :: s in AllStatuses
    ensures forall i, j :: 0 <= i < j < |AllStatuses| ==> StatusText(AllStatuses[i]) != StatusText(AllStatuses[j])
    ensures forall s :: ParseStatus(StatusText(s)) == Some(s)
  {
    forall s ensures s in AllStatuses && ParseStatus(StatusText(s)) == Some(s) {
      match s
      case Pending => assert AllStatuses[0] == s;
      case Dialing => assert AllStatuses[1] == s;
      case Connected => assert AllStatuses[2] == s;
      case InProgress => assert AllStatuses[3] == s;
      case Summarizing => assert AllStatuses[4] == s;
      case NeedsFollowup => assert AllStatuses[5] == s;
      case Completed => assert AllStatuses[6] == s;
      case Failed => assert AllStatuses[7] == s;
    }
  }

  /** A stored Call document. Optional fields are `None` when unset; times are
      milliseconds from the clock. */
  datatype Call = Call(
    id: Id,
    goal: string,
    expertId: Id,
    userId: Id,
    status: CallStatus,
    durationSeconds: Option<int>,
    recordingUrl: Option<string>,
    transcript: Option<string>,
    summary: Option<string>,
    failureReason: Option<string>,
    contextLinks: seq<string>,
    contextText: Option<string>,
    createdAt: int,
    updatedAt: int,
    completedAt: Option<int>)

  /** The fields handed to `Call.create`; `None` is an absent (undefined) field. */
  datatype CallInput = CallInput(
    goal: Option<string>,
    expertId: Option<Id>,
    userId: Option<Id>,
    status: Option<string>,
    contextLinks: Option<seq<string>>,
    contextText: Option<string>)

  /** The validators that fail, in schema order. The `trim` setter runs before
      `required`, so a blank goal is a missing goal. */
  function CallErrors(input: CallInput): seq<FieldError> {
    (if input.goal.None? || Text.Trim(input.goal.value) == "" then [FieldError("goal", "Goal is required")] else [])
    + (if input.expertId.None? then [FieldError("expertId", RequiredMessage("expertId"))] else [])
    + (if input.userId.None? then [FieldError("userId", RequiredMessage("userId"))] else [])
    + (if input.status.Some? && ParseStatus(input.status.value).None?
       then [FieldError("status", EnumMessage(input.status.value, "status"))] else [])
  }

  /** `Call.create(input)` with the identifier `id` at time `now`. */
  function CreateCall(input: CallInput, id: Id, now: int): (r: Result<Call>)
    ensures r.Success? <==>
      && input.goal.Some? && !Text.AllSpace(input.goal.value)
      && input.expertId.Some? && input.userId.Some?
      && (input.status.None? || ParseStatus(input.status.value).Some?)
    ensures r.Failure? ==> r.error == DocumentValidationMessage("Call", CallErrors(input))
    ensures r.Success? ==>
      var c := r.value;
      && c.id == id && c.goal == Text.Trim(input.goal.value) && c.goal != ""
      && c.expertId == input.expertId.value && c.userId == input.userId.value
      && StatusText(c.status) == input.status.GetOr(StatusText(Pending))
      && c.durationSeconds.None? && c.recordingUrl.None? && c.transcript.None?
      && c.summary.None? && c.failureReason.None? && c.completedAt.None?
      && c.contextLinks == input.contextLinks.GetOr([])
      && c.contextText == input.contextText
      && c.createdAt == now && c.updatedAt == now
  {
    var errs := CallErrors(input);
    if errs != [] then Failure(DocumentValidationMessage("Call", errs))
    else
      Success(Call(
        id, Text.Trim(input.goal.value), input.expertId.value, input.userId.value,
        if input.status.Some? then ParseStatus(input.status.value).value else Pending,
        None, None, None, None, None,
        input.contextLinks.GetOr([]), input.contextText,
        now, now, None))
  }
}
