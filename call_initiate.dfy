/** The new-call wizard (src/pages/Calls/CallInitiate.tsx): choose an expert, state
    the goal, review and start the call. The call service is not part of this model:
    its answer is a parameter, and the requests sent to it are recorded. */
module CallInitiate {
  import opened Wrappers
  import opened ExpertModel
  import Text
  import Format
  import Twilio
  import CallDetails

  /** An expert as the wizard holds it. */
  datatype PickableExpert = PickableExpert(
    id: string,
    name: string,
    phoneNumber: string,
    expertType: ExpertType,
    company: Option<string>)

  /** The index of the first expert with identifier `id`. */
  function FirstWithId(experts: seq<PickableExpert>, id: string): (r: Option<nat>)
    ensures r.Some? ==> r.value < |experts| && experts[r.value].id == id
    ensures r.Some? ==> forall k :: 0 <= k < r.value ==> experts[k].id != id
    ensures r.None? <==> forall k :: 0 <= k < |experts| ==> experts[k].id != id
  {
    if experts == [] then None
    else if experts[0].id == id then Some(0)
    else match FirstWithId(experts[1..], id)
      case None => None
      case Some(k) => Some(k + 1)
  }

  /** The effect on `[selectedExpertId, experts]`: the first expert with the chosen
      identifier, none when no identifier is chosen or none matches. */
  function SelectedExpert(experts: seq<PickableExpert>, selectedId: string): (r: Option<PickableExpert>)
    ensures r.Some? <==> selectedId != "" && exists k :: 0 <= k < |experts| && experts[k].id == selectedId
    ensures r.Some? ==> r.value in experts && r.value.id == selectedId
    ensures r.Some? ==> exists k :: (0 <= k < |experts| && experts[k] == r.value
      && forall j :: 0 <= j < k ==> experts[j].id != selectedId)
  {
    if selectedId == "" then None
    else match FirstWithId(experts, selectedId)
      case None => None
      case Some(k) => Some(experts[k])
  }

  /** `formatExpertType(type)`. */
  function FormatExpertType(t: ExpertType): (r: string)
    ensures |r| == |TypeText(t)|
    ensures forall i :: 0 <= i < |r| ==> r[i] != '_'
  {
    Format.TitleCase(TypeText(t))
  }

  /** Step 1's Next is enabled. */
  predicate CanLeaveExpertStep(selectedId: string, experts: seq<PickableExpert>) {
    selectedId != "" && |experts| != 0
  }

  /** Step 2's Next is enabled. */
  predicate CanLeaveGoalStep(goal: string) {
    Text.Trim(goal) != ""
  }

  const NoExpertMessage: string := "Please select an expert"
  const NoGoalMessage: string := "Please enter a goal for the call"
  const InitiateErrorMessage: string := "Error initiating call"

  /** The validation of `handleSubmit`: the expert is checked before the goal. */
  function SubmitCheck(selected: Option<PickableExpert>, goal: string): (r: Outcome)
    ensures r == Fail(NoExpertMessage) <==> selected.None?
    ensures r == Fail(NoGoalMessage) <==> selected.Some? && Text.AllSpace(goal)
    ensures r.Pass? <==> selected.Some? && !Text.AllSpace(goal)
  {
    if selected.None? then Fail(NoExpertMessage)
    else if Text.Trim(goal) == "" then Fail(NoGoalMessage)
    else Pass
  }

  /** The identifier of the details page opened after a call starts: the provider's
      call identifier, or a demo identifier made from the clock. */
  function StartedCallId(callSid: Option<string>, now: int): (r: string)
    ensures Text.Truthy(callSid) ==> r == callSid.value
    ensures !Text.Truthy(callSid) ==> Twilio.DemoPrefix <= r
    ensures !Text.Truthy(callSid) && now >= 0 ==> forall t :: Twilio.DemoTimeStamp(r, t) == Some(now)
  {
    if Text.Truthy(callSid) then callSid.value
    else if now >= 0 then
      Twilio.DemoTimeStampOfIdAtAnyTime(now);
      Twilio.DemoPrefix + Text.IntToString(now)
    else Twilio.DemoPrefix + Text.IntToString(now)
  }

  /** A call that comes back without an identifier is shown from the demo path of
      the details page. */
  lemma FallbackOpensDemoPath(callSid: Option<string>, now: int)
    requires !Text.Truthy(callSid)
    ensures CallDetails.SourceOf(Some(StartedCallId(callSid, now))) == CallDetails.Demo
  {
    var id := StartedCallId(callSid, now);
    assert id[..|Twilio.DemoPrefix|] == Twilio.DemoPrefix;
  }

  /** What the wizard hands the call service. */
  datatype InitiateRequest = InitiateRequest(phoneNumber: string, expertId: string, expertName: string, goal: string)

  /** What `handleSubmit` does to the page: the error it shows (`None` clears it),
      the request it sends, if any, and the page it opens, if any. */
  datatype SubmitEffect = SubmitEffect(error: Option<string>, request: Option<InitiateRequest>, opens: Option<string>)

  /** `handleSubmit` as a function of the selected expert, the goal, the call
      service's answer and the clock: a failed check shows its message and sends
      nothing; otherwise one request goes out with the goal as typed, and the page
      either opens the started call or shows the service's error. */
  function SubmitOutcome(selected: Option<PickableExpert>, goal: string, answer: Result<Option<string>>, now: int): (r: SubmitEffect)
    ensures r.request.None? <==> SubmitCheck(selected, goal).Fail?
    ensures r.request.None? ==> r.error == Some(SubmitCheck(selected, goal).error) && r.opens.None?
    ensures r.request.Some? ==>
      && selected.Some?
      && r.request.value == InitiateRequest(selected.value.phoneNumber, selected.value.id, selected.value.name, goal)
      && (r.opens.Some? <==> answer.Success?)
      && (r.error.None? <==> answer.Success?)
    ensures r.opens.Some? ==> r.opens.value == "/calls/" + StartedCallId(answer.value, now)
    ensures r.error.Some? && answer.Failure? && r.request.Some? ==>
      r.error.value == if answer.error == "" then InitiateErrorMessage else answer.error
  {
    var check := SubmitCheck(selected, goal);
    if check.Fail? then SubmitEffect(Some(check.error), None, None)
    else
      var e := selected.value;
      var request := Some(InitiateRequest(e.phoneNumber, e.id, e.name, goal));
      match answer
      case Success(callSid) => SubmitEffect(None, request, Some("/calls/" + StartedCallId(callSid, now)))
      case Failure(message) =>
        SubmitEffect(Some(if message == "" then InitiateErrorMessage else message), request, None)
  }

  /** The invariant of the wizard's state. */
  predicate WizardInvariant(step: int, experts: seq<PickableExpert>, selectedExpertId: string,
                            selectedExpert: Option<PickableExpert>, loading: bool, goal: string)
  {
    && 1 <= step <= 3
    && selectedExpert == SelectedExpert(experts, selectedExpertId)
    && (selectedExpertId != "" ==> selectedExpert.Some?)
    && (loading ==> step == 1 && selectedExpertId == "")
    && (step >= 2 ==> selectedExpert.Some? && !loading)
    && (step == 3 ==> !Text.AllSpace(goal))
  }

  class CallInitiatePage {
    var step: int
    var experts: seq<PickableExpert>
    var selectedExpertId: string
    var selectedExpert: Option<PickableExpert>
    var goal: string
    var loading: bool
    var initiatingCall: bool
    var error: Option<string>
    var requests: seq<InitiateRequest>
    var location: Option<string>

    /** The step is 1, 2 or 3; the selected expert is the effect's result; a later
        step is reached only with an expert chosen, and the review step only with a
        goal that is not blank. */
    predicate Valid()
      reads this`step, this`experts, this`selectedExpertId, this`selectedExpert, this`loading, this`goal
    {
      WizardInvariant(step, experts, selectedExpertId, selectedExpert, loading, goal)
    }

    constructor()
      ensures Valid()
      ensures step == 1 && experts == [] && selectedExpertId == "" && goal == "" && loading
      ensures !initiatingCall && error.None? && requests == [] && location.None?
    {
      step := 1;
      experts := [];
      selectedExpertId := "";
      selectedExpert := None;
      goal := "";
      loading := true;
      initiatingCall := false;
      error := None;
      requests := [];
      location := None;
    }

    /** The fetch effect, with `fetched` the list it builds. */
    method Loaded(fetched: seq<PickableExpert>)
      requires Valid() && loading
      modifies this
      ensures Valid()
      ensures experts == fetched && !loading
      ensures step == old(step) && selectedExpertId == old(selectedExpertId) && goal == old(goal)
      ensures error == old(error) && requests == old(requests) && location == old(location)
    {
      experts := fetched;
      loading := false;
      selectedExpert := SelectedExpert(experts, selectedExpertId);
    }

    /** `handleExpertSelect` followed by the selection effect. The list offers the
        empty choice and the experts' identifiers. */
    method SelectExpert(value: string)
      requires Valid() && !loading && step == 1
      requires value == "" || exists k :: 0 <= k < |experts| && experts[k].id == value
      modifies this
      ensures Valid()
      ensures selectedExpertId == value && selectedExpert == SelectedExpert(experts, value)
      ensures step == old(step) && experts == old(experts) && goal == old(goal) && loading == old(loading)
      ensures error == old(error) && requests == old(requests) && location == old(location)
    {
      selectedExpertId := value;
      selectedExpert := SelectedExpert(experts, selectedExpertId);
    }

    /** `handleGoalChange`, on the goal step. */
    method ChangeGoal(value: string)
      requires Valid() && step == 2
      modifies this
      ensures Valid()
      ensures goal == value
      ensures step == old(step) && experts == old(experts) && selectedExpertId == old(selectedExpertId)
      ensures selectedExpert == old(selectedExpert) && loading == old(loading)
      ensures error == old(error) && requests == old(requests) && location == old(location)
    {
      goal := value;
    }

    /** The Next button of steps 1 and 2; a disabled button does nothing. */
    method Next()
      requires Valid() && !loading && (step == 1 || step == 2)
      modifies this
      ensures Valid()
      ensures step == if old(step) == 1 then (if CanLeaveExpertStep(selectedExpertId, experts) then 2 else 1)
                      else (if CanLeaveGoalStep(goal) then 3 else 2)
      ensures experts == old(experts) && selectedExpertId == old(selectedExpertId) && goal == old(goal)
      ensures selectedExpert == old(selectedExpert) && loading == old(loading)
      ensures error == old(error) && requests == old(requests) && location == old(location)
    {
      if step == 1 && CanLeaveExpertStep(selectedExpertId, experts) {
        step := 2;
      } else if step == 2 && CanLeaveGoalStep(goal) {
        step := 3;
      }
    }

    /** The Back button of steps 2 and 3. */
    method Back()
      requires Valid() && (step == 2 || step == 3)
      modifies this
      ensures Valid()
      ensures step == old(step) - 1
      ensures experts == old(experts) && selectedExpertId == old(selectedExpertId) && goal == old(goal)
      ensures selectedExpert == old(selectedExpert) && loading == old(loading)
      ensures error == old(error) && requests == old(requests) && location == old(location)
    {
      step := step - 1;
    }

    /** `handleSubmit`, where `answer` is the call service's answer (the call's
        identifier, if it gives one) and `now` the clock. The flag that disables
        the button is set while the request is out and cleared afterwards. */
    method Submit(answer: Result<Option<string>>, now: int)
      requires Valid()
      modifies this`error, this`requests, this`location, this`initiatingCall
      ensures Valid()
      ensures var out := SubmitOutcome(old(selectedExpert), old(goal), answer, now);
        && error == out.error
        && requests == old(requests) + (if out.request.Some? then [out.request.value] else [])
        && location == (if out.opens.Some? then out.opens else old(location))
        && initiatingCall == (old(initiatingCall) && out.request.None?)
      ensures old(step) == 3 ==> SubmitCheck(old(selectedExpert), old(goal)).Pass?
      ensures step == old(step) && experts == old(experts) && selectedExpertId == old(selectedExpertId)
      ensures goal == old(goal) && selectedExpert == old(selectedExpert) && loading == old(loading)
    {
      var out := SubmitOutcome(selectedExpert, goal, answer, now);
      Apply(out);
    }

    /** Puts a submission's effect on the page. */
    method Apply(out: SubmitEffect)
      requires Valid()
      modifies this`error, this`requests, this`location, this`initiatingCall
      ensures Valid()
      ensures error == out.error
      ensures requests == old(requests) + (if out.request.Some? then [out.request.value] else [])
      ensures location == (if out.opens.Some? then out.opens else old(location))
      ensures initiatingCall == (old(initiatingCall) && out.request.None?)
    {
      error := out.error;
      if out.request.Some? {
        requests := requests + [out.request.value];
        initiatingCall := false;
      }
      if out.opens.Some? {
        location := out.opens;
      }
    }

  }
}
