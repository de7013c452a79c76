/** The call endpoints (server/src/controllers/call.controller.ts): creating a call
    for one of the requester's experts, and the owner-scoped lookups of a call, of
    the requester's calls, of a transcript and of a recording. Identifiers in the
    request are taken to be well-formed. */
module CallController {
  import opened Wrappers
  import opened Mongoose
  import opened CallModel
  import opened ExpertModel
  import opened Store
  import opened Http
  import Sequences
  import Text

  /** The request body of `POST /api/calls/initiate`; `None` is an absent field. */
  datatype InitiateBody = InitiateBody(
    goal: Option<string>,
    expertId: Option<Id>,
    contextLinks: Option<seq<string>>,
    contextText: Option<string>)

  /** The fields handed to `Call.create`. */
  function InitiateInput(body: InitiateBody, requester: Id): CallInput {
    CallInput(
      body.goal, body.expertId, Some(requester), Some(StatusText(Pending)),
      Some(body.contextLinks.GetOr([])),
      Some(if Text.Truthy(body.contextText) then body.contextText.value else ""))
  }

  /** `initiateCall`: 400 without a goal or an expert, 404 when the expert is not the
      requester's, 500 when the record does not validate (a goal of white space
      only), and otherwise 201 with the new pending record. The orchestrator is
      started without being awaited, so the reply and the store are as they are
      right after the record is created. */
  method InitiateCall(db: Database, requester: Id, body: InitiateBody, now: int) returns (reply: Reply<Call>)
    requires db.Valid()
    modifies db
    ensures db.Valid()
    ensures db.experts == old(db.experts) && db.users == old(db.users)
    ensures !Text.Truthy(body.goal) || body.expertId.None? ==>
      reply == Error(400, "Goal and expert ID are required")
    ensures Text.Truthy(body.goal) && body.expertId.Some? && !OwnsExpert(old(db.experts), requester, body.expertId.value) ==>
      reply == Error(404, "Expert not found")
    ensures Text.Truthy(body.goal) && body.expertId.Some? && OwnsExpert(old(db.experts), requester, body.expertId.value)
            && Text.AllSpace(body.goal.value) ==>
      reply == Error(500, DocumentValidationMessage("Call", [FieldError("goal", "Goal is required")]))
    ensures reply.Error? ==> db.calls == old(db.calls)
    ensures reply.Reply? <==>
      && Text.Truthy(body.goal) && !Text.AllSpace(body.goal.value) && body.expertId.Some?
      && OwnsExpert(old(db.experts), requester, body.expertId.value)
    ensures reply.Reply? ==>
      var c := reply.data;
      && reply.code == 201
      && c.id !in old(db.calls) && db.calls == old(db.calls)[c.id := c]
      && c.status == Pending && c.userId == requester && c.expertId == body.expertId.value
      && c.goal == Text.Trim(body.goal.value)
      && c.contextLinks == body.contextLinks.GetOr([])
      && c.contextText == Some(if Text.Truthy(body.contextText) then body.contextText.value else "")
      && c.transcript.None? && c.summary.None? && c.completedAt.None?
      && GetCallById(db.calls, requester, c.id) == Reply(200, c)
  {
    if !Text.Truthy(body.goal) || body.expertId.None? {
      return Error(400, "Goal and expert ID are required");
    }
    if !OwnsExpert(db.experts, requester, body.expertId.value) {
      return Error(404, "Expert not found");
    }
    var id := db.NewId();
    var created := CreateCall(InitiateInput(body, requester), id, now);
    if created.Failure? {
      return ServerError(created.error, "Error initiating call");
    }
    db.PutCall(created.value);
    return Reply(201, created.value);
  }

  /** `getCallById`: the call when it exists and is the requester's, 404 otherwise. */
  function GetCallById(calls: map<Id, Call>, requester: Id, callId: Id): (r: Reply<Call>)
    ensures r.Reply? <==> OwnsCall(calls, requester, callId)
    ensures r.Reply? ==> r.code == 200 && r.data == calls[callId] && r.data.userId == requester
    ensures r.Error? ==> r == Error(404, "Call not found")
  {
    if OwnsCall(calls, requester, callId) then Reply(200, calls[callId]) else Error(404, "Call not found")
  }

  /** `getCallTranscript`: the transcript of one of the requester's calls, when it has
      a non-empty one. */
  function GetCallTranscript(calls: map<Id, Call>, requester: Id, callId: Id): (r: Reply<(Id, string)>)
    ensures r.Reply? <==> OwnsCall(calls, requester, callId) && Text.Truthy(calls[callId].transcript)
    ensures r.Reply? ==> r.code == 200 && r.data == (callId, calls[callId].transcript.value)
    ensures !OwnsCall(calls, requester, callId) ==> r == Error(404, "Call not found")
    ensures OwnsCall(calls, requester, callId) && !Text.Truthy(calls[callId].transcript) ==>
      r == Error(404, "Transcript not available for this call")
  {
    match GetCallById(calls, requester, callId)
    case Error(code, message) => Error(code, message)
    case Reply(_, call) =>
      if !Text.Truthy(call.transcript) then Error(404, "Transcript not available for this call")
      else Reply(200, (callId, call.transcript.value))
  }

  /** `getCallRecording`: the recording address of one of the requester's calls,
      when it has a non-empty one. */
  function GetCallRecording(calls: map<Id, Call>, requester: Id, callId: Id): (r: Reply<(Id, string)>)
    ensures r.Reply? <==> OwnsCall(calls, requester, callId) && Text.Truthy(calls[callId].recordingUrl)
    ensures r.Reply? ==> r.code == 200 && r.data == (callId, calls[callId].recordingUrl.value)
    ensures !OwnsCall(calls, requester, callId) ==> r == Error(404, "Call not found")
    ensures OwnsCall(calls, requester, callId) && !Text.Truthy(calls[callId].recordingUrl) ==>
      r == Error(404, "Recording not available for this call")
  {
    match GetCallById(calls, requester, callId)
    case Error(code, message) => Error(code, message)
    case Reply(_, call) =>
      if !Text.Truthy(call.recordingUrl) then Error(404, "Recording not available for this call")
      else Reply(200, (callId, call.recordingUrl.value))
  }

  /** The query of `getUserCalls`: the requester's calls, with the given status when a
      non-empty one is supplied. */
  predicate Selected(c: Call, requester: Id, status: Option<string>) {
    c.userId == requester && (!Text.Truthy(status) || StatusText(c.status) == status.value)
  }

  /** `.sort({ createdAt: -1 })`. */
  predicate NewestFirst(a: Call, b: Call) {
    a.createdAt >= b.createdAt
  }

  /** `getUserCalls` over the documents with identifiers below `nextId`. */
  function GetUserCalls(calls: map<Id, Call>, nextId: nat, requester: Id, status: Option<string>)
    : (r: Listing<Call>)
    ensures r.count == |r.data|
    ensures forall c :: c in r.data ==> c in calls.Values && Selected(c, requester, status)
    ensures forall k :: k < nextId && k in calls && Selected(calls[k], requester, status) ==> calls[k] in r.data
    ensures Sequences.Sorted(r.data, NewestFirst)
    ensures (forall k :: k in calls ==> calls[k].id == k) ==>
      forall i, j :: 0 <= i < j < |r.data| ==> r.data[i].id != r.data[j].id
  {
    var keep := (c: Call) => Selected(c, requester, status);
    var found := Scan(calls, nextId, keep);
    var sorted := Sequences.InsertionSort(found, NewestFirst);
    Sequences.InsertionSortCorrect(found, NewestFirst);
    assert forall k :: k < nextId && k in calls && Selected(calls[k], requester, status) ==> calls[k] in sorted by {
      forall k | k < nextId && k in calls && Selected(calls[k], requester, status)
        ensures calls[k] in sorted
      {
        ScanComplete(calls, nextId, keep, k);
        assert calls[k] in multiset(found);
      }
    }
    assert forall c :: c in sorted ==> c in found by {
      forall c | c in sorted ensures c in found {
        assert c in multiset(sorted);
      }
    }
    var key := (c: Call) => c.id;
    if forall k :: k in calls ==> calls[k].id == k then
      ScanIncreasing(calls, nextId, keep, key);
      Sequences.InsertionSortDistinct(found, NewestFirst, key);
      Listing(|sorted|, sorted)
    else
      Listing(|sorted|, sorted)
  }

  /** A requester only ever sees their own calls. */
  lemma OwnershipIsolation(calls: map<Id, Call>, nextId: nat, requester: Id, callId: Id, status: Option<string>)
    ensures GetCallById(calls, requester, callId).Reply? ==> GetCallById(calls, requester, callId).data.userId == requester
    ensures forall c :: c in GetUserCalls(calls, nextId, requester, status).data ==> c.userId == requester
    ensures GetCallTranscript(calls, requester, callId).Reply? ==> calls[callId].userId == requester
    ensures GetCallRecording(calls, requester, callId).Reply? ==> calls[callId].userId == requester
  {
  }

  /** Filtering by status keeps exactly the unfiltered list's calls with that status. */
  lemma StatusFilterNarrows(calls: map<Id, Call>, nextId: nat, requester: Id, status: string)
    requires forall k :: k in calls ==> k < nextId
    requires status != ""
    ensures forall c :: c in GetUserCalls(calls, nextId, requester, Some(status)).data <==>
      c in GetUserCalls(calls, nextId, requester, None).data && StatusText(c.status) == status
  {
    var all := GetUserCalls(calls, nextId, requester, None).data;
    var some := GetUserCalls(calls, nextId, requester, Some(status)).data;
    forall c | c in some ensures c in all {
      var k :| k in calls && calls[k] == c;
      assert Selected(calls[k], requester, None);
    }
    forall c | c in all && StatusText(c.status) == status ensures c in some {
      var k :| k in calls && calls[k] == c;
      assert Selected(calls[k], requester, Some(status));
    }
  }
}
