/** The call orchestrator (server/src/services/call.service.ts): it writes the call's
    status step by step (dialing, connected, in progress, summarizing), saves a
    placeholder transcript and summary with the final status, and turns any error
    into a `failed` record.

    The waits between steps are left out, so every write of one run sees the same
    clock value `now`. Which store operations throw, and with what message, is the
    parameter `throws`. */
module CallService {
  import opened Wrappers
  import opened Mongoose
  import opened CallModel
  import opened ExpertModel
  import opened Store
  import Text

  // ---------------------------------------------------------------------------
  // Generated texts
  // ---------------------------------------------------------------------------

  /** The context sentence: present only when the call has non-empty context. */
  function ContextClause(contextText: Option<string>): (r: string)
    ensures r == "" <==> contextText.None? || contextText.value == ""
    ensures r != "" ==> r == "They provided the following context: " + contextText.value
  {
    if contextText.Some? && contextText.value != "" then
      "They provided the following context: " + contextText.value
    else ""
  }

  /** The tag that opens a line the expert speaks. */
  function Speaker(expertName: string): string {
    "[" + expertName + "]: "
  }

  // The fixed text of the transcript template, between the filled-in slots.
  const Piece0: string := "\n[AI Assistant]: Hi, this is an AI assistant calling from ExpertAssist AI on behalf of "
  const Piece1: string := " regarding "
  const Piece2: string := ". Is now a good time?\n\n"
  const Piece3: string := "Yes, I have a few minutes. What can I help with?\n\n[AI Assistant]: Great, thank you. "
  const Piece4: string := " wanted me to ask you about "
  const Piece5: string := ". "
  const Piece6: string := "\n\n"
  const Piece7: string := "I see. Well, regarding "
  const Piece8: string := ", I can tell you that we typically handle this by following these steps...\n\n[AI Assistant]: That's helpful information. Could you also let me know about the timeline for this process?\n\n"
  const Piece9: string := "Certainly. The timeline usually depends on several factors, but in general...\n\n[AI Assistant]: Thank you for that explanation. Is there anything else "
  const Piece10: string := " should know or prepare regarding this matter?\n\n"
  const Piece11: string := "Yes, they should make sure to have these documents ready...\n\n[AI Assistant]: I've made note of all that information. Is there a best time for "
  const Piece12: string := " to reach out if they have follow-up questions?\n\n"
  const Piece13: string := "They can call me anytime during business hours, or email is sometimes better for detailed questions.\n\n[AI Assistant]: Great, I'll pass that along. Thank you so much for your time today. I'll make sure "
  const Piece14: string := " gets all this information.\n\n"
  const Piece15: string := "You're welcome. Goodbye.\n\n[AI Assistant]: Goodbye.\n"

  /** The pieces of the transcript template, in order: the greeting, the request
      with its context sentence, and the rest of the dialogue. */
  function TranscriptParts(goal: string, expertName: string, fullName: string, contextText: Option<string>): seq<string> {
    Greeting(goal, fullName) + Request(goal, expertName, fullName, contextText) + Remainder(goal, expertName, fullName)
  }

  function Greeting(goal: string, fullName: string): seq<string> {
    [Piece0, fullName, Piece1, goal, Piece2]
  }

  function Request(goal: string, expertName: string, fullName: string, contextText: Option<string>): seq<string> {
    [Speaker(expertName), Piece3, fullName, Piece4, goal, Piece5, ContextClause(contextText), Piece6]
  }

  function Remainder(goal: string, expertName: string, fullName: string): seq<string> {
    [ Speaker(expertName), Piece7, goal,
      Piece8,
      Speaker(expertName), Piece9,
      fullName, Piece10,
      Speaker(expertName), Piece11,
      fullName, Piece12,
      Speaker(expertName), Piece13,
      fullName, Piece14,
      Speaker(expertName), Piece15 ]
  }

  /** `generatePlaceholderTranscript(call, expert, user)`: a fixed dialogue between
      the assistant and the expert about the call's goal. */
  function Transcript(goal: string, expertName: string, firstName: string, lastName: string,
                      contextText: Option<string>): (r: string)
    ensures Piece0 + (firstName + " " + lastName) + Piece1 + goal + Piece2 <= r
  {
    var parts := TranscriptParts(goal, expertName, firstName + " " + lastName, contextText);
    Text.ConcatPrefix(parts, 5);
    GreetingText(parts[..5]);
    Text.Concat(parts)
  }

  /** The five pieces of the greeting, joined. */
  lemma GreetingText(g: seq<string>)
    requires |g| == 5
    ensures Text.Concat(g) == g[0] + g[1] + g[2] + g[3] + g[4]
  {
    var t1, t2, t3, t4 := g[1..], g[2..], g[3..], g[4..];
    assert t1[1..] == t2 && t2[1..] == t3 && t3[1..] == t4 && t4[1..] == [];
    assert Text.Concat(t4) == g[4];
    assert Text.Concat(t3) == g[3] + g[4];
    assert Text.Concat(t2) == g[2] + (g[3] + g[4]);
    assert Text.Concat(t1) == g[1] + (g[2] + (g[3] + g[4]));
  }

  /** The transcript names the goal and the user's full name, gives the expert a
      line to speak, and carries the context sentence whenever the context text is
      non-empty. */
  lemma TranscriptMentions(goal: string, expertName: string, firstName: string, lastName: string,
                           contextText: Option<string>)
    ensures var t := Transcript(goal, expertName, firstName, lastName, contextText);
      && Text.Contains(t, goal)
      && Text.Contains(t, Speaker(expertName))
      && Text.Contains(t, firstName + " " + lastName)
      && (contextText.Some? && contextText.value != "" ==>
            Text.Contains(t, "They provided the following context: " + contextText.value))
  {
    var fullName := firstName + " " + lastName;
    TranscriptHasPart(goal, expertName, fullName, contextText, 1);
    TranscriptHasPart(goal, expertName, fullName, contextText, 3);
    TranscriptHasPart(goal, expertName, fullName, contextText, 5);
    assert TranscriptParts(goal, expertName, fullName, contextText)[5] == Speaker(expertName);
    TranscriptHasPart(goal, expertName, fullName, contextText, 11);
  }

  /** Each piece of the template occurs in the transcript. */
  lemma TranscriptHasPart(goal: string, expertName: string, fullName: string, contextText: Option<string>, i: nat)
    requires i < 31
    ensures |TranscriptParts(goal, expertName, fullName, contextText)| == 31
    ensures Text.Contains(Text.Concat(TranscriptParts(goal, expertName, fullName, contextText)),
                          TranscriptParts(goal, expertName, fullName, contextText)[i])
  {
    Text.ConcatContains(TranscriptParts(goal, expertName, fullName, contextText), i);
  }

  /** An empty context and an absent one give the same transcript. */
  lemma TranscriptEmptyContext(goal: string, expertName: string, firstName: string, lastName: string)
    ensures Transcript(goal, expertName, firstName, lastName, Some(""))
         == Transcript(goal, expertName, firstName, lastName, None)
  {
    assert ContextClause(Some("")) == ContextClause(None);
    assert TranscriptParts(goal, expertName, firstName + " " + lastName, Some(""))
        == TranscriptParts(goal, expertName, firstName + " " + lastName, None);
  }

  const SummaryHeading: string := "\nSummary of Call Regarding: "

  const SummaryBody: string :=
    "\n\nKey Information Gathered:\n"
    + "- The expert explained the standard process for handling this request\n"
    + "- Timeline depends on several factors, but generally takes [X] time\n"
    + "- You should prepare the following documents: [Document List]\n\n"
    + "Action Items:\n"
    + "- Prepare required documents\n"
    + "- Follow up with the expert via email for detailed questions\n"
    + "- Next steps should be taken within [timeframe]\n\n"
    + "The expert is available during regular business hours for follow-up questions, with email preferred for detailed inquiries.\n"

  /** `generateSummary(transcript, goal)`: a fixed summary under a heading naming
      the goal. The transcript is not read. */
  function Summary(goal: string): (r: string)
    ensures SummaryHeading + goal <= r
    ensures |r| == |SummaryHeading| + |goal| + |SummaryBody|
  {
    SummaryHeading + goal + SummaryBody
  }

  /** Different goals give different summaries. */
  lemma SummaryInjective(g1: string, g2: string)
    requires Summary(g1) == Summary(g2)
    ensures g1 == g2
  {
    var n := |SummaryHeading|;
    assert |g1| == |g2|;
    assert g1 == (SummaryHeading + g1)[n..] == Summary(g1)[n..n + |g1|];
    assert g2 == (SummaryHeading + g2)[n..] == Summary(g2)[n..n + |g2|];
  }

  // ---------------------------------------------------------------------------
  // The flow, as a function of the store
  // ---------------------------------------------------------------------------

  /** The store operations of one run that may throw. */
  datatype StoreOp =
    | FindCall | FindExpert | FindUser
    | WriteStatus(status: CallStatus)   // an `updateCallStatus` write
    | WriteResult                       // the final write of transcript and summary
    | WriteFailed                       // the `failed` write of the catch block

  /** The statuses a run writes when nothing goes wrong. */
  const HappyTrace: seq<CallStatus> := [Dialing, Connected, InProgress, Summarizing, Completed]

  function NotFoundMessage(callId: Id): string {
    "Call with ID " + IdText(callId) + " not found"
  }

  function NotFoundWhenUpdatingMessage(callId: Id): string {
    "Call with ID " + IdText(callId) + " not found when updating status"
  }

  /** `error.message || 'Unknown error in call service'`. */
  function FailureReason(message: string): (r: string)
    ensures r != ""
    ensures message != "" ==> r == message
  {
    if message == "" then "Unknown error in call service" else message
  }

  /** The fields no write of the flow touches. */
  predicate SameIdentity(c: Call, d: Call) {
    && c.id == d.id && c.goal == d.goal && c.expertId == d.expertId && c.userId == d.userId
    && c.contextLinks == d.contextLinks && c.contextText == d.contextText && c.createdAt == d.createdAt
  }

  /** `after` differs from `before` at most in the record `callId`, and there only in
      fields the flow writes. */
  predicate OnlyTouches(before: map<Id, Call>, after: map<Id, Call>, callId: Id) {
    && after.Keys == before.Keys
    && (forall k :: k in before && k != callId ==> after[k] == before[k])
    && (callId in before ==> SameIdentity(before[callId], after[callId]))
  }

  /** `updateCallStatus(callId, status)`: the new collection, or the error thrown. */
  function StatusWrite(calls: map<Id, Call>, callId: Id, status: CallStatus, now: int,
                       throws: map<StoreOp, string>): (r: Result<map<Id, Call>>)
    ensures r.Failure? <==> WriteStatus(status) in throws || callId !in calls
    ensures r.Failure? && WriteStatus(status) !in throws ==> r.error == NotFoundWhenUpdatingMessage(callId)
    ensures r.Success? ==>
      && r.value.Keys == calls.Keys
      && r.value[callId] == calls[callId].(status := status, updatedAt := now)
      && forall k :: k in calls && k != callId ==> r.value[k] == calls[k]
  {
    if WriteStatus(status) in throws then Failure(throws[WriteStatus(status)])
    else if callId !in calls then Failure(NotFoundWhenUpdatingMessage(callId))
    else Success(calls[callId := calls[callId].(status := status, updatedAt := now)])
  }

  /** The collection so far, the statuses written so far, and the error thrown, if any. */
  datatype FlowState = FlowState(calls: map<Id, Call>, written: seq<CallStatus>, error: Option<string>)

  /** One `updateCallStatus` step; once an error is thrown, later steps do nothing.
      A step either writes its status or throws and leaves the collection alone. */
  function Step(st: FlowState, callId: Id, status: CallStatus, now: int, throws: map<StoreOp, string>): (r: FlowState)
    ensures r.error.None? ==> st.error.None? && r.written == st.written + [status]
    ensures r.error.None? ==> callId in st.calls && r.calls == st.calls[callId := st.calls[callId].(status := status, updatedAt := now)]
    ensures r.error.Some? ==> r.written == st.written && r.calls == st.calls
    ensures st.error.Some? ==> r == st
  {
    if st.error.Some? then st
    else
      match StatusWrite(st.calls, callId, status, now, throws)
      case Failure(e) => st.(error := Some(e))
      case Success(m) => FlowState(m, st.written + [status], None)
  }

  /** The final write: transcript, summary, `completed`, a duration of 120 seconds
      and the completion time in one update. */
  function SaveResult(calls: map<Id, Call>, callId: Id, transcript: string, summary: string, now: int): (r: map<Id, Call>)
    ensures OnlyTouches(calls, r, callId)
  {
    if callId in calls then
      calls[callId := calls[callId].(
        transcript := Some(transcript), summary := Some(summary), status := Completed,
        durationSeconds := Some(120), completedAt := Some(now), updatedAt := now)]
    else calls
  }

  /** `simulateCallFlow(call, expert, user)` from state `st`, where `transcript` and
      `summary` are the texts generated for the call. */
  function SimulatedFlow(st: FlowState, callId: Id, transcript: string, summary: string, now: int,
                         throws: map<StoreOp, string>): (r: FlowState)
    requires st.error.None?
    ensures r.calls.Keys == st.calls.Keys
    ensures r.error.None? ==>
      && r.written == st.written + [Connected, InProgress, Summarizing, Completed]
      && callId in r.calls && r.calls[callId].status == Completed
  {
    var connected := Step(st, callId, Connected, now, throws);
    var inProgress := Step(connected, callId, InProgress, now, throws);
    var summarizing := Step(inProgress, callId, Summarizing, now, throws);
    assert connected.calls.Keys == inProgress.calls.Keys == summarizing.calls.Keys == st.calls.Keys;
    if summarizing.error.Some? then summarizing
    else if WriteResult in throws then summarizing.(error := Some(throws[WriteResult]))
    else
      assert summarizing.written == st.written + [Connected, InProgress, Summarizing];
      FlowState(SaveResult(summarizing.calls, callId, transcript, summary, now),
                summarizing.written + [Completed], None)
  }

  /** The two text generators the flow calls: the transcript of a call with its
      expert and user, and the summary of a transcript for a goal. */
  datatype Generators = Generators(
    transcript: (Call, Expert, User) -> string,
    summary: (string, string) -> string)

  /** `generatePlaceholderTranscript(call, expert, user)`. */
  function PlaceholderTranscript(call: Call, expert: Expert, user: User): (r: string)
    ensures Text.Contains(r, call.goal) && Text.Contains(r, user.firstName + " " + user.lastName)
    ensures Text.Contains(r, "[" + expert.name + "]: ")
    ensures call.contextText.Some? && call.contextText.value != "" ==>
      Text.Contains(r, "They provided the following context: " + call.contextText.value)
  {
    TranscriptMentions(call.goal, expert.name, user.firstName, user.lastName, call.contextText);
    Transcript(call.goal, expert.name, user.firstName, user.lastName, call.contextText)
  }

  /** `generateSummary(transcript, goal)`. */
  function PlaceholderSummary(transcript: string, goal: string): (r: string)
    ensures SummaryHeading + goal <= r
    ensures |r| == |SummaryHeading| + |goal| + |SummaryBody|
  {
    Summary(goal)
  }

  /** The generators of call.service.ts. */
  const Placeholders: Generators := Generators(PlaceholderTranscript, PlaceholderSummary)

  /** The `try` block of `startCallService(callId)`. */
  function Flow(calls: map<Id, Call>, experts: map<Id, Expert>, users: map<Id, User>, callId: Id, now: int,
                throws: map<StoreOp, string>, gen: Generators): (r: FlowState)
    ensures r.calls.Keys == calls.Keys
    ensures r.error.None? ==>
      && FindCall !in throws && FindExpert !in throws && FindUser !in throws
      && callId in calls && calls[callId].expertId in experts && calls[callId].userId in users
  {
    var start := FlowState(calls, [], None);
    if FindCall in throws then start.(error := Some(throws[FindCall]))
    else if callId !in calls then start.(error := Some(NotFoundMessage(callId)))
    else
      var call := calls[callId];
      var dialing := Step(start, callId, Dialing, now, throws);
      if dialing.error.Some? then dialing
      else if FindExpert in throws then dialing.(error := Some(throws[FindExpert]))
      else if FindUser in throws then dialing.(error := Some(throws[FindUser]))
      else if call.expertId !in experts || call.userId !in users then
        dialing.(error := Some("Expert or user not found"))
      else
        var transcript := gen.transcript(call, experts[call.expertId], users[call.userId]);
        SimulatedFlow(dialing, callId, transcript, gen.summary(transcript, call.goal), now, throws)
  }

  /** The `failed` write of the catch block; it matches nothing when the call is absent. */
  function MarkFailed(calls: map<Id, Call>, callId: Id, message: string, now: int): (r: map<Id, Call>)
    ensures OnlyTouches(calls, r, callId)
  {
    if callId in calls then
      calls[callId := calls[callId].(status := Failed, failureReason := Some(FailureReason(message)), updatedAt := now)]
    else calls
  }

  /** The collection after `startCallService(callId)`. */
  function FinalCalls(calls: map<Id, Call>, experts: map<Id, Expert>, users: map<Id, User>, callId: Id, now: int,
                      throws: map<StoreOp, string>, gen: Generators): (r: map<Id, Call>)
    ensures r.Keys == calls.Keys
    ensures callId in calls && Flow(calls, experts, users, callId, now, throws, gen).error.Some? && WriteFailed !in throws ==>
      r[callId].status == Failed && r[callId].failureReason.Some?
  {
    var st := Flow(calls, experts, users, callId, now, throws, gen);
    if st.error.Some? && WriteFailed !in throws then MarkFailed(st.calls, callId, st.error.value, now)
    else st.calls
  }

  // ---------------------------------------------------------------------------
  // What a run does
  // ---------------------------------------------------------------------------

  lemma OnlyTouchesTransitive(a: map<Id, Call>, b: map<Id, Call>, c: map<Id, Call>, callId: Id)
    requires OnlyTouches(a, b, callId) && OnlyTouches(b, c, callId)
    ensures OnlyTouches(a, c, callId)
  {
  }

  lemma StepTouches(st: FlowState, callId: Id, status: CallStatus, now: int, throws: map<StoreOp, string>)
    ensures OnlyTouches(st.calls, Step(st, callId, status, now, throws).calls, callId)
  {
  }

  /** The simulated part writes connected, in progress, summarizing and completed
      in that order, stopping at the first error. */
  lemma SimulatedTrace(st: FlowState, callId: Id, transcript: string, summary: string, now: int,
                       throws: map<StoreOp, string>)
    requires st.error.None?
    ensures var r := SimulatedFlow(st, callId, transcript, summary, now, throws);
      && st.written <= r.written && r.written[|st.written|..] <= HappyTrace[1..]
      && (r.error.None? <==> r.written == st.written + HappyTrace[1..])
  {
    var connected := Step(st, callId, Connected, now, throws);
    var inProgress := Step(connected, callId, InProgress, now, throws);
    var summarizing := Step(inProgress, callId, Summarizing, now, throws);
    var r := SimulatedFlow(st, callId, transcript, summary, now, throws);
    TraceOfStages(st.written, connected.written, inProgress.written, summarizing.written, r.written,
                  connected.error.None?, inProgress.error.None?, summarizing.error.None?, r.error.None?);
  }

  /** Four stages, each of which either appends its status or, after a failure,
      appends nothing, write a prefix of the rest of the happy trace. */
  lemma TraceOfStages(base: seq<CallStatus>, w1: seq<CallStatus>, w2: seq<CallStatus>, w3: seq<CallStatus>,
                      w4: seq<CallStatus>, ok1: bool, ok2: bool, ok3: bool, ok4: bool)
    requires (ok1 ==> w1 == base + [Connected]) && (!ok1 ==> w1 == base)
    requires (ok2 ==> ok1 && w2 == w1 + [InProgress]) && (!ok2 ==> w2 == w1)
    requires (ok3 ==> ok2 && w3 == w2 + [Summarizing]) && (!ok3 ==> w3 == w2)
    requires (ok4 ==> ok3 && w4 == w3 + [Completed]) && (!ok4 ==> w4 == w3)
    ensures base <= w4 && w4[|base|..] <= HappyTrace[1..]
    ensures ok4 <==> w4 == base + HappyTrace[1..]
  {
    var rest := HappyTrace[1..];
    assert rest == [Connected, InProgress, Summarizing, Completed];
    var n := if ok4 then 4 else if ok3 then 3 else if ok2 then 2 else if ok1 then 1 else 0;
    assert rest[..1] == [Connected] && rest[..2] == rest[..1] + [InProgress];
    assert rest[..3] == rest[..2] + [Summarizing] && rest[..4] == rest[..3] + [Completed];
    assert w4 == base + rest[..n];
    PrefixAppend(base, rest, n);
  }

  lemma PrefixAppend(a: seq<CallStatus>, rest: seq<CallStatus>, n: nat)
    requires n <= |rest|
    ensures a <= a + rest[..n] && (a + rest[..n])[|a|..] == rest[..n] && rest[..n] <= rest
    ensures a + rest[..n] == a + rest <==> n == |rest|
  {
    if a + rest[..n] == a + rest {
      assert |a + rest[..n]| == |a + rest|;
    }
  }

  /** The record holds the last status the simulated part wrote, and nothing but that
      record changes. */
  lemma SimulatedRecord(st: FlowState, callId: Id, transcript: string, summary: string, now: int,
                        throws: map<StoreOp, string>)
    requires st.error.None?
    ensures var r := SimulatedFlow(st, callId, transcript, summary, now, throws);
      && (r.written == st.written ==> r.calls == st.calls)
      && (r.written != st.written ==> callId in r.calls && r.calls[callId].status == r.written[|r.written| - 1])
      && OnlyTouches(st.calls, r.calls, callId)
  {
    var connected := Step(st, callId, Connected, now, throws);
    var inProgress := Step(connected, callId, InProgress, now, throws);
    var summarizing := Step(inProgress, callId, Summarizing, now, throws);
    var r := SimulatedFlow(st, callId, transcript, summary, now, throws);
    StepTouches(st, callId, Connected, now, throws);
    StepTouches(connected, callId, InProgress, now, throws);
    StepTouches(inProgress, callId, Summarizing, now, throws);
    OnlyTouchesTransitive(st.calls, connected.calls, inProgress.calls, callId);
    OnlyTouchesTransitive(st.calls, inProgress.calls, summarizing.calls, callId);
    OnlyTouchesTransitive(st.calls, summarizing.calls, r.calls, callId);
  }

  /** The statuses written so far are a prefix of the full sequence
      dialing, connected, in progress, summarizing, completed; the run ends without
      error exactly when all five were written. */
  lemma FlowTrace(calls: map<Id, Call>, experts: map<Id, Expert>, users: map<Id, User>, callId: Id,
                  now: int, throws: map<StoreOp, string>, gen: Generators)
    ensures var st := Flow(calls, experts, users, callId, now, throws, gen);
      && st.written <= HappyTrace
      && (st.error.None? <==> st.written == HappyTrace)
  {
    var st := Flow(calls, experts, users, callId, now, throws, gen);
    if FindCall !in throws && callId in calls {
      var dialing := Step(FlowState(calls, [], None), callId, Dialing, now, throws);
      var call := calls[callId];
      if dialing.error.None? && FindExpert !in throws && FindUser !in throws
         && call.expertId in experts && call.userId in users {
        var transcript := gen.transcript(call, experts[call.expertId], users[call.userId]);
        assert st == SimulatedFlow(dialing, callId, transcript, gen.summary(transcript, call.goal), now, throws);
        assert dialing.written == [Dialing];
        SimulatedPrefix(dialing, callId, transcript, gen.summary(transcript, call.goal), now, throws);
      } else {
        assert st.written == dialing.written && st.error.Some?;
      }
    }
  }

  /** After `dialing`, the simulated stages write a prefix of the happy trace, all
      of it exactly when nothing throws. */
  lemma SimulatedPrefix(dialing: FlowState, callId: Id, transcript: string, summary: string, now: int,
                        throws: map<StoreOp, string>)
    requires dialing.error.None? && dialing.written == [Dialing]
    ensures var st := SimulatedFlow(dialing, callId, transcript, summary, now, throws);
      && st.written <= HappyTrace
      && (st.error.None? <==> st.written == HappyTrace)
  {
    SimulatedTrace(dialing, callId, transcript, summary, now, throws);
    PrefixCons(SimulatedFlow(dialing, callId, transcript, summary, now, throws).written, HappyTrace);
  }

  lemma PrefixCons(w: seq<CallStatus>, trace: seq<CallStatus>)
    requires |trace| > 0 && [trace[0]] <= w && w[1..] <= trace[1..]
    ensures w <= trace && (w == trace <==> w[1..] == trace[1..])
  {
    assert w == [trace[0]] + w[1..];
    assert trace == [trace[0]] + trace[1..];
  }

  /** Once a status is written the record holds the last one written; before that
      it is as it was. Nothing but that record changes. */
  lemma FlowRecord(calls: map<Id, Call>, experts: map<Id, Expert>, users: map<Id, User>, callId: Id,
                   now: int, throws: map<StoreOp, string>, gen: Generators)
    ensures var st := Flow(calls, experts, users, callId, now, throws, gen);
      && (st.written == [] ==> st.calls == calls)
      && (st.written != [] ==> callId in st.calls && st.calls[callId].status == st.written[|st.written| - 1])
      && OnlyTouches(calls, st.calls, callId)
  {
    var st := Flow(calls, experts, users, callId, now, throws, gen);
    if FindCall !in throws && callId in calls {
      var dialing := Step(FlowState(calls, [], None), callId, Dialing, now, throws);
      var call := calls[callId];
      StepTouches(FlowState(calls, [], None), callId, Dialing, now, throws);
      if dialing.error.None? && FindExpert !in throws && FindUser !in throws
         && call.expertId in experts && call.userId in users {
        var transcript := gen.transcript(call, experts[call.expertId], users[call.userId]);
        var summary := gen.summary(transcript, call.goal);
        FlowRunsSimulation(calls, experts, users, callId, now, throws, gen);
        SimulatedRecordAfterDialing(calls, dialing, callId, transcript, summary, now, throws);
      } else {
        FlowStopsAfterDialing(calls, experts, users, callId, now, throws, gen);
      }
    } else {
      assert st == FlowState(calls, [], st.error);
    }
  }

  /** When the `dialing` write succeeds and the expert and the user are found, the
      rest of the run is the simulated stages. */
  lemma FlowRunsSimulation(calls: map<Id, Call>, experts: map<Id, Expert>, users: map<Id, User>, callId: Id,
                           now: int, throws: map<StoreOp, string>, gen: Generators)
    requires FindCall !in throws && callId in calls
    requires var dialing := Step(FlowState(calls, [], None), callId, Dialing, now, throws);
      dialing.error.None? && FindExpert !in throws && FindUser !in throws
      && calls[callId].expertId in experts && calls[callId].userId in users
    ensures var call := calls[callId];
      var dialing := Step(FlowState(calls, [], None), callId, Dialing, now, throws);
      var transcript := gen.transcript(call, experts[call.expertId], users[call.userId]);
      Flow(calls, experts, users, callId, now, throws, gen)
        == SimulatedFlow(dialing, callId, transcript, gen.summary(transcript, call.goal), now, throws)
  {
  }

  /** When the run stops at or after the `dialing` write but before the simulated
      stages, the collection is as that write left it. */
  lemma FlowStopsAfterDialing(calls: map<Id, Call>, experts: map<Id, Expert>, users: map<Id, User>, callId: Id,
                              now: int, throws: map<StoreOp, string>, gen: Generators)
    requires FindCall !in throws && callId in calls
    requires var dialing := Step(FlowState(calls, [], None), callId, Dialing, now, throws);
      !(dialing.error.None? && FindExpert !in throws && FindUser !in throws
        && calls[callId].expertId in experts && calls[callId].userId in users)
    ensures var st := Flow(calls, experts, users, callId, now, throws, gen);
      var dialing := Step(FlowState(calls, [], None), callId, Dialing, now, throws);
      st.calls == dialing.calls && st.written == dialing.written
  {
  }

  /** The simulated stages after the `dialing` write keep the record's last status
      and touch only that record. */
  lemma SimulatedRecordAfterDialing(calls: map<Id, Call>, dialing: FlowState, callId: Id, transcript: string,
                                    summary: string, now: int, throws: map<StoreOp, string>)
    requires dialing.error.None? && dialing.written == [Dialing]
    requires callId in dialing.calls && dialing.calls[callId].status == Dialing
    requires OnlyTouches(calls, dialing.calls, callId)
    ensures var st := SimulatedFlow(dialing, callId, transcript, summary, now, throws);
      && st.written != []
      && callId in st.calls && st.calls[callId].status == st.written[|st.written| - 1]
      && OnlyTouches(calls, st.calls, callId)
  {
    var st := SimulatedFlow(dialing, callId, transcript, summary, now, throws);
    SimulatedTrace(dialing, callId, transcript, summary, now, throws);
    SimulatedRecord(dialing, callId, transcript, summary, now, throws);
    OnlyTouchesTransitive(calls, dialing.calls, st.calls, callId);
  }

  /** The run where every lookup succeeds and nothing throws: five status writes in
      order, ending in a completed record with the transcript, the summary, a
      duration of 120 seconds and the completion time; the call's other fields are
      kept. */
  lemma HappyPath(calls: map<Id, Call>, experts: map<Id, Expert>, users: map<Id, User>, callId: Id, now: int,
                  gen: Generators)
    requires callId in calls
    requires calls[callId].expertId in experts && calls[callId].userId in users
    ensures var st := Flow(calls, experts, users, callId, now, map[], gen);
      st.written == HappyTrace && st.error.None?
    ensures
      var call := calls[callId];
      var expert := experts[call.expertId];
      var user := users[call.userId];
      FinalCalls(calls, experts, users, callId, now, map[], gen)
        == calls[callId := call.(
             status := Completed,
             transcript := Some(gen.transcript(call, expert, user)),
             summary := Some(gen.summary(gen.transcript(call, expert, user), call.goal)),
             durationSeconds := Some(120), completedAt := Some(now), updatedAt := now)]
  {
    FlowTrace(calls, experts, users, callId, now, map[], gen);
    FlowRecord(calls, experts, users, callId, now, map[], gen);
  }

  /** The status `dialing` is written before the expert and the user are looked up:
      when either is missing, the record goes to `dialing` and then to `failed` with
      the reason "Expert or user not found". */
  lemma MissingExpertOrUser(calls: map<Id, Call>, experts: map<Id, Expert>, users: map<Id, User>, callId: Id,
                            now: int, throws: map<StoreOp, string>, gen: Generators)
    requires callId in calls
    requires calls[callId].expertId !in experts || calls[callId].userId !in users
    requires FindCall !in throws && WriteStatus(Dialing) !in throws && FindExpert !in throws && FindUser !in throws
    requires WriteFailed !in throws
    ensures var st := Flow(calls, experts, users, callId, now, throws, gen);
      st.written == [Dialing] && st.error == Some("Expert or user not found")
    ensures FinalCalls(calls, experts, users, callId, now, throws, gen)
         == calls[callId := calls[callId].(status := Failed, failureReason := Some("Expert or user not found"), updatedAt := now)]
  {
  }

  /** A run for an unknown call changes nothing: the lookup throws and the `failed`
      write matches no record. */
  lemma MissingCall(calls: map<Id, Call>, experts: map<Id, Expert>, users: map<Id, User>, callId: Id,
                    now: int, throws: map<StoreOp, string>, gen: Generators)
    requires callId !in calls
    ensures Flow(calls, experts, users, callId, now, throws, gen).written == []
    ensures FinalCalls(calls, experts, users, callId, now, throws, gen) == calls
  {
    FlowTrace(calls, experts, users, callId, now, throws, gen);
    FlowRecord(calls, experts, users, callId, now, throws, gen);
  }

  /** A run that throws ends with the record `failed`, its reason the error's message
      (or 'Unknown error in call service' for an empty one), and every other field as
      the last successful write left it. */
  lemma FailedRun(calls: map<Id, Call>, experts: map<Id, Expert>, users: map<Id, User>, callId: Id,
                  now: int, throws: map<StoreOp, string>, gen: Generators)
    requires callId in calls && WriteFailed !in throws
    requires Flow(calls, experts, users, callId, now, throws, gen).error.Some?
    ensures var st := Flow(calls, experts, users, callId, now, throws, gen);
      var final := FinalCalls(calls, experts, users, callId, now, throws, gen);
      && |st.written| < |HappyTrace|
      && final.Keys == calls.Keys
      && final[callId].status == Failed
      && final[callId].failureReason == Some(FailureReason(st.error.value))
      && final[callId].updatedAt == now
      && final[callId] == st.calls[callId].(status := Failed, failureReason := final[callId].failureReason, updatedAt := now)
  {
    FlowTrace(calls, experts, users, callId, now, throws, gen);
    FlowRecord(calls, experts, users, callId, now, throws, gen);
  }

  /** When the `failed` write itself throws, the error is swallowed and the record
      keeps the last status written successfully. */
  lemma FailedWriteThrows(calls: map<Id, Call>, experts: map<Id, Expert>, users: map<Id, User>, callId: Id,
                          now: int, throws: map<StoreOp, string>, gen: Generators)
    requires callId in calls && WriteFailed in throws
    ensures var st := Flow(calls, experts, users, callId, now, throws, gen);
      var final := FinalCalls(calls, experts, users, callId, now, throws, gen);
      && final == st.calls
      && final[callId].status == (if st.written == [] then calls[callId].status else st.written[|st.written| - 1])
  {
    FlowTrace(calls, experts, users, callId, now, throws, gen);
    FlowRecord(calls, experts, users, callId, now, throws, gen);
  }

  /** Unless the `failed` write throws, a run on an existing call ends `completed` or
      `failed`, and `completed` exactly when nothing threw. Other calls are never
      touched, nor are the record's identity fields. */
  lemma RunOutcome(calls: map<Id, Call>, experts: map<Id, Expert>, users: map<Id, User>, callId: Id,
                   now: int, throws: map<StoreOp, string>, gen: Generators)
    ensures OnlyTouches(calls, FinalCalls(calls, experts, users, callId, now, throws, gen), callId)
    ensures callId in calls && WriteFailed !in throws ==>
      var final := FinalCalls(calls, experts, users, callId, now, throws, gen);
      && (final[callId].status == Completed || final[callId].status == Failed)
      && (final[callId].status == Completed <==> Flow(calls, experts, users, callId, now, throws, gen).error.None?)
  {
    FlowTrace(calls, experts, users, callId, now, throws, gen);
    FlowRecord(calls, experts, users, callId, now, throws, gen);
  }

  // ---------------------------------------------------------------------------
  // The orchestrator, step by step over the store
  // ---------------------------------------------------------------------------

  /** `updateCallStatus(callId, status)`: writes the status and returns the updated
      record, or throws when the write fails or no record has that id. */
  method UpdateCallStatus(db: Database, callId: Id, status: CallStatus, now: int, throws: map<StoreOp, string>)
    returns (r: Result<Call>)
    requires db.Valid()
    modifies db
    ensures db.Valid()
    ensures db.experts == old(db.experts) && db.users == old(db.users) && db.nextId == old(db.nextId)
    ensures match StatusWrite(old(db.calls), callId, status, now, throws)
      case Failure(e) => r == Failure(e) && db.calls == old(db.calls)
      case Success(m) => db.calls == m && r == Success(m[callId])
  {
    if WriteStatus(status) in throws {
      return Failure(throws[WriteStatus(status)]);
    }
    if callId !in db.calls {
      return Failure(NotFoundWhenUpdatingMessage(callId));
    }
    var updated := db.calls[callId].(status := status, updatedAt := now);
    db.PutCall(updated);
    return Success(updated);
  }

  /** `simulateCallFlow(call, expert, user)`; the result is the error thrown, if any. */
  method SimulateCallFlow(db: Database, callId: Id, call: Call, expert: Expert, user: User, now: int,
                          throws: map<StoreOp, string>, gen: Generators, ghost st: FlowState)
    returns (error: Option<string>)
    requires db.Valid() && st.error.None? && st.calls == db.calls
    modifies db
    ensures db.Valid()
    ensures db.experts == old(db.experts) && db.users == old(db.users) && db.nextId == old(db.nextId)
    ensures var r := SimulatedFlow(st, callId, gen.transcript(call, expert, user),
                                   gen.summary(gen.transcript(call, expert, user), call.goal), now, throws);
      db.calls == r.calls && error == r.error
  {
    var r := UpdateCallStatus(db, callId, Connected, now, throws);
    ghost var connected := Step(st, callId, Connected, now, throws);
    if r.Failure? {
      return Some(r.error);
    }
    assert db.calls == connected.calls && connected.error.None?;
    r := UpdateCallStatus(db, callId, InProgress, now, throws);
    ghost var inProgress := Step(connected, callId, InProgress, now, throws);
    if r.Failure? {
      return Some(r.error);
    }
    assert db.calls == inProgress.calls && inProgress.error.None?;
    var transcript := gen.transcript(call, expert, user);
    r := UpdateCallStatus(db, callId, Summarizing, now, throws);
    ghost var summarizing := Step(inProgress, callId, Summarizing, now, throws);
    if r.Failure? {
      return Some(r.error);
    }
    assert db.calls == summarizing.calls && summarizing.error.None?;
    var summary := gen.summary(transcript, call.goal);
    if WriteResult in throws {
      return Some(throws[WriteResult]);
    }
    if callId in db.calls {
      db.PutCall(db.calls[callId].(
        transcript := Some(transcript), summary := Some(summary), status := Completed,
        durationSeconds := Some(120), completedAt := Some(now), updatedAt := now));
    }
    return None;
  }

  /** The `try` block of `startCallService(callId)`; the result is the error thrown. */
  method CallFlow(db: Database, callId: Id, now: int, throws: map<StoreOp, string>, gen: Generators)
    returns (error: Option<string>)
    requires db.Valid()
    modifies db
    ensures db.Valid()
    ensures db.experts == old(db.experts) && db.users == old(db.users) && db.nextId == old(db.nextId)
    ensures var r := Flow(old(db.calls), old(db.experts), old(db.users), callId, now, throws, gen);
      db.calls == r.calls && error == r.error
  {
    ghost var start := FlowState(db.calls, [], None);
    if FindCall in throws {
      return Some(throws[FindCall]);
    }
    if callId !in db.calls {
      return Some(NotFoundMessage(callId));
    }
    var call := db.calls[callId];
    var r := UpdateCallStatus(db, callId, Dialing, now, throws);
    if r.Failure? {
      return Some(r.error);
    }
    ghost var dialing := Step(start, callId, Dialing, now, throws);
    if FindExpert in throws {
      return Some(throws[FindExpert]);
    }
    if FindUser in throws {
      return Some(throws[FindUser]);
    }
    if call.expertId !in db.experts || call.userId !in db.users {
      return Some("Expert or user not found");
    }
    error := SimulateCallFlow(db, callId, call, db.experts[call.expertId], db.users[call.userId], now, throws, gen, dialing);
  }

  /** `startCallService(callId)`: runs the flow and, when it throws, marks the call
      `failed`; an error from that last write is swallowed. */
  method StartCallService(db: Database, callId: Id, now: int, throws: map<StoreOp, string>)
    requires db.Valid()
    modifies db
    ensures db.Valid()
    ensures db.experts == old(db.experts) && db.users == old(db.users) && db.nextId == old(db.nextId)
    ensures db.calls == FinalCalls(old(db.calls), old(db.experts), old(db.users), callId, now, throws, Placeholders)
  {
    var error := CallFlow(db, callId, now, throws, Placeholders);
    if error.Some? && WriteFailed !in throws {
      if callId in db.calls {
        db.PutCall(db.calls[callId].(
          status := Failed, failureReason := Some(FailureReason(error.value)), updatedAt := now));
      }
    }
  }
}
