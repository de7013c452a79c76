# ExpertAssist AI — a verified model of its core

ExpertAssist AI places phone calls to a user's real-estate experts on the user's
behalf. The user keeps a list of experts (realtors, lenders, inspectors and so on),
starts a call with a goal, and later reads what came of it. The call runs as a
background job: a transcript, a summary and a status that moves from `pending` to
`completed` or `failed`. The project models both halves of the system:

- **The server.**
  - `CallModel` and `ExpertModel` are the two document schemas. They cover the
    enumerations, the phone-number pattern, `trim`, the defaults and the
    validation messages.
  - `Store.Database` is the document store the handlers work against. It is a
    class whose collections the methods reassign.
  - `CallController` and `ExpertController` are the REST handlers, with their
    status codes and their ownership checks.
  - `CallService` is the background call job: the chain of status writes, the
    placeholder transcript and summary, and the `failed` write of its `catch`.
  - `Twilio` is the telephony adapter's own logic: the phone-number normaliser,
    the choice of demo mode, and the demo answers.
- **The web client.**
  - `AuthContext` is the mock sign-in provider. It holds a registry of users, the
    signed-in user and a stored copy of that user.
  - The pages are `Register`, `ExpertsList`, `ExpertForm`, `CallsList`,
    `CallInitiate` (the three-step new-call wizard) and `CallDetails`.
  - Each page's state is a class. Its handlers are methods, and what they compute
    is stated by functions.
  - `Format` is the label formatter several pages share (`replace(/_/g, ' ')`
    followed by `replace(/\b\w/g, upper)`).

Helper modules: `Wrappers` (Option, Result, Outcome), `Text` (white space, digits,
`String(n)`, `parseInt`, `trim`, search in strings), `Sequences` (subsequences and
a sort with its proof), `Mongoose` (identifiers and validation messages) and `Http`
(replies).

Time, the environment, the generated text and the answers of services outside the
model are parameters. Timers are taken to fire at once.

## Model

| member | source | states |
|---|---|---|
| CallModel.ParseStatus | server/src/models/call.model.ts:4-13 | the `enum` check finds the status whose string is the input, and fails exactly when no status has that string |
| CallModel.StatusEnumeration | server/src/models/call.model.ts:4-13 | there are exactly eight statuses, with eight distinct strings, each read back as itself |
| CallModel.CreateCall | server/src/models/call.model.ts:35-85 | create succeeds iff the goal is set and not blank, both ids are set and any status is one of the enumeration; the stored goal is trimmed; the status defaults to `pending`; the optional fields start unset; a failure carries the "Call validation failed" message |
| ExpertModel.ParseType | server/src/models/expert.model.ts:4-12 | the `enum` check finds the type whose string is the input, and fails exactly when none has it |
| ExpertModel.TypeEnumeration | server/src/models/expert.model.ts:4-12 | exactly seven types, with distinct strings, each read back as itself |
| ExpertModel.SplitPhone | server/src/models/expert.model.ts:39 | the left-to-right reader returns a well-formed reading that spells the input |
| ExpertModel.IsPhoneNumber | server/src/models/expert.model.ts:39 | the `match` validator accepts exactly the strings the left-to-right reader reads |
| ExpertModel.MatchesIsSplit | server/src/models/expert.model.ts:39 | the phone pattern, item by item, accepts exactly the strings the reader reads |
| ExpertModel.SplitPhoneSound | server/src/models/expert.model.ts:39 | an accepted number is read as a well-formed reading of the whole string |
| ExpertModel.SplitPhoneComplete | server/src/models/expert.model.ts:39 | every well-formed reading is the one the reader finds in the string it spells |
| ExpertModel.PhonePatternMeaning | server/src/models/expert.model.ts:39 | a string is accepted iff it is the spelling of some well-formed reading: optional `+`, optional `(`, 3 digits, optional `)`, optional separator, 3 digits, optional separator, 4 to 6 digits |
| ExpertModel.AssembledDigits | server/src/models/expert.model.ts:39 | the digits of a reading's spelling are its three groups, in order |
| ExpertModel.PhoneDigitCount | server/src/models/expert.model.ts:39 | an accepted phone number holds between 10 and 12 digits, which are its three groups |
| ExpertModel.PhoneAcceptsExample | server/src/models/expert.model.ts:39 | "(555) 123-4567" is accepted |
| ExpertModel.PhoneRejectsSpacedCountryCode | server/src/models/expert.model.ts:39 | "+1 555 123 4567" is rejected |
| ExpertModel.PhoneCharacters | server/src/models/expert.model.ts:39 | an accepted number holds only digits, parentheses, separators and a `+` in first place |
| ExpertModel.CreateErrorsNone | server/src/models/expert.model.ts:28-63 | a new expert passes validation iff its name is not blank, its phone number is set, not blank and matches after trimming, and any type given is one of the enumeration |
| ExpertModel.UpdateErrorsNone | server/src/models/expert.model.ts:28-63 | a validated update passes iff every field it sets is acceptable |
| ExpertModel.CreateExpert | server/src/models/expert.model.ts:28-63 | create succeeds iff validation passes; name, phone and company are trimmed; the type defaults to `other`; the owner is the requester; a failure carries the "Expert validation failed" message |
| ExpertModel.UpdateExpert | server/src/models/expert.model.ts:28-63 | a validated update succeeds iff the fields it sets pass; it replaces exactly those fields, trimmed, and keeps the identity, owner and creation time |
| ExpertModel.UpdateKeepsValid | server/src/models/expert.model.ts:28-63 | an update that succeeds keeps a valid expert valid |
| ExpertModel.EmptyUpdate | server/src/models/expert.model.ts:28-63 | an update that sets no field changes only the update time |
| Store.Database.constructor | server/src/models/call.model.ts:92 | an empty store is valid |
| Store.Database.NewId | server/src/models/call.model.ts:16-17 | a fresh identifier is used in no collection, and nothing else changes |
| Store.Database.PutCall | server/src/models/call.model.ts:92 | writes exactly one call under its own identifier and keeps the store valid |
| Store.Database.PutExpert | server/src/models/expert.model.ts:68 | writes exactly one expert under its own identifier and keeps the store valid |
| Store.Scan | server/src/controllers/call.controller.ts:107 | `find` returns only stored documents that match the query |
| Store.ScanComplete | server/src/controllers/call.controller.ts:107 | `find` returns every stored document that matches the query |
| Store.ScanIncreasing | server/src/controllers/call.controller.ts:107 | when every document is stored under its own key, `find` lists the documents by strictly increasing key, so none twice |
| Http.ServerError | server/src/controllers/call.controller.ts:55-60 | a `catch` answers 500 with the error's message, or with the fallback when that message is empty |
| CallController.InitiateCall | server/src/controllers/call.controller.ts:10-61 | 400 without a truthy goal or an expert id; 404 unless the expert is the requester's; 500 with the validation message for a blank goal; otherwise 201 with a new `pending` call under a fresh id, its goal trimmed, `[]` and `''` as defaults, which its owner then finds; on an error reply no call is stored |
| CallController.GetCallById | server/src/controllers/call.controller.ts:66-90 | 200 with the call iff it exists and is the requester's, otherwise 404 "Call not found" |
| CallController.GetCallTranscript | server/src/controllers/call.controller.ts:127-161 | 200 with the transcript iff the call is the requester's and has a non-empty transcript; otherwise the matching 404 message |
| CallController.GetCallRecording | server/src/controllers/call.controller.ts:166-200 | 200 with the recording address iff the call is the requester's and has one; otherwise the matching 404 message |
| CallController.GetUserCalls | server/src/controllers/call.controller.ts:95-122 | every listed call is the requester's (with the status, when one is given) and every such call is listed; when each call is stored under its own id, no call is listed twice; newest first, and `count` is the list's length |
| CallController.OwnershipIsolation | server/src/controllers/call.controller.ts:68-71 | no call endpoint ever answers with another user's call |
| CallController.StatusFilterNarrows | server/src/controllers/call.controller.ts:103-105 | the filtered list holds exactly the calls of the unfiltered list that have that status |
| ExpertController.CreateExpert | server/src/controllers/expert.controller.ts:7-31 | stores exactly the validated expert under a fresh identifier and answers 201, or answers 500 with the validation message and stores nothing |
| ExpertController.GetExpertById | server/src/controllers/expert.controller.ts:36-60 | 200 with the expert iff it exists and is the requester's, otherwise 404 "Expert not found" |
| ExpertController.GetUserExperts | server/src/controllers/expert.controller.ts:65-90 | every listed expert is the requester's (of the type, when one is given) and every such expert is listed; when each expert is stored under its own id, none is listed twice; sorted by name, and `count` is the list's length |
| ExpertController.ByNameTotalPreorder | server/src/controllers/expert.controller.ts:77 | the order by name is total and transitive, so the sort is well defined |
| ExpertController.UpdateExpert | server/src/controllers/expert.controller.ts:95-135 | 404 and no change unless the expert is the requester's; otherwise the validated update is stored and answered, or 500 with its message and no change; a valid expert stays valid |
| ExpertController.DeleteExpert | server/src/controllers/expert.controller.ts:140-165 | removes exactly the requester's expert and answers 200, or answers 404 and removes nothing |
| ExpertController.CreateThenLookup | server/src/controllers/expert.controller.ts:12-19 | a created expert is found by its owner under its new identifier |
| ExpertController.OwnershipIsolation | server/src/controllers/expert.controller.ts:38-41 | no expert endpoint ever answers with another user's expert |
| ExpertController.DeleteThenLookup | server/src/controllers/expert.controller.ts:143-146 | after a delete nobody finds the expert, and every other lookup answers as before |
| CallService.ContextClause | server/src/services/call.service.ts:175 | the context sentence appears iff the call has a non-empty context, and then quotes it |
| CallService.TranscriptMentions | server/src/services/call.service.ts:162-197 | the transcript names the goal and the user's full name, and quotes the context when there is one |
| CallService.TranscriptHasPart | server/src/services/call.service.ts:162-197 | each of the 31 pieces of the template occurs in the transcript |
| CallService.TranscriptEmptyContext | server/src/services/call.service.ts:175 | an empty context and a missing one give the same transcript |
| CallService.Transcript | server/src/services/call.service.ts:162-197 | the transcript opens with the assistant's greeting naming the user's full name and the goal |
| CallService.PlaceholderTranscript | server/src/services/call.service.ts:162-197 | the transcript generated for a call names its goal and its user's full name, gives its expert a line, and quotes its context when there is one |
| CallService.Summary | server/src/services/call.service.ts:203-228 | the summary opens with the heading naming the goal, and its length is fixed by the goal's length |
| CallService.SummaryInjective | server/src/services/call.service.ts:210 | different goals give different summaries |
| CallService.PlaceholderSummary | server/src/services/call.service.ts:203-228 | the summary ignores the transcript: it opens with the heading naming the goal, and its length is fixed by the goal's |
| CallService.FailureReason | server/src/services/call.service.ts:88 | the failure reason is the error's message, or the fallback when that is empty; it is never empty |
| CallService.StatusWrite | server/src/services/call.service.ts:99-111 | the write fails iff the store throws or the call is missing (then with the "not found when updating" message); otherwise only that call's status and update time change |
| CallService.Step | server/src/services/call.service.ts:99-111 | a step records its status and writes it, or records the error and changes nothing; after an error every step does nothing |
| CallService.SaveResult | server/src/services/call.service.ts:144-150 | the final write touches only the call being run |
| CallService.MarkFailed | server/src/services/call.service.ts:86-89 | the `failed` write touches only the call being run |
| CallService.SimulatedTrace | server/src/services/call.service.ts:118-156 | the simulated stages write `connected`, `in_progress`, `summarizing`, `completed` in that order, stopping at the first error |
| CallService.SimulatedFlow | server/src/services/call.service.ts:118-156 | the simulated stages keep the set of calls; without an error they write `connected`, `in_progress`, `summarizing`, `completed` and leave the call `completed` |
| CallService.SimulatedRecord | server/src/services/call.service.ts:118-156 | the record then holds the last status written, and nothing but that call changes |
| CallService.SimulatedPrefix | server/src/services/call.service.ts:118-156 | after `dialing`, the statuses written are a prefix of the full sequence, and the whole sequence iff nothing threw |
| CallService.FlowTrace | server/src/services/call.service.ts:57-94 | the statuses a run writes are a prefix of `dialing`, `connected`, `in_progress`, `summarizing`, `completed`, and the whole of it iff no error is thrown |
| CallService.Flow | server/src/services/call.service.ts:57-80 | the `try` block keeps the set of calls, and ends without error only when the call, its expert and its user are all found and no lookup throws |
| CallService.FlowRecord | server/src/services/call.service.ts:57-94 | once a status is written the record holds the last one written; before that the store is unchanged |
| CallService.HappyPath | server/src/services/call.service.ts:57-156 | with every lookup found and nothing thrown, the call ends `completed` with the transcript, summary, duration 120 and completion time |
| CallService.MissingExpertOrUser | server/src/services/call.service.ts:66-74 | a missing expert or user fails the run after `dialing` was written, and the call ends `failed` with "Expert or user not found" |
| CallService.MissingCall | server/src/services/call.service.ts:60-63 | a run for an unknown call writes nothing and changes nothing |
| CallService.FailedRun | server/src/services/call.service.ts:81-92 | a run that throws ends with the call `failed`, its reason the error's message, and nothing else changed by the `catch` |
| CallService.FailedWriteThrows | server/src/services/call.service.ts:85-92 | when the `failed` write itself throws, the error is swallowed and the call keeps what the run wrote |
| CallService.RunOutcome | server/src/services/call.service.ts:57-94 | a run touches only its own call; unless the `failed` write throws, an existing call ends `completed` or `failed` |
| CallService.FinalCalls | server/src/services/call.service.ts:57-94 | a run keeps the set of calls; when the `try` block throws and the `failed` write does not, the call ends `failed` with a reason |
| CallService.UpdateCallStatus | server/src/services/call.service.ts:99-111 | the store's calls become the result of the status write, or stay as they were when it throws |
| CallService.SimulateCallFlow | server/src/services/call.service.ts:118-156 | the store's calls become those of the simulated stages, and the error thrown is theirs |
| CallService.CallFlow | server/src/services/call.service.ts:58-80 | the store's calls become those of the `try` block, and the error thrown is its error |
| CallService.StartCallService | server/src/services/call.service.ts:57-94 | the store's calls become the final collection of the run, and the other collections do not change |
| Twilio.FormatPhoneNumber | server/src/services/twilio.service.ts:15-40 | the result always starts with `+`, and a number that already does is kept as is |
| Twilio.FormatE164 | server/src/services/twilio.service.ts:22-39 | outside the pass-through and the hand-written number, the result is `+` followed by the input's digits, with the country code 1 added unless they are 11 digits starting with 1 |
| Twilio.FormatKeepsNumber | server/src/services/twilio.service.ts:15-40 | the digits dialled are the input's digits, with the 1 added when it is missing, the hand-written number included |
| Twilio.FormatIdempotent | server/src/services/twilio.service.ts:17-19 | formatting a formatted number changes nothing |
| Twilio.DemoIffNoClient | server/src/services/twilio.service.ts:43-53 | demo mode is used iff no provider client exists |
| Twilio.DemoInitiate | server/src/services/twilio.service.ts:91-99 | a demo call id starts with `demo-call-`, its status is `queued`, and it dials the formatted number |
| Twilio.DemoStatusMonotone | server/src/services/twilio.service.ts:162-165 | the demo status never goes back as time passes |
| Twilio.DemoStatusThresholds | server/src/services/twilio.service.ts:162-165 | ringing after more than 5 s, in progress after more than 15 s, completed after more than 30 s |
| Twilio.DemoStatus | server/src/services/twilio.service.ts:155-167 | the demo status is `queued` for a NaN elapsed time, and otherwise its rank is the number of the thresholds 5 s, 15 s and 30 s the elapsed time has passed |
| Twilio.DemoCallStatus | server/src/services/twilio.service.ts:154-180 | fails ("Invalid time value") iff the time stamp is NaN or outside the `Date` range; otherwise it reports the time stamp as the start and the demo status for the time elapsed since then; an end time and a duration in whole seconds (at least 30) are given iff the call is completed, and "0" is given otherwise |
| Twilio.DemoTimeStampOfId | server/src/services/twilio.service.ts:158-159 | the time stamp of a demo id is read back from the text after the prefix |
| Twilio.DemoTimeStampOfIdAtAnyTime | server/src/services/twilio.service.ts:158-159 | that read-back does not depend on when the status is asked for |
| Twilio.DemoRoundTrip | server/src/services/twilio.service.ts:149-181 | a demo call asked about later reports the start it was made at and the status for the time elapsed |
| AuthContext.WithoutPassword | src/context/AuthContext.tsx:97 | the signed-in user keeps every field of the entry but its password |
| AuthContext.FindLogin | src/context/AuthContext.tsx:90 | the first entry with that email and password, or none iff no entry has both |
| AuthContext.LoginResult | src/context/AuthContext.tsx:82-109 | login succeeds iff some entry has that email and password, signs in an entry with that email and that password, without its password, and otherwise fails with "Invalid credentials" |
| AuthContext.HasEmail | src/context/AuthContext.tsx:120 | true iff some entry has that email |
| AuthContext.NewUser | src/context/AuthContext.tsx:125-132 | the new entry's id is the registry's length plus one; it has the given email and password, and a company only when a non-empty one is given |
| AuthContext.RegisterKeepsRegistry | src/context/AuthContext.tsx:120-135 | registering a new email keeps ids by position and emails distinct |
| AuthContext.RegisterThenLogin | src/context/AuthContext.tsx:82-150 | a user who has just registered signs in with the same email and password as the entry created |
| AuthContext.LoginIsUnique | src/context/AuthContext.tsx:90 | with emails distinct, a successful login signs in the one entry with that email |
| AuthContext.AuthProvider.constructor | src/context/AuthContext.tsx:57-60 | the registry holds the demo user; nobody is signed in; the provider is loading |
| AuthContext.AuthProvider.CheckAuth | src/context/AuthContext.tsx:64-75 | a stored user is signed in again; loading ends |
| AuthContext.AuthProvider.Login | src/context/AuthContext.tsx:82-109 | passes iff the credentials match an entry, and then signs in the login result; fails with "Invalid credentials" and leaves the session as it was; the registry never changes |
| AuthContext.AuthProvider.Register | src/context/AuthContext.tsx:111-150 | fails iff the email is registered, changing nothing; otherwise appends exactly the new entry and signs it in |
| AuthContext.AuthProvider.Logout | src/context/AuthContext.tsx:152-156 | nobody is signed in and the stored copy is gone |
| Register.WithField | src/pages/Auth/Register.tsx:134-140 | only the named field takes the new value |
| Register.Check | src/pages/Auth/Register.tsx:146-159 | the first failing check decides the message: missing required fields, then mismatched passwords, then fewer than 6 UTF-16 units; it passes iff none fails |
| Register.PasswordLengthBounds | src/pages/Auth/Register.tsx:156 | 6 code points or more always pass the length check, and fewer than 3 always fail it |
| Register.Payload | src/pages/Auth/Register.tsx:165-171 | the fields as typed, with an empty company left out |
| Register.RegisteredCompany | src/pages/Auth/Register.tsx:170 | the registered entry has a company exactly when one was typed |
| Register.RegisterPage.constructor | src/pages/Auth/Register.tsx:119-129 | the form is empty, with no error, and the page is not submitting |
| Register.RegisterPage.HandleChange | src/pages/Auth/Register.tsx:134-140 | only the named field takes the new value |
| Register.RegisterPage.HandleSubmit | src/pages/Auth/Register.tsx:142-177 | a failed check shows its message and leaves the provider untouched; otherwise the new user is registered and the page goes to the dashboard, or an email already registered is shown as the error |
| Format.Upper | src/pages/Calls/CallsList.tsx:273 | an upper-cased word character is a word character and never a lower-case letter |
| Format.UnderscoresToSpaces | src/pages/Calls/CallsList.tsx:273 | every underscore becomes a space and every other character stays |
| Format.CapitalizeFrom | src/pages/Calls/CallsList.tsx:273 | a word character with no word character before it is upper-cased, every other character stays |
| Format.Capitalize | src/pages/Calls/CallsList.tsx:273 | exactly the characters that start a word are upper-cased |
| Format.TitleCase | src/pages/Calls/CallsList.tsx:272-274 | the label has the value's length and no underscore; underscores become spaces and other non-word characters stay |
| Format.TitleCaseWords | src/pages/Calls/CallDetails.tsx:396-398 | each word of the label starts upper-cased and keeps the rest of its letters |
| Format.TitleCaseIdempotent | src/pages/Calls/CallInitiate.tsx:368-370 | a label is its own label |
| Format.TitleCaseOneWord | src/pages/Calls/CallsList.tsx:272-274 | a lower-case word gets its first letter upper-cased |
| Format.TitleCaseTwoWords | src/pages/Calls/CallsList.tsx:272-274 | `a_b` of two lower-case words reads "A B" with both words capitalised |
| ExpertsList.FirstIndex | src/pages/Experts/ExpertsList.tsx:223 | the first position of the character, or none iff it does not occur |
| ExpertsList.ReplaceFirst | src/pages/Experts/ExpertsList.tsx:223 | a string pattern in `replace` changes only the first occurrence, and keeps the length |
| ExpertsList.FormatExpertType | src/pages/Experts/ExpertsList.tsx:222-224 | the label keeps the length, turns the first underscore into a space and leaves every other character alone |
| ExpertsList.FormatPhone | src/pages/Experts/ExpertsList.tsx:217-219 | the number is shown exactly as stored |
| ExpertsList.FormatExpertTypeSpaces | src/pages/Experts/ExpertsList.tsx:222-224 | the label keeps the length; a value without an underscore is unchanged; one with at most one underscore shows none |
| ExpertsList.TypeLabelsHaveNoUnderscore | src/pages/Experts/ExpertsList.tsx:222-224 | no type label shows an underscore, and every type but `insurance_agent` shows as stored |
| ExpertsList.Render | src/pages/Experts/ExpertsList.tsx:239-276 | the empty state iff there are no experts; otherwise one card per expert in order, with the name and phone as stored, a label free of underscores, and company and notes lines only when set and non-empty |
| ExpertForm.WithField | src/pages/Experts/ExpertForm.tsx:224-230 | only the named field takes the new value |
| ExpertForm.SubmitPayload | src/pages/Experts/ExpertForm.tsx:242-255 | refused with "Please fill in all required fields" iff name, phone or type is empty; otherwise those three are passed unchanged, and an empty company or notes becomes absent |
| ExpertForm.SubmitThenLoad | src/pages/Experts/ExpertForm.tsx:249-255 | a valid form is the form of the payload it submits |
| ExpertForm.LoadThenSubmit | src/pages/Experts/ExpertForm.tsx:193-199 | an expert with the required fields loaded into the form submits itself, with an empty optional text coming back absent |
| ExpertForm.SelectedTypeNeverMissing | src/pages/Experts/ExpertForm.tsx:242-246 | with a type chosen from the list, only the name and phone can fail the check |
| ExpertForm.ExpertFormPage.constructor | src/pages/Experts/ExpertForm.tsx:158-171 | the form starts empty with type `other`; it is fetching iff there is an id |
| ExpertForm.ExpertFormPage.ExpertFetched | src/pages/Experts/ExpertForm.tsx:173-222 | the form shows the sample expert, which it submits unchanged |
| ExpertForm.ExpertFormPage.HandleChange | src/pages/Experts/ExpertForm.tsx:224-230 | only the named field takes the new value |
| ExpertForm.ExpertFormPage.HandleSubmit | src/pages/Experts/ExpertForm.tsx:232-277 | a refused form shows its message and saves nothing; a valid one logs exactly its payload and goes back to the list |
| CallsList.ClientStatusesMatchServer | src/pages/Calls/CallsList.tsx:6-15 | the client lists the same eight status values as the server, in the same order |
| CallsList.KeepStatus | src/pages/Calls/CallsList.tsx:257 | keeps exactly the calls with that status, as a subsequence of the list |
| CallsList.FilterCalls | src/pages/Calls/CallsList.tsx:253-259 | "all" keeps the list; another value keeps exactly the calls with that status, in their order |
| CallsList.FilterKeepsOrder | src/pages/Calls/CallsList.tsx:253-259 | filtering two lists put together gives their filtered lists put together |
| CallsList.KeepKeepsOrder | src/pages/Calls/CallsList.tsx:257 | the status filter distributes over putting lists together |
| CallsList.FilterValues | src/pages/Calls/CallsList.tsx:253-259 | no status is called "all"; a value that is no status shows nothing |
| CallsList.KeepNone | src/pages/Calls/CallsList.tsx:257 | a status no call has keeps none of them |
| CallsList.FormatStatus | src/pages/Calls/CallsList.tsx:272-274 | the status label has the status's length and no underscore |
| CallsList.EmptyMessage | src/pages/Calls/CallsList.tsx:314-328 | "No calls found" iff there are no calls; "No calls match the selected filter" iff calls exist but none is shown; the table otherwise |
| CallsList.NoMatchMessage | src/pages/Calls/CallsList.tsx:314-328 | the "no match" message appears iff calls exist, the filter is a status, and no call has it |
| CallsList.CallsListPage.constructor | src/pages/Calls/CallsList.tsx:181-185 | no calls, loading, filter "all", and the filtered list consistent |
| CallsList.CallsListPage.ApplyFilter | src/pages/Calls/CallsList.tsx:253-259 | the filtered list becomes the filter's result for the current calls and filter |
| CallsList.CallsListPage.Loaded | src/pages/Calls/CallsList.tsx:233-235 | the calls become the fetched list, loading ends, and the filtered list follows the filter |
| CallsList.CallsListPage.ChangeFilter | src/pages/Calls/CallsList.tsx:276-278 | the filter takes the new value and the filtered list follows it |
| CallInitiate.FirstWithId | src/pages/Calls/CallInitiate.tsx:361 | the first expert with that id, or none iff no expert has it |
| CallInitiate.SelectedExpert | src/pages/Calls/CallInitiate.tsx:358-366 | an expert is selected iff the chosen id is non-empty and some expert has it; it is the first such |
| CallInitiate.FormatExpertType | src/pages/Calls/CallInitiate.tsx:368-370 | the type label has the value's length and no underscore |
| CallInitiate.SubmitCheck | src/pages/Calls/CallInitiate.tsx:383-391 | "Please select an expert" iff none is selected; then "Please enter a goal for the call" iff the goal is blank; otherwise passes |
| CallInitiate.StartedCallId | src/pages/Calls/CallInitiate.tsx:408 | the provider's call id when it gives a non-empty one; otherwise a `demo-call-` id whose time stamp, read back by the demo status lookup at any later time, is the start time `now` |
| CallInitiate.FallbackOpensDemoPath | src/pages/Calls/CallInitiate.tsx:408 | a call started without an id opens on the demo path of the details page |
| CallInitiate.SubmitOutcome | src/pages/Calls/CallInitiate.tsx:380-414 | a failed check shows its message and sends nothing; otherwise one request with the selected expert and the goal is sent, and the page opens the started call iff the service answers, or shows its error |
| CallInitiate.CallInitiatePage.constructor | src/pages/Calls/CallInitiate.tsx:285-292 | step 1, nothing chosen, loading, and the wizard invariant holds |
| CallInitiate.CallInitiatePage.Loaded | src/pages/Calls/CallInitiate.tsx:340-341 | the experts become the fetched list, loading ends, and the selection follows it |
| CallInitiate.CallInitiatePage.SelectExpert | src/pages/Calls/CallInitiate.tsx:358-374 | the chosen id and the expert it selects are updated together |
| CallInitiate.CallInitiatePage.ChangeGoal | src/pages/Calls/CallInitiate.tsx:376-378 | the goal takes the new value and nothing else changes |
| CallInitiate.CallInitiatePage.Next | src/pages/Calls/CallInitiate.tsx:503-539 | moves on only when the step's button is enabled; the review step is reached only with an expert and a goal that is not blank |
| CallInitiate.CallInitiatePage.Back | src/pages/Calls/CallInitiate.tsx:532-575 | goes one step back and keeps every choice |
| CallInitiate.CallInitiatePage.Submit | src/pages/Calls/CallInitiate.tsx:380-414 | the page shows the submission's error, records its request and opens its page; from the review step the check always passes |
| CallDetails.JsRem | src/pages/Calls/CallDetails.tsx:391 | JavaScript's `%`: the remainder has the sign of the dividend, is below the divisor in size, and differs from the dividend by a multiple of the divisor, which fixes it |
| CallDetails.FormatDuration | src/pages/Calls/CallDetails.tsx:387-393 | "N/A" iff the duration is missing or zero |
| CallDetails.FormatDurationShape | src/pages/Calls/CallDetails.tsx:387-393 | a positive duration is its minutes, a colon and its seconds padded to two digits |
| CallDetails.DurationRoundTrip | src/pages/Calls/CallDetails.tsx:387-393 | a positive duration reads back as minutes, a colon and two digits below 60, which together give the duration |
| CallDetails.DurationFields | src/pages/Calls/CallDetails.tsx:390-393 | the fields of "m:ss" read back as the duration they were made from |
| CallDetails.DurationExample | src/pages/Calls/CallDetails.tsx:325 | the sample call's 352 seconds read "5:52" |
| CallDetails.SourceOf | src/pages/Calls/CallDetails.tsx:264-312 | the demo path iff the id starts with `demo-call-`; the provider path iff it does not and is longer than 8; otherwise the sample call |
| CallDetails.DemoCallsTakeDemoPath | src/pages/Calls/CallDetails.tsx:264 | every call the demo mode starts is shown from the demo path |
| CallDetails.ProviderToStatus | src/pages/Calls/CallDetails.tsx:293-297 | `completed` shows as completed, `in-progress` as in progress, `ringing` as dialing and `failed` as failed; any other provider status shows as `pending`, and no other status is ever shown |
| CallDetails.DemoStatusesShownInOrder | src/pages/Calls/CallDetails.tsx:293-297 | the demo statuses are shown as pending, dialing, in progress or completed, and a later report never shows an earlier stage |
| CallDetails.ProviderCall | src/pages/Calls/CallDetails.tsx:287-301 | the provider record keeps the id, maps the status, shows "Unknown" without a number, keeps a readable duration as read by `parseInt`, and reads an unreadable one as 0 |
| CallDetails.UnreadableDurationShownAsMissing | src/pages/Calls/CallDetails.tsx:300 | a provider answer without a readable duration shows "N/A" |
| CallDetails.SampleCall | src/pages/Calls/CallDetails.tsx:316-363 | the sample call is completed, lasts 352 seconds, carries its notes, and takes the route id or "1" |
| CallDetails.ScreenOf | src/pages/Calls/CallDetails.tsx:474-513 | the details show iff the page is loaded with no error and a call; End Call is offered iff the call is dialing, connected or in progress, Retry iff it failed, never both |
| CallDetails.OffersEndCall | src/pages/Calls/CallDetails.tsx:502-504 | End Call is offered exactly for the statuses from `dialing` to `in_progress` in the lifecycle's order |
| CallDetails.OffersRetry | src/pages/Calls/CallDetails.tsx:509 | Retry Call is offered exactly for the status stored as `failed`, and never together with End Call |
| CallDetails.CallDetailsPage.constructor | src/pages/Calls/CallDetails.tsx:250-256 | no call, loading, no error, empty notes, no handler busy |
| CallDetails.CallDetailsPage.Load | src/pages/Calls/CallDetails.tsx:258-373 | by the id's path: the demo answer or its error; the provider record, or still loading when the provider fails; or the sample call with its notes |
| CallDetails.CallDetailsPage.EditNotes | src/pages/Calls/CallDetails.tsx:579-581 | the notes take the new text and nothing else changes |
| CallDetails.CallDetailsPage.SaveNotes | src/pages/Calls/CallDetails.tsx:400-423 | the call's notes become the text area's, nothing else changes |
| CallDetails.CallDetailsPage.RetryCall | src/pages/Calls/CallDetails.tsx:425-448 | the call goes back to `pending`, nothing else changes |
| CallDetails.CallDetailsPage.EndCall | src/pages/Calls/CallDetails.tsx:450-472 | nothing without a call or an id; otherwise the call is completed now, or the service's error is shown |

## Left out

- The provider client and the OpenAI client are not modelled: the non-demo branches of `initiateCall` and `getCallStatus`, the callback address rewrite, and the module's console output.
- The client's call service (src/services/CallService.ts) is not part of this model. Its answers are parameters of the page handlers.
- Timers (`setTimeout`, the simulated network delays) fire at once. Concurrency and interleaving of handlers are not modelled.
- The clock (`Date.now()`, `new Date()`) is a parameter. ISO and locale date formatting is left out; the client's times are opaque strings.
- `localStorage` and `JSON.parse` are not modelled: the stored user is an already parsed value held by the provider. The module-level `MOCK_USERS` array is a field of the provider.
- Mongoose itself is modelled only as far as the handlers rely on it: creation with validators, updates with `runValidators`, `findOne`, `find` and `findOneAndDelete` by owner. Cast errors of malformed ids, `populate`, indexes and store failures other than validation are left out. Identifiers are naturals from a counter.
- `parseInt` is modelled for decimal text only: an optional sign, then digits. The `0x` prefix is left out.
- durations are integers; floating-point durations are not modelled.
- The user schema (server/src/models/user.model.ts) is not part of this model. The service reads only a user's first and last name.
- The generated transcript and summary are passed to the flow as generator functions. The placeholder ones in call.service.ts are modelled in full.
- The sample data of the pages (the demo call's long summary and transcript, the mock experts and calls lists) are parameters: only the fields the properties rely on are fixed.
- Catch paths the pages cannot reach are left out: the `'Error saving notes'`, `'Error retrying call'`, `'Error fetching expert details'` and `'Error saving expert'` branches of handlers whose `try` blocks only wait on timers.
- CallDetails.CallDetailsPage.Load: a failed provider lookup leaves the page loading, as the source does; no fallback to the sample call is modelled because the source has none on that path.
- ExpertModel.UpdateExpert and ExpertController.UpdateExpert: a field left `undefined` after destructuring the request body is treated as not set and dropped from the update; whether it is dropped or written as `null` depends on Mongoose's version and options, which the repository does not pin here.
- ExpertController.UpdateExpert: does not model the race in which the expert disappears between `findOne` and `findByIdAndUpdate` (the source would answer 200 with `null`).
- The page titles, styles and markup are left out; only the choices they depend on (which screen, which buttons, which message) are modelled.
