# zeo.ai crisis-alert path, modelled in Dafny

This project models the crisis-alert path of the zeo.ai mental-health companion. The path runs in five steps:

- A conversation transcript is scored for crisis risk against three weighted phrase tiers.
- A score of 10 or more marks the transcript critical.
- The user's stored emergency contacts are then called one by one through the telephony provider. A backup SMS follows only when the call went through; when the provider client is not configured, nothing is sent and every contact gets a failure record.
- The call's spoken script is rendered through a text-to-speech service and kept as a temporary audio file.
- The provider's webhooks are answered with TwiML.

Around that path the model also covers the server's session bookkeeping:

- the free-plan quota;
- pagination;
- append-only session updates;
- ratings;
- owner-scoped lookups;
- the integer parts of the analytics;
- the Mongoose schemas of sessions and users.

It also covers the client-side state that feeds the path:

- the emergency-contact editor and its phone check;
- the authentication service's token and user storage;
- the password rules and state handling of the sign-up and settings pages.

## Modules

| file | module | models |
|---|---|---|
| wrappers.dfy | Wrappers | `Option`, `Result`, the controllers' JSON `Reply` |
| text.dfy | Text | JavaScript string helpers: truthiness, `includes`, `join`, `toLowerCase`, `trim`, `parseInt` |
| crisis_detection.dfy | CrisisDetection | `server/services/crisisDetection.js` |
| crisis_example.dfy | CrisisExample | the transcript of `test-emergency.js`, worked through the analyser |
| eleven_labs.dfy | ElevenLabs | `server/services/elevenLabs.js` |
| twilio_service.dfy | TwilioService | `server/services/twilioService.js` |
| session_model.dfy | SessionModel | `server/models/Session.js` |
| user_model.dfy | UserModel | `server/models/User.js` |
| session_controller.dfy | SessionController | `server/controllers/sessionController.js` |
| emergency_controller.dfy | EmergencyController | `server/controllers/emergencyController.js` |
| contacts_manager.dfy | ContactsManager | `client/src/components/EmergencyContactsManager.tsx` |
| auth_service.dfy | AuthClient | `client/src/services/authService.ts` |
| register_page.dfy | RegisterPage | `client/src/pages/Register.tsx` |
| settings_page.dfy | SettingsPage | `client/src/pages/Settings.tsx` |

The model follows the form of each source file:

- The crisis analyser is a specification function, `Analyze`. Beside it sits a loop-based method, `AnalyzeConversation`, that is proved equal to it.
- The telephony service is a class. Its `notifyEmergencyContacts` loop is proved against the function `Dispatch`.
- The MongoDB collection is a class, `SessionStore`, holding a map. The controllers' handlers are methods over it.
- The React components and the client service are classes whose fields are the components' state.

Everything the outside world decides is a parameter of the operation:

- provider replies;
- clocks;
- random bytes;
- hashing;
- JSON parsing;
- the HTTP outcome of each client call.

## Model

| member | source | states |
|---|---|---|
| CrisisDetection.Present | server/services/crisisDetection.js:41-62 | the phrases a tier reports are an ordered sub-list of the tier (entries dropped, the rest in tier order), each occurring in the text |
| CrisisDetection.PresentMembers | server/services/crisisDetection.js:41-62 | a phrase is reported for a tier iff it belongs to the tier and occurs in the text |
| CrisisDetection.Dedup | server/services/crisisDetection.js:79 | `[...new Set(xs)]` has no duplicates and the same members as `xs` |
| CrisisDetection.DedupDistinct | server/services/crisisDetection.js:79 | on a list without duplicates `[...new Set(xs)]` is `xs` itself, order kept |
| CrisisDetection.FoundDistinct | server/services/crisisDetection.js:41-62 | the phrases the three scans push are never repeated, because no phrase is listed twice within or across tiers |
| CrisisDetection.LowerAll | server/services/crisisDetection.js:37 | every user turn is lower-cased, one for one |
| CrisisDetection.ScanTier | server/services/crisisDetection.js:41-62 | one `forEach` over a tier adds the weight once per phrase present and records those phrases in tier order |
| CrisisDetection.Analyze | server/services/crisisDetection.js:29-83 | `isCrisis` = `requiresIntervention` iff the score reaches 10; the level is the threshold cascade of the score; keywords are duplicate-free, each occurs in the user text, and there are none exactly when the score is 0; stamped with the clock reading |
| CrisisDetection.AnalyzeConversation | server/services/crisisDetection.js:29-83 | the loop-based analysis returns exactly the specification `Analyze` |
| CrisisDetection.UserContentsAppend | server/services/crisisDetection.js:35-38 | the user turns of a concatenation are the concatenation of the user turns |
| CrisisDetection.NonUserTurnIgnored | server/services/crisisDetection.js:35-38 | inserting a turn whose role is not "user" anywhere leaves the analysis unchanged |
| CrisisDetection.NonUserContentIgnored | server/services/crisisDetection.js:35-38 | changing a non-user turn's content leaves the analysis unchanged |
| CrisisDetection.ScoreBounds | server/services/crisisDetection.js:6-62 | the score lies between 0 and 196 |
| CrisisDetection.PresentAppend | server/services/crisisDetection.js:41-62 | scanning a tier in two parts finds what scanning it whole finds |
| CrisisDetection.PresentDependsOnPresence | server/services/crisisDetection.js:41-62 | a tier's result depends only on which of its phrases occur |
| CrisisDetection.PresenceDeterminesAnalysis | server/services/crisisDetection.js:41-82 | two transcripts containing the same listed phrases get the same analysis, so repeating a phrase adds nothing |
| CrisisDetection.LevelMonotone | server/services/crisisDetection.js:65-73 | the level is monotone in the score |
| CrisisDetection.LevelThresholds | server/services/crisisDetection.js:65-73 | critical iff ≥10, high iff 7..9, medium iff 4..6, low iff 2..3, none iff below 2 |
| CrisisDetection.ReachableScoresBelowThreshold | server/services/crisisDetection.js:41-73 | a score below 10 is one of 0, 3, 6, 7, 9 |
| CrisisDetection.InterventionIffCritical | server/services/crisisDetection.js:65-80 | `isCrisis` = `requiresIntervention` = (score ≥ 10) = (level critical) |
| CrisisDetection.DetectedKeywordsExact | server/services/crisisDetection.js:41-79 | the keywords have no duplicates and are exactly the listed phrases occurring in the joined user text |
| CrisisDetection.KeywordsInScanOrder | server/services/crisisDetection.js:41-79 | `detectedKeywords` is the pushed list unchanged: suicide-tier phrases first, then self-harm, then severe, each tier in its listed order |
| CrisisDetection.NoUserContents | server/services/crisisDetection.js:35-36 | a transcript without user turns contributes no text |
| CrisisDetection.NoUserTurnsNoRisk | server/services/crisisDetection.js:30-32 | an empty transcript, or one with no user turn, scores 0 at level none with no keywords and no intervention |
| CrisisDetection.LastN | server/services/crisisDetection.js:95 | `slice(-n)` is the last `min(n, length)` entries |
| CrisisDetection.GenerateCrisisSummary | server/services/crisisDetection.js:92-105 | the summary embeds the user's name, the level, the keywords joined by ", " and the recent context |
| CrisisDetection.RecentContextIsLastFive | server/services/crisisDetection.js:93-97 | the context is the last five user turns at most, in order, joined by ". ", and empty without user turns |
| CrisisExample.EndMyLifeScoresExactlyTen | test-emergency.js:43-47 | the test transcript scores exactly 10, level critical, intervention required, keywords ["end my life"] ("cannot go on" is not "can't go on") |
| ElevenLabs.ConfiguredVoice | server/services/elevenLabs.js:15 | the voice is the configured one when it is set and non-empty, otherwise the default voice |
| ElevenLabs.Greeting | server/services/elevenLabs.js:61 | the contact's name when it is non-empty, otherwise "there" |
| ElevenLabs.GenerateCallScript | server/services/elevenLabs.js:60-70 | the script speaks the summary verbatim |
| ElevenLabs.ScriptLayout | server/services/elevenLabs.js:60-70 | the script is a fixed opening, the summary verbatim, and a fixed closing |
| ElevenLabs.ScriptDeterminesSummary | server/services/elevenLabs.js:60-70 | different summaries give different scripts |
| ElevenLabs.ScriptGreets | server/services/elevenLabs.js:61 | the script greets a named contact by name, otherwise "there" |
| ElevenLabs.ScriptCitesHotlines | server/services/elevenLabs.js:63-67 | the script contains 911, 988 and 1-800-273-8255 |
| ElevenLabs.TextToSpeech | server/services/elevenLabs.js:23-52 | success returns the provider's audio unchanged; every failure becomes the one error "Failed to generate speech" |
| ElevenLabs.AudioPathInjective | server/services/elevenLabs.js:85-86 | two saves get the same path iff they happen in the same millisecond |
| ElevenLabs.CleanedUp | server/services/elevenLabs.js:97-105 | clean-up removes the file only if it exists and the unlink succeeds, and touches no other file |
| ElevenLabs.SameMillisecondOverwrites | server/services/elevenLabs.js:85-88 | two saves in the same millisecond leave only the second recording |
| ElevenLabs.DistinctMillisecondsKeepBoth | server/services/elevenLabs.js:85-88 | saves in different milliseconds keep both recordings |
| ElevenLabs.CleanupUndoesSave | server/services/elevenLabs.js:77-105 | cleaning up a freshly saved file restores the directory |
| ElevenLabs.ElevenLabsService.constructor | server/services/elevenLabs.js:11-16 | the voice id is the configured voice |
| ElevenLabs.ElevenLabsService.SaveAudioToFile | server/services/elevenLabs.js:77-91 | creates the directory when missing, writes the audio and returns `<temp>/emergency-call-<ms>.mp3` |
| ElevenLabs.ElevenLabsService.CleanupAudioFile | server/services/elevenLabs.js:97-105 | the directory becomes `CleanedUp` of the old one, and the call never fails |
| TwilioService.SmsBody | server/services/twilioService.js:104 | the SMS text is the fixed banner, the message verbatim, and the fixed directive |
| TwilioService.SmsBodyInjective | server/services/twilioService.js:104 | different messages give different SMS texts |
| TwilioService.CallTwiml | server/services/twilioService.js:44-59 | the call document speaks the script verbatim |
| TwilioService.TwimlLayout | server/services/twilioService.js:44-59 | the call document is a fixed head, the script verbatim, and the fixed pause, menu, gather and closing |
| TwilioService.CallTwimlGathers | server/services/twilioService.js:44-59 | the document contains the gather action `/api/emergency/call-response` |
| TwilioService.CallResult | server/services/twilioService.js:27-89 | without a client the call fails with "Twilio client not initialized…"; it succeeds iff there is a client, speech succeeded and the provider accepted |
| TwilioService.SmsResult | server/services/twilioService.js:97-122 | without a client the SMS fails with "not initialized"; it succeeds iff there is a client and the provider accepted |
| TwilioService.DispatchStep | server/services/twilioService.js:133-161 | one more contact extends the results, the outbox and the directory by exactly that contact's share |
| TwilioService.ContactEntriesCases | server/services/twilioService.js:134-160 | a contact yields one failure entry, or a call entry then an SMS entry, or a call entry then a failure entry |
| TwilioService.FailedCallSkipsSms | server/services/twilioService.js:134-160 | when the call throws, no SMS is requested for that contact and none of its entries succeeds |
| TwilioService.PauseOnlyAfterFullSuccess | server/services/twilioService.js:151 | the 2-second pause follows a contact iff its call and its SMS both succeeded |
| TwilioService.Dispatch | server/services/twilioService.js:130-164 | the results of the loop over the contacts hold between one and two entries per contact |
| TwilioService.DispatchAppend | server/services/twilioService.js:133-161 | contacts are handled in list order: the results of a list in two parts are the first part's results, then the second's |
| TwilioService.DispatchContactsFromList | server/services/twilioService.js:141-159 | every entry names a contact of the list |
| TwilioService.NoClientNoRequests | server/services/twilioService.js:29-101 | without a client nothing is sent and no audio is saved, and each contact gets exactly one "not initialized" failure |
| TwilioService.SuccessCount | server/controllers/emergencyController.js:109 | the count of successful entries is at most the number of entries |
| TwilioService.SuccessCountAppend | server/controllers/emergencyController.js:109 | the count of successful entries adds up over concatenation |
| TwilioService.FullyNotified | server/services/twilioService.js:136-151 | the contacts whose call and SMS both succeeded are at most all of them |
| TwilioService.Called | server/services/twilioService.js:136-141 | the contacts whose call succeeded are at most all of them |
| TwilioService.SuccessCountOfDispatch | server/services/twilioService.js:136-160 | the successful entries are one per placed call plus one per sent SMS, and every sent SMS follows a placed call |
| TwilioService.TwilioService.constructor | server/services/twilioService.js:9-17 | a client exists iff the account sid and the auth token are both non-empty; the status callback uses SERVER_URL or the default |
| TwilioService.TwilioService.MakeEmergencyCall | server/services/twilioService.js:27-89 | the result is `CallResult`; the outbox grows by the call's requests, and the directory gains the audio file |
| TwilioService.TwilioService.SendEmergencySMS | server/services/twilioService.js:97-122 | the result is `SmsResult`; the outbox grows by the SMS request, or by nothing without a client |
| TwilioService.TwilioService.NotifyContact | server/services/twilioService.js:134-160 | one loop iteration appends `ContactEntries` and the contact's requests |
| TwilioService.TwilioService.NotifyEmergencyContacts | server/services/twilioService.js:130-164 | never fails; the results are `Dispatch` of the contacts, and the outbox and the directory are the dispatch's |
| SessionModel.StatusFromName | server/models/Session.js:55-59 | accepts exactly "active", "completed", "interrupted" |
| SessionModel.MessageRoleFromName | server/models/Session.js:47-51 | accepts exactly "user" and "assistant" |
| SessionModel.CrisisLevelFromName | server/models/Session.js:64-68 | accepts exactly the five level names |
| SessionModel.AnalyzerLevelsMatchSchema | server/models/Session.js:64-68 | every level the analyser emits is in the schema's enum, and every enum value is accepted |
| SessionModel.NewSession | server/models/Session.js:3-103 | a new session has the given fields and the schema's defaults (duration 0, status active, no crisis, no notification, no rating); it is valid iff both ids are non-empty |
| SessionModel.SessionStore.constructor | server/models/Session.js:109 | the collection starts empty |
| SessionModel.SessionStore.Insert | server/models/Session.js:109 | an insert adds the session under a fresh id and keeps every stored session valid |
| SessionModel.Owned | server/controllers/sessionController.js:96-99 | a session is found iff the id exists and it belongs to the user |
| UserModel.RoleFromName | server/models/User.js:34-38 | accepts exactly "user" and "admin" |
| UserModel.ThemeFromName | server/models/User.js:48-52 | accepts exactly "light", "dark", "auto" |
| UserModel.PlanFromName | server/models/User.js:77-81 | accepts exactly "free", "premium", "enterprise" |
| UserModel.StoredName | server/models/User.js:7-12 | a stored name is the trimmed input, non-empty and at most 50 UTF-16 code units; otherwise the save fails |
| UserModel.StoredNameStable | server/models/User.js:7-12 | storing a stored name again changes nothing |
| UserModel.PasswordError | server/models/User.js:24-29 | a password is accepted iff it is present, non-empty and at least 6 UTF-16 code units long |
| UserModel.StoredContact | server/models/User.js:58-75 | a contact needs a name and a phone; the relationship defaults to "Emergency Contact" and isPrimary to false; the phone is not format-checked |
| UserModel.StoredContactRoundTrip | server/models/User.js:58-75 | a valid contact stored field by field comes back unchanged |
| UserModel.Hex | server/models/User.js:137 | hex text has two lower-case hex digits per byte |
| UserModel.HexInjective | server/models/User.js:137 | different bytes give different hex text |
| UserModel.User.constructor | server/models/User.js:30-108 | a new user has role user, theme auto, notifications on, no contacts and the free subscription (0 of 10 sessions) |
| UserModel.User.GetResetPasswordToken | server/models/User.js:136-147 | returns the 40-character hex token, stores its hash rather than the token, sets expiry to now + 600000 ms, and changes nothing else |
| SessionController.CreateStatus | server/controllers/sessionController.js:11-29 | 400 iff an id is missing; 500 iff the user is missing; 403 iff a free-plan user has used the limit; 201 otherwise |
| SessionController.AfterCreate | server/controllers/sessionController.js:20-39 | a successful create increments sessionsUsed by exactly 1; a blocked one changes nothing |
| SessionController.FreePlanAllowsTenSessions | server/controllers/sessionController.js:20-39 | a new free user's first ten creates succeed and every later one is refused (with the free plan's defaults from server/models/User.js) |
| SessionController.PaidPlansNeverBlocked | server/controllers/sessionController.js:20-29 | premium and enterprise users are never blocked, and each create counts once |
| SessionController.CreateSession | server/controllers/sessionController.js:7-54 | the status is `CreateStatus`; a 201 inserts `NewSession` and applies `AfterCreate`; any other status creates nothing and keeps the counter |
| SessionController.PageParam | server/controllers/sessionController.js:61-62 | `parseInt(q) \|\| default`: the parsed value when it is a non-zero integer, the default otherwise |
| SessionController.CeilDiv | server/controllers/sessionController.js:78 | `Math.ceil(total / limit)` satisfies the ceiling bounds for either sign of the limit |
| SessionController.Window | server/controllers/sessionController.js:65-69 | skip then limit: the page holds `min(size, n - skip)` documents, each the one at `skip + i` without messages or emotion data |
| SessionController.GetSessions | server/controllers/sessionController.js:59-89 | 200 iff the skip is not negative; then count, total, page, pages and the window follow from the page and limit |
| SessionController.FirstPageByDefault | server/controllers/sessionController.js:61-63 | without query parameters the first ten sessions are listed |
| SessionController.PageParamReadsDecimal | server/controllers/sessionController.js:61-62 | a positive decimal parameter is read back as its value |
| SessionController.PageParamsReadBack | server/controllers/sessionController.js:61-78 | decimal page and limit give skip `(page-1)*limit` and the window that starts there |
| SessionController.EverySessionOnItsPage | server/controllers/sessionController.js:61-78 | session `i` appears on page `i / limit + 1` at position `i % limit` |
| SessionController.GetSession | server/controllers/sessionController.js:94-120 | 200 with the session iff it exists and is the user's; otherwise 404 "Session not found" |
| SessionController.StoredEmotion | server/models/Session.js:25-41 | an emotion sample keeps its fields and gets a timestamp of now when none is given |
| SessionController.CastMessage | server/models/Session.js:42-54 | a message is stored iff its role is "user" or "assistant"; its fields are kept and the timestamp defaults to now |
| SessionController.ApplyUpdate | server/controllers/sessionController.js:139-164 | fails iff the role or status is invalid; appends to both lists; duration only when truthy; endedAt iff the new status is terminal; nothing else changes; validity is kept |
| SessionController.EmptyUpdateChangesNothing | server/controllers/sessionController.js:139-162 | an empty update leaves the session unchanged |
| SessionController.EditSession | server/controllers/sessionController.js:141-164 | the edited document is the one `ApplyUpdate` describes; validation fails exactly when `ApplyUpdate` gives none |
| SessionController.UpdateSession | server/controllers/sessionController.js:125-178 | 404 iff not owned; 500 with no change iff the update fails validation; otherwise 200 with `ApplyUpdate` stored |
| SessionController.AcceptedRatingMatchesSchema | server/controllers/sessionController.js:187 | the controller's rating check accepts exactly the non-null ratings the schema allows (the schema's bounds are in server/models/Session.js) |
| SessionController.Rated | server/controllers/sessionController.js:194-198 | a rated session has the rating, the feedback when one is given, and is otherwise unchanged |
| SessionController.RateSession | server/controllers/sessionController.js:183-219 | 400 iff the rating is falsy or outside 1..5; 404 iff not owned; 200 iff both hold, with `Rated` stored; otherwise no change |
| SessionController.DeleteSession | server/controllers/sessionController.js:224-250 | 200 iff owned, and the session is removed; otherwise 404 and no change |
| SessionController.GetAnalytics | server/controllers/sessionController.js:255-291 | totalSessions is the count, totalDuration is `TotalDuration`, completedSessions is `CompletedCount` (≤ total), and recentSessions are the first `min(5, n)` sessions in order |
| SessionController.TotalDuration | server/controllers/sessionController.js:261 | with no negative duration the total is not negative |
| SessionController.CompletedCount | server/controllers/sessionController.js:265 | at most the number of sessions; 0 iff none is completed, and all iff every one is |
| SessionController.TotalDurationAppend | server/controllers/sessionController.js:261 | the duration total adds up over concatenation |
| SessionController.CompletedCountAppend | server/controllers/sessionController.js:265 | the completed count adds up over concatenation |
| SessionController.TotalDurationBounds | server/controllers/sessionController.js:261 | with non-negative durations the total is non-negative and at least each duration |
| EmergencyController.CrisisFlagged | server/controllers/emergencyController.js:29-45 | only the given session is touched, and only on a crisis: it becomes crisisDetected with the level and time |
| EmergencyController.FlagsAreCritical | server/controllers/emergencyController.js:29-45 | a session flagged by the analysis is flagged at level critical, stamped with the controller's own clock reading |
| EmergencyController.AnalyzeSession | server/controllers/emergencyController.js:14-59 | without messages, 400 "Messages array is required" and nothing else; otherwise 200 with `Analyze` at the analyser's clock reading, and the session flagged per `CrisisFlagged` at the controller's later reading |
| EmergencyController.NotifyStatus | server/controllers/emergencyController.js:64-120 | 400 iff there are no contacts or the analysis does not require intervention; 200 iff there are contacts and it does |
| EmergencyController.NotifyOnlyWhenCritical | server/controllers/emergencyController.js:78-86 | a 200 notification implies a critical analysis with score ≥ 10 |
| EmergencyController.NotificationLogged | server/controllers/emergencyController.js:98-104 | only the given session is touched: it is marked notified with the time and the results |
| EmergencyController.NotifyEmergencyContacts | server/controllers/emergencyController.js:64-120 | the status is `NotifyStatus`; contacts are checked before the threshold and both before dispatch; a refusal sends nothing; 200 reports `Dispatch` and its success count |
| EmergencyController.AlertContacts | server/controllers/emergencyController.js:88-111 | the dispatch results are `Dispatch` of the contacts; the session is logged per `NotificationLogged`; `contactsNotified` is their success count |
| EmergencyController.ContactsNotifiedCount | server/controllers/emergencyController.js:109 | `contactsNotified` equals placed calls plus fully notified contacts, so a fully notified contact counts twice; it lies between the calls placed and twice that |
| EmergencyController.CallResponseTwiml | server/controllers/emergencyController.js:128-137 | a single `<Response>` document holding the redirect iff Digits is exactly "1", otherwise the closing Say |
| EmergencyController.OnlyOneRepeats | server/controllers/emergencyController.js:130-135 | only "1" repeats; every other value, or none, gets the same reply as no value |
| EmergencyController.HandleCallResponse | server/controllers/emergencyController.js:125-141 | the string built step by step is `CallResponseTwiml` |
| EmergencyController.HandleCallStatus | server/controllers/emergencyController.js:146-159 | always 200 "OK", whatever the callback carries |
| CrisisDetection.GetCrisisResources | server/services/crisisDetection.js:111-123 | the US and international entries cite the same lifeline and crisis numbers, and the two differ |
| EmergencyController.CrisisResourcesReply | server/controllers/emergencyController.js:164-172 | 200 with the hotline table and the fixed notice |
| EmergencyController.NoticeCitesLifeline | server/controllers/emergencyController.js:166-171 | the notice cites the same lifeline number as the table |
| EmergencyController.TestEmergencySystem | server/controllers/emergencyController.js:185-213 | no phone number gives 400 and sends nothing; otherwise exactly one SMS with the fixed test message, and no call |
| EmergencyController.TestSendsOnlyTheTestSms | server/controllers/emergencyController.js:196-198 | the test sends at most one request, an SMS, and never a call |
| ContactsManager.StripSeparators | client/src/components/EmergencyContactsManager.tsx:36 | the stripped phone holds no white space or hyphen and is no longer than the input |
| ContactsManager.SeparatorsIgnored | client/src/components/EmergencyContactsManager.tsx:35-36 | inserting a space or a hyphen anywhere never changes whether a number is accepted |
| ContactsManager.ValidPhone | client/src/components/EmergencyContactsManager.tsx:35-36 | every accepted number, separators removed, has 2 to 16 characters (at most 15 without the plus) and never starts with 0: longer or shorter numbers are refused at every length |
| ContactsManager.AcceptedNumbersAreShortDigitStrings | client/src/components/EmergencyContactsManager.tsx:35-36 | an accepted number is an optional '+' and then 2 to 15 digits |
| ContactsManager.ExamplePhoneAccepted | client/src/components/EmergencyContactsManager.tsx:35-37 | the number the error message suggests, "+1234567890", is accepted |
| ContactsManager.LeadingZeroRefused | client/src/components/EmergencyContactsManager.tsx:35 | a number starting with 0 is refused |
| ContactsManager.WithoutIndexSlices | client/src/components/EmergencyContactsManager.tsx:49 | the filter drops exactly index i, keeps the order of the rest, and changes nothing for an out-of-range i |
| ContactsManager.RemoveUndoesAdd | client/src/components/EmergencyContactsManager.tsx:41-51 | removing the last entry after an add gives the list back |
| ContactsManager.EmergencyContactsManager.constructor | client/src/components/EmergencyContactsManager.tsx:21-26 | the given contacts or none; an empty, closed form; no messages |
| ContactsManager.EmergencyContactsManager.OpenForm | client/src/components/EmergencyContactsManager.tsx:160 | opens the form and changes nothing else |
| ContactsManager.EmergencyContactsManager.Edit | client/src/components/EmergencyContactsManager.tsx:198-233 | typing replaces the contact being entered and changes nothing else |
| ContactsManager.EmergencyContactsManager.AddContact | client/src/components/EmergencyContactsManager.tsx:28-46 | a missing field gives the required error and an invalid phone the format error, both with the list and form unchanged; otherwise the contact is appended as typed and the form is reset and closed |
| ContactsManager.EmergencyContactsManager.RemoveContact | client/src/components/EmergencyContactsManager.tsx:48-51 | the list becomes `WithoutIndex` of the old list, and nothing else changes |
| ContactsManager.EmergencyContactsManager.Cancel | client/src/components/EmergencyContactsManager.tsx:176-180 | resets and closes the form and clears the error without touching the list |
| ContactsManager.EmergencyContactsManager.SaveContacts | client/src/components/EmergencyContactsManager.tsx:53-67 | hands over the list unchanged; success sets the saved message; failure sets its message or the fallback; loading ends off |
| AuthClient.Token | client/src/services/authService.ts:131-133 | the token is present iff the storage holds the key |
| AuthClient.AuthHeader | client/src/services/authService.ts:52-55 | a Bearer header with the stored token iff the user is authenticated, otherwise none |
| AuthClient.StoredUser | client/src/services/authService.ts:135-143 | nothing when the entry is missing or empty; otherwise what parsing gives |
| AuthClient.SignedIn | client/src/services/authService.ts:60-63 | both keys written with the token and the serialised user; other keys kept |
| AuthClient.SignedOut | client/src/services/authService.ts:126-129 | both keys removed; other keys kept |
| AuthClient.SignInAuthenticates | client/src/services/authService.ts:60-63 | storing a non-empty token authenticates, and the header carries exactly that token (read by `isAuthenticated` and `getAuthHeader`) |
| AuthClient.SignOutClears | client/src/services/authService.ts:126-147 | after logout nobody is authenticated, no header is sent, no user is read, and other keys survive |
| AuthClient.StoredUserRoundTrip | client/src/services/authService.ts:135-143 | a user stored at sign-in is read back, given that parsing undoes serialising |
| AuthClient.MissingUserReadsBackAsNothing | client/src/services/authService.ts:135-143 | a reply with a token but no user stores "undefined", which reads back as no user while the token is set |
| AuthClient.ReasonPrefersServer | client/src/services/authService.ts:66 | a failure's message is the server's when it is non-empty, otherwise the fallback, and never empty (the same pattern closes all five calls) |
| AuthClient.AuthService.constructor | client/src/services/authService.ts:150 | the service starts over the browser's storage with no requests sent |
| AuthClient.AuthService.GetToken | client/src/services/authService.ts:131-133 | reads the stored token |
| AuthClient.AuthService.GetStoredUser | client/src/services/authService.ts:135-143 | reads the stored user |
| AuthClient.AuthService.Remember | client/src/services/authService.ts:60-63 | the keys are written only when the reply carries a non-empty token (as `login` does too) |
| AuthClient.AuthService.Register | client/src/services/authService.ts:57-68 | posts without a header; a reply with a token signs in; a failure changes nothing and throws the server's message or "Registration failed" |
| AuthClient.AuthService.Login | client/src/services/authService.ts:70-81 | as register, with the fallback "Login failed" |
| AuthClient.AuthService.GetCurrentUser | client/src/services/authService.ts:83-96 | asks with the stored header; a returned user replaces the stored one; a failure logs out and throws the message or "Failed to get user" |
| AuthClient.AuthService.UpdateDetails | client/src/services/authService.ts:98-112 | asks with the stored header; a returned user replaces the stored one; a failure keeps the storage and throws the message or "Failed to update details" |
| AuthClient.AuthService.UpdatePassword | client/src/services/authService.ts:114-124 | asks with the stored header, never touches the storage, and throws the message or "Failed to update password" |
| AuthClient.AuthService.Logout | client/src/services/authService.ts:126-129 | removes both keys, after which nobody is authenticated |
| RegisterPage.FormError | client/src/pages/Register.tsx:26-34 | no error iff the password is at least 6 UTF-16 code units long (`password.length`) and matches; the length is checked first |
| RegisterPage.AstralPasswordLongEnough | client/src/pages/Register.tsx:26 | three characters beyond U+FFFF make a long enough password |
| RegisterPage.ShortMismatchReportsLength | client/src/pages/Register.tsx:26-34 | a short password that also mismatches reports the length error |
| RegisterPage.ClientPasswordRuleMatchesServer | client/src/pages/Register.tsx:26 | the form accepts a password iff the server's schema does (the server's rule is in server/models/User.js) |
| RegisterPage.Register.constructor | client/src/pages/Register.tsx:14-19 | every field empty, no error, not loading |
| RegisterPage.Register.Fill | client/src/pages/Register.tsx:127-179 | typing sets the four fields and nothing else |
| RegisterPage.Register.HandleSubmit | client/src/pages/Register.tsx:21-46 | the error is cleared; a failed check sets its message with no register call; otherwise register is called once with loading on, success navigates to /dashboard, failure shows its message or the fallback, and loading ends off |
| SettingsPage.BearerOf | client/src/pages/Settings.tsx:82 | the header carries the token, or the text "null" when none is stored (both requests build it the same way) |
| SettingsPage.PasswordFormError | client/src/pages/Settings.tsx:64-72 | no error iff the new password is at least 6 UTF-16 code units long and matches; the length is checked first |
| SettingsPage.PasswordRulesAgree | client/src/pages/Settings.tsx:64-72 | the settings and sign-up forms accept the same passwords and report a mismatch in the same cases (against client/src/pages/Register.tsx) |
| SettingsPage.PasswordOutcomeError | client/src/pages/Settings.tsx:76-98 | no error iff the response is ok and its body parses; any error shown is non-empty |
| SettingsPage.RefusedPasswordShowsServerMessage | client/src/pages/Settings.tsx:89-98 | a refused update shows the server's message, or "Failed to update password" |
| SettingsPage.Settings.constructor | client/src/pages/Settings.tsx:29-40 | name and email from the signed-in user, or empty; password fields empty; no messages |
| SettingsPage.Settings.HandleUpdateProfile | client/src/pages/Settings.tsx:43-57 | both messages cleared; the update is handed over; success or the error is shown; loading ends off |
| SettingsPage.Settings.HandleUpdatePassword | client/src/pages/Settings.tsx:59-102 | messages cleared; a failed check sends nothing; otherwise one request with the stored token, success clears the three fields, failure shows `PasswordOutcomeError`, and loading ends off |
| SettingsPage.Settings.HandleDeleteAccount | client/src/pages/Settings.tsx:104-130 | nothing without confirmation; otherwise one request, an ok response logs out and goes to "/", anything else shows an error; loading ends off |
| Text.Utf16Length | client/src/pages/Register.tsx:26 | `s.length` counts UTF-16 code units: between one and two per character, and one per character when none lies beyond U+FFFF |
| Text.ParseInt | server/controllers/sessionController.js:61-62 | blank text is NaN, and a negative result needs a leading minus after the white space |
| Text.ParseIntReadsDecimal | server/controllers/sessionController.js:61-62 | `parseInt` reads a decimal numeral followed by a non-digit back as its value |
| Text.ParseIntReadsNegative | server/controllers/sessionController.js:61-62 | `parseInt` reads "-n" as the negative of n |
| Text.ParseIntSkipsSpace | server/controllers/sessionController.js:61-62 | `parseInt` skips leading white space |
| Text.ParseIntNoDigits | server/controllers/sessionController.js:61-62 | text with no leading digits parses to nothing (NaN) |

## Left out

- Network, provider and database I/O. Provider replies, the clock, random bytes, SHA-256 and `JSON.parse`/`JSON.stringify` are parameters. MongoDB is a map from numeric ids to sessions.
- The order of `Session.find(...).sort({ createdAt: -1 })`. The model takes the user's sessions already in database order as the `owned` and `docs` parameters.
- Floating point: average duration and rating, emotion trends and scores, and voice settings.
- `getCallStatus` and the route and middleware files. That includes the admin check on the test route. It also includes the fact that no route serves `/api/emergency/repeat-message`.
- Timers. The 60-second audio clean-up and the 2-second pause are recorded as entries in the outbox and are never run. The 3-second success clear in the contacts editor is left out.
- JSX rendering, the authentication context, `ProtectedRoute` and navigation beyond the location it records.
- Password hashing (bcrypt), JWT signing and the email regex of the user schema.
- A failed write of the audio file, and malformed ObjectIds (cast errors).
- Text.ToLower: it lower-cases ASCII letters only.
- Text.ParseInt: it does not model overflow to floating point or array-valued query parameters.
- CrisisDetection.Analyze: every message's `content` is a string. In the source a user turn whose content is missing or not a string makes `toLowerCase` throw. `analyzeSession` then answers 500 "Error analyzing session" and `notifyEmergencyContacts` answers 500 "Error notifying emergency contacts". CrisisDetection.AnalyzeConversation, EmergencyController.AnalyzeSession and EmergencyController.NotifyEmergencyContacts do not model those 500 replies.
- TwilioService.NotifyResult: the `timestamp` of each result record is dropped. So the notification results logged to the session carry no times.
- SessionController.ApplyUpdate: it does not model non-integer durations or ratings.
- EmergencyController.AnalyzeSession: its write goes to the session with the given id whoever owns it, because the source uses `findByIdAndUpdate`. EmergencyController.NotifyEmergencyContacts writes the same way. Neither contract states an ownership check.
