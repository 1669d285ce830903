/** The emergency endpoints of the server (server/controllers/emergencyController.js):
    analysing a conversation and flagging its session, notifying the
    caller's emergency contacts, the two telephony webhooks, the public
    resource list and the administrator's test message. */
module EmergencyController {
  import opened Wrappers
  import opened Text
  import CD = CrisisDetection
  import opened UserModel
  import opened SessionModel
  import TS = TwilioService

  // ---------------------------------------------------------------------
  // analyzeSession

  /** The sessions after an analysis: when it finds a crisis and names a
      session, that session is flagged with the level and the time. The
      lookup is by id alone, so the flag lands whoever owns the session; an
      unknown id changes nothing. */
  function CrisisFlagged(sessions: map<nat, Session>, sessionId: Option<nat>, a: CD.CrisisAnalysis, flaggedAt: int)
    : (r: map<nat, Session>)
    ensures r.Keys == sessions.Keys
    ensures forall id :: id in r && (!a.isCrisis || sessionId != Some(id)) ==> r[id] == sessions[id]
    ensures a.isCrisis && sessionId.Some? && sessionId.value in sessions ==>
      r[sessionId.value] == sessions[sessionId.value].(crisisDetected := true, crisisLevel := a.crisisLevel,
                                                      crisisTimestamp := Some(flaggedAt))
  {
    if a.isCrisis && sessionId.Some? && sessionId.value in sessions then
      var s := sessions[sessionId.value];
      sessions[sessionId.value := s.(crisisDetected := true, crisisLevel := a.crisisLevel, crisisTimestamp := Some(flaggedAt))]
    else sessions
  }

  /** An analysis only ever flags a session as critical: every session it
      changes ends up with `crisisDetected` set and level "critical". */
  lemma FlagsAreCritical(sessions: map<nat, Session>, sessionId: Option<nat>, messages: seq<CD.Message>, now: int,
                         flaggedAt: int)
    ensures var r := CrisisFlagged(sessions, sessionId, CD.Analyze(messages, now), flaggedAt);
      forall id :: id in r && r[id] != sessions[id] ==>
        r[id].crisisDetected && r[id].crisisLevel == CD.Critical && r[id].crisisTimestamp == Some(flaggedAt)
  {
    CD.InterventionIffCritical(messages, now);
  }

  /** `analyzeSession`: refuses a request without a message list, otherwise
      analyses it, flags the named session on a crisis, and returns the
      analysis. The analysis is stamped when the analyser reads the clock
      (`now`), the flag when the controller reads it again (`flaggedAt`). */
  method AnalyzeSession(sessionId: Option<nat>, messages: Option<seq<CD.Message>>, now: int, flaggedAt: int,
                        store: SessionStore)
    returns (reply: Reply<CD.CrisisAnalysis>)
    requires store.Valid()
    modifies store
    ensures store.Valid() && store.nextId == old(store.nextId)
    ensures messages.None? ==>
      reply == Reply(400, "Messages array is required", None) && store.sessions == old(store.sessions)
    ensures messages.Some? ==>
      && reply == Reply(200, "", Some(CD.Analyze(messages.value, now)))
      && store.sessions == CrisisFlagged(old(store.sessions), sessionId, CD.Analyze(messages.value, now), flaggedAt)
  {
    if messages.None? {
      return Reply(400, "Messages array is required", None);
    }
    var analysis := CD.AnalyzeConversation(messages.value, now);
    if analysis.isCrisis {
      if sessionId.Some? && sessionId.value in store.sessions {
        var s := store.sessions[sessionId.value];
        store.sessions := store.sessions[sessionId.value := s.(crisisDetected := true, crisisLevel := analysis.crisisLevel,
                                                               crisisTimestamp := Some(flaggedAt))];
      }
    }
    reply := Reply(200, "", Some(analysis));
  }

  // ---------------------------------------------------------------------
  // notifyEmergencyContacts

  /** The body of a successful notification. */
  datatype Notification = Notification(contactsNotified: nat, results: seq<TS.NotifyResult>)

  /** The status `notifyEmergencyContacts` answers with, its checks taken in
      order: the caller's record must exist (500), hold a contact (400), the
      request must carry messages (their absence throws: 500), and their
      analysis must require intervention (400). */
  function NotifyStatus(contacts: Option<seq<TS.Contact>>, analysis: Option<CD.CrisisAnalysis>): (code: nat)
    ensures code == 200 <==>
      contacts.Some? && contacts.value != [] && analysis.Some? && analysis.value.requiresIntervention
    ensures code == 400 <==>
      contacts.Some? && (contacts.value == [] || (analysis.Some? && !analysis.value.requiresIntervention))
  {
    if contacts.None? then 500
    else if contacts.value == [] then 400
    else if analysis.None? then 500
    else if !analysis.value.requiresIntervention then 400
    else 200
  }

  /** The analysis of the request's messages, when it carries any. */
  function AnalysisOf(messages: Option<seq<CD.Message>>, now: int): Option<CD.CrisisAnalysis>
  {
    if messages.Some? then Some(CD.Analyze(messages.value, now)) else None
  }

  /** Contacts are only ever alerted about a critical conversation. */
  lemma NotifyOnlyWhenCritical(contacts: Option<seq<TS.Contact>>, messages: Option<seq<CD.Message>>, now: int)
    requires NotifyStatus(contacts, AnalysisOf(messages, now)) == 200
    ensures CD.Analyze(messages.value, now).crisisLevel == CD.Critical
    ensures CD.Analyze(messages.value, now).crisisScore >= CD.InterventionThreshold
  {
    CD.InterventionIffCritical(messages.value, now);
  }

  /** The sessions after the notification is logged: the named session, by
      id alone, records that contacts were notified, when, and the results. */
  function NotificationLogged(sessions: map<nat, Session>, sessionId: Option<nat>, results: seq<TS.NotifyResult>, at: int)
    : (r: map<nat, Session>)
    ensures r.Keys == sessions.Keys
    ensures forall id :: id in r && sessionId != Some(id) ==> r[id] == sessions[id]
    ensures sessionId.Some? && sessionId.value in sessions ==>
      r[sessionId.value] == sessions[sessionId.value].(emergencyNotified := true, emergencyNotificationTime := Some(at),
                                                      emergencyNotificationResults := results)
  {
    if sessionId.Some? && sessionId.value in sessions then
      var s := sessions[sessionId.value];
      sessions[sessionId.value := s.(emergencyNotified := true, emergencyNotificationTime := Some(at),
                                     emergencyNotificationResults := results)]
    else sessions
  }

  /** `notifyEmergencyContacts`: checks the caller's contacts and the
      analysis, sends the crisis summary to every contact, logs the results
      on the named session, and reports how many result entries succeeded.
      The i-th contact meets `env(i)`; `notifiedAt` is the clock when the
      results are logged. */
  method NotifyEmergencyContacts(user: User?, sessionId: Option<nat>, messages: Option<seq<CD.Message>>, now: int,
                                 env: nat -> TS.Attempt, notifiedAt: int, twilio: TS.TwilioService, store: SessionStore)
    returns (reply: Reply<Notification>)
    requires twilio.Valid() && store.Valid()
    modifies twilio, twilio.speech, store
    ensures store.Valid() && store.nextId == old(store.nextId)
    ensures reply.status == NotifyStatus(if user == null then None else Some(old(user.emergencyContacts)), AnalysisOf(messages, now))
    ensures reply.status == 400 && user != null && old(user.emergencyContacts) == [] ==>
      reply.message == "No emergency contacts configured"
    ensures reply.status == 400 && user != null && old(user.emergencyContacts) != [] ==>
      reply.message == "Crisis level does not require emergency notification"
    ensures reply.status == 500 ==> reply.message == "Error notifying emergency contacts"
    ensures reply.status != 200 ==>
      && twilio.outbox == old(twilio.outbox)
      && twilio.speech.files == old(twilio.speech.files)
      && store.sessions == old(store.sessions)
    ensures reply.status == 200 ==>
      && user != null && messages.Some?
      && var summary := CD.GenerateCrisisSummary(old(user.name), messages.value, CD.Analyze(messages.value, now));
      && var results := TS.Dispatch(twilio.cfg, old(user.emergencyContacts), env);
      && reply == Reply(200, "Emergency contacts notified", Some(Notification(TS.SuccessCount(results), results)))
      && twilio.outbox == old(twilio.outbox) + TS.DispatchTrace(twilio.cfg, old(user.emergencyContacts), summary, env)
      && twilio.speech.files == TS.DispatchFiles(twilio.cfg, old(twilio.speech.files), old(user.emergencyContacts), env)
      && store.sessions == NotificationLogged(old(store.sessions), sessionId, results, notifiedAt)
  {
    if user == null {
      return Reply(500, "Error notifying emergency contacts", None);
    }
    if user.emergencyContacts == [] {
      return Reply(400, "No emergency contacts configured", None);
    }
    if messages.None? {
      return Reply(500, "Error notifying emergency contacts", None);
    }
    var analysis := CD.AnalyzeConversation(messages.value, now);
    if !analysis.requiresIntervention {
      return Reply(400, "Crisis level does not require emergency notification", None);
    }
    var summary := CD.GenerateCrisisSummary(user.name, messages.value, analysis);
    reply := AlertContacts(user.emergencyContacts, summary, sessionId, env, notifiedAt, twilio, store);
  }

  /** The second half of `notifyEmergencyContacts`, once the checks passed:
      the dispatch, the log on the session and the reply. */
  method AlertContacts(contacts: seq<TS.Contact>, summary: string, sessionId: Option<nat>, env: nat -> TS.Attempt,
                       notifiedAt: int, twilio: TS.TwilioService, store: SessionStore)
    returns (reply: Reply<Notification>)
    requires twilio.Valid() && store.Valid()
    modifies twilio, twilio.speech, store
    ensures store.Valid() && store.nextId == old(store.nextId)
    ensures var results := TS.Dispatch(twilio.cfg, contacts, env);
      && reply == Reply(200, "Emergency contacts notified", Some(Notification(TS.SuccessCount(results), results)))
      && twilio.outbox == old(twilio.outbox) + TS.DispatchTrace(twilio.cfg, contacts, summary, env)
      && twilio.speech.files == TS.DispatchFiles(twilio.cfg, old(twilio.speech.files), contacts, env)
      && store.sessions == NotificationLogged(old(store.sessions), sessionId, results, notifiedAt)
  {
    var results := twilio.NotifyEmergencyContacts(contacts, summary, env);
    if sessionId.Some? && sessionId.value in store.sessions {
      var s := store.sessions[sessionId.value];
      store.sessions := store.sessions[sessionId.value := s.(emergencyNotified := true, emergencyNotificationTime := Some(notifiedAt),
                                                             emergencyNotificationResults := results)];
    }
    reply := Reply(200, "Emergency contacts notified", Some(Notification(TS.SuccessCount(results), results)));
  }

  /** The count reported back: every called contact counts once for the
      call and once more when the SMS also went out, so it lies between
      the number of contacts reached and twice that. */
  lemma ContactsNotifiedCount(cfg: TS.Config, contacts: seq<TS.Contact>, env: nat -> TS.Attempt)
    ensures var n := TS.SuccessCount(TS.Dispatch(cfg, contacts, env));
      && n == TS.Called(cfg, contacts, env) + TS.FullyNotified(cfg, contacts, env)
      && TS.Called(cfg, contacts, env) <= n <= 2 * TS.Called(cfg, contacts, env) && n <= 2 * |contacts|
  {
    TS.SuccessCountOfDispatch(cfg, contacts, env);
  }

  // ---------------------------------------------------------------------
  // Webhooks

  const TwimlDocumentHead: string := "<?xml version=\"1.0\" encoding=\"UTF-8\"?><Response>"
  const RepeatRedirect: string := "<Redirect>/api/emergency/repeat-message</Redirect>"
  const ClosingSay: string := "<Say voice=\"Polly.Joanna\">Thank you. Please take immediate action.</Say>"
  const TwimlDocumentTail: string := "</Response>"

  /** The reply to a key press on the call: a redirect that repeats the
      message when the contact pressed 1, a closing sentence otherwise. */
  function CallResponseTwiml(digits: Option<string>): (r: string)
    ensures |r| == |TwimlDocumentHead| + |if digits == Some("1") then RepeatRedirect else ClosingSay| + |TwimlDocumentTail|
    ensures r[..|TwimlDocumentHead|] == TwimlDocumentHead
    ensures r[|r| - |TwimlDocumentTail|..] == TwimlDocumentTail
    ensures r[|TwimlDocumentHead|..|r| - |TwimlDocumentTail|] == (if digits == Some("1") then RepeatRedirect else ClosingSay)
  {
    var body := if digits == Some("1") then RepeatRedirect else ClosingSay;
    var r := TwimlDocumentHead + body + TwimlDocumentTail;
    assert r[..|TwimlDocumentHead|] == TwimlDocumentHead;
    assert r[|TwimlDocumentHead|..|r| - |TwimlDocumentTail|] == body;
    r
  }

  /** Only the key 1 repeats the message; every other answer, or none, gets
      the same closing. */
  lemma OnlyOneRepeats(digits: Option<string>)
    ensures CallResponseTwiml(digits) == CallResponseTwiml(Some("1")) <==> digits == Some("1")
    ensures digits != Some("1") ==> CallResponseTwiml(digits) == CallResponseTwiml(None)
  {
    assert |RepeatRedirect| != |ClosingSay|;
  }

  /** `handleCallResponse`: builds the document piece by piece. */
  method HandleCallResponse(digits: Option<string>) returns (twiml: string)
    ensures twiml == CallResponseTwiml(digits)
  {
    twiml := TwimlDocumentHead;
    if digits == Some("1") {
      twiml := twiml + RepeatRedirect;
    } else {
      twiml := twiml + ClosingSay;
    }
    twiml := twiml + TwimlDocumentTail;
  }

  /** `handleCallStatus`: every status report, whatever it says, is
      acknowledged with 200 "OK"; the log line is not modelled. */
  function HandleCallStatus(callSid: Option<string>, callStatus: Option<string>, callDuration: Option<string>): (r: Reply<()>)
    ensures r.status == 200 && r.message == "OK" && r.data.None?
  {
    Reply(200, "OK", None)
  }

  // ---------------------------------------------------------------------
  // getCrisisResources

  /** The notice, written around the lifeline number it cites. */
  const ResourcesNotice: string := "If you are in crisis, please call " + "988" + " or text HOME to 741741"

  /** `getCrisisResources`: the resource table and a notice. */
  function CrisisResourcesReply(): (r: Reply<CD.CrisisResources>)
    ensures r.status == 200 && r.data == Some(CD.GetCrisisResources())
    ensures r.message == ResourcesNotice
  {
    Reply(200, ResourcesNotice, Some(CD.GetCrisisResources()))
  }

  /** The notice cites the lifeline number of the table it is sent with. */
  lemma NoticeCitesLifeline()
    ensures Contains(CrisisResourcesReply().message, CrisisResourcesReply().data.value.us.suicide)
  {
    ContainsMiddle("If you are in crisis, please call ", "988", " or text HOME to 741741");
  }

  // ---------------------------------------------------------------------
  // testEmergencySystem

  const TestMessage: string := "This is a test of the ZEO AI emergency notification system. No action is required."

  /** `testEmergencySystem`: one SMS with the fixed test message to the given
      number, never a call; a failed SMS is reported as a 500. */
  method TestEmergencySystem(phoneNumber: Option<string>, smsReply: TS.ProviderReply, twilio: TS.TwilioService)
    returns (reply: Reply<TS.Delivery>)
    modifies twilio
    ensures !Truthy(phoneNumber) ==>
      reply == Reply(400, "Phone number is required", None) && twilio.outbox == old(twilio.outbox)
    ensures Truthy(phoneNumber) ==>
      && var sent := TS.SmsResult(twilio.cfg, phoneNumber.value, smsReply);
      && twilio.outbox == old(twilio.outbox) + TS.SmsRequests(twilio.cfg, phoneNumber.value, TestMessage)
      && (sent.Ok? ==> reply == Reply(200, "Test notification sent", Some(sent.value)))
      && (sent.Err? ==> reply == Reply(500, "Error sending test notification", None))
  {
    if !Truthy(phoneNumber) {
      return Reply(400, "Phone number is required", None);
    }
    var result := twilio.SendEmergencySMS(phoneNumber.value, TestMessage, smsReply);
    if result.Err? {
      return Reply(500, "Error sending test notification", None);
    }
    reply := Reply(200, "Test notification sent", Some(result.value));
  }

  /** The test sends at most one request, an SMS that carries the test
      message to the given number, and never places a call. */
  lemma TestSendsOnlyTheTestSms(cfg: TS.Config, phoneNumber: string)
    ensures var sent := TS.SmsRequests(cfg, phoneNumber, TestMessage);
      && |sent| <= 1
      && (cfg.hasClient <==> |sent| == 1)
      && forall q :: q in sent ==> q.SmsRequest? && q.to == phoneNumber && Contains(q.body, TestMessage)
  {
    var body := TS.SmsBody(TestMessage);
    assert body == TS.SmsBanner + TestMessage + TS.SmsDirective;
    ContainsMiddle(TS.SmsBanner, TestMessage, TS.SmsDirective);
  }
}
