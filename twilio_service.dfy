/** The telephony side of the crisis path (server/services/twilioService.js):
    an automated voice call and a backup SMS to every emergency contact.
    The provider's answers arrive as an `Attempt` per contact; the requests
    the service sends, the pauses it takes and the clean-ups it schedules
    are recorded, in order, in `outbox`. */
module TwilioService {
  import opened Wrappers
  import opened Text
  import UserModel
  import ElevenLabs

  type Contact = UserModel.EmergencyContact

  const NotInitialized: string := "Twilio client not initialized. Check credentials."
  const DefaultServerUrl: string := "http://localhost:3001"
  const CallStatusPath: string := "/api/emergency/call-status"
  const GatherAction: string := "/api/emergency/call-response"
  /** The pause between two fully notified contacts, in milliseconds. */
  const PacingDelay: nat := 2000
  /** How long the audio file is kept after the call is placed. */
  const CleanupDelay: nat := 60000

  // ---------------------------------------------------------------------
  // Message templates

  const SmsBanner: string := "\U{1F6A8} EMERGENCY ALERT \U{1F6A8}\n\n"
  const SmsDirective: string := "\n\nPlease call them immediately or contact emergency services."

  /** The SMS text: a fixed banner, the message, a fixed directive. */
  function SmsBody(message: string): (r: string)
    ensures |r| == |SmsBanner| + |message| + |SmsDirective|
    ensures r[..|SmsBanner|] == SmsBanner
    ensures r[|SmsBanner|..|r| - |SmsDirective|] == message
    ensures r[|r| - |SmsDirective|..] == SmsDirective
  {
    var r := SmsBanner + message + SmsDirective;
    assert r[..|SmsBanner|] == SmsBanner;
    assert r[|SmsBanner|..|r| - |SmsDirective|] == message;
    r
  }

  /** Different messages give different SMS texts. */
  lemma SmsBodyInjective(m1: string, m2: string)
    requires SmsBody(m1) == SmsBody(m2)
    ensures m1 == m2
  {
    var r := SmsBody(m1);
    assert m1 == r[|SmsBanner|..|r| - |SmsDirective|];
  }

  const TwimlHead: string :=
    "<?xml version=\"1.0\" encoding=\"UTF-8\"?>\n        <Response>\n          <Say voice=\"Polly.Joanna\">\n            "
  const TwimlMenu: string :=
    "\n          </Say>\n          <Pause length=\"2\"/>\n          <Say voice=\"Polly.Joanna\">\n"
    + "            Press 1 to hear this message again, or hang up to take action.\n          </Say>\n"
    + "          <Gather numDigits=\"1\" action=\""
  const TwimlTail: string :=
    "\" method=\"POST\">\n            <Pause length=\"5\"/>\n          </Gather>\n"
    + "          <Say voice=\"Polly.Joanna\">\n            Thank you. Please take immediate action.\n"
    + "          </Say>\n        </Response>"

  /** Everything the call document says after the script. */
  function TwimlAfterScript(): string
  {
    TwimlMenu + GatherAction + TwimlTail
  }

  /** The call document: the script is spoken, then after a two-second
      pause a one-digit menu posts its answer to the call-response hook. */
  function CallTwiml(script: string): (r: string)
    ensures Contains(r, script)
  {
    ContainsMiddle(TwimlHead, script, TwimlAfterScript());
    TwimlHead + script + TwimlAfterScript()
  }

  /** The call document's layout: the fixed head, the script verbatim, and
      the fixed pause, menu, gather and closing, each at its own offset. */
  lemma TwimlLayout(script: string)
    ensures var r := CallTwiml(script);
      && |r| == |TwimlHead| + |script| + |TwimlAfterScript()|
      && r[..|TwimlHead|] == TwimlHead
      && r[|TwimlHead|..|r| - |TwimlAfterScript()|] == script
      && r[|r| - |TwimlAfterScript()|..] == TwimlAfterScript()
  {
    var r := CallTwiml(script);
    assert r[..|TwimlHead|] == TwimlHead;
    assert r[|TwimlHead|..|r| - |TwimlAfterScript()|] == script;
  }

  /** The call document routes the keypad answer to the call-response
      hook. */
  lemma CallTwimlGathers(script: string)
    ensures Contains(CallTwiml(script), GatherAction)
  {
    var r := CallTwiml(script);
    ContainsMiddle(TwimlMenu, GatherAction, TwimlTail);
    assert r == (TwimlHead + script) + TwimlAfterScript();
    ContainsRight(TwimlHead + script, TwimlAfterScript(), GatherAction);
  }

  // ---------------------------------------------------------------------
  // What the providers answer and what the service records

  /** The telephony provider's answer to a create request. */
  datatype ProviderReply = Accepted(sid: string, status: string) | Rejected(error: string)

  /** Everything the outside world decides while one contact is notified:
      the speech provider's answer, the clock when the audio is saved, and
      the telephony provider's answers to the call and to the SMS. */
  datatype Attempt = Attempt(speech: Result<seq<Byte>>, now: nat, call: ProviderReply, sms: ProviderReply)

  /** The fields of a successful call or SMS result that the model keeps. */
  datatype Delivery = Delivery(sid: string, status: string, to: string)

  /** One entry of the results array. */
  datatype NotifyResult =
    | CallRecord(delivery: Delivery, contact: Contact)
    | SmsRecord(delivery: Delivery, contact: Contact)
    | FailureRecord(error: string, contact: Contact)
  {
    /** The `success` field. */
    predicate Success() { !FailureRecord? }
  }

  /** An outbound request, pause or scheduled task. */
  datatype Request =
    | SpeechRequest(url: string, text: string)
    | CallRequest(to: string, from: Option<string>, twiml: string, statusCallback: string)
    | SmsRequest(to: string, from: Option<string>, body: string)
    | CleanupScheduled(path: string, delay: nat)
    | Pause(delay: nat)

  /** The service's configuration, fixed by its constructor. */
  datatype Config = Config(hasClient: bool, phoneNumber: Option<string>, serverUrl: string, voiceId: string)

  // ---------------------------------------------------------------------
  // Specification of one contact

  /** `makeEmergencyCall`'s outcome: it throws without a client, then on a
      speech failure, then when the provider rejects the call. */
  function CallResult(cfg: Config, to: string, a: Attempt): (r: Result<Delivery>)
    ensures !cfg.hasClient ==> r == Err(NotInitialized)
    ensures r.Ok? <==> cfg.hasClient && a.speech.Ok? && a.call.Accepted?
    ensures r.Ok? ==> r.value == Delivery(a.call.sid, a.call.status, to)
  {
    if !cfg.hasClient then Err(NotInitialized)
    else
      match ElevenLabs.TextToSpeech(a.speech)
      case Err(e) => Err(e)
      case Ok(_) =>
        match a.call
        case Rejected(e) => Err(e)
        case Accepted(sid, status) => Ok(Delivery(sid, status, to))
  }

  /** `sendEmergencySMS`'s outcome. */
  function SmsResult(cfg: Config, to: string, reply: ProviderReply): (r: Result<Delivery>)
    ensures !cfg.hasClient ==> r == Err(NotInitialized)
    ensures r.Ok? <==> cfg.hasClient && reply.Accepted?
    ensures r.Ok? ==> r.value == Delivery(reply.sid, reply.status, to)
  {
    if !cfg.hasClient then Err(NotInitialized)
    else
      match reply
      case Rejected(e) => Err(e)
      case Accepted(sid, status) => Ok(Delivery(sid, status, to))
  }

  /** The requests `makeEmergencyCall` sends: none without a client; then
      the speech request; the call request once the audio is saved; and the
      clean-up once the call is placed. */
  function CallRequests(cfg: Config, to: string, message: string, contactName: string, a: Attempt): seq<Request>
  {
    if !cfg.hasClient then []
    else
      var script := ElevenLabs.GenerateCallScript(message, contactName);
      [SpeechRequest(ElevenLabs.SpeechUrl(cfg.voiceId), script)]
      + if a.speech.Err? then []
        else
          [CallRequest(to, cfg.phoneNumber, CallTwiml(script), cfg.serverUrl + CallStatusPath)]
          + if a.call.Rejected? then [] else [CleanupScheduled(ElevenLabs.AudioPath(a.now), CleanupDelay)]
  }

  /** The requests `sendEmergencySMS` sends. */
  function SmsRequests(cfg: Config, to: string, message: string): seq<Request>
  {
    if !cfg.hasClient then [] else [SmsRequest(to, cfg.phoneNumber, SmsBody(message))]
  }

  /** The temporary directory after `makeEmergencyCall`: the audio is saved
      whenever speech succeeded, whether or not the call is then placed. */
  function CallFiles(cfg: Config, files: map<string, seq<Byte>>, a: Attempt): map<string, seq<Byte>>
  {
    if cfg.hasClient && a.speech.Ok? then ElevenLabs.Saved(files, a.now, a.speech.value) else files
  }

  /** The entries one contact adds: a failure when the call throws (and no
      SMS is tried); otherwise the call record followed by the SMS record or
      the SMS failure. */
  function ContactEntries(cfg: Config, c: Contact, a: Attempt): seq<NotifyResult>
  {
    match CallResult(cfg, c.phone, a)
    case Err(e) => [FailureRecord(e, c)]
    case Ok(call) =>
      [CallRecord(call, c)]
      + match SmsResult(cfg, c.phone, a.sms)
        case Err(e) => [FailureRecord(e, c)]
        case Ok(sms) => [SmsRecord(sms, c)]
  }

  /** Everything one contact adds to the outbox. */
  function ContactTrace(cfg: Config, c: Contact, message: string, a: Attempt): seq<Request>
  {
    CallRequests(cfg, c.phone, message, c.name, a)
    + if CallResult(cfg, c.phone, a).Err? then []
      else
        SmsRequests(cfg, c.phone, message)
        + if SmsResult(cfg, c.phone, a.sms).Err? then [] else [Pause(PacingDelay)]
  }

  // ---------------------------------------------------------------------
  // Specification of the whole run; the i-th contact meets env(i)

  function Dispatch(cfg: Config, contacts: seq<Contact>, env: nat -> Attempt): (r: seq<NotifyResult>)
    ensures |contacts| <= |r| <= 2 * |contacts|
  {
    if contacts == [] then []
    else
      var n := |contacts| - 1;
      ContactEntriesCases(cfg, contacts[n], env(n));
      Dispatch(cfg, contacts[..n], env) + ContactEntries(cfg, contacts[n], env(n))
  }

  function DispatchTrace(cfg: Config, contacts: seq<Contact>, message: string, env: nat -> Attempt): seq<Request>
  {
    if contacts == [] then []
    else
      var n := |contacts| - 1;
      DispatchTrace(cfg, contacts[..n], message, env) + ContactTrace(cfg, contacts[n], message, env(n))
  }

  function DispatchFiles(cfg: Config, files: map<string, seq<Byte>>, contacts: seq<Contact>, env: nat -> Attempt): map<string, seq<Byte>>
  {
    if contacts == [] then files
    else
      var n := |contacts| - 1;
      CallFiles(cfg, DispatchFiles(cfg, files, contacts[..n], env), env(n))
  }

  /** One more contact extends the results, the outbox and the directory
      by what that contact adds. */
  lemma DispatchStep(cfg: Config, contacts: seq<Contact>, message: string, files: map<string, seq<Byte>>,
                     i: nat, env: nat -> Attempt)
    requires i < |contacts|
    ensures Dispatch(cfg, contacts[..i + 1], env) == Dispatch(cfg, contacts[..i], env) + ContactEntries(cfg, contacts[i], env(i))
    ensures DispatchTrace(cfg, contacts[..i + 1], message, env)
         == DispatchTrace(cfg, contacts[..i], message, env) + ContactTrace(cfg, contacts[i], message, env(i))
    ensures DispatchFiles(cfg, files, contacts[..i + 1], env) == CallFiles(cfg, DispatchFiles(cfg, files, contacts[..i], env), env(i))
  {
    assert contacts[..i + 1][..i] == contacts[..i];
  }

  lemma ConcatAssoc<T>(a: seq<T>, b: seq<T>, c: seq<T>)
    ensures a + b + c == a + (b + c)
  {
  }

  // ---------------------------------------------------------------------
  // Properties

  /** A contact adds one entry or two: a failure alone, the call record and
      the SMS record, or the call record and the SMS failure. */
  lemma ContactEntriesCases(cfg: Config, c: Contact, a: Attempt)
    ensures var call := CallResult(cfg, c.phone, a);
            var sms := SmsResult(cfg, c.phone, a.sms);
      && (call.Err? ==> ContactEntries(cfg, c, a) == [FailureRecord(call.message, c)])
      && (call.Ok? && sms.Ok? ==> ContactEntries(cfg, c, a) == [CallRecord(call.value, c), SmsRecord(sms.value, c)])
      && (call.Ok? && sms.Err? ==> ContactEntries(cfg, c, a) == [CallRecord(call.value, c), FailureRecord(sms.message, c)])
  {
  }

  /** When the call throws, no SMS is requested for that contact. */
  lemma FailedCallSkipsSms(cfg: Config, c: Contact, message: string, a: Attempt)
    requires CallResult(cfg, c.phone, a).Err?
    ensures forall r :: r in ContactTrace(cfg, c, message, a) ==> !r.SmsRequest?
    ensures forall e :: e in ContactEntries(cfg, c, a) ==> !e.Success()
  {
  }

  /** The pause follows a contact exactly when both the call and the SMS
      went through, and it is the last thing done for that contact. */
  lemma PauseOnlyAfterFullSuccess(cfg: Config, c: Contact, message: string, a: Attempt)
    ensures Pause(PacingDelay) in ContactTrace(cfg, c, message, a)
            <==> CallResult(cfg, c.phone, a).Ok? && SmsResult(cfg, c.phone, a.sms).Ok?
    ensures var t := ContactTrace(cfg, c, message, a);
      Pause(PacingDelay) in t ==> t[|t| - 1] == Pause(PacingDelay)
  {
    var t := ContactTrace(cfg, c, message, a);
    var calls := CallRequests(cfg, c.phone, message, c.name, a);
    assert Pause(PacingDelay) !in calls;
    if CallResult(cfg, c.phone, a).Ok? && SmsResult(cfg, c.phone, a.sms).Ok? {
      assert t == calls + SmsRequests(cfg, c.phone, message) + [Pause(PacingDelay)];
    }
  }

  /** The last contact's entries come last. */
  lemma DispatchLast(cfg: Config, contacts: seq<Contact>, env: nat -> Attempt)
    requires contacts != []
    ensures var n := |contacts| - 1;
      Dispatch(cfg, contacts, env) == Dispatch(cfg, contacts[..n], env) + ContactEntries(cfg, contacts[n], env(n))
  {
  }

  /** Contacts are handled one after another in list order: notifying a
      list in two parts gives the first part's entries, then the second's. */
  lemma {:induction false} DispatchAppend(cfg: Config, c1: seq<Contact>, c2: seq<Contact>, env: nat -> Attempt)
    ensures Dispatch(cfg, c1 + c2, env) == Dispatch(cfg, c1, env) + Dispatch(cfg, c2, (i: nat) => env(|c1| + i))
    decreases |c2|
  {
    var shifted := (i: nat) => env(|c1| + i);
    if c2 == [] {
      assert c1 + c2 == c1;
    } else {
      var n := |c2| - 1;
      var all := c1 + c2;
      assert all[..|all| - 1] == c1 + c2[..n];
      assert all[|all| - 1] == c2[n];
      var last := ContactEntries(cfg, c2[n], env(|c1| + n));
      DispatchLast(cfg, all, env);
      DispatchLast(cfg, c2, shifted);
      assert shifted(n) == env(|c1| + n);
      DispatchAppend(cfg, c1, c2[..n], env);
      ConcatAssoc(Dispatch(cfg, c1, env), Dispatch(cfg, c2[..n], shifted), last);
    }
  }

  /** Every entry names a contact of the list. */
  lemma {:induction false} DispatchContactsFromList(cfg: Config, contacts: seq<Contact>, env: nat -> Attempt)
    ensures forall e :: e in Dispatch(cfg, contacts, env) ==> e.contact in contacts
  {
    if contacts != [] {
      var n := |contacts| - 1;
      DispatchContactsFromList(cfg, contacts[..n], env);
    }
  }

  /** Without a client nothing is sent, no audio is saved, and every
      contact gets exactly one "not initialized" failure. */
  lemma {:induction false} NoClientNoRequests(cfg: Config, contacts: seq<Contact>, message: string,
                                              files: map<string, seq<Byte>>, env: nat -> Attempt)
    requires !cfg.hasClient
    ensures DispatchTrace(cfg, contacts, message, env) == []
    ensures DispatchFiles(cfg, files, contacts, env) == files
    ensures |Dispatch(cfg, contacts, env)| == |contacts|
    ensures forall i :: 0 <= i < |contacts| ==> Dispatch(cfg, contacts, env)[i] == FailureRecord(NotInitialized, contacts[i])
  {
    if contacts != [] {
      var n := |contacts| - 1;
      NoClientNoRequests(cfg, contacts[..n], message, files, env);
    }
  }

  /** How many entries report success. */
  function SuccessCount(results: seq<NotifyResult>): (r: nat)
    ensures r <= |results|
  {
    if results == [] then 0
    else SuccessCount(results[..|results| - 1]) + (if results[|results| - 1].Success() then 1 else 0)
  }

  lemma {:induction false} SuccessCountAppend(a: seq<NotifyResult>, b: seq<NotifyResult>)
    ensures SuccessCount(a + b) == SuccessCount(a) + SuccessCount(b)
    decreases |b|
  {
    if b == [] {
      assert a + b == a;
    } else {
      assert (a + b)[..|a + b| - 1] == a + b[..|b| - 1];
      SuccessCountAppend(a, b[..|b| - 1]);
    }
  }

  /** How many contacts got both the call and the SMS. */
  function FullyNotified(cfg: Config, contacts: seq<Contact>, env: nat -> Attempt): (r: nat)
    ensures r <= |contacts|
  {
    if contacts == [] then 0
    else
      var n := |contacts| - 1;
      var full := CallResult(cfg, contacts[n].phone, env(n)).Ok? && SmsResult(cfg, contacts[n].phone, env(n).sms).Ok?;
      FullyNotified(cfg, contacts[..n], env) + (if full then 1 else 0)
  }

  /** How many contacts got at least the call. */
  function Called(cfg: Config, contacts: seq<Contact>, env: nat -> Attempt): (r: nat)
    ensures r <= |contacts|
  {
    if contacts == [] then 0
    else
      var n := |contacts| - 1;
      Called(cfg, contacts[..n], env) + (if CallResult(cfg, contacts[n].phone, env(n)).Ok? then 1 else 0)
  }

  /** The successful entries are one per placed call plus one per sent SMS,
      and an SMS is only sent after a placed call. */
  lemma {:induction false} SuccessCountOfDispatch(cfg: Config, contacts: seq<Contact>, env: nat -> Attempt)
    ensures SuccessCount(Dispatch(cfg, contacts, env)) == Called(cfg, contacts, env) + FullyNotified(cfg, contacts, env)
    ensures FullyNotified(cfg, contacts, env) <= Called(cfg, contacts, env)
  {
    if contacts != [] {
      var n := |contacts| - 1;
      SuccessCountOfDispatch(cfg, contacts[..n], env);
      var entries := ContactEntries(cfg, contacts[n], env(n));
      SuccessCountAppend(Dispatch(cfg, contacts[..n], env), entries);
      ContactEntriesCases(cfg, contacts[n], env(n));
      assert SuccessCount(entries)
          == (if CallResult(cfg, contacts[n].phone, env(n)).Ok? then 1 else 0)
           + (if CallResult(cfg, contacts[n].phone, env(n)).Ok? && SmsResult(cfg, contacts[n].phone, env(n).sms).Ok? then 1 else 0);
    }
  }

  // ---------------------------------------------------------------------
  // The service

  class TwilioService {
    const cfg: Config
    const speech: ElevenLabs.ElevenLabsService
    var outbox: seq<Request>

    /** A client exists only when both the account sid and the auth token
        are set; the status callback base falls back to localhost:3001. */
    constructor (accountSid: Option<string>, authToken: Option<string>, phoneNumber: Option<string>,
                 serverUrl: Option<string>, speech: ElevenLabs.ElevenLabsService)
      ensures cfg.hasClient <==> Truthy(accountSid) && Truthy(authToken)
      ensures cfg.phoneNumber == phoneNumber && cfg.voiceId == speech.voiceId
      ensures cfg.serverUrl == if Truthy(serverUrl) then serverUrl.value else DefaultServerUrl
      ensures this.speech == speech && outbox == []
    {
      var hasClient := Truthy(accountSid) && Truthy(authToken);
      var url := if Truthy(serverUrl) then serverUrl.value else DefaultServerUrl;
      cfg := Config(hasClient, phoneNumber, url, speech.voiceId);
      this.speech := speech;
      outbox := [];
    }

    predicate Valid()
      reads this
    {
      cfg.voiceId == speech.voiceId
    }

    /** `makeEmergencyCall`. */
    method MakeEmergencyCall(toNumber: string, message: string, contactName: string, a: Attempt)
      returns (r: Result<Delivery>)
      requires Valid()
      modifies this, speech
      ensures r == CallResult(cfg, toNumber, a)
      ensures outbox == old(outbox) + CallRequests(cfg, toNumber, message, contactName, a)
      ensures speech.files == CallFiles(cfg, old(speech.files), a)
      ensures old(speech.tempDirExists) ==> speech.tempDirExists
    {
      if !cfg.hasClient {
        return Err(NotInitialized);
      }
      var script := ElevenLabs.GenerateCallScript(message, contactName);
      outbox := outbox + [SpeechRequest(ElevenLabs.SpeechUrl(speech.voiceId), script)];
      var audio := ElevenLabs.TextToSpeech(a.speech);
      if audio.Err? {
        return Err(audio.message);
      }
      var audioFilePath := speech.SaveAudioToFile(audio.value, a.now);
      var twiml := CallTwiml(script);
      outbox := outbox + [CallRequest(toNumber, cfg.phoneNumber, twiml, cfg.serverUrl + CallStatusPath)];
      match a.call {
        case Rejected(e) =>
          r := Err(e);
        case Accepted(sid, status) =>
          outbox := outbox + [CleanupScheduled(audioFilePath, CleanupDelay)];
          r := Ok(Delivery(sid, status, toNumber));
      }
    }

    /** `sendEmergencySMS`. */
    method SendEmergencySMS(toNumber: string, message: string, reply: ProviderReply) returns (r: Result<Delivery>)
      modifies this
      ensures r == SmsResult(cfg, toNumber, reply)
      ensures outbox == old(outbox) + SmsRequests(cfg, toNumber, message)
    {
      if !cfg.hasClient {
        return Err(NotInitialized);
      }
      outbox := outbox + [SmsRequest(toNumber, cfg.phoneNumber, SmsBody(message))];
      match reply {
        case Rejected(e) =>
          r := Err(e);
        case Accepted(sid, status) =>
          r := Ok(Delivery(sid, status, toNumber));
      }
    }

    /** The body of the loop in `notifyEmergencyContacts`: the call, then,
        only if it went through, the SMS, then, only if that went through
        too, the pause. */
    method NotifyContact(contact: Contact, message: string, a: Attempt) returns (entries: seq<NotifyResult>)
      requires Valid()
      modifies this, speech
      ensures entries == ContactEntries(cfg, contact, a)
      ensures outbox == old(outbox) + ContactTrace(cfg, contact, message, a)
      ensures speech.files == CallFiles(cfg, old(speech.files), a)
    {
      var call := MakeEmergencyCall(contact.phone, message, contact.name, a);
      match call {
        case Err(e) =>
          entries := [FailureRecord(e, contact)];
        case Ok(callResult) =>
          entries := [CallRecord(callResult, contact)];
          var sms := SendEmergencySMS(contact.phone, message, a.sms);
          match sms {
            case Err(e) =>
              entries := entries + [FailureRecord(e, contact)];
            case Ok(smsResult) =>
              entries := entries + [SmsRecord(smsResult, contact)];
              outbox := outbox + [Pause(PacingDelay)];
          }
      }
    }

    /** `notifyEmergencyContacts`: never fails; each contact's failure is
        recorded and the loop goes on with the next contact. */
    method NotifyEmergencyContacts(contacts: seq<Contact>, message: string, env: nat -> Attempt)
      returns (results: seq<NotifyResult>)
      requires Valid()
      modifies this, speech
      ensures results == Dispatch(cfg, contacts, env)
      ensures outbox == old(outbox) + DispatchTrace(cfg, contacts, message, env)
      ensures speech.files == DispatchFiles(cfg, old(speech.files), contacts, env)
    {
      results := [];
      for i := 0 to |contacts|
        invariant Valid()
        invariant results == Dispatch(cfg, contacts[..i], env)
        invariant outbox == old(outbox) + DispatchTrace(cfg, contacts[..i], message, env)
        invariant speech.files == DispatchFiles(cfg, old(speech.files), contacts[..i], env)
      {
        DispatchStep(cfg, contacts, message, old(speech.files), i, env);
        ghost var sent, saved := DispatchTrace(cfg, contacts[..i], message, env), speech.files;
        ghost var step := ContactTrace(cfg, contacts[i], message, env(i));
        var entries := NotifyContact(contacts[i], message, env(i));
        assert outbox == old(outbox) + sent + step;
        ConcatAssoc(old(outbox), sent, step);
        assert speech.files == CallFiles(cfg, saved, env(i));
        results := results + entries;
      }
      assert contacts[..|contacts|] == contacts;
    }
  }
}
