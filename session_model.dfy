/** A therapy session as the server stores it (server/models/Session.js):
    its enumerations, defaults and bounds, and the collection that holds
    the sessions of every user. */
module SessionModel {
  import opened Wrappers
  import CrisisDetection
  import TwilioService

  type CrisisLevel = CrisisDetection.CrisisLevel

  datatype SessionStatus = Active | Completed | Interrupted
  {
    function Name(): string
    {
      match this
      case Active => "active"
      case Completed => "completed"
      case Interrupted => "interrupted"
    }

    /** The statuses that end a session and stamp `endedAt`. */
    predicate Terminal() { Completed? || Interrupted? }
  }

  /** The schema's enum check for `status`. */
  function StatusFromName(s: string): (r: Option<SessionStatus>)
    ensures r.Some? ==> r.value.Name() == s
    ensures forall x: SessionStatus :: x.Name() == s ==> r == Some(x)
  {
    if s == "active" then Some(Active)
    else if s == "completed" then Some(Completed)
    else if s == "interrupted" then Some(Interrupted)
    else None
  }

  datatype MessageRole = UserTurn | AssistantTurn
  {
    function Name(): string
    {
      match this
      case UserTurn => "user"
      case AssistantTurn => "assistant"
    }
  }

  /** The schema's enum check for a message's `role`. */
  function MessageRoleFromName(s: string): (r: Option<MessageRole>)
    ensures r.Some? ==> r.value.Name() == s
    ensures forall x: MessageRole :: x.Name() == s ==> r == Some(x)
  {
    if s == "user" then Some(UserTurn) else if s == "assistant" then Some(AssistantTurn) else None
  }

  /** The values the schema allows for `crisisLevel`. */
  const CrisisLevelEnum: seq<string> := ["none", "low", "medium", "high", "critical"]

  /** The schema's enum check for `crisisLevel`. */
  function CrisisLevelFromName(s: string): (r: Option<CrisisLevel>)
    ensures r.Some? ==> r.value.Name() == s
    ensures forall x: CrisisLevel :: x.Name() == s ==> r == Some(x)
  {
    if s == "none" then Some(CrisisDetection.NoRisk)
    else if s == "low" then Some(CrisisDetection.Low)
    else if s == "medium" then Some(CrisisDetection.Medium)
    else if s == "high" then Some(CrisisDetection.High)
    else if s == "critical" then Some(CrisisDetection.Critical)
    else None
  }

  /** The schema accepts exactly the five levels the analyser emits. */
  lemma AnalyzerLevelsMatchSchema()
    ensures forall l: CrisisLevel :: l.Name() in CrisisLevelEnum
    ensures forall s :: s in CrisisLevelEnum ==> CrisisLevelFromName(s).Some?
  {
    forall l: CrisisLevel
      ensures l.Name() in CrisisLevelEnum
    {
      match l
      case NoRisk => assert CrisisLevelEnum[0] == l.Name();
      case Low => assert CrisisLevelEnum[1] == l.Name();
      case Medium => assert CrisisLevelEnum[2] == l.Name();
      case High => assert CrisisLevelEnum[3] == l.Name();
      case Critical => assert CrisisLevelEnum[4] == l.Name();
    }
  }

  /** A stored conversation turn. */
  datatype StoredMessage = StoredMessage(timestamp: int, role: MessageRole, content: Option<string>, emotion: Option<string>)

  /** A stored emotion sample; the per-emotion scores are floating point and
      are not part of this model. */
  datatype EmotionSample = EmotionSample(timestamp: int, dominantEmotion: Option<string>, hasEmotions: bool)

  datatype Session = Session(
    user: nat,
    conversationId: string,
    replicaId: string,
    personaId: Option<string>,
    duration: int,
    emotionData: seq<EmotionSample>,
    messages: seq<StoredMessage>,
    status: SessionStatus,
    crisisDetected: bool,
    crisisLevel: CrisisLevel,
    crisisTimestamp: Option<int>,
    emergencyNotified: bool,
    emergencyNotificationTime: Option<int>,
    emergencyNotificationResults: seq<TwilioService.NotifyResult>,
    rating: Option<int>,
    feedback: Option<string>,
    createdAt: int,
    endedAt: Option<int>)

  /** `rating`: null, or between 1 and 5. */
  predicate ValidRating(rating: Option<int>)
  {
    rating.None? || 1 <= rating.value <= 5
  }

  /** What the schema guarantees of every stored session. */
  predicate ValidSession(s: Session)
  {
    s.conversationId != [] && s.replicaId != [] && ValidRating(s.rating)
  }

  /** `Session.create`: the given fields and the schema's defaults. */
  function NewSession(user: nat, conversationId: string, replicaId: string, personaId: Option<string>, now: int): (s: Session)
    ensures ValidSession(s) <==> conversationId != [] && replicaId != []
    ensures s.user == user && s.conversationId == conversationId && s.replicaId == replicaId && s.personaId == personaId
    ensures s.duration == 0 && s.emotionData == [] && s.messages == [] && s.status == Active
    ensures !s.crisisDetected && s.crisisLevel == CrisisDetection.NoRisk && s.crisisTimestamp.None?
    ensures !s.emergencyNotified && s.emergencyNotificationTime.None? && s.emergencyNotificationResults == []
    ensures s.rating.None? && s.feedback.None? && s.createdAt == now && s.endedAt.None?
  {
    Session(user, conversationId, replicaId, personaId, 0, [], [], Active, false, CrisisDetection.NoRisk, None,
            false, None, [], None, None, now, None)
  }

  /** The sessions collection: every stored session by id, and the id the
      next insert receives. */
  class SessionStore {
    var sessions: map<nat, Session>
    var nextId: nat

    constructor ()
      ensures sessions == map[] && nextId == 0
      ensures Valid()
    {
      sessions := map[];
      nextId := 0;
    }

    predicate Valid()
      reads this
    {
      forall id :: id in sessions ==> id < nextId && ValidSession(sessions[id])
    }

    /** Inserts a session under a fresh id. */
    method Insert(s: Session) returns (id: nat)
      requires Valid() && ValidSession(s)
      modifies this
      ensures id == old(nextId) && id !in old(sessions)
      ensures sessions == old(sessions)[id := s] && nextId == old(nextId) + 1
      ensures Valid()
    {
      id := nextId;
      sessions := sessions[id := s];
      nextId := nextId + 1;
    }
  }

  /** The session with this id, but only when it belongs to `user`. */
  function Owned(sessions: map<nat, Session>, id: nat, user: nat): (r: Option<Session>)
    ensures r.Some? <==> id in sessions && sessions[id].user == user
    ensures r.Some? ==> r.value == sessions[id]
  {
    if id in sessions && sessions[id].user == user then Some(sessions[id]) else None
  }
}
