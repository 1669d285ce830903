/** The session endpoints of the server (server/controllers/sessionController.js):
    creating a session against the free plan's quota, paging through a
    user's sessions, and reading, updating, rating and deleting one session,
    always scoped to its owner; and the whole-number parts of the analytics. */
module SessionController {
  import opened Wrappers
  import opened Text
  import opened UserModel
  import opened SessionModel

  const DefaultPage: int := 1
  const DefaultLimit: int := 10
  /** How many sessions the analytics list as recent. */
  const RecentCount: nat := 5

  function Min(a: int, b: int): int
  {
    if a <= b then a else b
  }

  // ---------------------------------------------------------------------
  // createSession

  /** Whether the subscription lets its holder open another session: free
      plans stop at their limit, other plans never do. */
  predicate QuotaAllows(sub: Subscription)
  {
    sub.plan != Free || sub.sessionsUsed < sub.sessionsLimit
  }

  /** The status `createSession` answers with, its checks taken in order:
      400 for a missing id, 500 when the user record is gone, 403 when the
      quota is used up, 201 otherwise. */
  function CreateStatus(conversationId: Option<string>, replicaId: Option<string>, sub: Option<Subscription>): (code: nat)
    ensures code == 400 <==> !Truthy(conversationId) || !Truthy(replicaId)
    ensures code == 500 <==> Truthy(conversationId) && Truthy(replicaId) && sub.None?
    ensures code == 403 <==> Truthy(conversationId) && Truthy(replicaId) && sub.Some? && !QuotaAllows(sub.value)
    ensures code == 201 <==> Truthy(conversationId) && Truthy(replicaId) && sub.Some? && QuotaAllows(sub.value)
  {
    if !Truthy(conversationId) || !Truthy(replicaId) then 400
    else if sub.None? then 500
    else if sub.value.plan == Free && sub.value.sessionsUsed >= sub.value.sessionsLimit then 403
    else 201
  }

  /** The subscription after one create request that names both ids. */
  function AfterCreate(sub: Subscription): (r: Subscription)
    ensures r.plan == sub.plan && r.sessionsLimit == sub.sessionsLimit
    ensures r.sessionsUsed == if QuotaAllows(sub) then sub.sessionsUsed + 1 else sub.sessionsUsed
  {
    if QuotaAllows(sub) then sub.(sessionsUsed := sub.sessionsUsed + 1) else sub
  }

  /** The subscription after `k` such requests. */
  function AfterCreates(sub: Subscription, k: nat): Subscription
  {
    if k == 0 then sub else AfterCreate(AfterCreates(sub, k - 1))
  }

  /** A new user on the free plan can open exactly ten sessions: the
      counter climbs to ten and every later request is refused. */
  lemma {:induction false} FreePlanAllowsTenSessions(k: nat)
    ensures AfterCreates(DefaultSubscription, k).sessionsUsed == Min(k, FreeSessionsLimit)
    ensures AfterCreates(DefaultSubscription, k).plan == Free
    ensures AfterCreates(DefaultSubscription, k).sessionsLimit == FreeSessionsLimit
    ensures QuotaAllows(AfterCreates(DefaultSubscription, k)) <==> k < FreeSessionsLimit
  {
    if k > 0 {
      FreePlanAllowsTenSessions(k - 1);
    }
  }

  /** Paid plans are never refused: every request counts one session. */
  lemma {:induction false} PaidPlansNeverBlocked(sub: Subscription, k: nat)
    requires sub.plan != Free
    ensures QuotaAllows(AfterCreates(sub, k))
    ensures AfterCreates(sub, k).sessionsUsed == sub.sessionsUsed + k
    ensures AfterCreates(sub, k).plan == sub.plan
  {
    if k > 0 {
      PaidPlansNeverBlocked(sub, k - 1);
    }
  }

  /** `createSession`: checks both ids, then the quota of the caller's
      record, then stores a new session and counts it against the quota. */
  method CreateSession(user: User?, conversationId: Option<string>, replicaId: Option<string>,
                       personaId: Option<string>, now: int, store: SessionStore) returns (reply: Reply<Session>)
    requires store.Valid()
    modifies store, user
    ensures store.Valid()
    ensures reply.status == CreateStatus(conversationId, replicaId, if user == null then None else Some(old(user.subscription)))
    ensures reply.status == 201 ==>
      && user != null
      && var s := NewSession(user.id, conversationId.value, replicaId.value, personaId, now);
      && reply.data == Some(s)
      && store.sessions == old(store.sessions)[old(store.nextId) := s]
      && user.subscription == AfterCreate(old(user.subscription))
    ensures reply.status != 201 ==> store.sessions == old(store.sessions)
    ensures reply.status != 201 && user != null ==> user.subscription == old(user.subscription)
    ensures user != null ==> user.name == old(user.name) && user.emergencyContacts == old(user.emergencyContacts)
  {
    if !Truthy(conversationId) || !Truthy(replicaId) {
      return Reply(400, "Please provide conversationId and replicaId", None);
    }
    if user == null {
      return Reply(500, "Error creating session", None);
    }
    if user.subscription.plan == Free {
      if user.subscription.sessionsUsed >= user.subscription.sessionsLimit {
        return Reply(403, "Session limit reached. Please upgrade to premium.", None);
      }
    }
    var session := NewSession(user.id, conversationId.value, replicaId.value, personaId, now);
    var _ := store.Insert(session);
    user.subscription := user.subscription.(sessionsUsed := user.subscription.sessionsUsed + 1);
    reply := Reply(201, "", Some(session));
  }

  // ---------------------------------------------------------------------
  // getSessions

  /** `parseInt(q) || d`: a missing, unreadable or zero parameter falls
      back to the default. */
  function PageParam(q: Option<string>, default: int): (r: int)
    ensures q.None? ==> r == default
    ensures r == default || (q.Some? && ParseInt(q.value) == Some(r) && r != 0)
    ensures q.Some? && ParseInt(q.value).Some? && ParseInt(q.value).value != 0 ==> r == ParseInt(q.value).value
  {
    if q.Some? && ParseInt(q.value).Some? && ParseInt(q.value).value != 0 then ParseInt(q.value).value else default
  }

  /** `Math.ceil(total / limit)` for a non-zero whole limit. */
  function CeilDiv(total: nat, limit: int): (r: int)
    requires limit != 0
    ensures limit > 0 ==> (r - 1) * limit < total <= r * limit
    ensures limit < 0 ==> r * limit <= total < (r - 1) * limit
  {
    if limit > 0 then
      var q := (total + limit - 1) / limit;
      assert (total + limit - 1) == q * limit + (total + limit - 1) % limit;
      q
    else
      var q := total / (-limit);
      assert total == q * (-limit) + total % (-limit);
      -q
  }

  /** A stored session and its id, as the collection returns them. */
  datatype Document = Document(id: nat, session: Session)

  /** The listing leaves out the two large fields. */
  function Listed(d: Document): Document
  {
    d.(session := d.session.(messages := [], emotionData := []))
  }

  /** `.skip(skip).limit(size)` with the large fields left out. */
  function Window(owned: seq<Document>, skip: nat, size: nat): (w: seq<Document>)
    ensures |w| == if skip >= |owned| then 0 else Min(size, |owned| - skip)
    ensures forall i :: 0 <= i < |w| ==> w[i] == Listed(owned[skip + i])
  {
    if skip >= |owned| then []
    else
      var end := skip + Min(size, |owned| - skip);
      seq(end - skip, i requires 0 <= i < end - skip => Listed(owned[skip + i]))
  }

  datatype SessionPage = SessionPage(count: nat, total: nat, page: int, pages: int, sessions: seq<Document>)

  /** `getSessions`: one page of the caller's sessions, newest first. The
      database rejects a negative skip, which comes back as a 500; a
      negative limit is taken by its size. */
  function GetSessions(owned: seq<Document>, pageQuery: Option<string>, limitQuery: Option<string>): (r: Reply<SessionPage>)
    ensures var page, limit := PageParam(pageQuery, DefaultPage), PageParam(limitQuery, DefaultLimit);
      && (r.status == 200 <==> (page - 1) * limit >= 0)
      && (r.status != 200 ==> r == Reply(500, "Error fetching sessions", None))
      && (r.status == 200 ==>
            && r.data.Some?
            && r.data.value.page == page
            && r.data.value.total == |owned|
            && r.data.value.count == |r.data.value.sessions|
            && r.data.value.pages == CeilDiv(|owned|, limit)
            && r.data.value.sessions == Window(owned, (page - 1) * limit, if limit < 0 then -limit else limit))
  {
    var page := PageParam(pageQuery, DefaultPage);
    var limit := PageParam(limitQuery, DefaultLimit);
    var skip := (page - 1) * limit;
    if skip < 0 then Reply(500, "Error fetching sessions", None)
    else
      var w := Window(owned, skip, if limit < 0 then -limit else limit);
      Reply(200, "", Some(SessionPage(|w|, |owned|, page, CeilDiv(|owned|, limit), w)))
  }

  /** Without parameters the first ten sessions are listed. */
  lemma FirstPageByDefault(owned: seq<Document>)
    ensures var r := GetSessions(owned, None, None);
      && r.status == 200 && r.data.value.page == 1
      && r.data.value.count == Min(10, |owned|)
      && r.data.value.sessions == Window(owned, 0, 10)
  {
  }

  /** A non-zero parameter written in decimal is read back. */
  lemma PageParamReadsDecimal(n: nat, default: int)
    requires n != 0
    ensures PageParam(Some(NatToString(n)), default) == n
  {
    ParseIntReadsDecimal(n, []);
    assert NatToString(n) + [] == NatToString(n);
  }

  /** Page and limit written in decimal are read back exactly. */
  lemma PageParamsReadBack(owned: seq<Document>, page: nat, limit: nat)
    requires page >= 1 && limit >= 1
    ensures var r := GetSessions(owned, Some(NatToString(page)), Some(NatToString(limit)));
      && r.status == 200 && r.data.value.page == page
      && (page - 1) * limit >= 0
      && r.data.value.sessions == Window(owned, (page - 1) * limit, limit)
      && r.data.value.pages == CeilDiv(|owned|, limit)
  {
    var pq, lq := Some(NatToString(page)), Some(NatToString(limit));
    PageParamReadsDecimal(page, DefaultPage);
    PageParamReadsDecimal(limit, DefaultLimit);
    MulNonNegative(page - 1, limit);
    var r := GetSessions(owned, pq, lq);
    assert r.status == 200;
    assert r.data.value.page == page;
  }

  /** With a positive limit every session is listed on exactly one page:
      the one its position falls into, and that page is among the `pages`
      the reply announces. */
  lemma EverySessionOnItsPage(owned: seq<Document>, i: nat, limit: nat)
    requires i < |owned| && limit >= 1
    ensures var page := i / limit + 1;
      && page <= CeilDiv(|owned|, limit)
      && i % limit < |Window(owned, (page - 1) * limit, limit)|
      && Window(owned, (page - 1) * limit, limit)[i % limit] == Listed(owned[i])
  {
    var page := i / limit + 1;
    var skip := (page - 1) * limit;
    assert i == skip + i % limit;
    var p := CeilDiv(|owned|, limit);
    if page > p {
      MulMonotone(p, i / limit, limit);
      assert false;
    }
  }

  lemma MulNonNegative(a: nat, b: nat)
    ensures a * b >= 0
  {
  }

  lemma MulMonotone(a: int, b: int, c: nat)
    requires a <= b
    ensures a * c <= b * c
  {
    assert b * c - a * c == (b - a) * c;
    MulNonNegative(b - a, c);
  }

  // ---------------------------------------------------------------------
  // getSession

  /** `getSession`: the session only when both its id and its owner match. */
  function GetSession(sessions: map<nat, Session>, id: nat, user: nat): (r: Reply<Session>)
    ensures r.status == 200 <==> id in sessions && sessions[id].user == user
    ensures r.status == 200 ==> r.data == Some(sessions[id])
    ensures r.status != 200 ==> r == Reply(404, "Session not found", None)
  {
    match Owned(sessions, id, user)
    case Some(s) => Reply(200, "", Some(s))
    case None => Reply(404, "Session not found", None)
  }

  // ---------------------------------------------------------------------
  // updateSession

  /** An emotion sample as submitted; its time defaults to now. */
  datatype EmotionInput = EmotionInput(timestamp: Option<int>, dominantEmotion: Option<string>, hasEmotions: bool)

  /** A message as submitted; its time defaults to now and its role is
      checked when the session is saved. */
  datatype MessageInput = MessageInput(timestamp: Option<int>, role: Option<string>, content: Option<string>, emotion: Option<string>)

  /** The body of an update; `duration` counts only when it is non-zero and
      `status` only when it is a non-empty string. */
  datatype SessionUpdate = SessionUpdate(emotionData: Option<EmotionInput>, message: Option<MessageInput>,
                                         duration: Option<int>, status: Option<string>)

  function StoredEmotion(e: EmotionInput, now: int): (r: EmotionSample)
    ensures r.timestamp == (if e.timestamp.Some? then e.timestamp.value else now)
    ensures r.dominantEmotion == e.dominantEmotion && r.hasEmotions == e.hasEmotions
  {
    EmotionSample(if e.timestamp.Some? then e.timestamp.value else now, e.dominantEmotion, e.hasEmotions)
  }

  /** A pushed message as the schema casts it; `None` when its role is
      missing or is neither "user" nor "assistant". */
  function CastMessage(m: MessageInput, now: int): (r: Option<StoredMessage>)
    ensures r.Some? <==> m.role.Some? && (m.role.value == "user" || m.role.value == "assistant")
    ensures r.Some? ==> r.value.role.Name() == m.role.value
    ensures r.Some? ==> r.value.content == m.content && r.value.emotion == m.emotion
    ensures r.Some? ==> r.value.timestamp == (if m.timestamp.Some? then m.timestamp.value else now)
  {
    if m.role.None? then None
    else
      match MessageRoleFromName(m.role.value)
      case None => None
      case Some(role) => Some(StoredMessage(if m.timestamp.Some? then m.timestamp.value else now, role, m.content, m.emotion))
  }

  /** `session.emotionData.push(...)`, when a sample was sent. */
  function WithEmotion(s: Session, e: Option<EmotionInput>, now: int): (r: Session)
    ensures r == s.(emotionData := s.emotionData + (if e.Some? then [StoredEmotion(e.value, now)] else []))
  {
    if e.Some? then s.(emotionData := s.emotionData + [StoredEmotion(e.value, now)]) else s
  }

  /** `session.messages.push(...)`, when a message was sent; `None` when
      the pushed message fails the schema's cast. */
  function WithMessage(s: Session, m: Option<MessageInput>, now: int): (r: Option<Session>)
    ensures r.None? <==> m.Some? && CastMessage(m.value, now).None?
    ensures r.Some? ==> r.value == s.(messages := s.messages + (if m.Some? then [CastMessage(m.value, now).value] else []))
  {
    if m.None? then Some(s)
    else
      match CastMessage(m.value, now)
      case None => None
      case Some(msg) => Some(s.(messages := s.messages + [msg]))
  }

  /** `if (duration) session.duration = duration`: zero counts as absent. */
  function WithDuration(s: Session, d: Option<int>): (r: Session)
    ensures r == s.(duration := if d.Some? && d.value != 0 then d.value else s.duration)
  {
    if d.Some? && d.value != 0 then s.(duration := d.value) else s
  }

  /** `if (status)`: the new status, and `endedAt` stamped for a terminal
      one; `None` when the name is not one of the schema's. */
  function WithStatus(s: Session, status: Option<string>, now: int): (r: Option<Session>)
    ensures r.None? <==> Truthy(status) && StatusFromName(status.value).None?
    ensures r.Some? && !Truthy(status) ==> r.value == s
    ensures r.Some? && Truthy(status) ==>
      && r.value.status.Name() == status.value
      && r.value == s.(status := r.value.status, endedAt := if r.value.status.Terminal() then Some(now) else s.endedAt)
  {
    if !Truthy(status) then Some(s)
    else
      match StatusFromName(status.value)
      case None => None
      case Some(st) =>
        var ended := status.value == "completed" || status.value == "interrupted";
        Some(s.(status := st, endedAt := if ended then Some(now) else s.endedAt))
  }

  /** The session `updateSession` saves, or `None` when saving it fails
      validation. */
  function ApplyUpdate(s: Session, u: SessionUpdate, now: int): (r: Option<Session>)
    ensures r.Some? <==>
      && (u.message.None? || CastMessage(u.message.value, now).Some?)
      && (!Truthy(u.status) || StatusFromName(u.status.value).Some?)
    ensures ValidSession(s) && r.Some? ==> ValidSession(r.value)
    // the two lists only grow, at their ends, by what was sent
    ensures r.Some? ==>
      r.value.emotionData == s.emotionData + (if u.emotionData.Some? then [StoredEmotion(u.emotionData.value, now)] else [])
    ensures r.Some? ==>
      r.value.messages == s.messages + (if u.message.Some? then [CastMessage(u.message.value, now).value] else [])
    ensures r.Some? ==> r.value.duration == (if u.duration.Some? && u.duration.value != 0 then u.duration.value else s.duration)
    ensures r.Some? && Truthy(u.status) ==> r.value.status.Name() == u.status.value
    ensures r.Some? && !Truthy(u.status) ==> r.value.status == s.status
    // the session is stamped as ended exactly when a terminal status is set
    ensures r.Some? ==> r.value.endedAt == (if Truthy(u.status) && r.value.status.Terminal() then Some(now) else s.endedAt)
    // nothing else changes
    ensures r.Some? ==> r.value.(emotionData := s.emotionData, messages := s.messages, duration := s.duration,
                                 status := s.status, endedAt := s.endedAt) == s
  {
    match WithMessage(WithEmotion(s, u.emotionData, now), u.message, now)
    case None => None
    case Some(s2) => WithStatus(WithDuration(s2, u.duration), u.status, now)
  }

  /** An update with nothing in it saves the session as it was. */
  lemma EmptyUpdateChangesNothing(s: Session, now: int)
    ensures ApplyUpdate(s, SessionUpdate(None, None, None, None), now) == Some(s)
  {
  }

  /** The edits `updateSession` makes to the fetched document, in the
      source's order; `invalid` when the save's validation would refuse
      the result. */
  method EditSession(session0: Session, u: SessionUpdate, now: int) returns (session: Session, invalid: bool)
    ensures invalid <==> ApplyUpdate(session0, u, now).None?
    ensures !invalid ==> ApplyUpdate(session0, u, now) == Some(session)
  {
    session := session0;
    invalid := false;
    if u.emotionData.Some? {
      session := session.(emotionData := session.emotionData + [StoredEmotion(u.emotionData.value, now)]);
    }
    assert session == WithEmotion(session0, u.emotionData, now);
    ghost var pushed := WithMessage(session, u.message, now);
    if u.message.Some? {
      var cast := CastMessage(u.message.value, now);
      if cast.None? {
        invalid := true;
      } else {
        session := session.(messages := session.messages + [cast.value]);
      }
    }
    assert invalid <==> pushed.None?;
    assert !invalid ==> session == pushed.value;
    if u.duration.Some? && u.duration.value != 0 {
      session := session.(duration := u.duration.value);
    }
    ghost var timed := session;
    if Truthy(u.status) {
      var st := StatusFromName(u.status.value);
      if st.None? {
        invalid := true;
      } else {
        session := session.(status := st.value);
        if u.status.value == "completed" || u.status.value == "interrupted" {
          session := session.(endedAt := Some(now));
        }
      }
    }
    assert !invalid ==> Some(session) == WithStatus(timed, u.status, now);
  }

  /** `updateSession`: finds the caller's session, pushes the new sample and
      message, overwrites duration and status as given, stamps `endedAt` for
      a terminal status, and saves; a failed validation saves nothing. */
  method UpdateSession(store: SessionStore, id: nat, user: nat, u: SessionUpdate, now: int) returns (reply: Reply<Session>)
    requires store.Valid()
    modifies store
    ensures store.Valid() && store.nextId == old(store.nextId)
    ensures Owned(old(store.sessions), id, user).None? ==>
      reply == Reply(404, "Session not found", None) && store.sessions == old(store.sessions)
    ensures Owned(old(store.sessions), id, user).Some? ==>
      var r := ApplyUpdate(old(store.sessions)[id], u, now);
      && (r.Some? ==> reply == Reply(200, "", r) && store.sessions == old(store.sessions)[id := r.value])
      && (r.None? ==> reply == Reply(500, "Error updating session", None) && store.sessions == old(store.sessions))
  {
    var found := Owned(store.sessions, id, user);
    if found.None? {
      return Reply(404, "Session not found", None);
    }
    var session, invalid := EditSession(found.value, u, now);
    if invalid {
      return Reply(500, "Error updating session", None);
    }
    assert ValidSession(session);
    store.sessions := store.sessions[id := session];
    reply := Reply(200, "", Some(session));
  }

  // ---------------------------------------------------------------------
  // rateSession

  /** `!rating || rating < 1 || rating > 5` rejects; this is what passes. */
  predicate AcceptedRating(rating: Option<int>)
  {
    rating.Some? && rating.value != 0 && !(rating.value < 1) && !(rating.value > 5)
  }

  /** The controller's check admits exactly the ratings the schema allows. */
  lemma AcceptedRatingMatchesSchema(rating: Option<int>)
    ensures AcceptedRating(rating) <==> rating.Some? && ValidRating(rating)
  {
  }

  /** The session after a rating; an absent feedback leaves the stored one. */
  function Rated(s: Session, rating: int, feedback: Option<string>): (r: Session)
    ensures r.rating == Some(rating)
    ensures r.feedback == (if feedback.Some? then feedback else s.feedback)
    ensures r.(rating := s.rating, feedback := s.feedback) == s
  {
    s.(rating := Some(rating), feedback := if feedback.Some? then feedback else s.feedback)
  }

  /** `rateSession`: checks the rating, then updates only a session the
      caller owns. */
  method RateSession(store: SessionStore, id: nat, user: nat, rating: Option<int>, feedback: Option<string>)
    returns (reply: Reply<Session>)
    requires store.Valid()
    modifies store
    ensures store.Valid() && store.nextId == old(store.nextId)
    ensures reply.status == 400 <==> !AcceptedRating(rating)
    ensures reply.status == 404 <==> AcceptedRating(rating) && Owned(old(store.sessions), id, user).None?
    ensures reply.status == 200 <==> AcceptedRating(rating) && Owned(old(store.sessions), id, user).Some?
    ensures reply.status == 200 ==>
      && store.sessions == old(store.sessions)[id := Rated(old(store.sessions)[id], rating.value, feedback)]
      && reply.data == Some(store.sessions[id])
    ensures reply.status != 200 ==> store.sessions == old(store.sessions)
  {
    if rating.None? || rating.value == 0 || rating.value < 1 || rating.value > 5 {
      return Reply(400, "Please provide a rating between 1 and 5", None);
    }
    var found := Owned(store.sessions, id, user);
    if found.None? {
      return Reply(404, "Session not found", None);
    }
    var session := Rated(found.value, rating.value, feedback);
    store.sessions := store.sessions[id := session];
    reply := Reply(200, "", Some(session));
  }

  // ---------------------------------------------------------------------
  // deleteSession

  /** `deleteSession`: removes the session only when the caller owns it. */
  method DeleteSession(store: SessionStore, id: nat, user: nat) returns (reply: Reply<Session>)
    requires store.Valid()
    modifies store
    ensures store.Valid() && store.nextId == old(store.nextId)
    ensures reply.status == 200 <==> Owned(old(store.sessions), id, user).Some?
    ensures reply.status == 200 ==>
      reply.message == "Session deleted successfully" && store.sessions == old(store.sessions) - {id}
    ensures reply.status != 200 ==>
      reply == Reply(404, "Session not found", None) && store.sessions == old(store.sessions)
  {
    var found := Owned(store.sessions, id, user);
    if found.None? {
      return Reply(404, "Session not found", None);
    }
    store.sessions := store.sessions - {id};
    reply := Reply(200, "Session deleted successfully", None);
  }

  // ---------------------------------------------------------------------
  // getAnalytics (whole-number parts)

  /** One entry of `recentSessions`. */
  datatype RecentSession = RecentSession(id: nat, date: int, duration: int, status: SessionStatus, rating: Option<int>)

  datatype Analytics = Analytics(totalSessions: nat, totalDuration: int, completedSessions: nat, recentSessions: seq<RecentSession>)

  /** The sum of the durations, `reduce((acc, s) => acc + s.duration, 0)`. */
  function TotalDuration(docs: seq<Document>): (t: int)
    ensures (forall i :: 0 <= i < |docs| ==> docs[i].session.duration >= 0) ==> t >= 0
  {
    if docs == [] then 0 else TotalDuration(docs[..|docs| - 1]) + docs[|docs| - 1].session.duration
  }

  /** `filter(s => s.status === 'completed').length`. */
  function CompletedCount(docs: seq<Document>): (c: nat)
    ensures c <= |docs|
    ensures c == 0 <==> forall i :: 0 <= i < |docs| ==> docs[i].session.status != Completed
    ensures c == |docs| <==> forall i :: 0 <= i < |docs| ==> docs[i].session.status == Completed
  {
    if docs == [] then 0
    else CompletedCount(docs[..|docs| - 1]) + (if docs[|docs| - 1].session.status == Completed then 1 else 0)
  }

  function Recent(d: Document): RecentSession
  {
    RecentSession(d.id, d.session.createdAt, d.session.duration, d.session.status, d.session.rating)
  }

  /** `getAnalytics` without its floating-point averages and emotion trends. */
  function GetAnalytics(docs: seq<Document>): (a: Analytics)
    ensures a.totalSessions == |docs|
    ensures a.totalDuration == TotalDuration(docs) && a.completedSessions == CompletedCount(docs)
    ensures a.completedSessions <= a.totalSessions
    ensures |a.recentSessions| == Min(RecentCount, |docs|)
    ensures forall i :: 0 <= i < |a.recentSessions| ==> a.recentSessions[i] == Recent(docs[i])
  {
    var n := Min(RecentCount, |docs|);
    Analytics(|docs|, TotalDuration(docs), CompletedCount(docs),
              seq(n, i requires 0 <= i < n => Recent(docs[i])))
  }

  /** Durations add up across any split of the sessions. */
  lemma {:induction false} TotalDurationAppend(a: seq<Document>, b: seq<Document>)
    ensures TotalDuration(a + b) == TotalDuration(a) + TotalDuration(b)
    decreases |b|
  {
    if b != [] {
      assert (a + b)[..|a + b| - 1] == a + b[..|b| - 1];
      TotalDurationAppend(a, b[..|b| - 1]);
    } else {
      assert a + b == a;
    }
  }

  /** So do completed sessions. */
  lemma {:induction false} CompletedCountAppend(a: seq<Document>, b: seq<Document>)
    ensures CompletedCount(a + b) == CompletedCount(a) + CompletedCount(b)
    decreases |b|
  {
    if b != [] {
      assert (a + b)[..|a + b| - 1] == a + b[..|b| - 1];
      CompletedCountAppend(a, b[..|b| - 1]);
    } else {
      assert a + b == a;
    }
  }

  /** With no negative duration stored, the total is at least each one. */
  lemma {:induction false} TotalDurationBounds(docs: seq<Document>)
    requires forall i :: 0 <= i < |docs| ==> docs[i].session.duration >= 0
    ensures TotalDuration(docs) >= 0
    ensures forall i :: 0 <= i < |docs| ==> docs[i].session.duration <= TotalDuration(docs)
  {
    if docs != [] {
      TotalDurationBounds(docs[..|docs| - 1]);
    }
  }
}
