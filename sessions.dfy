/** The in-memory session store of the chat microservice (chatbot_service.py:27-118).
    Clock readings are parameters: `now` is the instant `datetime.now()` would return.
    Times are integers counting microseconds, the resolution of Python's datetime. */
module Sessions {
  import opened Wrappers
  import Bot

  type Time = int

  const MicrosPerMinute: int := 60 * 1000000
  /** SESSION_TIMEOUT, in minutes. */
  const SessionTimeoutMinutes: int := 30
  const SessionTimeout: int := SessionTimeoutMinutes * MicrosPerMinute

  /** A ChatSession. Its `chatbot` is the R2RChatbot object the session owns. */
  datatype Session = Session(
    sessionId: string, userId: int, chatbot: Bot.Chatbot,
    createdAt: Time, lastActivity: Time, isActive: bool)

  /** ChatSession.is_expired: strictly more than 30 minutes since the last activity. */
  predicate IsExpired(s: Session, now: Time)
  {
    now - s.lastActivity > SessionTimeout
  }

  /** At exactly 30 minutes a session is still live; one microsecond later it is expired. */
  lemma ExpiryIsStrict(s: Session)
    ensures !IsExpired(s, s.lastActivity + 30 * MicrosPerMinute)
    ensures IsExpired(s, s.lastActivity + 30 * MicrosPerMinute + 1)
  {
  }

  /** Once expired, a session stays expired as the clock advances. */
  lemma ExpiryIsPermanent(s: Session, t: Time, later: Time)
    requires IsExpired(s, t) && t <= later
    ensures IsExpired(s, later)
  {
  }

  /** ChatSession.__init__: both timestamps are the creation instant. */
  function NewSession(sessionId: string, userId: int, chatbot: Bot.Chatbot, now: Time): (s: Session)
    ensures s.sessionId == sessionId && s.userId == userId && s.chatbot == chatbot
    ensures s.createdAt == now && s.lastActivity == now && s.isActive
    ensures !IsExpired(s, now)
  {
    Session(sessionId, userId, chatbot, now, now, true)
  }

  /** ChatSession.update_activity: only the activity time changes, and the session is live at `now`. */
  function UpdateActivity(s: Session, now: Time): (r: Session)
    ensures r.lastActivity == now && !IsExpired(r, now)
    ensures r.(lastActivity := s.lastActivity) == s
  {
    s.(lastActivity := now)
  }

  /** The store after a state-changing operation, and the operation's result. */
  datatype Step<T> = Step(store: map<string, Session>, result: T)

  /** get_session (chatbot_service.py:82-91) as a transition of the map. */
  function GetStep(m: map<string, Session>, id: string, now: Time): (r: Step<Option<Session>>)
    ensures r.result.Some? <==> id in m && !IsExpired(m[id], now)
    ensures r.result.Some? ==> r.result.value == UpdateActivity(m[id], now)
                               && id in r.store && r.store[id] == r.result.value
    ensures id in m && IsExpired(m[id], now) ==> id !in r.store
    ensures id !in m ==> r.store == m
    ensures forall k :: k != id ==> (k in r.store <==> k in m)
    ensures forall k :: k != id && k in m ==> r.store[k] == m[k]
  {
    if id in m && !IsExpired(m[id], now) then
      var s := UpdateActivity(m[id], now);
      Step(m[id := s], Some(s))
    else if id in m then
      Step(m - {id}, None)
    else
      Step(m, None)
  }

  /** The entries that survive a reaper pass at `now`. */
  function Live(m: map<string, Session>, now: Time): (r: map<string, Session>)
    ensures forall k :: k in r <==> k in m && !IsExpired(m[k], now)
    ensures forall k :: k in r ==> r[k] == m[k]
  {
    map k | k in m && !IsExpired(m[k], now) :: m[k]
  }

  /** The entries a reaper pass at `now` evicts, each with the chatbot whose
      `delete_document()` the eviction requests. */
  function Expired(m: map<string, Session>, now: Time): (r: map<string, Bot.Chatbot>)
    ensures forall k :: k in r <==> k in m && IsExpired(m[k], now)
    ensures forall k :: k in r ==> r[k] == m[k].chatbot
  {
    map k | k in m && IsExpired(m[k], now) :: m[k].chatbot
  }

  /** A pass splits the store: every id is either kept or evicted, never both, so the size
      of the store is the number of live sessions plus the number of expired ones. */
  lemma ReapCount(m: map<string, Session>, now: Time)
    ensures Live(m, now).Keys !! Expired(m, now).Keys
    ensures Live(m, now).Keys + Expired(m, now).Keys == m.Keys
    ensures |Live(m, now)| + |Expired(m, now)| == |m|
    ensures |Live(m, now)| == |m| <==> Expired(m, now) == map[]
  {
    var live, gone := Live(m, now).Keys, Expired(m, now).Keys;
    assert live * gone == {};
    assert live + gone == m.Keys;
    assert |live + gone| == |live| + |gone|;
    assert |Live(m, now)| == |live| && |Expired(m, now)| == |gone| && |m| == |m.Keys|;
    if |gone| == 0 {
      assert gone == {};
      assert Expired(m, now) == map[];
    }
  }

  /** The chatbot whose `delete_document()` a lookup at `now` requests: the session's own,
      exactly when the lookup finds the session expired and evicts it. */
  function EvictedChatbot(m: map<string, Session>, id: string, now: Time): (r: Option<Bot.Chatbot>)
    ensures r.Some? <==> id in m && IsExpired(m[id], now)
    ensures r.Some? ==> r.value == m[id].chatbot && GetStep(m, id, now).result.None?
                        && id !in GetStep(m, id, now).store
  {
    if id in m && IsExpired(m[id], now) then Some(m[id].chatbot) else None
  }

  /** After a pass no entry is expired, and a second pass at the same instant changes nothing. */
  lemma LiveIsIdempotent(m: map<string, Session>, now: Time)
    ensures forall k :: k in Live(m, now) ==> !IsExpired(Live(m, now)[k], now)
    ensures Live(Live(m, now), now) == Live(m, now)
  {
  }

  /** A lookup sees the same result whether or not a reaper pass ran at the same instant
      just before it, and the two orders leave the same store: the lookup's own eviction
      and the reaper's agree. */
  lemma ReapCommutesWithGet(m: map<string, Session>, id: string, now: Time)
    ensures GetStep(Live(m, now), id, now).result == GetStep(m, id, now).result
    ensures GetStep(Live(m, now), id, now).store == Live(GetStep(m, id, now).store, now)
  {
    var a := GetStep(Live(m, now), id, now).store;
    var b := Live(GetStep(m, id, now).store, now);
    assert a.Keys == b.Keys;
    forall k | k in a
      ensures a[k] == b[k]
    {
    }
  }

  /** A session found by a lookup survives every reaper pass within the next 30 minutes. */
  lemma RefreshedSessionSurvives(m: map<string, Session>, id: string, now: Time, later: Time)
    requires GetStep(m, id, now).result.Some?
    requires now <= later <= now + SessionTimeout
    ensures id in Live(GetStep(m, id, now).store, later)
  {
  }

  /** An id the reaper evicted is not found afterwards, at any time. */
  lemma EvictedStaysGone(m: map<string, Session>, id: string, now: Time, later: Time)
    requires id in m && IsExpired(m[id], now)
    ensures GetStep(Live(m, now), id, later).result == None
  {
  }

  class SessionStore {
    /** `active_sessions`. */
    var sessions: map<string, Session>

    /** Every session is filed under its own id. */
    ghost predicate Valid()
      reads this
    {
      forall k :: k in sessions ==> sessions[k].sessionId == k
    }

    constructor ()
      ensures Valid() && sessions == map[]
    {
      sessions := map[];
    }

    /** The chatbots owned by the stored sessions. */
    function Chatbots(): set<Bot.Chatbot>
      reads this
    {
      set k | k in sessions :: sessions[k].chatbot
    }

    /** create_session (chatbot_service.py:74-80), with the generated id passed in; the
        uuid4 id is modelled as one that no stored session uses. */
    method CreateSession(sessionId: string, userId: int, chatbot: Bot.Chatbot, now: Time) returns (id: string)
      requires Valid() && sessionId !in sessions
      modifies this
      ensures Valid()
      ensures id == sessionId
      ensures sessions == old(sessions)[sessionId := NewSession(sessionId, userId, chatbot, now)]
      ensures |sessions| == |old(sessions)| + 1
    {
      sessions := sessions[sessionId := NewSession(sessionId, userId, chatbot, now)];
      id := sessionId;
    }

    /** cleanup_session (chatbot_service.py:93-105). `teardown` is the chatbot whose
        `delete_document()` task is requested; `schedulingFails` says whether
        `asyncio.create_task` raised, which is logged and does not stop the removal. */
    method CleanupSession(sessionId: string, schedulingFails: bool) returns (teardown: Option<Bot.Chatbot>)
      requires Valid()
      modifies this
      ensures Valid()
      ensures sessions == old(sessions) - {sessionId}
      ensures sessionId !in old(sessions) ==> sessions == old(sessions) && teardown == None
      ensures teardown.Some? <==> sessionId in old(sessions) && !schedulingFails
      ensures teardown.Some? ==> teardown.value == old(sessions)[sessionId].chatbot
    {
      teardown := None;
      if sessionId in sessions {
        if !schedulingFails {
          teardown := Some(sessions[sessionId].chatbot);
        }
        sessions := sessions - {sessionId};
      }
    }

    /** get_session (chatbot_service.py:82-91): refresh a live session, evict an expired one. */
    method GetSession(sessionId: string, now: Time) returns (r: Option<Session>, teardown: Option<Bot.Chatbot>)
      requires Valid()
      modifies this
      ensures Valid()
      ensures Step(sessions, r) == GetStep(old(sessions), sessionId, now)
      ensures r.Some? ==> r.value.sessionId == sessionId
      ensures teardown == EvictedChatbot(old(sessions), sessionId, now)
    {
      teardown := None;
      if sessionId in sessions && !IsExpired(sessions[sessionId], now) {
        var s := UpdateActivity(sessions[sessionId], now);
        sessions := sessions[sessionId := s];
        r := Some(s);
      } else {
        if sessionId in sessions {
          teardown := CleanupSession(sessionId, false);
        }
        r := None;
      }
    }

    /** One pass of cleanup_expired_sessions (chatbot_service.py:110-116): snapshot the
        expired ids, then clean each one up. `teardowns` maps each evicted id to the
        chatbot whose `delete_document()` its cleanup requested. */
    method CleanupExpiredSessions(now: Time) returns (teardowns: map<string, Bot.Chatbot>)
      requires Valid()
      modifies this
      ensures Valid()
      ensures sessions == Live(old(sessions), now)
      ensures teardowns == Expired(old(sessions), now)
      ensures teardowns.Keys == old(sessions).Keys - sessions.Keys
    {
      var expired := Expired(sessions, now);
      var todo := expired.Keys;
      teardowns := map[];
      while todo != {}
        invariant todo <= expired.Keys
        invariant Valid()
        invariant sessions == old(sessions) - (expired.Keys - todo)
        invariant teardowns == expired - todo
        decreases todo
      {
        var id :| id in todo;
        var t := CleanupSession(id, false);
        teardowns := teardowns[id := t.value];
        todo := todo - {id};
      }
      assert sessions.Keys == Live(old(sessions), now).Keys;
    }
  }
}
