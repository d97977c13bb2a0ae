/** The store-level decisions of the HTTP endpoints (chatbot_service.py:170-245): which
    outcome each request gets, and what it does to the session store and to the session's
    chatbot. Response bodies are reduced to the fields the endpoints fill in from state. */
module Service {
  import opened Wrappers
  import Bot
  import opened Sessions

  /** send_message: the reply with its conversation id, 404, or 500. */
  datatype SendOutcome = Answered(response: string, conversationId: string) | SessionNotFound | ProcessingFailed

  /** close_chat: success, or 404. */
  datatype CloseOutcome = Closed | CloseNotFound

  /** get_session_status. */
  datatype StatusReport =
    | Active(userId: int, createdAt: Time, lastActivity: Time, documentId: Option<string>, conversationId: Option<string>)
    | StatusNotFound

  /** close_chat (chatbot_service.py:201-218) as a transition of the map. */
  function CloseStep(m: map<string, Session>, id: string, now: Time): (r: Step<CloseOutcome>)
    ensures r.store == m - {id}
    ensures r.result == Closed <==> id in m && !IsExpired(m[id], now)
  {
    var lookup := GetStep(m, id, now);
    if lookup.result.None? then Step(lookup.store, CloseNotFound)
    else Step(lookup.store - {id}, Closed)
  }

  /** The chatbots whose `delete_document()` close_chat requests, in order: the lookup's
      eviction of an expired session, then the endpoint's own cleanup of a live one. An id
      that is present gets exactly one request, naming its session's chatbot, whether it
      was live or expired; an absent id gets none. */
  function CloseTeardowns(m: map<string, Session>, id: string, now: Time): (r: seq<Bot.Chatbot>)
    ensures |r| == (if id in m then 1 else 0)
    ensures forall k :: 0 <= k < |r| ==> r[k] == m[id].chatbot
  {
    var evicted := EvictedChatbot(m, id, now);
    (if evicted.Some? then [evicted.value] else [])
      + (if GetStep(m, id, now).result.Some? then [m[id].chatbot] else [])
  }

  /** Closing twice: the second close of the same id is not found, whatever the time,
      changes nothing and requests no further delete. */
  lemma CloseTwice(m: map<string, Session>, id: string, now: Time, later: Time)
    ensures CloseStep(CloseStep(m, id, now).store, id, later).result == CloseNotFound
    ensures CloseStep(CloseStep(m, id, now).store, id, later).store == CloseStep(m, id, now).store
    ensures CloseTeardowns(CloseStep(m, id, now).store, id, later) == []
  {
    var once := CloseStep(m, id, now).store;
    assert once - {id} == once;
  }

  /** send_message (chatbot_service.py:170-199). `created` and `reply` are the outcomes of
      the chatbot's backend calls, as in Bot.Chatbot.SendMessage. `teardown` is the
      chatbot whose deletion the lookup requests when it evicts an expired session. Only
      the session's own chatbot can change, and only its conversation id: it gains the
      created conversation when it had none, even if the agent call then fails. */
  method SendMessage(store: SessionStore, sessionId: string, message: string, now: Time,
                     created: Option<string>, reply: Option<string>) returns (r: SendOutcome, teardown: Option<Bot.Chatbot>)
    requires store.Valid()
    modifies store, store.Chatbots()
    ensures store.Valid()
    ensures store.sessions == GetStep(old(store.sessions), sessionId, now).store
    ensures teardown == EvictedChatbot(old(store.sessions), sessionId, now)
    ensures r == SessionNotFound <==> GetStep(old(store.sessions), sessionId, now).result.None?
    ensures r == SessionNotFound ==> forall b :: b in old(store.Chatbots()) ==> unchanged(b)
    ensures r.Answered? ==>
              && sessionId in old(store.sessions)
              && reply == Some(r.response) && r.response != ""
              && old(store.sessions)[sessionId].chatbot.conversationId == Some(r.conversationId)
    ensures GetStep(old(store.sessions), sessionId, now).result.Some? ==>
              var bot := old(store.sessions)[sessionId].chatbot;
              && (r.Answered? <==> bot.hasClient && Truthy(bot.documentId) && Truthy(reply)
                                   && (old(bot.conversationId).Some? || created.Some?))
              && bot.hasClient == old(bot.hasClient) && bot.documentId == old(bot.documentId)
              && bot.conversationId == (if bot.hasClient && Truthy(bot.documentId) && old(bot.conversationId).None?
                                        then created else old(bot.conversationId))
              && forall b :: b in old(store.Chatbots()) && b != bot ==> unchanged(b)
  {
    var session;
    session, teardown := store.GetSession(sessionId, now);
    if session.None? {
      return SessionNotFound, teardown;
    }
    var bot := session.value.chatbot;
    assert bot == old(store.sessions)[sessionId].chatbot;
    assert bot in old(store.Chatbots());
    var response, _ := bot.SendMessage(message, None, None, created, reply);
    if Truthy(response) {
      r := Answered(response.value, bot.conversationId.value);
    } else {
      r := ProcessingFailed;
    }
  }

  /** close_chat (chatbot_service.py:201-218): look the session up (refreshing or
      evicting it), then clean it up. `teardowns` lists the deletions requested. */
  method CloseChat(store: SessionStore, sessionId: string, now: Time) returns (r: CloseOutcome, teardowns: seq<Bot.Chatbot>)
    requires store.Valid()
    modifies store
    ensures store.Valid()
    ensures Step(store.sessions, r) == CloseStep(old(store.sessions), sessionId, now)
    ensures teardowns == CloseTeardowns(old(store.sessions), sessionId, now)
  {
    var session, evicted := store.GetSession(sessionId, now);
    teardowns := if evicted.Some? then [evicted.value] else [];
    if session.None? {
      return CloseNotFound, teardowns;
    }
    var cleaned := store.CleanupSession(sessionId, false);
    teardowns := teardowns + [cleaned.value];
    r := Closed;
  }

  /** get_session_status (chatbot_service.py:220-236). `teardown` is the lookup's eviction request. */
  method SessionStatus(store: SessionStore, sessionId: string, now: Time) returns (r: StatusReport, teardown: Option<Bot.Chatbot>)
    requires store.Valid()
    modifies store
    ensures store.Valid()
    ensures store.sessions == GetStep(old(store.sessions), sessionId, now).store
    ensures teardown == EvictedChatbot(old(store.sessions), sessionId, now)
    ensures r.Active? <==> sessionId in old(store.sessions) && !IsExpired(old(store.sessions)[sessionId], now)
    ensures r.Active? ==>
              var s := old(store.sessions)[sessionId];
              r == Active(s.userId, s.createdAt, now, s.chatbot.documentId, s.chatbot.conversationId)
  {
    var session;
    session, teardown := store.GetSession(sessionId, now);
    if session.None? {
      return StatusNotFound, teardown;
    }
    var s := session.value;
    r := Active(s.userId, s.createdAt, s.lastActivity, s.chatbot.documentId, s.chatbot.conversationId);
  }

  /** health_check (chatbot_service.py:238-245): the number of stored sessions. */
  function HealthCount(store: SessionStore): nat
    reads store
  {
    |store.sessions|
  }

  /** The health count includes expired sessions that no lookup or reaper pass has evicted
      yet: it is the number of live sessions plus the number of expired ones, so it is
      exact only when nothing in the store has expired, as right after a reaper pass. */
  lemma HealthCountIncludesExpired(store: SessionStore, now: Time)
    ensures HealthCount(store) == |Live(store.sessions, now)| + |Expired(store.sessions, now)|
    ensures |Live(store.sessions, now)| <= HealthCount(store)
    ensures HealthCount(store) == |Live(store.sessions, now)| <==> Expired(store.sessions, now) == map[]
  {
    ReapCount(store.sessions, now);
  }

  /** Right after a reaper pass at `now` (the store holds `Live(m, now)` for the map `m`
      it held before), nothing stored is expired and the health count is exactly the
      number of live sessions. */
  lemma HealthCountAfterReap(store: SessionStore, m: map<string, Session>, now: Time)
    requires store.sessions == Live(m, now)
    ensures Expired(store.sessions, now) == map[]
    ensures HealthCount(store) == |Live(store.sessions, now)|
  {
    LiveIsIdempotent(m, now);
    ReapCount(store.sessions, now);
  }
}
