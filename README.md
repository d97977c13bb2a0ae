# R2R chatbot microservice: session store and chatbot bookkeeping in Dafny

This project models the sequential core of a chat microservice. The service answers
questions about a user's job-application portfolio through an R2R retrieval backend.
Two parts are modelled:

- **The session store** (`chatbot_service.py`). This is a map from session id to
  `ChatSession`. A session expires strictly more than 30 minutes after its last activity.
  A lookup either refreshes a live session or evicts an expired one. Cleanup removes an
  entry and asks for the backend document to be deleted. One pass of the background
  reaper removes every expired entry. The endpoints `send-message`, `close-chat`,
  `session-status` and `health` make their decisions from the store. The health count
  is the size of the map, so it includes expired sessions that nobody has evicted yet.
- **The `R2RChatbot` bookkeeping** (`main.py`). This covers the portfolio document
  rendered from the applications and questions pages, grouped by `applicationId`.
  It also covers how `document_id` and `conversation_id` change on upload, delete and
  send. On upload, a "Document <id> already exists" error is recovered as success.
  Messages use the stored document and conversation as fallbacks. A conversation is
  created lazily on first use. Each R2R client call is replaced by its outcome, which
  the model takes as a parameter.

Files:

- `wrappers.dfy`: Option and Result, and Python truthiness and `or` on optional strings.
- `text.dfy`: decimal rendering of numbers, Python's `s[:k]`, and the substring test.
- `duplicate_id.dfy`: the regular expression `Document ([a-f0-9-]+) already exists`.
- `portfolio.dfy`: the document builder.
- `chatbot.dfy`: the `Chatbot` class.
- `sessions.dfy`: sessions, the `SessionStore` class and the reaper.
- `service.dfy`: the endpoints.

Clock readings are parameters. Times are integers counting microseconds, the
resolution of Python's `datetime`.

Points where the code's behaviour is easy to misread, and which the model follows exactly:

- **Expiry at exactly 30 minutes.** A session is still live when exactly 30 minutes
  have passed since its last activity: the comparison at chatbot_service.py:48 is a
  strict `>`. `Sessions.ExpiryIsStrict` pins this down.
- **Recovering a duplicate id.** The character class `[a-f0-9-]` admits only lower-case
  hexadecimal digits and dashes. For the error text "Document doc-123 already exists"
  the group stops at the `o`, so the pattern does not match and nothing is recovered.
  `DuplicateId.NonHexIdNotRecovered` proves this.
- **No streaming and no locking.** `send_message` waits for the whole reply and returns
  it in one response. No request takes a lock on the session map.
- **What cleanup returns.** `cleanup_session` returns nothing. Its effect besides removing
  the entry is to request `delete_document()` on the session's chatbot. The model makes
  that request visible as a `teardown` output on every path that reaches it: the lookup,
  `close-chat` and the reaper.

## Model

| member | source | states |
|---|---|---|
| `Sessions.ExpiryIsStrict` | chatbot_service.py:47-48 | About `IsExpired` (`is_expired`): at exactly 30 minutes after the last activity a session is live; one microsecond later it is expired. |
| `Sessions.ExpiryIsPermanent` | chatbot_service.py:47-48 | An expired session stays expired as time advances. |
| `Sessions.NewSession` | chatbot_service.py:36-42 | A new session has the given id, user and chatbot, `created_at == last_activity == now`, `is_active` true, and is not expired. |
| `Sessions.UpdateActivity` | chatbot_service.py:44-45 | Only `last_activity` changes; it becomes `now`, so the session is live at `now`. |
| `Sessions.GetStep` | chatbot_service.py:82-91 | A present, live id returns the refreshed session and stores it. A present but expired id is removed and gives None. An absent id gives None and leaves the map unchanged. No other key or entry changes. |
| `Sessions.Live` | chatbot_service.py:110-116 | The entries left after a reaper pass are exactly the unexpired ones, unchanged. |
| `Sessions.LiveIsIdempotent` | chatbot_service.py:110-116 | After a pass no entry is expired, and a second pass at the same instant changes nothing. |
| `Sessions.ReapCommutesWithGet` | chatbot_service.py:82-116 | A lookup returns the same result with or without a reaper pass at the same instant before it. Both orders leave the same map. |
| `Sessions.RefreshedSessionSurvives` | chatbot_service.py:84-87 | A session found by a lookup survives any reaper pass within the next 30 minutes. |
| `Sessions.EvictedStaysGone` | chatbot_service.py:110-116 | After the reaper evicts an id, the next lookup of that id finds nothing, at any later time. |
| `Sessions.SessionStore.constructor` | chatbot_service.py:29 | The store starts empty. |
| `Sessions.SessionStore.CreateSession` | chatbot_service.py:74-80 | A fresh id grows the map by exactly that key, holding the new session; the count grows by one. |
| `Sessions.SessionStore.CleanupSession` | chatbot_service.py:93-105 | Removes exactly the given key, even when scheduling the delete fails. An absent id is a no-op with no teardown, so a second call changes nothing. A teardown is requested iff the id was present and scheduling succeeded, and it names that session's chatbot. |
| `Sessions.EvictedChatbot` | chatbot_service.py:82-91 | A lookup requests a deletion exactly when it finds the session expired. The request names that session's chatbot, and the lookup then returns None and drops the id. |
| `Sessions.SessionStore.GetSession` | chatbot_service.py:82-99 | The new map and the result are those of `GetStep`. A found session carries the id it was looked up by. The deletion requested is exactly `EvictedChatbot`'s. |
| `Sessions.ReapCount` | chatbot_service.py:110-116 | About `Expired` (the snapshot of expired ids, lines 110-113, with each one's chatbot) and `Live` (what the pass leaves). A pass splits the store: each id is either live or expired, never both. The store's size is the live count plus the expired count, and equals the live count iff nothing has expired. |
| `Sessions.SessionStore.CleanupExpiredSessions` | chatbot_service.py:107-116 | One pass leaves exactly `Live(old map, now)`. It requests one deletion per expired id, naming that session's chatbot (`Expired(old map, now)`). The ids with a deletion are exactly the ids removed. |
| `Service.CloseStep` | chatbot_service.py:201-214 | Closing always leaves the id out of the map. It succeeds iff the id was present and live. An expired id is evicted and gives not-found. |
| `Service.CloseTeardowns` | chatbot_service.py:201-214 | Closing a present id requests exactly one deletion, of its session's chatbot, whether the session was live (the endpoint's cleanup) or expired (the lookup's eviction). An absent id gets none. |
| `Service.CloseTwice` | chatbot_service.py:206-214 | A second close of the same id gives not-found, at any later time, changes nothing and requests no deletion. |
| `Service.SendMessage` | chatbot_service.py:170-199 | A missing or expired session gives 404, and only the lookup's change to the map happens. For a live session, the answer is returned iff the chatbot has a client and a document, the reply is non-empty, and a conversation exists or could be created. An answer carries the reply and the chatbot's stored conversation id. Only the session's own chatbot can change, and only its conversation id. That id becomes the created conversation when there was none, even if the agent call then fails (main.py:351-356). On 404 no chatbot changes. An expired session's eviction requests its chatbot's deletion. |
| `Service.CloseChat` | chatbot_service.py:201-218 | The new map and the outcome are those of `CloseStep`. The deletions requested are exactly `CloseTeardowns`. |
| `Service.SessionStatus` | chatbot_service.py:220-236 | Reports active iff the session is present and live. The report holds the owner, the creation time, `now` as the refreshed activity time, and the chatbot's document and conversation ids. An expired session's eviction requests its chatbot's deletion. |
| `Service.HealthCountIncludesExpired` | chatbot_service.py:238-245 | About `HealthCount` (`len(active_sessions)`, line 243). The health count is the number of live sessions plus the expired ones not yet evicted. It bounds the live count from above, and equals it iff nothing stored has expired. |
| `Service.HealthCountAfterReap` | chatbot_service.py:110-116 | Right after a reaper pass nothing stored is expired, and the health count is exactly the live count. |
| `Bot.Chatbot.constructor` | main.py:17-28 | A new chatbot has no document id and no conversation id. |
| `Bot.Chatbot.UploadDocument` | main.py:194-251 | Without a client or a file, returns None and changes nothing. On success, returns and stores the new id. On an error, returns the id recovered from the message, stored when present. Otherwise the stored id is unchanged. |
| `Bot.Chatbot.CheckDocumentStatus` | main.py:253-288 | Without a client, a document id (the argument, else the stored one) or a listing, returns None. Otherwise returns the first listed document with that id, or None. |
| `Bot.FindDocument` | main.py:274-285 | Returns None iff no listed document has the id. Otherwise returns the first document, in list order, whose id equals the target. |
| `Bot.Chatbot.DeleteDocument` | main.py:290-326 | Succeeds iff there is a client, a truthy target id and a successful delete. The stored id is cleared only when the deleted id is the stored one, and is unchanged otherwise. |
| `Bot.Chatbot.SendMessage` | main.py:328-381 | Without a client or a document, nothing is sent and nothing changes. An existing conversation id is reused and never replaced. With neither an argument nor a stored id, a conversation is created and stored before the agent call. The agent call is filtered to the resolved document. |
| `DuplicateId.IdRun` | main.py:239 | The greedy group `[a-f0-9-]+` takes the longest run of class characters. |
| `DuplicateId.SearchFrom` | main.py:239-240 | A match is a non-empty id of class characters, and `Document <id> already exists` occurs in the text. |
| `DuplicateId.SearchFromLeftmost` | main.py:239-240 | As with `re.search`, a result is the group at the first position where the pattern matches. No result means it matches nowhere. |
| `DuplicateId.RecoverDocumentId` | main.py:234-251 | Nothing is recovered unless the error mentions "already exists". A recovered id is well formed and occurs in the pattern within the error text. |
| `DuplicateId.RecoverFirstOccurrence` | main.py:239-242 | The recovered id is the first capture. Its occurrence starts no later than any other well-formed occurrence, and an occurrence at the same position has the same id. |
| `DuplicateId.RecoverFromDuplicateMessage` | main.py:239-242 | Round trip: the duplicate message for a well-formed id, followed by any text, recovers exactly that id. |
| `DuplicateId.RecoverWhenPatternOccurs` | main.py:239-242 | Whenever a well-formed occurrence of the pattern is in the error text, an id is recovered. |
| `DuplicateId.NonHexIdNotRecovered` | main.py:239-245 | "Document doc-123 already exists" recovers nothing. |
| `Text.NatToString` | main.py:86-90 | Numbers render as a non-empty string of decimal digits with no leading zero. |
| `Text.ParseNatToString` | main.py:86-90 | Reading the rendered digits back gives the number. |
| `Text.NatToStringInjective` | main.py:159-160 | Distinct numbers render differently, so question and application numbers are unambiguous. |
| `Text.Prefix` | main.py:171-172 | `s[:10]` keeps the first 10 characters (all of a shorter string) and is a prefix of `s`. |
| `Portfolio.QuestionsFor` | main.py:61-67 | A question is in an application's group iff it is in the input and has that id. |
| `Portfolio.QuestionsForSingle` | main.py:63-67 | A single question forms its own id's group and no other. |
| `Portfolio.QuestionsForAppend` | main.py:62-67 | Selecting an id's questions commutes with concatenation, so each group keeps the input's relative order. |
| `Portfolio.QuestionsForCounts` | main.py:62-67 | Each question of the id occurs in its group exactly as often as in the input; other ids' questions do not occur. |
| `Portfolio.GroupedIsSound` | main.py:61-67 | Every question is in the group keyed by its own `applicationId`, and every key has a non-empty group. |
| `Portfolio.AddToGroup` | main.py:64-67 | The question joins the end of its id's group, which is created empty for a new id. The key set gains only that id, and every other group is unchanged. |
| `Portfolio.AddQuestion` | main.py:64-67 | The loop body (create the list when the id is new, then append) performs exactly one `AddToGroup` step. |
| `Portfolio.GroupedSnoc` | main.py:62-67 | Appending a question to the input changes the reference grouping by exactly one `AddToGroup` step, so the loop's invariant is kept. |
| `Portfolio.GroupQuestions` | main.py:61-67 | The loop builds exactly the reference grouping; a missing `items` key gives the empty map. |
| `Portfolio.ReferralLines` | main.py:142-149 | Seven lines per contacted employee. |
| `Portfolio.ReferralLinesAt` | main.py:142-149 | Employee `k`'s block starts with their name and shows the first 10 characters of the contact date. |
| `Portfolio.QuestionLines` | main.py:159-163 | Four lines per question. |
| `Portfolio.QuestionLinesAt` | main.py:159-163 | Question `j` of a group is printed as `**Question j+1:**` with its text, its answer, and the first 10 characters of its date. |
| `Portfolio.QuestionSectionShape` | main.py:156-167 | With grouped questions, all are listed, numbered from 1 in group order. Without, there is the single fallback line. |
| `Portfolio.ApplicationBlockLayout` | main.py:90-131 | Each block opens with `## APPLICATION n:`. The ATS line reads `<score>/100` or `Not available`. A description longer than 100 characters is fenced between two ```` ``` ```` lines; otherwise it is one bullet, defaulting to "No description available". |
| `Portfolio.BlockHeaderAt` | main.py:86-90 | Application `i` starts right after the blocks before it, with its header numbered `i + 1`. |
| `Portfolio.DocumentTotals` | main.py:77-79 | The summary total and the footer total both equal the number of application items. |
| `Portfolio.DocumentHeaderAt` | main.py:86-90 | After the 10 preamble lines come one block per application in input order, each opening with its header numbered from 1. |
| `Portfolio.RenderReferrals` | main.py:139-153 | The referrals loop produces exactly the referrals section. |
| `Portfolio.RenderQuestions` | main.py:155-167 | The questions loop produces exactly the questions section. |
| `Portfolio.RenderApplication` | main.py:86-178 | One loop iteration produces exactly the application's block. |
| `Portfolio.RenderApplications` | main.py:86-178 | The loop over applications produces the blocks in input order, numbered from 1. |
| `Portfolio.GenerateApplicationDocument` | main.py:50-189 | The method produces exactly the reference document: preamble, application blocks, then footer. |

## Left out

- R2R client calls (`documents.create`, `documents.list`, `documents.delete`, `conversations.create`, `retrieval.agent`) are foreign code. Their outcomes are parameters.
- The generation settings passed to the agent (model, temperature, token cap, `stream`, the search limit of 25) are constants forwarded to the backend. They are not modelled. `Bot.AgentCall` records only the prompt, the document filter and the conversation.
- `send_query_to_r2r` (main.py:383-425) only wraps a backend call and changes no state, so it is not modelled.
- `_initialize_client` (main.py:30-48) and the `initialize-chat` endpoint (chatbot_service.py:126-168) are environment and client setup. Whether a client exists is the constructor's parameter.
- File I/O is not modelled: the file write in `generate_application_document`, the existence check in `upload_document_to_r2r` (a parameter), the local file removal in `delete_document`, and `document_path`. The `main()` demo is not modelled either.
- Python's `'\n'.join` of the lines is not modelled; the document is its list of lines.
- Wall-clock reads are parameters, and each operation takes a single reading `now`. The source calls `datetime.now()` afresh each time it needs the time. It uses naive local time, which can step backwards, for example when daylight saving time ends. The lines below name each place where this matters.
- Sessions.NewSession: `__init__` reads the clock twice (chatbot_service.py:40-41), so in the source `created_at` and `last_activity` can differ by microseconds. The model's `created_at == last_activity` holds only for a single reading.
- Sessions.GetStep: `get_session` reads the clock up to three times: `is_expired` at chatbot_service.py:85, again at :88, and `update_activity` at :45. The model uses one `now` for all three. If the clock steps backwards between :85 and :88, the source neither refreshes nor evicts an expired session and returns None, whereas the model always evicts it. The same holds for `Sessions.SessionStore.GetSession` and for every endpoint that looks a session up.
- Sessions.SessionStore.CleanupExpiredSessions: the reaper reads the clock once per session (chatbot_service.py:112). The model judges the whole snapshot at one `now`.
- Service.SessionStatus: the reported `last_activity` is `now`. In the source it is the reading taken by `update_activity`, a later one than the expiry test's.
- Sessions.EvictedStaysGone: the lemma covers the next lookup on the store the pass left. `CreateSession` only requires an id absent from the store, so it could store an evicted id again; the source draws fresh ids from `uuid4`, which the model does not track.
- The document's two timestamps are opaque strings. `isoformat` rendering in the status response is not modelled; times are reported as numbers.
- `asyncio` is not modelled. `CleanupSession` reports the chatbot whose `delete_document()` task is requested but does not run it; that deletion's effect is `Bot.Chatbot.DeleteDocument`. The endpoints and the reaper always run on the event loop, so there `create_task` is modelled as succeeding. The infinite loop with its five-minute sleep and the startup hook are not modelled; one reaper pass is.
- Concurrent requests and interleavings with the reaper are not modelled. Every operation is one atomic step.
- FastAPI routing, CORS, pydantic models, HTTP status plumbing, logging and printing are not modelled. Outcomes are datatypes.
- uuid generation is not modelled. Freshness is a precondition of `CreateSession`.
- Sessions.SessionStore.GetSession: `update_activity` overwrites a field of the `ChatSession` object in place. In the model a session is a value, and the refreshed value is stored back under its key. Aliasing of session objects outside the store is not captured; nothing in the service keeps such a reference across requests.
- Sessions.SessionStore.CleanupExpiredSessions: the source deletes the snapshot ids in dictionary order; the model deletes them in an arbitrary order. The final map is the same.
- Portfolio.GenerateApplicationDocument: JSON values are taken as their rendered text. A description, `items` list or date that is present but JSON `null` makes the source raise `TypeError`. The model's records cannot hold such values, and a missing required key (a `KeyError` in the source) cannot be expressed either.
- Bot.Chatbot.SendMessage: an agent response with an empty message list raises `IndexError`, which the source turns into None. The model folds this into the `reply == None` outcome.
- Portfolio.DocumentHeaderAt: the guarantee of one header per application is about the document's structure: block `i` starts at a computed line. Free text copied from the records (a long description, a question) may itself contain a line that looks like a header. The model does not rule this out.
