# Warm transfer orchestration: a verified model

This project models the decision logic of a warm-transfer service built on LiveKit: a customer's
call is handed from one support agent (agent A) to another (agent B) after agent B has been
briefed. The code base has four logical pieces, each modelled in its own module:

- `CallRegistry` (registry.dfy) models `aiagent/server.py`. `WarmTransferManager` keeps
  `active_sessions`, a dictionary from room name to a mutable `CallSession` record. Its operations
  initiate a call, connect an agent, start and complete a transfer, append to the conversation
  history and read a record. The manager and the record are classes. Each operation's contract
  gives the whole new registry as an update of the old one, `Sessions() == old(Sessions())[room
  := …]`, so every other record is shown unchanged. The invariant `Valid()` (each record is filed
  under its own room name) is preserved throughout.
- `Escalation` (escalation.dfy) models `aiagent/app.py`. `SessionManager` keeps the customer
  and supervisor status fields, the hold state (a hold handle and two audio switches), agent B's
  room and session, the two event-handler registrations, and a log of the external calls it makes.
  `start_transfer`, `merge_calls`, `set_supervisor_failed`, the two event handlers and
  `start_hold`/`stop_hold` are methods, and each states its success and failure branches. One
  invariant holds throughout: audio is off exactly while the hold music plays, an active customer
  is not on hold, and "summarizing" implies an escalated customer with agent B's room connected.
  `start_transfer`, `merge_calls`, `set_supervisor_failed` and `on_supervisor_room_close` establish
  it. `stop_hold` and the departure handler preserve it. `start_hold` preserves it once the
  customer is no longer active, which is the state at its one call site. The briefing
  transcript of `SupervisorAgent.__init__` is a loop proved against a recursive `Transcript`
  function. The calls each operation makes are pure functions of the outcomes
  (`TransferEffects`, `MergeEffects`), and lemmas about them state what the customer hears and
  when the hold music stops. The two fixed texts agent A delivers, the goodbye and the failure
  instructions, are the values of `Utterance`, and `Words` gives their text.
- `Grants` (grants.dfy) models `aiagent/app/livekit_utils.py`. A token is the record of claims it
  carries (identity, display name, lifetime, room grant), not its signed text. `GenerateToken`
  yields a grant for exactly one (identity, room) pair when a room is given, and a bare join grant
  otherwise.
- `Endpoints` (endpoints.dfy) models `aiagent/app/main.py`. The stateless handlers `/token`,
  `/create_room`, `/warm_transfer` and `/move_supervisor` are functions of the request and of the
  outcomes of the external calls.
- `PyText` (text.dfy) holds the Python formatting the room names and entries depend on: `str()` of
  an integer (with its parse-back round trip), `uuid.hex`, `%H:%M:%S`, `str.join`, `str.strip`
  and `str.upper`. `Outcomes` (outcomes.dfy) holds the shared result types.

Every external call is an input to the model. This covers room creation, participant moves,
token signing, the language model, and session start, close and speech. Each call is either a
`Done` outcome or a `Raised(message)` exception. The clock readings and the UUID are inputs too.

The code has no staged transfer state machine, no cancellation and no "closed" call status. A
call's status is only "active", "transferring" or "completed". The model follows the code:

- `complete_transfer` does not check the prior status.
- A failed briefing-room creation leaves the call "transferring".
- A summariser failure gives a fallback summary in server.py and an HTTP 500 in main.py.
- `merge_calls` never assigns "merged".

Two behaviours of the code follow from these contracts:

- After a successful merge the supervisor status is still "summarizing", so a second
  `merge_calls` is not a no-op. It issues the move again.
- A token for a call with no agent recorded goes to the identity "agent_None".

## Model

| member | source | states |
|---|---|---|
| `CallRegistry.CallSession.constructor` | aiagent/server.py:26-38 | a new record has no agents, empty history and status "active" |
| `CallRegistry.AccessToken` | aiagent/server.py:66-78 | the token authorises exactly the given identity on exactly the given room, with publish and subscribe, display name = identity |
| `CallRegistry.CallRoomNameInjective` | aiagent/server.py:127-131 | two calls share a registry key only if caller id and timestamp both agree |
| `CallRegistry.TransferRoomNameInjective` | aiagent/server.py:152-153 | each (room, timestamp) gets its own briefing room, and a briefing room never coincides with a call room |
| `CallRegistry.GenerateCallSummary` | aiagent/server.py:91-125 | fixed text when the joined history is empty (no entries or one empty entry); the stripped model reply otherwise; the fixed fallback when the model call raises |
| `CallRegistry.ConversationEntry` | aiagent/server.py:183-184 | the entry is "[" + HH:MM:SS + "] ", then the speaker, then ": ", then the message |
| `CallRegistry.ConversationEntryTime` | aiagent/server.py:183-185 | the clock reading can be recovered from an entry's text |
| `CallRegistry.WithAgent` | aiagent/server.py:140-143 | exactly one agent slot receives the new id; the other slot, the room, caller, start, history and status are unchanged |
| `CallRegistry.WithAgentSlot` | aiagent/server.py:140-143 | agent type "A" or "a" fills agent A, every other type fills agent B, and nothing else changes |
| `CallRegistry.WarmTransferManager.constructor` | aiagent/server.py:42-56 | the registry starts empty |
| `CallRegistry.WarmTransferManager.InitiateCall` | aiagent/server.py:127-133 | room-creation failure raises with the registry unchanged; otherwise exactly one new record (status active, no agents, empty history) under "call_{caller}_{ts}", then a caller token for "caller_"+caller on that room, whose signing failure leaves the record in place |
| `CallRegistry.WarmTransferManager.ConnectAgent` | aiagent/server.py:135-144 | unknown room: 404, nothing changes; signing failure: nothing changes; otherwise only that record's agent slot is set and the token is for "agent_"+id on the call's room |
| `CallRegistry.WarmTransferManager.InitiateWarmTransfer` | aiagent/server.py:146-168 | unknown room: 404; status becomes "transferring" before the briefing room is created, so creation or signing failure leaves it so; on success tokens for agent A's recorded identity and agent B on "transfer_{room}_{ts}", the summary of the history, and agent B recorded |
| `CallRegistry.WarmTransferManager.CompleteTransfer` | aiagent/server.py:170-177 | unknown room: 404; whatever the prior status, status "completed", agent A cleared, agent B kept, and agent B's token for the original room |
| `CallRegistry.WarmTransferManager.AddConversationEntry` | aiagent/server.py:179-186 | unknown room: 404; otherwise exactly one stamped entry appended at the end of that call's history, all else unchanged |
| `CallRegistry.WarmTransferManager.GetSessionInfo` | aiagent/server.py:188-192 | the snapshot of the record for the room, or 404 |
| `Grants.Mint` | aiagent/app/livekit_utils.py:33 | signing yields the token for the given claims or raises with the backend's error |
| `Grants.GenerateToken` | aiagent/app/livekit_utils.py:17-33 | always room_join; with a non-empty room, exactly one (identity, room) pair and publish, subscribe and metadata rights; with no or an empty room, no room and none of those flags; identity and lifetime as given; display name only when non-empty |
| `Escalation.BriefingMessages` | aiagent/app.py:228-230 | every copied message is a non-empty, non-instruction message, and every such message of the history is copied |
| `Escalation.BriefingMessagesAppend` | aiagent/app.py:228-230 | the copy keeps history order: copying a concatenation is the concatenation of the copies |
| `Escalation.BriefingMessagesOne` | aiagent/app.py:228-230 | one item is copied, as itself, exactly when it is a kept message, and dropped otherwise |
| `Escalation.TranscriptAppend` | aiagent/app.py:231-235 | the transcript of a concatenated history is the concatenation of the transcripts |
| `Escalation.TranscriptAt` | aiagent/app.py:231-235 | each message contributes its own line right after the lines of the messages before it |
| `Escalation.SupervisorInstructions` | aiagent/app.py:226-238 | the loop builds the supervisor prompt + "\n\n" + one "Customer:"/"Assistant:" line per kept message, in history order |
| `Escalation.SupervisorToken` | aiagent/app.py:83-95 | agent B's token authorises only "agent-b" on only the supervisor room, with publish, subscribe and metadata rights |
| `Escalation.SessionManager.constructor` | aiagent/app.py:44-63 | statuses "active"/"inactive", no hold, audio on, no supervisor room or session |
| `Escalation.SessionManager.StartHold` | aiagent/app.py:197-203 | both audio directions off, hold music started and its handle set |
| `Escalation.SessionManager.StopHold` | aiagent/app.py:189-195 | whatever the prior state: no handle and both audio directions on; music stopped only if it played, so a repeat does nothing new |
| `Escalation.SessionManager.SetSupervisorFailed` | aiagent/app.py:139-150 | status "failed", hold ended, customer notified, supervisor session closed if any and cleared |
| `Escalation.SessionManager.OnSupervisorRoomClose` | aiagent/app.py:126-127 | runs the failure path |
| `Escalation.SessionManager.OnCustomerParticipantDisconnected` | aiagent/app.py:129-137 | an agent leaving is ignored; any other participant leaving unregisters the handler and deletes the customer room |
| `Escalation.SessionManager.StartTransfer` | aiagent/app.py:70-124 | no-op unless the customer is active; on success escalated, on hold, "agent-b" connected to room+"-supervisor" with its token, session running the briefing instructions, status "summarizing"; any failure: customer active again, status "failed", hold ended, no session; the calls made are `TransferEffects` of the outcomes |
| `Escalation.TransferEffectsCases` | aiagent/app.py:70-124 | the calls of an escalation, in order, for success, a signing failure, a failed connect or session creation, and a failed session start |
| `Escalation.TransferFailureIsAnnounced` | aiagent/app.py:77-124 | the hold music starts first; it is stopped and the customer told of the failure exactly when some step raised |
| `Escalation.SessionManager.BriefSupervisor` | aiagent/app.py:80-119 | which of the steps (fresh room, token, connect, session, start) ran before the first one that raised |
| `Escalation.SessionManager.MergeCalls` | aiagent/app.py:152-187 | no-op unless "summarizing"; afterwards hold ended, supervisor handler off, supervisor session cleared, departure handler on unless the move raised; status left "summarizing" on success and "failed" otherwise; the calls made are `MergeEffects` of the outcome |
| `Escalation.SessionManager.HandOver` | aiagent/app.py:156-184 | which steps (handler off, move, hold end, departure handler, goodbye, agent A's close, supervisor close) ran before the first one that raised, and whether all returned |
| `Escalation.MergeStopsHoldOnce` | aiagent/app.py:152-195 | the move comes first; the hold music is stopped right after it if it played and nowhere else, even when the failure path runs |
| `Escalation.MergeSaysGoodbye` | aiagent/app.py:174-178 | the goodbye is said unless the move raised, and agent A's session is closed unless the move or the goodbye raised |
| `Escalation.MergeAnnouncesFailure` | aiagent/app.py:185-187 | the customer is told of a failure exactly when some step of the merge raised |
| `Endpoints.IssueToken` | aiagent/app/main.py:35-41 | the generated token with the default lifetime, which is `DEFAULT_TTL_SECONDS` if set and 3600 otherwise, or 500 with the signing error |
| `Endpoints.CreateRoom` | aiagent/app/main.py:43-52 | a creation failure is reported as ok=False with its text, never raised |
| `PyText.HexDigitsRoundTrip` | aiagent/app/main.py:65 | reading back the zero-padded hex digits gives the number modulo 16^width |
| `PyText.UuidHexRoundTrip` | aiagent/app/main.py:65 | `uuid.hex` denotes the UUID: its 32 digits read back give the UUID's value |
| `Endpoints.ConsultRoom` | aiagent/app/main.py:65 | the requested consult room if non-empty, else "consult-" followed by 8 lower-case hex digits of the UUID |
| `Endpoints.Summary` | aiagent/app/main.py:77-79 | none without a non-empty transcript, else the summariser's result on it |
| `Endpoints.WarmTransfer` | aiagent/app/main.py:54-97 | success exactly when client, summariser (if called) and signing succeed; every failure a 500; an API-client failure is answered before anything else |
| `Endpoints.WarmTransferSuccess` | aiagent/app/main.py:82-95 | ok answer carries the consult room, the summary and a token for only the supervisor on only the consult room |
| `Endpoints.WarmTransferIgnoresRoomCreation` | aiagent/app/main.py:68-74 | the answer does not depend on whether the consult room could be created |
| `Endpoints.MoveSupervisor` | aiagent/app/main.py:105-121 | the move request is built from the request; success answers the moved identity and destination; a failed move is a 500 |
| `PyText.IntDecimalRoundTrip` | aiagent/server.py:128 | reading back `str(ts)` gives `ts` |
| `PyText.JoinEmpty` | aiagent/server.py:93-95 | "\n".join of a history is empty exactly for no entries or a single empty one |
| `PyText.StripIsTrimmedSlice` | aiagent/server.py:110 | `strip()` keeps a slice `s[i..j]` with only whitespace outside it and no whitespace at either end |
| `PyText.StripIdempotent` | aiagent/server.py:110 | stripping twice equals stripping once |
| `PyText.UpperIsA` | aiagent/server.py:140 | only "A" and "a" upper-case to "A" |
| `PyText.ClockStampInjective` | aiagent/server.py:183 | different times of day give different HH:MM:SS stamps |

## Left out

- Network, media and process plumbing are not modelled: FastAPI routing, pydantic, CORS, uvicorn, dotenv and the worker launcher in aiagent/agents/agent-worker.py. The room-metadata endpoint in aiagent/fastapi_backend.py and the OpenAI call in aiagent/app/llm.py are outside the model too; the latter is an opaque summariser that may raise.
- The internals of the LiveKit and OpenAI calls are abstract outcomes. Which exceptions they raise, and when, is an input.
- Signed JWT text is not modelled, only the claims record. Library defaults for grant flags and lifetimes are shown as "not set" (`None`), not as values.
- Hold-music playback and `BackgroundAudioPlayer` are reduced to the hold-handle flag, the two audio switches and logged start/stop calls.
- `on_supervisor_room_close` spawns an asyncio task; the model runs the failure path directly. No interleaving of concurrent handlers is modelled.
- Escalation.SessionManager.BriefSupervisor: the "disconnected" handler flag tracks the current supervisor room only. A handler left on a room abandoned by an earlier failed attempt is not modelled.
- Escalation.SessionManager.SetSupervisorFailed: closing the supervisor session is assumed to succeed here, because it runs outside any `try`. If it raised, the exception would propagate and the session reference would stay set. `generate_reply` only schedules a reply and is assumed not to raise.
- Escalation.BriefingMessages: the copy of the chat context is modelled as dropping function-call items, system and developer messages, and messages with no content. Other item kinds of the LiveKit chat context are not modelled. A message's text is its text parts joined by newlines; non-text content is not modelled.
- PyText.IsSpace: `str.strip` is modelled for ASCII whitespace only. Unicode whitespace beyond ASCII is not stripped.
- PyText.Upper: `str.upper` is modelled for ASCII letters. No other character upper-cases to "A", so the agent-type test is exact.
- Timestamps are inputs. The integer seconds in room names are the already-truncated clock reading. `call_start` is a separate clock reading, as in the code, which reads the clock twice.
- The prompt texts of aiagent/app.py:312-355 are opaque; the supervisor prompt is a constructor argument.
- `DEFAULT_TTL_SECONDS` is modelled as already parsed. A value `int()` cannot parse would fail at import; that case is not modelled.
- Token signing has one outcome per manager, fixed by the credentials read at start-up. Room creation, the summariser and the other calls are per-call inputs.
- The "status" strings and the "note" of the JSON answers are constants. Of them only the transfer note is kept.
