/** The call-session registry of the warm-transfer API (aiagent/server.py): a dictionary from
    room name to a mutable call record, and the operations that create and update records. */
module CallRegistry {
  import opened Outcomes
  import opened PyText
  import opened Grants

  /** `CallSession.status`: "active", "transferring" or "completed". */
  datatype Status = Active | Transferring | Completed

  /** `asdict(session)`: a snapshot of one call record. `callStart` is the clock reading
      taken when the record was made. */
  datatype SessionInfo = SessionInfo(
    roomId: string,
    callerId: string,
    agentA: Option<string>,
    agentB: Option<string>,
    callStart: Option<int>,
    history: seq<string>,
    status: Status)

  /** A call record; the registry assigns its fields in place. */
  class CallSession {
    var roomId: string
    var callerId: string
    var agentA: Option<string>
    var agentB: Option<string>
    var callStart: Option<int>
    var history: seq<string>
    var status: Status

    /** A new record: no agents yet, empty history, status "active". */
    constructor (roomId: string, callerId: string, callStart: int)
      ensures Info() == SessionInfo(roomId, callerId, None, None, Some(callStart), [], Active)
    {
      this.roomId := roomId;
      this.callerId := callerId;
      this.agentA := None;
      this.agentB := None;
      this.callStart := Some(callStart);
      this.history := [];
      this.status := Active;
    }

    function Info(): SessionInfo
      reads this
    {
      SessionInfo(roomId, callerId, agentA, agentB, callStart, history, status)
    }
  }

  /** `generate_access_token`: identity and display name are both `identity`; join, publish and
      subscribe on `roomName` (the name is used as given, even when empty); SDK default lifetime. */
  function AccessToken(roomName: string, identity: string): (c: Claims)
    ensures forall who, where :: MayJoin(c, who, where) <==> who == identity && where == roomName
    ensures c.name == Some(identity) && c.ttlSeconds.None?
    ensures c.grant.canPublish == Some(true) && c.grant.canSubscribe == Some(true)
    ensures c.grant.canUpdateOwnMetadata.None?
  {
    Claims(identity, Some(identity), None, VideoGrant(true, Some(roomName), Some(true), Some(true), None))
  }

  /** The room (and registry key) of a call: `f"call_{caller_id}_{ts}"`. */
  function CallRoomName(callerId: string, ts: int): string {
    "call_" + callerId + "_" + IntToDecimal(ts)
  }

  /** The briefing room of a transfer: `f"transfer_{room_id}_{ts}"`. */
  function TransferRoomName(roomId: string, ts: int): string {
    "transfer_" + roomId + "_" + IntToDecimal(ts)
  }

  /** The position of the last `_` in `s`, if any. */
  function LastUnderscore(s: string): Option<nat>
  {
    if |s| == 0 then None
    else if s[|s| - 1] == '_' then Some(|s| - 1)
    else LastUnderscore(s[..|s| - 1])
  }

  lemma {:induction false} LastUnderscoreBeforeSuffix(q: string, d: string)
    requires '_' !in d
    ensures LastUnderscore(q + "_" + d) == Some(|q|)
    decreases |d|
  {
    if |d| > 0 {
      assert (q + "_" + d)[..|q + "_" + d| - 1] == q + "_" + d[..|d| - 1];
      LastUnderscoreBeforeSuffix(q, d[..|d| - 1]);
    } else {
      assert q + "_" + d == q + "_";
    }
  }

  /** A prefix, a free-form middle and a suffix free of `_`: the middle and suffix can be read back. */
  lemma {:induction false} SplitAtLastUnderscore(p: string, a: string, da: string, b: string, db: string)
    requires '_' !in da && '_' !in db
    requires p + a + "_" + da == p + b + "_" + db
    ensures a == b && da == db
  {
    var x, y := p + a + "_" + da, p + b + "_" + db;
    LastUnderscoreBeforeSuffix(p + a, da);
    LastUnderscoreBeforeSuffix(p + b, db);
    assert |p + a| == |p + b|;
    assert da == x[|x| - |da|..] == y[|y| - |db|..] == db;
    assert p + a == x[..|x| - |da| - 1] && p + b == y[..|y| - |db| - 1];
    assert a == (p + a)[|p|..] && b == (p + b)[|p|..];
  }

  /** Two calls get the same room, and so the same registry key, only when caller and clock agree. */
  lemma {:induction false} CallRoomNameInjective(c1: string, t1: int, c2: string, t2: int)
    ensures CallRoomName(c1, t1) == CallRoomName(c2, t2) <==> c1 == c2 && t1 == t2
  {
    if CallRoomName(c1, t1) == CallRoomName(c2, t2) {
      SplitAtLastUnderscore("call_", c1, IntToDecimal(t1), c2, IntToDecimal(t2));
      IntToDecimalInjective(t1, t2);
    }
  }

  /** Likewise each (room, clock) pair has its own briefing room, and a briefing room is never a call room. */
  lemma {:induction false} TransferRoomNameInjective(r1: string, t1: int, r2: string, t2: int, c: string, t: int)
    ensures TransferRoomName(r1, t1) == TransferRoomName(r2, t2) <==> r1 == r2 && t1 == t2
    ensures TransferRoomName(r1, t1) != CallRoomName(c, t)
  {
    if TransferRoomName(r1, t1) == TransferRoomName(r2, t2) {
      SplitAtLastUnderscore("transfer_", r1, IntToDecimal(t1), r2, IntToDecimal(t2));
      IntToDecimalInjective(t1, t2);
    }
    assert TransferRoomName(r1, t1)[0] == 't' && CallRoomName(c, t)[0] == 'c';
  }

  /** The caller's identity: `f"caller_{caller_id}"`. */
  function CallerIdentity(callerId: string): string {
    "caller_" + callerId
  }

  /** An agent's identity: `f"agent_{agent_id}"`, which reads "agent_None" when no agent is recorded. */
  function AgentIdentity(agentId: Option<string>): string {
    "agent_" + match agentId { case Some(id) => id case None => "None" }
  }

  /** `add_conversation_entry`'s line: `f"[{HH:MM:SS}] {speaker}: {message}"`. */
  function ConversationEntry(now: TimeOfDay, speaker: string, message: string): (e: string)
    requires now.Valid()
    ensures |e| == 13 + |speaker| + |message|
    ensures e[0] == '[' && e[1..9] == ClockStamp(now) && e[9..11] == "] "
    ensures e[11..11 + |speaker|] == speaker && e[11 + |speaker|..13 + |speaker|] == ": "
    ensures e[|e| - |message|..] == message
  {
    "[" + ClockStamp(now) + "] " + speaker + ": " + message
  }

  /** The clock reading of an entry can be read back from its text. */
  lemma {:induction false} ConversationEntryTime(t1: TimeOfDay, s1: string, m1: string, t2: TimeOfDay, s2: string, m2: string)
    requires t1.Valid() && t2.Valid()
    requires ConversationEntry(t1, s1, m1) == ConversationEntry(t2, s2, m2)
    ensures t1 == t2
  {
    ClockStampInjective(t1, t2);
  }

  const NoContextSummary: string := "No prior conversation context available."
  const FallbackSummary: string := "Unable to generate call summary. Please recap the concern briefly."

  /** The user message `generate_call_summary` sends to the language model. */
  function SummaryRequest(context: string): string {
    "Summarize this call context for warm transfer:\n\n" + context
  }

  /** `generate_call_summary`: a fixed text when the joined history is empty (no entries, or a
      single empty one), the model's stripped reply otherwise, and a fixed fallback when the
      model call raises. `llm` is the chat-completion call on that request. */
  function GenerateCallSummary(history: seq<string>, llm: string -> Outcome<string>): (r: string)
    ensures history == [] || history == [""] ==> r == NoContextSummary
    ensures history != [] && history != [""] && llm(SummaryRequest(Join(history, "\n"))).Raised?
            ==> r == FallbackSummary
    ensures history != [] && history != [""] && llm(SummaryRequest(Join(history, "\n"))).Done?
            ==> r == Strip(llm(SummaryRequest(Join(history, "\n"))).value)
  {
    var context := Join(history, "\n");
    JoinEmpty(history, "\n");
    if context == "" then NoContextSummary
    else match llm(SummaryRequest(context))
      case Done(reply) => Strip(reply)
      case Raised(_) => FallbackSummary
  }

  /** `HTTPException(status_code=404, detail="Call session not found")`. */
  const NotFound: ApiError := HttpError(404, "Call session not found")

  datatype CallInitiated = CallInitiated(roomId: string, callerToken: Claims)
  datatype AgentConnected = AgentConnected(roomId: string, agentToken: Claims, agentType: string)
  datatype TransferInitiated = TransferInitiated(
    originalRoomId: string, transferRoomId: string, agentAToken: Claims, agentBToken: Claims, callSummary: string)
  datatype TransferCompleted = TransferCompleted(roomId: string, agentBToken: Claims)

  /** The record after `connect_agent`: agent A when the type upper-cases to "A", agent B otherwise. */
  function WithAgent(s: SessionInfo, agentId: string, agentType: string): (t: SessionInfo)
    ensures t.roomId == s.roomId && t.callerId == s.callerId && t.callStart == s.callStart
    ensures t.history == s.history && t.status == s.status
    ensures (t.agentA == Some(agentId) && t.agentB == s.agentB) || (t.agentB == Some(agentId) && t.agentA == s.agentA)
  {
    if Upper(agentType) == "A" then s.(agentA := Some(agentId)) else s.(agentB := Some(agentId))
  }

  /** `connect_agent` fills exactly one agent slot, chosen by the type ("A" or "a" for agent A). */
  lemma {:induction false} WithAgentSlot(s: SessionInfo, agentId: string, agentType: string)
    ensures var t := WithAgent(s, agentId, agentType);
      if agentType == "A" || agentType == "a"
      then t == s.(agentA := Some(agentId))
      else t == s.(agentB := Some(agentId))
  {
    UpperIsA(agentType);
  }

  class WarmTransferManager {
    /** The signing backend's outcome under the credentials read at start-up. */
    const signing: Outcome<()>
    /** `active_sessions`. */
    var activeSessions: map<string, CallSession>

    /** Every record is filed under its own room name (so no record is filed twice). */
    ghost predicate Valid()
      reads this, activeSessions.Values
    {
      forall k | k in activeSessions :: activeSessions[k].roomId == k
    }

    /** The registry as a map of snapshots. */
    ghost function Sessions(): map<string, SessionInfo>
      reads this, activeSessions.Values
    {
      map k | k in activeSessions :: activeSessions[k].Info()
    }

    constructor (signing: Outcome<()>)
      ensures Valid() && Sessions() == map[] && this.signing == signing
    {
      this.signing := signing;
      activeSessions := map[];
    }

    /** `initiate_call`: the room is created first, so a failure leaves the registry as it was;
        then one record is filed under the new room name (replacing any record of the same
        name); then the caller's token is minted, whose failure leaves the record in place. */
    method InitiateCall(callerId: string, ts: int, start: int, createRoom: Outcome<()>)
      returns (r: Response<CallInitiated>)
      requires Valid()
      modifies this
      ensures Valid()
      ensures createRoom.Raised? ==> Sessions() == old(Sessions()) && r == Err(Unhandled(createRoom.message))
      ensures createRoom.Done? ==>
        var name := CallRoomName(callerId, ts);
        && Sessions() == old(Sessions())[name := SessionInfo(name, callerId, None, None, Some(start), [], Active)]
        && name in activeSessions && fresh(activeSessions[name])
        && r == if signing.Done? then Ok(CallInitiated(name, AccessToken(name, CallerIdentity(callerId))))
                else Err(Unhandled(signing.message))
    {
      var name := CallRoomName(callerId, ts);
      if createRoom.Raised? {
        return Err(Unhandled(createRoom.message));
      }
      var session := new CallSession(name, callerId, start);
      activeSessions := activeSessions[name := session];
      var token := Mint(AccessToken(name, CallerIdentity(callerId)), signing);
      if token.Raised? {
        return Err(Unhandled(token.message));
      }
      r := Ok(CallInitiated(name, token.value));
    }

    /** `connect_agent`: 404 for an unknown room; the token is minted before the record is
        touched, so a signing failure changes nothing; otherwise one agent slot is set. */
    method ConnectAgent(roomId: string, agentId: string, agentType: string)
      returns (r: Response<AgentConnected>)
      requires Valid()
      modifies activeSessions.Values
      ensures Valid() && activeSessions == old(activeSessions)
      ensures roomId !in old(Sessions()) ==> Sessions() == old(Sessions()) && r == Err(NotFound)
      ensures roomId in old(Sessions()) && signing.Raised? ==>
        Sessions() == old(Sessions()) && r == Err(Unhandled(signing.message))
      ensures roomId in old(Sessions()) && signing.Done? ==>
        && Sessions() == old(Sessions())[roomId := WithAgent(old(Sessions())[roomId], agentId, agentType)]
        && r == Ok(AgentConnected(roomId, AccessToken(roomId, AgentIdentity(Some(agentId))), agentType))
    {
      if roomId !in activeSessions {
        return Err(NotFound);
      }
      var session := activeSessions[roomId];
      var token := Mint(AccessToken(roomId, AgentIdentity(Some(agentId))), signing);
      if token.Raised? {
        return Err(Unhandled(token.message));
      }
      if Upper(agentType) == "A" {
        session.agentA := Some(agentId);
      } else {
        session.agentB := Some(agentId);
      }
      r := Ok(AgentConnected(roomId, token.value, agentType));
      UpdatedOne(old(activeSessions), roomId, old(Sessions()));
    }

    /** `initiate_warm_transfer`: 404 for an unknown room; otherwise the status becomes
        "transferring" before the briefing room is created, so a creation or signing failure
        leaves it so; on success agent A's recorded identity and agent B get tokens for the
        briefing room, the summary is made from the history, and agent B is recorded. */
    method InitiateWarmTransfer(roomId: string, agentBId: string, ts: int, createRoom: Outcome<()>,
                                llm: string -> Outcome<string>)
      returns (r: Response<TransferInitiated>)
      requires Valid()
      modifies activeSessions.Values
      ensures Valid() && activeSessions == old(activeSessions)
      ensures roomId !in old(Sessions()) ==> Sessions() == old(Sessions()) && r == Err(NotFound)
      ensures roomId in old(Sessions()) && (createRoom.Raised? || signing.Raised?) ==>
        && Sessions() == old(Sessions())[roomId := old(Sessions())[roomId].(status := Transferring)]
        && r == Err(Unhandled(if createRoom.Raised? then createRoom.message else signing.message))
      ensures roomId in old(Sessions()) && createRoom.Done? && signing.Done? ==>
        var s := old(Sessions())[roomId];
        var briefing := TransferRoomName(roomId, ts);
        && Sessions() == old(Sessions())[roomId := s.(status := Transferring, agentB := Some(agentBId))]
        && r == Ok(TransferInitiated(roomId, briefing,
                                     AccessToken(briefing, AgentIdentity(s.agentA)),
                                     AccessToken(briefing, AgentIdentity(Some(agentBId))),
                                     GenerateCallSummary(s.history, llm)))
    {
      if roomId !in activeSessions {
        return Err(NotFound);
      }
      var session := activeSessions[roomId];
      session.status := Transferring;
      var briefing := TransferRoomName(roomId, ts);
      if createRoom.Raised? {
        r := Err(Unhandled(createRoom.message));
      } else {
        var tokenA := Mint(AccessToken(briefing, AgentIdentity(session.agentA)), signing);
        if tokenA.Raised? {
          r := Err(Unhandled(tokenA.message));
        } else {
          var tokenB := Mint(AccessToken(briefing, AgentIdentity(Some(agentBId))), signing);
          var summary := GenerateCallSummary(session.history, llm);
          session.agentB := Some(agentBId);
          r := Ok(TransferInitiated(roomId, briefing, tokenA.value, tokenB.value, summary));
        }
      }
      UpdatedOne(old(activeSessions), roomId, old(Sessions()));
    }

    /** `complete_transfer`: 404 for an unknown room; no check of the prior status; agent B's
        recorded identity gets a token for the call's own room, then the status becomes
        "completed" and agent A is cleared (a signing failure changes nothing). */
    method CompleteTransfer(roomId: string) returns (r: Response<TransferCompleted>)
      requires Valid()
      modifies activeSessions.Values
      ensures Valid() && activeSessions == old(activeSessions)
      ensures roomId !in old(Sessions()) ==> Sessions() == old(Sessions()) && r == Err(NotFound)
      ensures roomId in old(Sessions()) && signing.Raised? ==>
        Sessions() == old(Sessions()) && r == Err(Unhandled(signing.message))
      ensures roomId in old(Sessions()) && signing.Done? ==>
        var s := old(Sessions())[roomId];
        && Sessions() == old(Sessions())[roomId := s.(status := Completed, agentA := None)]
        && r == Ok(TransferCompleted(roomId, AccessToken(roomId, AgentIdentity(s.agentB))))
    {
      if roomId !in activeSessions {
        return Err(NotFound);
      }
      var session := activeSessions[roomId];
      var token := Mint(AccessToken(roomId, AgentIdentity(session.agentB)), signing);
      if token.Raised? {
        return Err(Unhandled(token.message));
      }
      session.status := Completed;
      session.agentA := None;
      UpdatedOne(old(activeSessions), roomId, old(Sessions()));
      r := Ok(TransferCompleted(roomId, token.value));
    }

    /** `add_conversation_entry`: 404 for an unknown room; otherwise exactly one stamped line
        is appended to the end of that call's history. */
    method AddConversationEntry(roomId: string, message: string, speaker: string, now: TimeOfDay)
      returns (r: Response<()>)
      requires Valid() && now.Valid()
      modifies activeSessions.Values
      ensures Valid() && activeSessions == old(activeSessions)
      ensures roomId !in old(Sessions()) ==> Sessions() == old(Sessions()) && r == Err(NotFound)
      ensures roomId in old(Sessions()) ==>
        var s := old(Sessions())[roomId];
        && Sessions() == old(Sessions())[roomId := s.(history := s.history + [ConversationEntry(now, speaker, message)])]
        && r == Ok(())
    {
      if roomId !in activeSessions {
        return Err(NotFound);
      }
      var session := activeSessions[roomId];
      session.history := session.history + [ConversationEntry(now, speaker, message)];
      UpdatedOne(old(activeSessions), roomId, old(Sessions()));
      r := Ok(());
    }

    /** `get_session_info`: the snapshot of the call's record, or 404. */
    method GetSessionInfo(roomId: string) returns (r: Response<SessionInfo>)
      requires Valid()
      ensures roomId in Sessions() ==> r == Ok(Sessions()[roomId])
      ensures roomId !in Sessions() ==> r == Err(NotFound)
    {
      if roomId !in activeSessions {
        return Err(NotFound);
      }
      r := Ok(activeSessions[roomId].Info());
    }

    /** After one record's fields were assigned, the snapshot map differs only at its key. */
    lemma {:induction false} UpdatedOne(m: map<string, CallSession>, k: string, before: map<string, SessionInfo>)
      requires k in m && m == activeSessions && Valid()
      requires before.Keys == m.Keys
      requires forall j | j in m && j != k :: before[j] == m[j].Info()
      ensures Sessions() == before[k := m[k].Info()]
    {
      forall j | j in m
        ensures Sessions()[j] == before[k := m[k].Info()][j]
      {
      }
    }
  }
}
