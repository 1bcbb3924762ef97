/** The escalation flow of the voice agent (aiagent/app.py): the session manager's two status
    fields, the customer's hold state, the supervisor (agent B) session, and the transcript
    handed to agent B. */
module Escalation {
  import opened Outcomes
  import opened Grants
  import PyText

  datatype CustomerStatus = Active | Escalated | Passive
  datatype SupervisorStatus = Inactive | Summarizing | Merged | Failed

  // ---------------------------------------------------------------------------------------
  // The briefing transcript (`SupervisorAgent.__init__`)

  datatype Role = User | Assistant | System | Developer

  /** A chat message; `content` lists its text parts. */
  datatype ChatMessage = ChatMessage(role: Role, content: seq<string>) {
    /** `text_content`: the text parts joined by newlines. */
    function Text(): string { PyText.Join(content, "\n") }
  }

  datatype ChatItem = Message(message: ChatMessage) | FunctionCall(name: string) | FunctionCallOutput(output: string)

  /** Which messages survive `copy(exclude_empty_message=True, exclude_instructions=True,
      exclude_function_call=True)`: non-empty messages that are not instructions. */
  predicate KeptForBriefing(m: ChatMessage) {
    m.content != [] && m.role != System && m.role != Developer
  }

  /** The messages of the copied chat context, in history order. */
  function BriefingMessages(items: seq<ChatItem>): (r: seq<ChatMessage>)
    ensures |r| <= |items|
    ensures forall m :: m in r ==> KeptForBriefing(m)
    ensures forall i :: 0 <= i < |items| && items[i].Message? && KeptForBriefing(items[i].message)
                        ==> items[i].message in r
  {
    if |items| == 0 then []
    else
      var rest := BriefingMessages(items[1..]);
      assert forall i :: 1 <= i < |items| ==> items[i] == items[1..][i - 1];
      if items[0].Message? && KeptForBriefing(items[0].message) then [items[0].message] + rest else rest
  }

  /** The copy keeps history order: copying a concatenation copies each part, in order. */
  lemma {:induction false} BriefingMessagesAppend(a: seq<ChatItem>, b: seq<ChatItem>)
    ensures BriefingMessages(a + b) == BriefingMessages(a) + BriefingMessages(b)
    decreases |a|
  {
    if |a| == 0 {
      assert a + b == b;
    } else {
      assert (a + b)[1..] == a[1..] + b;
      BriefingMessagesAppend(a[1..], b);
    }
  }

  /** A single item is copied exactly when it is a kept message. */
  lemma BriefingMessagesOne(item: ChatItem)
    ensures BriefingMessages([item]) == if item.Message? && KeptForBriefing(item.message) then [item.message] else []
  {
  }

  /** One line of the transcript: customer turns are the user's, every other role is the assistant's. */
  function Line(m: ChatMessage): string {
    (if m.role == User then "Customer: " else "Assistant: ") + m.Text() + "\n"
  }

  /** The transcript: one line per message, in order. */
  function Transcript(ms: seq<ChatMessage>): string {
    if |ms| == 0 then "" else Line(ms[0]) + Transcript(ms[1..])
  }

  /** The transcript of a concatenation is the concatenation of the transcripts. */
  lemma {:induction false} TranscriptAppend(a: seq<ChatMessage>, b: seq<ChatMessage>)
    ensures Transcript(a + b) == Transcript(a) + Transcript(b)
    decreases |a|
  {
    if |a| == 0 {
      assert a + b == b;
    } else {
      assert (a + b)[1..] == a[1..] + b;
      TranscriptAppend(a[1..], b);
    }
  }

  /** Message `i` contributes its own line, placed right after the lines of the messages before it. */
  lemma {:induction false} TranscriptAt(ms: seq<ChatMessage>, i: nat)
    requires i < |ms|
    ensures Transcript(ms) == Transcript(ms[..i]) + Line(ms[i]) + Transcript(ms[i + 1..])
  {
    assert ms == ms[..i] + ms[i..];
    TranscriptAppend(ms[..i], ms[i..]);
    assert ms[i..][0] == ms[i] && ms[i..][1..] == ms[i + 1..];
  }

  lemma {:induction false} TranscriptSnoc(ms: seq<ChatMessage>, i: nat)
    requires i < |ms|
    ensures Transcript(ms[..i + 1]) == Transcript(ms[..i]) + Line(ms[i])
  {
    assert ms[..i + 1] == ms[..i] + [ms[i]];
    TranscriptAppend(ms[..i], [ms[i]]);
    assert Transcript([ms[i]]) == Line(ms[i]);
  }

  /** What agent B is told: the supervisor prompt, a blank line, and the transcript of the
      briefing messages. */
  function BriefingText(prompt: string, history: seq<ChatItem>): string {
    prompt + "\n\n" + Transcript(BriefingMessages(history))
  }

  /** The supervisor agent's instructions, built line by line from the customer session's history. */
  method SupervisorInstructions(prompt: string, history: seq<ChatItem>) returns (instructions: string)
    ensures instructions == BriefingText(prompt, history)
  {
    var ms := BriefingMessages(history);
    var convo := "";
    var i := 0;
    while i < |ms|
      invariant 0 <= i <= |ms|
      invariant convo == Transcript(ms[..i])
    {
      var m := ms[i];
      TranscriptSnoc(ms, i);
      if m.role == User {
        convo := convo + ("Customer: " + m.Text() + "\n");
      } else {
        convo := convo + ("Assistant: " + m.Text() + "\n");
      }
      i := i + 1;
    }
    assert ms[..i] == ms;
    instructions := prompt + "\n\n" + convo;
  }

  // ---------------------------------------------------------------------------------------
  // Session manager (`SessionManager`)

  /** `supervisor_room`: none yet, a fresh `rtc.Room()` not yet connected, or connected to a room. */
  datatype SupervisorRoom = NoRoom | Unconnected | Connected(name: string)

  /** `supervisor_session`: none, created but not started, or running agent B with its instructions. */
  datatype SupervisorSession = NoSession | Created | Running(instructions: string)

  datatype ParticipantKind = Standard | Ingress | Egress | Sip | Agent

  /** The external calls the manager makes, in the order it makes them; `NotifyCustomer(u)` and
      `SayToCustomer(u)` pass `Words(u)` as the reply instructions and the spoken text. */
  datatype Effect =
    | PlayHoldMusic
    | StopHoldMusic
    | ConnectSupervisorRoom(token: Claims)
    | StartSupervisorSession(instructions: string)
    | CloseSupervisorSession
    | NotifyCustomer(notice: Utterance)
    | MoveParticipant(room: string, identity: string, destination: string)
    | SayToCustomer(text: Utterance)
    | CloseCustomerSession
    | DeleteCustomerRoom

  /** Which step of `start_transfer` raises, if any (token signing is decided by `signing`). */
  datatype TransferFault = TransferSucceeds | ConnectFails | SessionCreateFails | SessionStartFails

  /** Which step of `merge_calls` raises, if any. */
  datatype MergeFault = MergeSucceeds | MoveFails | SayFails | CustomerCloseFails | SupervisorCloseFails

  const AgentBIdentity: string := "agent-b"

  /** The two fixed texts the manager has agent A deliver: the goodbye it says on a merge and
      the instructions it replies to after a failed escalation. */
  datatype Utterance = LeavingNotice | FailureNotice

  function Words(u: Utterance): string {
    match u
    case LeavingNotice => "You are now connected to another support agent. I'll be leaving the call."
    case FailureNotice => "let the user know that we are unable to connect them to another agent right now."
  }

  /** The room agent B is briefed in. */
  function SupervisorRoomName(customerRoom: string): string {
    customerRoom + "-supervisor"
  }

  /** Agent B's token: join, publish, subscribe and update its own metadata, in the supervisor room only. */
  function SupervisorToken(roomName: string): (c: Claims)
    ensures forall who, where :: MayJoin(c, who, where) <==> who == AgentBIdentity && where == roomName
    ensures FullMediaRights(c.grant) && c.name.None? && c.ttlSeconds.None?
  {
    Claims(AgentBIdentity, None, None, VideoGrant(true, Some(roomName), Some(true), Some(true), Some(true)))
  }

  /** The calls `set_supervisor_failed` makes: stop the hold music if it plays, tell the
      customer, close the supervisor session if there is one. */
  function FailureEffects(onHold: bool, hadSession: bool): seq<Effect> {
    HoldStopEffects(onHold) + [NotifyCustomer(FailureNotice)]
      + (if hadSession then [CloseSupervisorSession] else [])
  }

  /** The calls `stop_hold` makes: the music is stopped only if it plays. */
  function HoldStopEffects(onHold: bool): seq<Effect> {
    if onHold then [StopHoldMusic] else []
  }

  /** Whether every step of `start_transfer`'s `try` block returns. */
  predicate TransferSucceeded(signing: Outcome<()>, fault: TransferFault) {
    signing.Done? && fault == TransferSucceeds
  }

  /** The calls of `start_transfer`'s `try` block: the connection once the token is signed, the
      session start once the session is created. */
  function BriefingEffects(room: string, signing: Outcome<()>, fault: TransferFault, instructions: string): seq<Effect> {
    (if signing.Done? then [ConnectSupervisorRoom(SupervisorToken(room))] else [])
      + (if signing.Done? && (fault == TransferSucceeds || fault == SessionStartFails)
         then [StartSupervisorSession(instructions)] else [])
  }

  /** The calls of an escalation from an active customer: hold music, the briefing, and on
      failure the failure path (the session was created only when its start is what raised). */
  function TransferEffects(room: string, signing: Outcome<()>, fault: TransferFault, instructions: string): seq<Effect> {
    [PlayHoldMusic] + BriefingEffects(room, signing, fault, instructions)
      + (if TransferSucceeded(signing, fault) then []
         else FailureEffects(true, signing.Done? && fault == SessionStartFails))
  }

  /** Each outcome of an escalation, call by call. */
  lemma TransferEffectsCases(room: string, signing: Outcome<()>, fault: TransferFault, instructions: string)
    ensures var connect := ConnectSupervisorRoom(SupervisorToken(room));
      && (TransferSucceeded(signing, fault) ==>
            TransferEffects(room, signing, fault, instructions)
              == [PlayHoldMusic, connect, StartSupervisorSession(instructions)])
      && (signing.Raised? ==>
            TransferEffects(room, signing, fault, instructions)
              == [PlayHoldMusic, StopHoldMusic, NotifyCustomer(FailureNotice)])
      && (signing.Done? && (fault == ConnectFails || fault == SessionCreateFails) ==>
            TransferEffects(room, signing, fault, instructions)
              == [PlayHoldMusic, connect, StopHoldMusic, NotifyCustomer(FailureNotice)])
      && (signing.Done? && fault == SessionStartFails ==>
            TransferEffects(room, signing, fault, instructions)
              == [PlayHoldMusic, connect, StartSupervisorSession(instructions), StopHoldMusic,
                  NotifyCustomer(FailureNotice), CloseSupervisorSession])
  {
  }

  /** An escalation starts the hold music first; the music is stopped, and the customer told of
      the failure, exactly when some step raised. */
  lemma {:induction false} TransferFailureIsAnnounced(room: string, signing: Outcome<()>, fault: TransferFault, instructions: string)
    ensures var e := TransferEffects(room, signing, fault, instructions);
      && e[0] == PlayHoldMusic
      && (StopHoldMusic in e <==> !TransferSucceeded(signing, fault))
      && (NotifyCustomer(FailureNotice) in e <==> !TransferSucceeded(signing, fault))
  {
    TransferEffectsCases(room, signing, fault, instructions);
  }

  /** Whether every step of `merge_calls`'s `try` block returns: closing the supervisor session
      can only raise when there is one. */
  predicate MergeSucceeded(fault: MergeFault, hadSession: bool) {
    fault == MergeSucceeds || (fault == SupervisorCloseFails && !hadSession)
  }

  /** The calls of `merge_calls`'s `try` block up to the step that raises. */
  function HandOverEffects(customerRoom: string, fault: MergeFault, onHold: bool, hadSession: bool): seq<Effect> {
    var moved := [MoveParticipant(SupervisorRoomName(customerRoom), AgentBIdentity, customerRoom)];
    if fault == MoveFails then moved
    else
      var said := moved + HoldStopEffects(onHold) + [SayToCustomer(LeavingNotice)];
      if fault == SayFails then said
      else
        var closed := said + [CloseCustomerSession];
        if fault == CustomerCloseFails || !hadSession then closed else closed + [CloseSupervisorSession]
  }

  /** The calls of a merge: the hand-over and, when a step raised, the failure path, which finds
      the hold still on only if the move raised and the supervisor session still set. */
  function MergeEffects(customerRoom: string, fault: MergeFault, onHold: bool, hadSession: bool): seq<Effect> {
    HandOverEffects(customerRoom, fault, onHold, hadSession)
      + (if MergeSucceeded(fault, hadSession) then []
         else FailureEffects(fault == MoveFails && onHold, hadSession))
  }

  /** A merge moves agent B first, and stops the hold music right after if it played and never
      otherwise: the failure path finds the handle already cleared unless the move raised. */
  lemma {:induction false} MergeStopsHoldOnce(customerRoom: string, fault: MergeFault, onHold: bool, hadSession: bool)
    ensures var e := MergeEffects(customerRoom, fault, onHold, hadSession);
      && e[0] == MoveParticipant(SupervisorRoomName(customerRoom), AgentBIdentity, customerRoom)
      && (forall i :: 0 <= i < |e| && e[i] == StopHoldMusic ==> i == 1 && onHold)
      && (onHold ==> |e| > 1 && e[1] == StopHoldMusic)
  {
  }

  /** The customer hears the goodbye unless the move raised, and agent A's session is closed
      unless the move or the goodbye raised. */
  lemma {:induction false} MergeSaysGoodbye(customerRoom: string, fault: MergeFault, onHold: bool, hadSession: bool)
    ensures var e := MergeEffects(customerRoom, fault, onHold, hadSession);
      && (SayToCustomer(LeavingNotice) in e <==> fault != MoveFails)
      && (CloseCustomerSession in e <==> fault != MoveFails && fault != SayFails)
  {
  }

  /** The customer is told of a failure exactly when some step of the merge raised. */
  lemma {:induction false} MergeAnnouncesFailure(customerRoom: string, fault: MergeFault, onHold: bool, hadSession: bool)
    ensures NotifyCustomer(FailureNotice) in MergeEffects(customerRoom, fault, onHold, hadSession)
            <==> !MergeSucceeded(fault, hadSession)
  {
  }

  class SessionManager {
    const customerRoom: string
    const supervisorPrompt: string
    var customerStatus: CustomerStatus
    var supervisorStatus: SupervisorStatus
    /** Whether `hold_audio_handle` is set. */
    var holdHandle: bool
    /** Whether the customer session's input and output audio are enabled. */
    var inputAudio: bool
    var outputAudio: bool
    var supervisorRoom: SupervisorRoom
    var supervisorSession: SupervisorSession
    /** Whether `on_supervisor_room_close` is registered for the supervisor room's "disconnected". */
    var supervisorCloseHandler: bool
    /** Whether `on_customer_participant_disconnected` is registered on the customer room. */
    var customerDisconnectHandler: bool
    var effects: seq<Effect>

    /** The customer's audio is off exactly while the hold music plays. */
    ghost predicate HoldConsistent()
      reads this
    {
      inputAudio == outputAudio == !holdHandle
    }

    /** The customer is on hold exactly when both audio directions are off; an active customer
        is not on hold and has no supervisor session; "summarizing" means the customer was
        escalated and agent B's room is connected. */
    ghost predicate Valid()
      reads this
    {
      && HoldConsistent()
      && (customerStatus == Active ==> !holdHandle && supervisorSession == NoSession)
      && (supervisorStatus == Summarizing ==>
            customerStatus == Escalated && supervisorRoom == Connected(SupervisorRoomName(customerRoom)))
    }

    constructor (customerRoom: string, supervisorPrompt: string)
      ensures Valid()
      ensures this.customerRoom == customerRoom && this.supervisorPrompt == supervisorPrompt
      ensures customerStatus == Active && supervisorStatus == Inactive
      ensures !holdHandle && inputAudio && outputAudio
      ensures supervisorRoom == NoRoom && supervisorSession == NoSession
      ensures !supervisorCloseHandler && !customerDisconnectHandler && effects == []
    {
      this.customerRoom := customerRoom;
      this.supervisorPrompt := supervisorPrompt;
      customerStatus := Active;
      supervisorStatus := Inactive;
      holdHandle := false;
      inputAudio := true;
      outputAudio := true;
      supervisorRoom := NoRoom;
      supervisorSession := NoSession;
      supervisorCloseHandler := false;
      customerDisconnectHandler := false;
      effects := [];
    }

    /** `start_hold`: both audio directions off, hold music started and its handle kept. The
        invariant survives once the customer is no longer active, as at its one call site. */
    method StartHold()
      modifies this`inputAudio, this`outputAudio, this`holdHandle, this`effects
      ensures old(Valid()) && customerStatus != Active ==> Valid()
      ensures holdHandle && !inputAudio && !outputAudio
      ensures effects == old(effects) + [PlayHoldMusic]
    {
      inputAudio := false;
      outputAudio := false;
      effects := effects + [PlayHoldMusic];
      holdHandle := true;
    }

    /** `stop_hold`: whatever the prior state, afterwards there is no handle and both audio
        directions are on; music is stopped only if a handle was set, so a second call does nothing new. */
    method StopHold()
      modifies this`inputAudio, this`outputAudio, this`holdHandle, this`effects
      ensures old(Valid()) ==> Valid()
      ensures !holdHandle && inputAudio && outputAudio
      ensures effects == old(effects) + HoldStopEffects(old(holdHandle))
    {
      if holdHandle {
        effects := effects + [StopHoldMusic];
        holdHandle := false;
      }
      inputAudio := true;
      outputAudio := true;
    }

    /** `set_supervisor_failed`: status "failed", hold ended, customer told, supervisor session
        closed and cleared. Nothing else changes. */
    method SetSupervisorFailed()
      requires HoldConsistent()
      modifies this`supervisorStatus, this`inputAudio, this`outputAudio, this`holdHandle,
               this`effects, this`supervisorSession
      ensures Valid()
      ensures supervisorStatus == Failed && supervisorSession == NoSession
      ensures !holdHandle && inputAudio && outputAudio
      ensures effects == old(effects) + FailureEffects(old(holdHandle), old(supervisorSession) != NoSession)
    {
      supervisorStatus := Failed;
      StopHold();
      effects := effects + [NotifyCustomer(FailureNotice)];
      if supervisorSession != NoSession {
        effects := effects + [CloseSupervisorSession];
        supervisorSession := NoSession;
      }
    }

    /** `on_supervisor_room_close`: the failure path (run directly rather than as a spawned task). */
    method OnSupervisorRoomClose()
      requires Valid()
      modifies this`supervisorStatus, this`inputAudio, this`outputAudio, this`holdHandle,
               this`effects, this`supervisorSession
      ensures Valid()
      ensures supervisorStatus == Failed && supervisorSession == NoSession
      ensures !holdHandle && inputAudio && outputAudio
      ensures effects == old(effects) + FailureEffects(old(holdHandle), old(supervisorSession) != NoSession)
    {
      SetSupervisorFailed();
    }

    /** `start_transfer`: nothing unless the customer is active. Otherwise the customer is
        escalated and put on hold, agent B is connected to the supervisor room with its own
        token and started with the briefing instructions, and the supervisor status becomes
        "summarizing". If any step raises, the customer is active again and the failure path runs.
        `history` is the customer session's chat history; `signing` and `fault` are the outcomes
        of the external calls. */
    method StartTransfer(history: seq<ChatItem>, signing: Outcome<()>, fault: TransferFault)
      requires Valid()
      modifies this
      ensures Valid()
      ensures old(customerStatus) != Active ==> unchanged(this)
      ensures old(customerStatus) == Active ==>
        var instructions := BriefingText(supervisorPrompt, history);
        var ok := TransferSucceeded(signing, fault);
        && customerDisconnectHandler == old(customerDisconnectHandler)
        && supervisorRoom == (if signing.Done? && fault != ConnectFails
                              then Connected(SupervisorRoomName(customerRoom)) else Unconnected)
        && supervisorCloseHandler == (signing.Done? && fault != ConnectFails)
        && customerStatus == (if ok then Escalated else Active)
        && supervisorStatus == (if ok then Summarizing else Failed)
        && holdHandle == ok && inputAudio == !ok && outputAudio == !ok
        && supervisorSession == (if ok then Running(instructions) else NoSession)
        && effects == old(effects) + TransferEffects(SupervisorRoomName(customerRoom), signing, fault, instructions)
    {
      if customerStatus != Active {
        return;
      }
      customerStatus := Escalated;
      StartHold();
      ghost var room, instructions := SupervisorRoomName(customerRoom), BriefingText(supervisorPrompt, history);
      ghost var begun := [PlayHoldMusic] + BriefingEffects(room, signing, fault, instructions);
      var ok := BriefSupervisor(history, signing, fault);
      assert effects == old(effects) + begun;
      if !ok {
        customerStatus := Active;
        SetSupervisorFailed();
        assert effects == old(effects) + (begun + FailureEffects(true, signing.Done? && fault == SessionStartFails));
      }
    }

    /** The `try` block of `start_transfer`: a fresh supervisor room, agent B's token, the
        connection, the supervisor session and its start; `ok` tells whether every step returned. */
    method BriefSupervisor(history: seq<ChatItem>, signing: Outcome<()>, fault: TransferFault) returns (ok: bool)
      modifies this`supervisorRoom, this`supervisorCloseHandler, this`effects, this`supervisorSession,
               this`supervisorStatus
      ensures ok == TransferSucceeded(signing, fault)
      ensures var connected := signing.Done? && fault != ConnectFails;
        && supervisorRoom == (if connected then Connected(SupervisorRoomName(customerRoom)) else Unconnected)
        && supervisorCloseHandler == connected
      ensures var instructions := BriefingText(supervisorPrompt, history);
        && effects == old(effects) + BriefingEffects(SupervisorRoomName(customerRoom), signing, fault, instructions)
        && supervisorSession == (if ok then Running(instructions)
                                 else if signing.Done? && fault == SessionStartFails then Created
                                 else old(supervisorSession))
      ensures supervisorStatus == if ok then Summarizing else old(supervisorStatus)
    {
      var room := SupervisorRoomName(customerRoom);
      supervisorRoom := Unconnected;
      supervisorCloseHandler := false;
      var token := Mint(SupervisorToken(room), signing);
      if token.Raised? {
        return false;
      }
      effects := effects + [ConnectSupervisorRoom(token.value)];
      if fault == ConnectFails {
        return false;
      }
      supervisorRoom := Connected(room);
      supervisorCloseHandler := true;
      if fault == SessionCreateFails {
        return false;
      }
      supervisorSession := Created;
      var instructions := SupervisorInstructions(supervisorPrompt, history);
      effects := effects + [StartSupervisorSession(instructions)];
      if fault == SessionStartFails {
        return false;
      }
      supervisorSession := Running(instructions);
      supervisorStatus := Summarizing;
      ok := true;
    }

    /** `merge_calls`: nothing unless the supervisor status is "summarizing". Otherwise agent B
        is moved from the supervisor room into the customer room, the hold ends, the customer
        room starts watching for departures, agent A says goodbye and its session closes, and
        the supervisor session is closed and cleared; the status is never set to "merged", so
        it stays "summarizing". If any step raises, the failure path runs. */
    method MergeCalls(fault: MergeFault)
      requires Valid()
      modifies this
      ensures Valid()
      ensures old(supervisorStatus) != Summarizing ==> unchanged(this)
      ensures old(supervisorStatus) == Summarizing ==>
        var hadSession := old(supervisorSession) != NoSession;
        && !supervisorCloseHandler
        && customerStatus == old(customerStatus) && supervisorRoom == old(supervisorRoom)
        && !holdHandle && inputAudio && outputAudio && supervisorSession == NoSession
        && customerDisconnectHandler == (fault != MoveFails || old(customerDisconnectHandler))
        && supervisorStatus == (if MergeSucceeded(fault, hadSession) then Summarizing else Failed)
        && effects == old(effects) + MergeEffects(customerRoom, fault, old(holdHandle), hadSession)
    {
      if supervisorStatus != Summarizing {
        return;
      }
      var ok := HandOver(fault);
      if !ok {
        SetSupervisorFailed();
      }
    }

    /** The `try` block of `merge_calls`: stop watching the supervisor room, move agent B, end
        the hold, watch the customer room, let agent A say goodbye and close, close the supervisor
        session; `ok` tells whether every step returned. */
    method HandOver(fault: MergeFault) returns (ok: bool)
      requires Valid() && supervisorStatus == Summarizing
      modifies this`supervisorCloseHandler, this`customerDisconnectHandler, this`effects,
               this`supervisorSession, this`inputAudio, this`outputAudio, this`holdHandle
      ensures HoldConsistent()
      ensures var hadSession := old(supervisorSession) != NoSession;
        && ok == MergeSucceeded(fault, hadSession)
        && !supervisorCloseHandler
        && customerDisconnectHandler == (fault != MoveFails || old(customerDisconnectHandler))
        && (fault == MoveFails ==> holdHandle == old(holdHandle) && supervisorSession == old(supervisorSession))
        && (fault != MoveFails ==> !holdHandle)
        && supervisorSession == (if ok then NoSession else old(supervisorSession))
        && effects == old(effects) + HandOverEffects(customerRoom, fault, old(holdHandle), hadSession)
    {
      ghost var onHold, hadSession := holdHandle, supervisorSession != NoSession;
      ghost var done := [MoveParticipant(SupervisorRoomName(customerRoom), AgentBIdentity, customerRoom)];
      supervisorCloseHandler := false;
      effects := effects + [MoveParticipant(supervisorRoom.name, AgentBIdentity, customerRoom)];
      if fault == MoveFails {
        return false;
      }
      StopHold();
      customerDisconnectHandler := true;
      effects := effects + [SayToCustomer(LeavingNotice)];
      done := done + HoldStopEffects(onHold) + [SayToCustomer(LeavingNotice)];
      assert effects == old(effects) + done;
      if fault == SayFails {
        return false;
      }
      effects := effects + [CloseCustomerSession];
      done := done + [CloseCustomerSession];
      assert effects == old(effects) + done;
      if fault == CustomerCloseFails {
        return false;
      }
      if supervisorSession != NoSession {
        effects := effects + [CloseSupervisorSession];
        done := done + [CloseSupervisorSession];
        assert effects == old(effects) + done;
        if fault == SupervisorCloseFails {
          return false;
        }
        supervisorSession := NoSession;
      }
      ok := true;
    }

    /** `on_customer_participant_disconnected`: an agent leaving is ignored; anyone else leaving
        unregisters the handler and deletes the customer room. */
    method OnCustomerParticipantDisconnected(kind: ParticipantKind)
      modifies this`customerDisconnectHandler, this`effects
      ensures old(Valid()) ==> Valid()
      ensures kind == Agent ==> customerDisconnectHandler == old(customerDisconnectHandler) && effects == old(effects)
      ensures kind != Agent ==> !customerDisconnectHandler && effects == old(effects) + [DeleteCustomerRoom]
    {
      if kind == Agent {
        return;
      }
      customerDisconnectHandler := false;
      effects := effects + [DeleteCustomerRoom];
    }
  }
}
