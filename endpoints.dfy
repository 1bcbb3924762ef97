/** The stateless HTTP handlers of the warm-transfer backend (aiagent/app/main.py). Each handler
    computes its answer from the request and from the outcomes of the LiveKit and language-model
    calls it makes, which are given as functions from the request they receive to their outcome. */
module Endpoints {
  import opened Outcomes
  import opened Grants
  import PyText

  /** The module-level configuration: the signing backend's outcome under the configured key
      and secret, and the parsed `DEFAULT_TTL_SECONDS` environment variable if it is set. */
  datatype Config = Config(signing: Outcome<()>, ttlOverride: Option<int>) {
    /** `DEFAULT_TTL`. */
    function DefaultLifetime(): int { DefaultTtl(ttlOverride) }
  }

  /** `api.MoveParticipantRequest`. */
  datatype MoveRequest = MoveRequest(room: string, identity: string, destinationRoom: string)

  datatype TokenRequest = TokenRequest(identity: string, room: Option<string>, name: Option<string>)
  datatype TokenIssued = TokenIssued(token: Claims)

  datatype RoomCreation = RoomCreated(room: string) | RoomNotCreated(error: string)

  datatype WarmTransferRequest = WarmTransferRequest(
    customerRoom: string,
    supportAgentIdentity: string,
    supervisorIdentity: string,
    transcript: Option<string>,
    consultRoom: Option<string>)
  datatype TransferPrepared = TransferPrepared(
    consultRoom: string, supervisorToken: Claims, summary: Option<string>, note: string)

  datatype MoveSupervisorRequest = MoveSupervisorRequest(consultRoom: string, supervisorIdentity: string, customerRoom: string)
  datatype SupervisorMoved = SupervisorMoved(moved: string, to: string)

  const TransferNote: string :=
    "Start TransferAgent in consult room (see agents/agent_worker.py). When ready, call /move_supervisor."

  /** `POST /token`: the token `generate_token` builds with the default lifetime; a signing failure is a 500. */
  function IssueToken(req: TokenRequest, cfg: Config): (r: Response<TokenIssued>)
    ensures r.Ok? <==> cfg.signing.Done?
    ensures r.Ok? ==> r.body.token == GenerateToken(req.identity, req.room, req.name, cfg.DefaultLifetime())
    ensures r.Ok? ==> r.body.token.ttlSeconds
                      == Some(if cfg.ttlOverride.Some? then cfg.ttlOverride.value else DefaultTtlSeconds)
    ensures r.Err? ==> r.error == HttpError(500, cfg.signing.message)
  {
    match Mint(GenerateToken(req.identity, req.room, req.name, cfg.DefaultLifetime()), cfg.signing)
    case Done(c) => Ok(TokenIssued(c))
    case Raised(m) => Err(HttpError(500, m))
  }

  /** `POST /create_room`: a creation failure is reported in the body, never raised; only a
      failure to construct the API client escapes the handler. */
  function CreateRoom(room: string, client: Outcome<()>, createRoom: string -> Outcome<string>): (r: Response<RoomCreation>)
    ensures r.Err? <==> client.Raised?
    ensures r.Err? ==> r.error == Unhandled(client.message)
    ensures client.Done? && createRoom(room).Done? ==> r == Ok(RoomCreated(createRoom(room).value))
    ensures client.Done? && createRoom(room).Raised? ==> r == Ok(RoomNotCreated(createRoom(room).message))
  {
    if client.Raised? then Err(Unhandled(client.message))
    else match createRoom(room)
      case Done(name) => Ok(RoomCreated(name))
      case Raised(m) => Ok(RoomNotCreated(m))
  }

  /** The consult room: the requested name when it is non-empty, else "consult-" and the first
      eight hexadecimal digits of a fresh UUID. */
  function ConsultRoom(requested: Option<string>, uuid: nat): (r: string)
    requires uuid < PyText.UuidBound
    ensures Truthy(requested) ==> r == requested.value
    ensures !Truthy(requested) ==>
      && |r| == 16 && r[..8] == "consult-"
      && (forall i :: 8 <= i < 16 ==> PyText.IsLowerHex(r[i]))
      && r[8..] == PyText.UuidHex(uuid)[..8]
    ensures r != ""
  {
    if Truthy(requested) then requested.value else "consult-" + PyText.UuidHex(uuid)[..8]
  }

  /** The summary: `None` unless a non-empty transcript was given, else the summariser's result. */
  function Summary(transcript: Option<string>, summarize: string -> Outcome<string>): (r: Outcome<Option<string>>)
    ensures !Truthy(transcript) ==> r == Done(None)
    ensures Truthy(transcript) && summarize(transcript.value).Done? ==> r == Done(Some(summarize(transcript.value).value))
    ensures Truthy(transcript) && summarize(transcript.value).Raised? ==> r == Raised(summarize(transcript.value).message)
  {
    if !Truthy(transcript) then Done(None)
    else match summarize(transcript.value)
      case Done(s) => Done(Some(s))
      case Raised(m) => Raised(m)
  }

  /** `POST /warm_transfer`: create the consult room (a failure is ignored), summarise the
      transcript if there is one, and give the supervisor a token for the consult room. It
      succeeds exactly when the API client, the summariser (if it is called) and signing all
      succeed; every failure is a 500 carrying the error's text. */
  function WarmTransfer(req: WarmTransferRequest, uuid: nat, client: Outcome<()>,
                        createRoom: string -> Outcome<()>, summarize: string -> Outcome<string>,
                        cfg: Config): (r: Response<TransferPrepared>)
    requires uuid < PyText.UuidBound
    ensures r.Ok? <==> client.Done? && Summary(req.transcript, summarize).Done? && cfg.signing.Done?
    ensures r.Err? ==> r.error.HttpError? && r.error.status == 500
    ensures client.Raised? ==> r == Err(HttpError(500, client.message))
  {
    var consult := ConsultRoom(req.consultRoom, uuid);
    if client.Raised? then Err(HttpError(500, client.message))
    else
      var _ := createRoom(consult);
      match Summary(req.transcript, summarize)
      case Raised(m) => Err(HttpError(500, m))
      case Done(summary) =>
        match Mint(GenerateToken(req.supervisorIdentity, Some(consult), None, cfg.DefaultLifetime()), cfg.signing)
        case Raised(m) => Err(HttpError(500, m))
        case Done(token) => Ok(TransferPrepared(consult, token, summary, TransferNote))
  }

  /** On success the answer names the consult room, carries the summary, and the supervisor's
      token authorises the supervisor, and no one else, to join the consult room and no other. */
  lemma {:induction false} WarmTransferSuccess(req: WarmTransferRequest, uuid: nat, client: Outcome<()>,
                            createRoom: string -> Outcome<()>, summarize: string -> Outcome<string>,
                            cfg: Config, who: string, where: string)
    requires uuid < PyText.UuidBound
    requires WarmTransfer(req, uuid, client, createRoom, summarize, cfg).Ok?
    ensures var b := WarmTransfer(req, uuid, client, createRoom, summarize, cfg).body;
      && b.consultRoom == ConsultRoom(req.consultRoom, uuid)
      && (MayJoin(b.supervisorToken, who, where) <==> who == req.supervisorIdentity && where == b.consultRoom)
      && FullMediaRights(b.supervisorToken.grant)
      && b.supervisorToken.ttlSeconds == Some(cfg.DefaultLifetime()) && b.supervisorToken.name.None?
      && (b.summary.None? <==> !Truthy(req.transcript))
      && (b.summary.Some? ==> summarize(req.transcript.value) == Done(b.summary.value))
  {
  }

  /** A failure to create the consult room is swallowed: the answer does not depend on it. */
  lemma {:induction false} WarmTransferIgnoresRoomCreation(req: WarmTransferRequest, uuid: nat, client: Outcome<()>,
                                        create1: string -> Outcome<()>, create2: string -> Outcome<()>,
                                        summarize: string -> Outcome<string>, cfg: Config)
    requires uuid < PyText.UuidBound
    ensures WarmTransfer(req, uuid, client, create1, summarize, cfg)
         == WarmTransfer(req, uuid, client, create2, summarize, cfg)
  {
  }

  /** `POST /move_supervisor`: moves the supervisor from the consult room into the customer
      room; a failed move is a 500, a failure to construct the API client escapes the handler. */
  function MoveSupervisor(req: MoveSupervisorRequest, client: Outcome<()>, move: MoveRequest -> Outcome<()>)
    : (r: Response<SupervisorMoved>)
    ensures var mv := MoveRequest(req.consultRoom, req.supervisorIdentity, req.customerRoom);
      && (r.Ok? <==> client.Done? && move(mv).Done?)
      && (r.Ok? ==> r.body == SupervisorMoved(req.supervisorIdentity, req.customerRoom))
      && (client.Raised? ==> r == Err(Unhandled(client.message)))
      && (client.Done? && move(mv).Raised? ==> r == Err(HttpError(500, move(mv).message)))
  {
    if client.Raised? then Err(Unhandled(client.message))
    else match move(MoveRequest(req.consultRoom, req.supervisorIdentity, req.customerRoom))
      case Done(_) => Ok(SupervisorMoved(req.supervisorIdentity, req.customerRoom))
      case Raised(m) => Err(HttpError(500, m))
  }
}
