/** Access-token construction (aiagent/app/livekit_utils.py): a token is modelled by the
    claims it carries, not by its signed JWT text. */
module Grants {
  import opened Outcomes

  /** The room permissions of a token. A flag that is `None` was never assigned, so the
      token carries the SDK's default for it. */
  datatype VideoGrant = VideoGrant(
    roomJoin: bool,
    room: Option<string>,
    canPublish: Option<bool>,
    canSubscribe: Option<bool>,
    canUpdateOwnMetadata: Option<bool>)

  /** What a signed token asserts: who, under which display name, for how long, with which grant.
      `ttlSeconds == None` means the SDK's default lifetime. */
  datatype Claims = Claims(identity: string, name: Option<string>, ttlSeconds: Option<int>, grant: VideoGrant)

  /** The lifetime used when `DEFAULT_TTL_SECONDS` is not set in the environment. */
  const DefaultTtlSeconds: int := 3600

  /** `DEFAULT_TTL`: the environment's override if there is one, else one hour. */
  function DefaultTtl(envOverride: Option<int>): int {
    envOverride.GetOr(DefaultTtlSeconds)
  }

  /** Python truthiness of an optional string: present and non-empty. */
  predicate Truthy(s: Option<string>) { s.Some? && s.value != "" }

  /** Signing the claims with the configured key: the signing backend either produces the
      token or raises. `signing` is that backend's outcome under the current credentials. */
  function Mint(c: Claims, signing: Outcome<()>): (t: Outcome<Claims>)
    ensures t.Done? <==> signing.Done?
    ensures t.Done? ==> t.value == c
    ensures t.Raised? ==> t.message == signing.message
  {
    match signing
    case Done(_) => Done(c)
    case Raised(m) => Raised(m)
  }

  /** The token lets `identity` join `room`. */
  predicate MayJoin(c: Claims, identity: string, room: string) {
    c.identity == identity && c.grant.roomJoin && c.grant.room == Some(room)
  }

  /** The grant explicitly allows publishing, subscribing and updating one's own metadata. */
  predicate FullMediaRights(g: VideoGrant) {
    g.canPublish == Some(true) && g.canSubscribe == Some(true) && g.canUpdateOwnMetadata == Some(true)
  }

  /** None of the three media flags was assigned. */
  predicate NoMediaFlags(g: VideoGrant) {
    g.canPublish.None? && g.canSubscribe.None? && g.canUpdateOwnMetadata.None?
  }

  /** `generate_token`: always a join grant; for a given room the token authorises exactly one
      (identity, room) pair with full media rights, otherwise it names no room and sets no media
      flag; the display name is attached only when it is non-empty. */
  function GenerateToken(identity: string, room: Option<string>, name: Option<string>, ttlSeconds: int): (c: Claims)
    ensures c.identity == identity && c.ttlSeconds == Some(ttlSeconds) && c.grant.roomJoin
    ensures Truthy(room) ==> FullMediaRights(c.grant)
    ensures Truthy(room) ==> forall who, where :: MayJoin(c, who, where) <==> who == identity && where == room.value
    ensures !Truthy(room) ==> c.grant.room.None? && NoMediaFlags(c.grant)
    ensures !Truthy(room) ==> forall who, where :: !MayJoin(c, who, where)
    ensures c.name.Some? <==> Truthy(name)
    ensures c.name.Some? ==> c.name == name
  {
    var grant := if Truthy(room)
      then VideoGrant(true, room, Some(true), Some(true), Some(true))
      else VideoGrant(true, None, None, None, None);
    Claims(identity, if Truthy(name) then name else None, Some(ttlSeconds), grant)
  }
}
