/** Database rows shared by the authorization and identity machines
    (server/src/hyproxy/db/models.py).

    Identifiers and tokens are natural numbers. A stored hash is represented by what
    was hashed, which is what an injective hash allows. */
module Rows {
  import opened Prelude

  datatype User = User(email: string, externalId: string, active: bool, admin: bool)

  /** The authentication methods a session was created on. */
  datatype Factor = Pwd | Otp | Rc | Webauthn

  /** An IdP session row. `revoked` stands for `revoked_at IS NOT NULL`. */
  datatype Session = Session(
    user: Id, secret: Id, ip: string, adminTier: bool, amr: set<Factor>,
    issuedAt: Instant, lastSeen: Instant, absoluteExpiry: Instant,
    stale: bool, revoked: bool)

  datatype GatewaySession = GatewaySession(user: Id, idpSession: Id, secret: Id, ip: string, revoked: bool)

  /** A presented `{id}.{secret}` cookie that parses. */
  datatype Cookie = Cookie(id: Id, secret: Id)

  datatype Protocol = Http | Https | Tcp | Vnc | Rdp | Ssh | Rtsp

  datatype Resource = Resource(
    host: Option<string>, protocol: Protocol, ports: seq<int>, enabled: bool,
    publicAccess: bool, publicPaths: Option<seq<string>>, passwordHash: Option<Id>)

  datatype PublicSession = PublicSession(
    resource: Id, secret: Id, ip: Option<string>, expires: Instant, lastSeen: Instant, revoked: bool)
}
