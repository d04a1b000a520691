/** Single-use tunnel and stream grants (server/src/hyproxy/guac/broker.py,
    server/src/hyproxy/rtsp/broker.py and their endpoints in
    server/src/hyproxy/authz/guac.py and server/src/hyproxy/authz/rtsp.py). */
module Grants {
  import opened Prelude
  import opened Rows
  import A = AuthzCheck
  import P = PolicyEngine
  import IdpSessions

  /** The two brokers share one shape; each has its own grant table. */
  datatype Kind = Tunnel | Stream

  datatype Connection = Connection(protocol: Protocol, port: int)

  datatype Settings = Settings(hasKey: bool, ttl: int)

  datatype Config = Config(authz: A.Config, tunnel: Settings, stream: Settings)

  /** The rows the brokers read. */
  datatype World = World(db: A.Db, connections: map<Id, Connection>)

  datatype Ticket = Ticket(kind: Kind, token: nat)

  datatype Grant = Grant(user: Id, resource: Id, ip: string, expires: Instant, consumed: bool)

  datatype Audit = Audit(user: Id, resource: Id, port: Option<int>, allowed: bool, reason: string, ip: string)

  function For(cfg: Config, kind: Kind): Settings { if kind == Tunnel then cfg.tunnel else cfg.stream }

  /** Streams are minted and opened over different connections, so their endpoints do
      not bind the gateway session to the address. */
  predicate EnforceIp(kind: Kind) { kind == Tunnel }

  // ---------------------------------------------------------------- decisions

  datatype Outcome =
    | Disabled
    | Refused(port: Option<int>, reason: string)
    | Granted(port: Option<int>, reason: string)

  function PolicyDecision(cfg: Config, w: World, user: Id, resource: Id, port: int, now: Instant): P.Decision {
    P.Evaluate(A.RulesFor(w.db, resource), A.PolicyRequest(cfg.authz, w.db, user, resource, port, "/", now))
  }

  predicate Connected(w: World, kind: Kind, resource: Id) {
    resource in w.connections && (kind == Stream ==> w.connections[resource].protocol == Rtsp)
  }

  function Decide(cfg: Config, w: World, kind: Kind, user: Id, resource: Id, now: Instant): Outcome {
    if !For(cfg, kind).hasKey then Disabled
    else if resource !in w.db.gate.resources || !w.db.gate.resources[resource].enabled
        then Refused(None, "unknown_resource")
    else if !Connected(w, kind, resource) then Refused(None, "no_connection")
    else
      var port := w.connections[resource].port;
      var d := PolicyDecision(cfg, w, user, resource, port, now);
      if d.allowed then Granted(Some(port), d.reason) else Refused(Some(port), d.reason)
  }

  predicate Consumable(g: Grant, user: Id, ip: string, now: Instant) {
    !g.consumed && g.expires > now && g.ip == ip && g.user == user
  }

  /** What the collection keeps: only tunnel grants are ever deleted. */
  predicate Kept(t: Ticket, g: Grant, now: Instant) {
    t.kind == Tunnel ==> !(g.expires <= now || g.consumed)
  }

  function AfterIssue(
    cfg: Config, grants: map<Ticket, Grant>, t: Ticket, user: Id, resource: Id, ip: string, now: Instant)
    : map<Ticket, Grant>
  {
    grants[t := Grant(user, resource, ip, now + For(cfg, t.kind).ttl, false)]
  }

  function AfterConsume(grants: map<Ticket, Grant>, t: Ticket): map<Ticket, Grant>
    requires t in grants
  {
    grants[t := grants[t].(consumed := true)]
  }

  function AfterGc(grants: map<Ticket, Grant>, now: Instant): map<Ticket, Grant> {
    map t | t in grants && Kept(t, grants[t], now) :: grants[t]
  }

  /** The session rows after `resolve_gateway_session`. */
  function AfterResolve(cfg: Config, db: A.Db, cookie: Option<Cookie>, ip: string, now: Instant,
      enforceIp: bool): A.Db
  {
    if cookie.None? || cookie.value.id !in db.gateways then db
    else
      var gw := db.gateways[cookie.value.id];
      if gw.revoked || gw.secret != cookie.value.secret || (enforceIp && gw.ip != ip) || gw.idpSession !in db.sessions
      then db
      else
        var checked := IdpSessions.Checked(cfg.authz.sessions, db.sessions[gw.idpSession], ip, now, false);
        db.(sessions := db.sessions[gw.idpSession := checked])
  }

  /** Both brokers: their grant tables and the access audit they write. */
  class Broker {
    var grants: map<Ticket, Grant>
    var audits: seq<Audit>
    const cfg: Config

    constructor (cfg: Config)
      ensures grants == map[] && audits == [] && this.cfg == cfg
    {
      grants, audits := map[], [];
      this.cfg := cfg;
    }

    /** Every decision past the key check leaves exactly one audit row, an allow exactly
        when a token was minted. */
    method Issue(w: World, kind: Kind, token: nat, user: Id, resource: Id, ip: string, now: Instant)
      returns (outcome: Outcome)
      modifies this
      ensures outcome == Decide(cfg, w, kind, user, resource, now)
      ensures grants == if outcome.Granted?
                        then AfterIssue(cfg, old(grants), Ticket(kind, token), user, resource, ip, now)
                        else old(grants)
      ensures audits == if outcome.Disabled? then old(audits)
                        else old(audits) + [Audit(user, resource, outcome.port, outcome.Granted?, outcome.reason, ip)]
    {
      if !For(cfg, kind).hasKey { return Disabled; }
      if resource !in w.db.gate.resources || !w.db.gate.resources[resource].enabled {
        audits := audits + [Audit(user, resource, None, false, "unknown_resource", ip)];
        return Refused(None, "unknown_resource");
      }
      if resource !in w.connections || (kind == Stream && w.connections[resource].protocol != Rtsp) {
        audits := audits + [Audit(user, resource, None, false, "no_connection", ip)];
        return Refused(None, "no_connection");
      }
      var port := w.connections[resource].port;
      var d := PolicyDecision(cfg, w, user, resource, port, now);
      audits := audits + [Audit(user, resource, Some(port), d.allowed, d.reason, ip)];
      if !d.allowed { return Refused(Some(port), d.reason); }
      grants := grants[Ticket(kind, token) := Grant(user, resource, ip, now + For(cfg, kind).ttl, false)];
      return Granted(Some(port), d.reason);
    }

    /** The conditional update, and whether it hit a row. */
    method Consume(ticket: Ticket, user: Id, ip: string, now: Instant) returns (hit: bool)
      modifies this
      ensures hit <==> ticket in old(grants) && Consumable(old(grants)[ticket], user, ip, now)
      ensures grants == if hit then AfterConsume(old(grants), ticket) else old(grants)
      ensures audits == old(audits)
    {
      if ticket !in grants { return false; }
      var g := grants[ticket];
      if g.consumed || g.expires <= now || g.ip != ip || g.user != user { return false; }
      grants := grants[ticket := g.(consumed := true)];
      return true;
    }

    method Gc(now: Instant)
      modifies this
      ensures grants == AfterGc(old(grants), now)
      ensures audits == old(audits)
    {
      grants := map t | t in grants && !(t.kind == Tunnel
          && (grants[t].expires <= now || grants[t].consumed)) :: grants[t];
    }
  }

  // --------------------------------------------------------------------- runs

  /** A committed answer of an endpoint, with the rows it was given on. */
  datatype Entry =
    | Issued(at: Instant, ticket: Ticket, user: Id, ip: string, cookie: Option<Cookie>, w: World, resource: Id)
    | Admitted(at: Instant, ticket: Ticket, user: Id, ip: string, cookie: Option<Cookie>, w: World)

  datatype State = State(now: Instant, next: nat, w: World, grants: map<Ticket, Grant>, log: seq<Entry>)

  /** `Elsewhere` is everything the rest of the system does to the rows read here:
      logins, logouts, revocations, edits of users, roles, rules and resources. */
  datatype Action =
    | Mint(kind: Kind, resource: Id, ip: string, cookie: Option<Cookie>)
    | Open(ticket: Ticket, ip: string, cookie: Option<Cookie>)
    | Collect
    | Elsewhere(w: World)

  datatype Event = Event(dt: nat, action: Action)

  ghost predicate Live(cfg: Config, w: World, kind: Kind, cookie: Option<Cookie>, ip: string, now: Instant) {
    A.GatewayLive(cfg.authz, w.db, cookie, ip, now, EnforceIp(kind))
  }

  function Resolved(cfg: Config, w: World, kind: Kind, cookie: Option<Cookie>, ip: string, now: Instant): World {
    w.(db := AfterResolve(cfg, w.db, cookie, ip, now, EnforceIp(kind)))
  }

  /** `/guac/token` and `/rtsp/token`. */
  ghost function MintStep(cfg: Config, s: State, kind: Kind, resource: Id, ip: string, cookie: Option<Cookie>): State {
    var w := Resolved(cfg, s.w, kind, cookie, ip, s.now);
    if !Live(cfg, s.w, kind, cookie, ip, s.now) then s.(w := w)
    else
      var user := s.w.db.gateways[cookie.value.id].user;
      if !Decide(cfg, w, kind, user, resource, s.now).Granted? then s.(w := w)
      else
        s.(w := w, next := s.next + 1,
           grants := AfterIssue(cfg, s.grants, Ticket(kind, s.next), user, resource, ip, s.now),
           log := s.log + [Issued(s.now, Ticket(kind, s.next), user, ip, cookie, s.w, resource)])
  }

  /** `/guac/consume` and `/rtsp/consume`. */
  ghost function OpenStep(cfg: Config, s: State, t: Ticket, ip: string, cookie: Option<Cookie>): State {
    var w := Resolved(cfg, s.w, t.kind, cookie, ip, s.now);
    if !Live(cfg, s.w, t.kind, cookie, ip, s.now) then s.(w := w)
    else
      var user := s.w.db.gateways[cookie.value.id].user;
      if t !in s.grants || !Consumable(s.grants[t], user, ip, s.now) then s.(w := w)
      else
        s.(w := w, grants := AfterConsume(s.grants, t),
           log := s.log + [Admitted(s.now, t, user, ip, cookie, s.w)])
  }

  ghost function Apply(cfg: Config, s: State, action: Action): State {
    match action
    case Mint(kind, resource, ip, cookie) => MintStep(cfg, s, kind, resource, ip, cookie)
    case Open(ticket, ip, cookie) => OpenStep(cfg, s, ticket, ip, cookie)
    case Collect => s.(grants := AfterGc(s.grants, s.now))
    case Elsewhere(w) => s.(w := w)
  }

  ghost function Step(cfg: Config, s: State, e: Event): State {
    Apply(cfg, s.(now := s.now + e.dt), e.action)
  }

  ghost function Run(cfg: Config, s: State, events: seq<Event>): State
    decreases |events|
  {
    if events == [] then s else Run(cfg, Step(cfg, s, events[0]), events[1..])
  }

  // ------------------------------------------------------------- invariants

  /** The gateway session behind an entry was live, its IdP session with it, and was
      this user's. */
  ghost predicate HeldBy(cfg: Config, e: Entry) {
    Live(cfg, e.w, e.ticket.kind, e.cookie, e.ip, e.at) && e.w.db.gateways[e.cookie.value.id].user == e.user
  }

  ghost predicate Justified(cfg: Config, e: Entry) {
    HeldBy(cfg, e)
    && (e.Issued? ==> Decide(cfg, Resolved(cfg, e.w, e.ticket.kind, e.cookie, e.ip, e.at), e.ticket.kind, e.user,
        e.resource, e.at).Granted?)
  }

  /** An issue that explains an unconsumed grant row. */
  predicate Backs(cfg: Config, e: Entry, t: Ticket, g: Grant) {
    e.Issued? && e.ticket == t && e.user == g.user && e.ip == g.ip && g.expires == e.at + For(cfg, t.kind).ttl
  }

  /** An issue that explains an admission. */
  predicate Explains(cfg: Config, issue: Entry, admission: Entry) {
    && issue.Issued? && admission.Admitted?
    && issue.ticket == admission.ticket && issue.user == admission.user && issue.ip == admission.ip
    && issue.at <= admission.at < issue.at + For(cfg, admission.ticket.kind).ttl
  }

  ghost predicate GrantsBacked(cfg: Config, s: State) {
    forall t :: t in s.grants ==> exists i :: 0 <= i < |s.log| && Backs(cfg, s.log[i], t, s.grants[t])
  }

  ghost predicate AdmissionsExplained(cfg: Config, log: seq<Entry>) {
    forall k :: 0 <= k < |log| && log[k].Admitted? ==> exists i :: 0 <= i < k && Explains(cfg, log[i], log[k])
  }

  predicate Spent(s: State, t: Ticket) {
    t in s.grants ==> s.grants[t].consumed
  }

  ghost predicate LogSane(s: State) {
    && (forall k :: 0 <= k < |s.log| ==> s.log[k].ticket.token < s.next && s.log[k].at <= s.now)
    && (forall k :: 0 <= k < |s.log| && s.log[k].Admitted? ==> Spent(s, s.log[k].ticket))
    && (forall t :: t in s.grants ==> t.token < s.next)
  }

  ghost predicate AdmittedOnce(log: seq<Entry>) {
    forall i, j :: 0 <= i < j < |log| && log[i].Admitted? && log[j].Admitted? ==> log[i].ticket != log[j].ticket
  }

  ghost predicate Inv(cfg: Config, s: State) {
    GrantsBacked(cfg, s) && AdmissionsExplained(cfg, s.log) && LogSane(s) && AdmittedOnce(s.log)
  }

  /** Log unchanged, and every grant row a former one. */
  lemma FewerGrants(cfg: Config, s: State, t: State)
    requires Inv(cfg, s) && t.log == s.log && t.next == s.next && t.now >= s.now
    requires forall k :: k in t.grants ==> k in s.grants && t.grants[k] == s.grants[k]
    ensures Inv(cfg, t)
  {
    forall k | k in t.grants ensures exists i :: 0 <= i < |t.log| && Backs(cfg, t.log[i], k, t.grants[k]) {
      var i :| 0 <= i < |s.log| && Backs(cfg, s.log[i], k, s.grants[k]);
    }
  }

  lemma BackedAfterSnoc(cfg: Config, s: State, t: State, e: Entry)
    requires GrantsBacked(cfg, s) && t.log == s.log + [e]
    requires forall k :: k in t.grants ==>
               (k in s.grants && t.grants[k].(consumed := s.grants[k].consumed) == s.grants[k])
                   || Backs(cfg, e, k, t.grants[k])
    ensures GrantsBacked(cfg, t)
  {
    forall k | k in t.grants ensures exists i :: 0 <= i < |t.log| && Backs(cfg, t.log[i], k, t.grants[k]) {
      if Backs(cfg, e, k, t.grants[k]) {
        assert t.log[|s.log|] == e;
      } else {
        var i :| 0 <= i < |s.log| && Backs(cfg, s.log[i], k, s.grants[k]);
        assert t.log[i] == s.log[i];
      }
    }
  }

  lemma ExplainedAfterSnoc(cfg: Config, log: seq<Entry>, e: Entry)
    requires AdmissionsExplained(cfg, log)
    requires e.Admitted? ==> exists i :: 0 <= i < |log| && Explains(cfg, log[i], e)
    ensures AdmissionsExplained(cfg, log + [e])
  {
    var log' := log + [e];
    forall k | 0 <= k < |log'| && log'[k].Admitted? ensures exists i :: 0 <= i < k && Explains(cfg, log'[i], log'[k]) {
      if k < |log| {
        var i :| 0 <= i < k && Explains(cfg, log[i], log[k]);
        assert log'[i] == log[i];
      } else {
        var i :| 0 <= i < |log| && Explains(cfg, log[i], e);
        assert log'[i] == log[i];
      }
    }
  }

  /** A new entry keeps the bookkeeping of the log when its ticket is new or, for an
      admission, was not spent before and is now. */
  lemma SaneAfterSnoc(s: State, t: State, e: Entry)
    requires LogSane(s) && AdmittedOnce(s.log)
    requires t.log == s.log + [e] && t.now == s.now && t.next >= s.next && e.ticket.token < t.next && e.at <= t.now
    requires forall k :: k in t.grants ==> k.token < t.next
    requires forall k :: Spent(s, k) && k.token < s.next ==> Spent(t, k)
    requires e.Admitted? ==> !Spent(s, e.ticket) && Spent(t, e.ticket)
    ensures LogSane(t) && AdmittedOnce(t.log)
  {
    forall k | 0 <= k < |t.log|
      ensures t.log[k].ticket.token < t.next && t.log[k].at <= t.now
      ensures t.log[k].Admitted? ==> Spent(t, t.log[k].ticket)
    {
      if k < |s.log| { assert t.log[k] == s.log[k]; }
    }
    forall i, j | 0 <= i < j < |t.log| && t.log[i].Admitted? && t.log[j].Admitted?
      ensures t.log[i].ticket != t.log[j].ticket
    {
      assert t.log[i] == s.log[i];
      if j < |s.log| { assert t.log[j] == s.log[j]; }
    }
  }

  lemma IssueKeepsInv(cfg: Config, s: State, e: Entry, g: Grant, t: State)
    requires Inv(cfg, s) && t.log == s.log + [e] && t.now == s.now && t.next == s.next + 1
    requires e.Issued? && e.ticket.token == s.next && e.at == s.now
    requires Backs(cfg, e, e.ticket, g) && t.grants == s.grants[e.ticket := g]
    ensures Inv(cfg, t)
  {
    BackedAfterSnoc(cfg, s, t, e);
    ExplainedAfterSnoc(cfg, s.log, e);
    SaneAfterSnoc(s, t, e);
  }

  lemma AdmissionKeepsInv(cfg: Config, s: State, e: Entry, t: State)
    requires Inv(cfg, s) && t.log == s.log + [e] && t.now == s.now && t.next == s.next
    requires e.Admitted? && e.at == s.now && e.ticket in s.grants
    requires Consumable(s.grants[e.ticket], e.user, e.ip, e.at)
    requires t.grants == s.grants[e.ticket := s.grants[e.ticket].(consumed := true)]
    ensures Inv(cfg, t)
  {
    var i :| 0 <= i < |s.log| && Backs(cfg, s.log[i], e.ticket, s.grants[e.ticket]);
    assert Explains(cfg, s.log[i], e);
    BackedAfterSnoc(cfg, s, t, e);
    ExplainedAfterSnoc(cfg, s.log, e);
    SaneAfterSnoc(s, t, e);
  }

  lemma MintKeepsInv(cfg: Config, s: State, kind: Kind, resource: Id, ip: string, cookie: Option<Cookie>, t: State)
    requires Inv(cfg, s) && t == MintStep(cfg, s, kind, resource, ip, cookie)
    ensures Inv(cfg, t)
  {
    if t.log == s.log {
      FewerGrants(cfg, s, t);
    } else {
      var e := t.log[|s.log|];
      IssueKeepsInv(cfg, s, e, t.grants[e.ticket], t);
    }
  }

  lemma OpenKeepsInv(cfg: Config, s: State, k: Ticket, ip: string, cookie: Option<Cookie>, t: State)
    requires Inv(cfg, s) && t == OpenStep(cfg, s, k, ip, cookie)
    ensures Inv(cfg, t)
  {
    if t.log == s.log {
      FewerGrants(cfg, s, t);
    } else {
      AdmissionKeepsInv(cfg, s, t.log[|s.log|], t);
    }
  }

  lemma ApplyKeepsInv(cfg: Config, s: State, action: Action, t: State)
    requires Inv(cfg, s) && t == Apply(cfg, s, action)
    ensures Inv(cfg, t)
  {
    match action
    case Mint(kind, resource, ip, cookie) => MintKeepsInv(cfg, s, kind, resource, ip, cookie, t);
    case Open(ticket, ip, cookie) => OpenKeepsInv(cfg, s, ticket, ip, cookie, t);
    case Collect => FewerGrants(cfg, s, t);
    case Elsewhere(w) => FewerGrants(cfg, s, t);
  }

  lemma StepKeepsInv(cfg: Config, s: State, e: Event, t: State)
    requires Inv(cfg, s) && t == Step(cfg, s, e)
    ensures Inv(cfg, t)
  {
    hide Inv, Apply;
    var later := s.(now := s.now + e.dt);
    assert Inv(cfg, later) by { FewerGrants(cfg, s, later); }
    assert t == Apply(cfg, later, e.action);
    assert Inv(cfg, t) by { ApplyKeepsInv(cfg, later, e.action, t); }
  }

  lemma {:induction false} RunKeepsInv(cfg: Config, s: State, events: seq<Event>)
    requires Inv(cfg, s)
    ensures Inv(cfg, Run(cfg, s, events))
    decreases |events|
  {
    if events != [] {
      var t := Step(cfg, s, events[0]);
      StepKeepsInv(cfg, s, events[0], t);
      RunKeepsInv(cfg, t, events[1..]);
    }
  }

  ghost predicate AllJustified(cfg: Config, log: seq<Entry>) {
    forall k :: 0 <= k < |log| ==> Justified(cfg, log[k])
  }

  lemma StepJustifies(cfg: Config, s: State, e: Event, t: State)
    requires AllJustified(cfg, s.log) && t == Step(cfg, s, e)
    ensures AllJustified(cfg, t.log)
  {
    if t.log != s.log { assert Justified(cfg, t.log[|s.log|]); }
  }

  lemma {:induction false} RunJustifies(cfg: Config, s: State, events: seq<Event>)
    requires AllJustified(cfg, s.log)
    ensures AllJustified(cfg, Run(cfg, s, events).log)
    decreases |events|
  {
    if events != [] {
      var t := Step(cfg, s, events[0]);
      StepJustifies(cfg, s, events[0], t);
      RunJustifies(cfg, t, events[1..]);
    }
  }

  // ------------------------------------------------------------ main results

  function Start(w: World): State { State(0, 0, w, map[], []) }

  /** Whatever the rest of the system does in between, a token opens at most once. */
  lemma TokensOpenAtMostOnce(cfg: Config, w: World, events: seq<Event>, i: nat, j: nat)
    requires i < j < |Run(cfg, Start(w), events).log|
    requires Run(cfg, Start(w), events).log[i].Admitted? && Run(cfg, Start(w), events).log[j].Admitted?
    ensures Run(cfg, Start(w), events).log[i].ticket != Run(cfg, Start(w), events).log[j].ticket
  {
    RunKeepsInv(cfg, Start(w), events);
  }

  /** Every admission follows an issue of that token to the same user at the same
      address, strictly less than the grant lifetime earlier, on which the policy
      allowed; at both instants a gateway session of that user and the IdP session
      behind it were live. */
  lemma AdmissionTracesToAnAllowedIssue(cfg: Config, w: World, events: seq<Event>, k: nat)
    requires k < |Run(cfg, Start(w), events).log| && Run(cfg, Start(w), events).log[k].Admitted?
    ensures
      var log := Run(cfg, Start(w), events).log;
      HeldBy(cfg, log[k])
      && exists i :: 0 <= i < k && Explains(cfg, log[i], log[k]) && HeldBy(cfg, log[i])
                     && PolicyAllowed(cfg, log[i])
  {
    RunKeepsInv(cfg, Start(w), events);
    RunJustifies(cfg, Start(w), events);
    var s := Run(cfg, Start(w), events);
    var i :| 0 <= i < k && Explains(cfg, s.log[i], s.log[k]);
    assert Justified(cfg, s.log[i]) && Justified(cfg, s.log[k]);
    IssueWasAllowed(cfg, s.log[i]);
  }

  /** The rules and roles at that instant evaluated to an allow at the root path of the
      resource's connection, and the resource was enabled. */
  predicate PolicyAllowed(cfg: Config, e: Entry) {
    e.Issued? && e.resource in e.w.connections && Connected(e.w, e.ticket.kind, e.resource)
    && e.resource in e.w.db.gate.resources && e.w.db.gate.resources[e.resource].enabled
    && PolicyDecision(cfg, e.w, e.user, e.resource, e.w.connections[e.resource].port, e.at).allowed
  }

  lemma IssueWasAllowed(cfg: Config, e: Entry)
    requires e.Issued? && Justified(cfg, e)
    ensures PolicyAllowed(cfg, e)
  {
  }

  /** Conversely a grant that is neither spent nor expired opens for its user from its
      address, whatever was collected in between. */
  lemma GrantStaysOpenable(cfg: Config, s: State, t: Ticket, cookie: Option<Cookie>)
    requires t in s.grants && Consumable(s.grants[t], s.grants[t].user, s.grants[t].ip, s.now)
    requires Live(cfg, s.w, t.kind, cookie, s.grants[t].ip, s.now)
    requires s.w.db.gateways[cookie.value.id].user == s.grants[t].user
    ensures
      var collected := Apply(cfg, s, Collect);
      var after := Apply(cfg, collected, Open(t, s.grants[t].ip, cookie));
      |after.log| == |s.log| + 1 && after.log[|s.log|].ticket == t && after.log[|s.log|].Admitted?
  {
    var collected := Apply(cfg, s, Collect);
    assert t in collected.grants && collected.grants[t] == s.grants[t];
  }

  // ----------------------------------------------------- the endpoints on the rows

  /** What the engine is asked about a connection: the user's roles, its port, the root
      path and the clock. */
  ghost predicate Question(cfg: Config, w: World, user: Id, resource: Id, now: Instant, q: P.Request)
    requires resource in w.connections
  {
    && (forall id :: id in q.roles <==> user in w.db.roles && exists r :: r in w.db.roles[user] && r.id == id)
    && q.resource == resource && q.port == w.connections[resource].port && q.path == "/"
    && q.now == cfg.authz.moment(now)
  }

  lemma QuestionIsAsked(cfg: Config, w: World, user: Id, resource: Id, now: Instant, q: P.Request)
    requires resource in w.connections
    ensures Question(cfg, w, user, resource, now, q)
       <==> q == A.PolicyRequest(cfg.authz, w.db, user, resource, w.connections[resource].port, "/", now)
  {
    var asked := A.PolicyRequest(cfg.authz, w.db, user, resource, w.connections[resource].port, "/", now);
    assert forall id :: id in asked.roles <==> user in w.db.roles && exists r :: r in w.db.roles[user] && r.id == id;
    if Question(cfg, w, user, resource, now, q) { assert q.roles == asked.roles; }
  }

  /** The resource is enabled, has a connection the broker serves, and some stored rule
      allows it to the user at the root path while none denies it. */
  ghost predicate Reachable(cfg: Config, w: World, kind: Kind, user: Id, resource: Id, now: Instant) {
    resource in w.db.gate.resources && w.db.gate.resources[resource].enabled
    && resource in w.connections && (kind == Stream ==> w.connections[resource].protocol == Rtsp)
    && exists q :: Question(cfg, w, user, resource, now, q)
         && A.Told(w.db, resource, q, P.Allow) && !A.Told(w.db, resource, q, P.Deny)
  }

  /** The broker's decision by its causes, and with a reason for each. */
  lemma DecisionHasItsCause(cfg: Config, w: World, kind: Kind, user: Id, resource: Id, now: Instant)
    ensures
      var d := Decide(cfg, w, kind, user, resource, now);
      var key := if kind == Tunnel then cfg.tunnel.hasKey else cfg.stream.hasKey;
      && (d == Disabled <==> !key)
      && (d.Granted? <==> key && Reachable(cfg, w, kind, user, resource, now))
      && (d == Refused(None, "unknown_resource") <==>
            key && !(resource in w.db.gate.resources && w.db.gate.resources[resource].enabled))
      && (d == Refused(None, "no_connection") <==>
            key && resource in w.db.gate.resources && w.db.gate.resources[resource].enabled
            && !(resource in w.connections && (kind == Stream ==> w.connections[resource].protocol == Rtsp)))
      && (!d.Disabled? && d.port.Some? ==> resource in w.connections && d.port.value == w.connections[resource].port)
  {
    assert "unknown_resource"[0] != "no_connection"[0];
    if resource in w.connections {
      var asked := A.PolicyRequest(cfg.authz, w.db, user, resource, w.connections[resource].port, "/", now);
      forall q { QuestionIsAsked(cfg, w, user, resource, now, q); }
      A.EngineIsTold(w.db, resource, asked);
    }
  }

  /** Only the time the IdP session was last seen, or its end by idleness, moves. */
  lemma ResolvingKeepsTheRest(cfg: Config, w: World, kind: Kind, cookie: Option<Cookie>, ip: string, now: Instant,
      user: Id, resource: Id)
    ensures
      var t := Resolved(cfg, w, kind, cookie, ip, now);
      && t.connections == w.connections && t.db == w.db.(sessions := t.db.sessions)
      && t.db.sessions.Keys == w.db.sessions.Keys
      && (Reachable(cfg, t, kind, user, resource, now) <==> Reachable(cfg, w, kind, user, resource, now))
  {
    var t := Resolved(cfg, w, kind, cookie, ip, now);
    if resource in w.connections {
      forall q
        ensures Question(cfg, t, user, resource, now, q) <==> Question(cfg, w, user, resource, now, q)
        ensures A.Told(t.db, resource, q, P.Allow) <==> A.Told(w.db, resource, q, P.Allow)
        ensures A.Told(t.db, resource, q, P.Deny) <==> A.Told(w.db, resource, q, P.Deny)
      {
      }
    }
  }

  /** Resolving the cookie at a broker's endpoint checks the IdP session behind it. */
  lemma ResolvingChecksTheSession(cfg: Config, w: World, kind: Kind, cookie: Option<Cookie>, ip: string, now: Instant)
    requires A.SignedIn(cfg.authz, w.db, cookie, ip, now, kind == Tunnel)
    ensures
      var session := w.db.gateways[cookie.value.id].idpSession;
      var before, after := w.db.sessions, Resolved(cfg, w, kind, cookie, ip, now).db.sessions;
      && session in before && after == before[session := before[session].(lastSeen := after[session].lastSeen)]
      && after[session].lastSeen == if now >= before[session].lastSeen + cfg.authz.sessions.touchInterval
                                    then now else before[session].lastSeen
  {
    var session := w.db.gateways[cookie.value.id].idpSession;
    IdpSessions.CheckOnTheRow(cfg.authz.sessions, w.db.sessions[session], ip, now, false);
  }

  /** A token is minted exactly for the user of a gateway session that is signed in, at
      the tunnel endpoint from its own address, for a reachable resource while the
      broker has a key; the grant is that user's, for that resource and address, unspent,
      for the broker's lifetime. */
  lemma MintsIff(cfg: Config, s: State, kind: Kind, resource: Id, ip: string, cookie: Option<Cookie>)
    ensures
      var t := MintStep(cfg, s, kind, resource, ip, cookie);
      var settings := if kind == Tunnel then cfg.tunnel else cfg.stream;
      if A.SignedIn(cfg.authz, s.w.db, cookie, ip, s.now, kind == Tunnel) && settings.hasKey
         && Reachable(cfg, s.w, kind, s.w.db.gateways[cookie.value.id].user, resource, s.now)
      then
        var user := s.w.db.gateways[cookie.value.id].user;
        && t.grants == s.grants[Ticket(kind, s.next) := Grant(user, resource, ip, s.now + settings.ttl, false)]
        && t.log == s.log + [Issued(s.now, Ticket(kind, s.next), user, ip, cookie, s.w, resource)]
        && t.next == s.next + 1
      else t.grants == s.grants && t.log == s.log
  {
    hide Reachable, Decide, Resolved;
    A.SignedInIsLive(cfg.authz, s.w.db, cookie, ip, s.now, kind == Tunnel);
    if A.SignedIn(cfg.authz, s.w.db, cookie, ip, s.now, kind == Tunnel) {
      var user := s.w.db.gateways[cookie.value.id].user;
      ResolvingKeepsTheRest(cfg, s.w, kind, cookie, ip, s.now, user, resource);
      DecisionHasItsCause(cfg, Resolved(cfg, s.w, kind, cookie, ip, s.now), kind, user, resource, s.now);
    }
  }

  /** A token opens exactly for the user it was granted to, signed in, from the address
      it was granted to, while it is unspent and in time; and then it is spent. */
  lemma OpensIff(cfg: Config, s: State, t: Ticket, ip: string, cookie: Option<Cookie>)
    ensures
      var after := OpenStep(cfg, s, t, ip, cookie);
      if A.SignedIn(cfg.authz, s.w.db, cookie, ip, s.now, t.kind == Tunnel) && t in s.grants
         && !s.grants[t].consumed && s.now < s.grants[t].expires && s.grants[t].ip == ip
         && s.grants[t].user == s.w.db.gateways[cookie.value.id].user
      then
        && after.grants == s.grants[t := s.grants[t].(consumed := true)]
        && after.log == s.log + [Admitted(s.now, t, s.grants[t].user, ip, cookie, s.w)]
      else after.grants == s.grants && after.log == s.log
  {
    A.SignedInIsLive(cfg.authz, s.w.db, cookie, ip, s.now, t.kind == Tunnel);
  }

  /** A collection takes exactly the tunnel grants that are spent or over. */
  lemma CollectionTakes(grants: map<Ticket, Grant>, now: Instant, t: Ticket)
    ensures t in AfterGc(grants, now) <==>
            t in grants && (t.kind == Stream || (!grants[t].consumed && now < grants[t].expires))
    ensures t in AfterGc(grants, now) ==> AfterGc(grants, now)[t] == grants[t]
  {
  }
}
