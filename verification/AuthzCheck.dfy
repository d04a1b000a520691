/** The decision point (server/src/hyproxy/authz/check.py) with the gather step of
    server/src/hyproxy/authz/decision.py and the gateway session of
    server/src/hyproxy/authz/gateway.py. */
module AuthzCheck {
  import opened Prelude
  import opened Rows
  import P = PolicyEngine
  import HostNames
  import IdpSessions
  import PathGlob
  import PublicGate
  import R = RuleMeaning
  import Texts

  /** Settings; `cookie` reads a presented cookie, `moment` reads the clock in UTC. */
  datatype Config = Config(
    cacheTtl: int, adminConsole: Option<string>, sessions: IdpSessions.Config,
    gate: PublicGate.Config, cookie: string -> Option<Cookie>, moment: Instant -> P.Moment)

  datatype Role = Role(id: Id, name: string)

  /** The rows a check reads. `roles` is the user-role join, `policies` the rule table. */
  datatype Db = Db(
    gate: PublicGate.State,
    users: map<Id, User>, roles: map<Id, seq<Role>>, policies: map<Id, seq<P.Rule>>,
    sessions: map<Id, Session>, gateways: map<Id, GatewaySession>)

  datatype CheckRequest = CheckRequest(
    host: string, uri: string, ip: string, port: int, gatewayCookie: string, publicCookie: string)

  datatype CheckResponse = CheckResponse(decision: Verdict, reason: string, headers: map<string, string>,
      hostScope: bool, ttl: int)

  datatype Verdict = Allow | Deny | AuthRequired | NotFound

  function Plain(decision: Verdict, reason: string): CheckResponse {
    CheckResponse(decision, reason, map[], false, 0)
  }

  function PathPart(uri: string): string { if uri == "" then "/" else Split(uri, '?')[0] }

  /** `resolve_gateway_session`: the user behind a live gateway session. */
  predicate GatewayLive(cfg: Config, db: Db, cookie: Option<Cookie>, ip: string, now: Instant, enforceIp: bool) {
    cookie.Some? && cookie.value.id in db.gateways
    && var gw := db.gateways[cookie.value.id];
       !gw.revoked && gw.secret == cookie.value.secret && (enforceIp ==> gw.ip == ip)
       && gw.idpSession in db.sessions && IdpSessions.Alive(cfg.sessions, db.sessions[gw.idpSession], now)
  }

  function RoleIds(roles: seq<Role>): set<Id> { set r | r in roles :: r.id }

  function RolesOf(db: Db, user: Id): seq<Role> { if user in db.roles then db.roles[user] else [] }

  function RulesFor(db: Db, resource: Id): seq<P.Rule> { if resource in db.policies then db.policies[resource] else [] }

  /** Code-point order on strings, the order `sorted` puts the names in. */
  predicate NameLess(a: string, b: string) {
    b != "" && (a == "" || a[0] < b[0] || (a[0] == b[0] && NameLess(a[1..], b[1..])))
  }

  function InsertName(name: string, names: seq<string>): seq<string> {
    if names == [] || !NameLess(names[0], name) then [name] + names
    else [names[0]] + InsertName(name, names[1..])
  }

  function SortedNames(roles: seq<Role>): seq<string> {
    if roles == [] then [] else InsertName(roles[0].name, SortedNames(roles[1..]))
  }

  function Identity(user: User, roles: seq<Role>): map<string, string> {
    map["X-Forwarded-User" := user.email, "X-Auth-User-Id" := user.externalId,
        "X-Auth-Roles" := Texts.Joined(SortedNames(roles), ',')]
  }

  /** The host a request is for: `body.host.strip().lower().rstrip(".")`. */
  function HostOf(req: CheckRequest): string { HostNames.LookupKey(req.host) }

  function Port(r: Resource, port: int): int {
    if port != 0 then port else if r.ports != [] then r.ports[0] else 0
  }

  function PolicyRequest(cfg: Config, db: Db, user: Id, resource: Id, port: int, path: string,
      now: Instant): P.Request
  {
    P.Request(RoleIds(RolesOf(db, user)), resource, port, path, cfg.moment(now))
  }

  /** The branch for a resource behind single sign-on, once the user is known. */
  function CheckUser(cfg: Config, db: Db, resource: Id, user: Id, req: CheckRequest, now: Instant): CheckResponse
    requires resource in db.gate.resources
  {
    if user !in db.users || !db.users[user].active then Plain(Deny, "user_inactive")
    else if !db.users[user].admin && cfg.adminConsole == Some(HostOf(req)) then Plain(AuthRequired, "tier_forbidden")
    else
      var port := Port(db.gate.resources[resource], req.port);
      var q := PolicyRequest(cfg, db, user, resource, port, PathPart(req.uri), now);
      var rules := RulesFor(db, resource);
      var decision := P.Evaluate(rules, q);
      if !decision.allowed then Plain(Deny, decision.reason)
      else
        var cacheable := P.Stable(rules, q.roles, resource, port) && cfg.cacheTtl > 0;
        CheckResponse(Allow, decision.reason, Identity(db.users[user], RolesOf(db, user)),
                      cacheable, if cacheable then cfg.cacheTtl else 0)
  }

  ghost function PublicResponse(answer: PublicGate.Answer): CheckResponse {
    match answer
    case NotFound => Plain(NotFound, "public_path_unmatched")
    case AuthRequired => Plain(AuthRequired, "public_unauthenticated")
    case Allow => Plain(Allow, "public_allowed")
  }

  /** `check`. */
  ghost function Check(cfg: Config, db: Db, req: CheckRequest, now: Instant): CheckResponse {
    var f := PublicGate.FindEnabled(db.gate.resources, HostOf(req), 0, db.gate.next);
    if f.None? || f.value !in db.gate.resources then Plain(Deny, "unknown_resource")
    else if db.gate.resources[f.value].publicAccess then
      PublicResponse(PublicGate.CheckPublic(cfg.gate, db.gate.(now := now), f.value, req.ip, PathPart(req.uri),
          cfg.cookie(req.publicCookie)))
    else
      var cookie := cfg.cookie(req.gatewayCookie);
      if !GatewayLive(cfg, db, cookie, req.ip, now, true) then Plain(AuthRequired, "unauthenticated")
      else CheckUser(cfg, db, f.value, db.gateways[cookie.value.id].user, req, now)
  }

  // ------------------------------------------------------- the check on the rows

  predicate Serves(db: Db, resource: Id, host: string) {
    resource in db.gate.resources
    && db.gate.resources[resource].enabled && db.gate.resources[resource].host == Some(host)
  }

  /** The resource a host belongs to: enabled, stored under it, and the first such row
      (the column is unique, so the only one). */
  ghost predicate Owns(db: Db, resource: Id, host: string) {
    resource < db.gate.next && Serves(db, resource, host) && forall k: Id :: k < resource ==> !Serves(db, k, host)
  }

  lemma OwnerIsFound(db: Db, host: string, resource: Id)
    ensures PublicGate.FindEnabled(db.gate.resources, host, 0, db.gate.next) == Some(resource)
       <==> Owns(db, resource, host)
  {
    PublicGate.FindsTheFirst(db.gate.resources, host, 0, db.gate.next, resource);
    forall k: Id ensures Serves(db, k, host) <==>
        k in db.gate.resources && db.gate.resources[k].host == Some(host) && db.gate.resources[k].enabled {}
  }

  /** The cookie names an unrevoked gateway row and proves it, from the row's address
      where that is bound, and the IdP session behind it is neither revoked nor stale
      and inside its absolute and its idle bound. */
  predicate SignedIn(cfg: Config, db: Db, cookie: Option<Cookie>, ip: string, now: Instant, bindIp: bool) {
    cookie.Some? && cookie.value.id in db.gateways
    && var gw := db.gateways[cookie.value.id];
       && !gw.revoked && gw.secret == cookie.value.secret && (bindIp ==> gw.ip == ip) && gw.idpSession in db.sessions
       && var s := db.sessions[gw.idpSession];
          !s.revoked && !s.stale && now < s.absoluteExpiry && now - s.lastSeen <= cfg.sessions.idle
  }

  lemma SignedInIsLive(cfg: Config, db: Db, cookie: Option<Cookie>, ip: string, now: Instant, bindIp: bool)
    ensures GatewayLive(cfg, db, cookie, ip, now, bindIp) <==> SignedIn(cfg, db, cookie, ip, now, bindIp)
  {
  }

  /** The path a URI asks for: all of it up to the first question mark. */
  ghost predicate Asks(uri: string, path: string) {
    if uri == "" then path == "/"
    else '?' !in path && (uri == path || exists query :: uri == path + "?" + query)
  }

  lemma PathReads(uri: string, path: string)
    ensures PathPart(uri) == path <==> Asks(uri, path)
  {
    if uri != "" {
      var parts := Split(uri, '?');
      Texts.JoinedSplit(uri, '?');
      assert |parts| > 1 ==> uri == parts[0] + "?" + Texts.Joined(parts[1..], '?');
      if Asks(uri, path) {
        if uri == path {
          Texts.SplitWhole(path, '?');
        } else {
          var query :| uri == path + "?" + query;
          Texts.SplitFirst(path, query, '?');
        }
      }
    }
  }

  /** What the engine is asked about a user: exactly the roles the user holds, the port
      named or else the resource's first, the path and the clock. */
  ghost predicate Question(cfg: Config, db: Db, user: Id, resource: Id, req: CheckRequest, now: Instant, q: P.Request)
    requires resource in db.gate.resources
  {
    var ports := db.gate.resources[resource].ports;
    && (forall id :: id in q.roles <==> user in db.roles && exists r :: r in db.roles[user] && r.id == id)
    && q.resource == resource && Asks(req.uri, q.path) && q.now == cfg.moment(now)
    && q.port == if req.port != 0 then req.port else if ports == [] then 0 else ports[0]
  }

  lemma QuestionIsAsked(cfg: Config, db: Db, user: Id, resource: Id, req: CheckRequest, now: Instant, q: P.Request)
    requires resource in db.gate.resources
    ensures Question(cfg, db, user, resource, req, now, q)
       <==> q == PolicyRequest(cfg, db, user, resource, Port(db.gate.resources[resource], req.port),
                PathPart(req.uri), now)
  {
    PathReads(req.uri, q.path);
    var asked := PolicyRequest(cfg, db, user, resource, Port(db.gate.resources[resource], req.port),
        PathPart(req.uri), now);
    assert forall id :: id in asked.roles <==> user in db.roles && exists r :: r in db.roles[user] && r.id == id;
    if Question(cfg, db, user, resource, req, now, q) { assert q.roles == asked.roles; }
  }

  ghost predicate Told(db: Db, resource: Id, q: P.Request, action: P.Action) {
    resource in db.policies && R.SomeSpeaks(db.policies[resource], q, action)
  }

  /** Who may reach a resource behind single sign-on: the active user of a live gateway
      session from this address, an administrator where the host is the console, to whom
      some stored rule says allow and none says deny. */
  ghost predicate Entitled(cfg: Config, db: Db, resource: Id, req: CheckRequest, now: Instant)
    requires resource in db.gate.resources
  {
    var cookie := cfg.cookie(req.gatewayCookie);
    && SignedIn(cfg, db, cookie, req.ip, now, true)
    && var user := db.gateways[cookie.value.id].user;
       && user in db.users && db.users[user].active
       && (cfg.adminConsole == Some(HostOf(req)) ==> db.users[user].admin)
       && exists q :: Question(cfg, db, user, resource, req, now, q)
            && Told(db, resource, q, P.Allow) && !Told(db, resource, q, P.Deny)
  }

  /** A session of the resource's gate: unrevoked, in time, named and proved by the
      cookie, and from the address it was opened at when binding is on. */
  predicate GateSession(cfg: Config, db: Db, resource: Id, req: CheckRequest, now: Instant) {
    var cookie := cfg.cookie(req.publicCookie);
    cookie.Some? && cookie.value.id in db.gate.sessions
    && var row := db.gate.sessions[cookie.value.id];
       row.resource == resource && !row.revoked && now < row.expires && row.secret == cookie.value.secret
       && (cfg.gate.bindIp ==> row.ip == Some(req.ip))
  }

  ghost predicate Exposed(r: Resource, uri: string) {
    r.publicPaths.Some? && exists path :: Asks(uri, path) && PathGlob.Matches(r.publicPaths.value, path)
  }

  lemma ExposedReads(r: Resource, uri: string)
    ensures PathGlob.Matches(PublicGate.PathsOf(r), PathPart(uri)) <==> Exposed(r, uri)
  {
    PathReads(uri, PathPart(uri));
    if Exposed(r, uri) {
      var path :| Asks(uri, path) && PathGlob.Matches(r.publicPaths.value, path);
      PathReads(uri, path);
    }
  }

  lemma EngineIsTold(db: Db, resource: Id, q: P.Request)
    ensures P.Evaluate(RulesFor(db, resource), q) ==
            if Told(db, resource, q, P.Deny) then P.Decision(false, "explicit_deny")
            else if Told(db, resource, q, P.Allow) then P.Decision(true, "allow")
            else P.Decision(false, "default_deny")
  {
    R.EngineDecidesByWhatSpeaks(RulesFor(db, resource), q);
  }

  /** No answer but a refusal where no enabled resource is stored under the host. */
  lemma UnknownHostsAreDenied(cfg: Config, db: Db, req: CheckRequest, now: Instant)
    requires forall f :: !Owns(db, f, HostOf(req))
    ensures Check(cfg, db, req, now) == CheckResponse(Deny, "unknown_resource", map[], false, 0)
  {
    var f := PublicGate.FindEnabled(db.gate.resources, HostOf(req), 0, db.gate.next);
    if f.Some? { OwnerIsFound(db, HostOf(req), f.value); }
  }

  /** The whole answer about a public resource: no identity, and nothing to cache. */
  lemma PublicAnswers(cfg: Config, db: Db, req: CheckRequest, now: Instant, f: Id)
    requires Owns(db, f, HostOf(req)) && db.gate.resources[f].publicAccess
    ensures Check(cfg, db, req, now) ==
            if !Exposed(db.gate.resources[f], req.uri)
            then CheckResponse(NotFound, "public_path_unmatched", map[], false, 0)
            else if !GateSession(cfg, db, f, req, now)
            then CheckResponse(AuthRequired, "public_unauthenticated", map[], false, 0)
            else CheckResponse(Allow, "public_allowed", map[], false, 0)
  {
    OwnerIsFound(db, HostOf(req), f);
    ExposedReads(db.gate.resources[f], req.uri);
  }

  /** What an allow may say about reuse: the host's decision does not look at path or
      clock, as far as the stored rules go. */
  ghost predicate Reusable(cfg: Config, db: Db, q: P.Request) {
    cfg.cacheTtl > 0 && q.resource in db.policies
    && (forall r :: r in db.policies[q.resource] && R.Concerns(r, q.roles, q.resource, q.port) ==> r.action == P.Allow)
    && exists r :: r in db.policies[q.resource] && R.Concerns(r, q.roles, q.resource, q.port) && R.Plain(r)
  }

  /** The whole answer about any other resource. */
  lemma SignedInAnswers(cfg: Config, db: Db, req: CheckRequest, now: Instant, f: Id, q: P.Request)
    requires Owns(db, f, HostOf(req)) && !db.gate.resources[f].publicAccess
    requires
      var cookie := cfg.cookie(req.gatewayCookie);
      SignedIn(cfg, db, cookie, req.ip, now, true) ==>
        Question(cfg, db, db.gateways[cookie.value.id].user, f, req, now, q)
    ensures
      var cookie := cfg.cookie(req.gatewayCookie);
      Check(cfg, db, req, now) ==
        if !SignedIn(cfg, db, cookie, req.ip, now, true)
        then CheckResponse(AuthRequired, "unauthenticated", map[], false, 0)
        else
          var user := db.gateways[cookie.value.id].user;
          if user !in db.users || !db.users[user].active then CheckResponse(Deny, "user_inactive", map[], false, 0)
          else if cfg.adminConsole == Some(HostOf(req)) && !db.users[user].admin
          then CheckResponse(AuthRequired, "tier_forbidden", map[], false, 0)
          else if Told(db, f, q, P.Deny) then CheckResponse(Deny, "explicit_deny", map[], false, 0)
          else if !Told(db, f, q, P.Allow) then CheckResponse(Deny, "default_deny", map[], false, 0)
          else CheckResponse(Allow, "allow", Identity(db.users[user], RolesOf(db, user)), Reusable(cfg, db, q),
                             if Reusable(cfg, db, q) then cfg.cacheTtl else 0)
  {
    OwnerIsFound(db, HostOf(req), f);
    var cookie := cfg.cookie(req.gatewayCookie);
    SignedInIsLive(cfg, db, cookie, req.ip, now, true);
    if SignedIn(cfg, db, cookie, req.ip, now, true) {
      QuestionIsAsked(cfg, db, db.gateways[cookie.value.id].user, f, req, now, q);
      EngineIsTold(db, f, q);
      R.StabilityReads(RulesFor(db, f), q.roles, f, q.port);
    }
  }

  /** The decision in full, on the stored rows: a request is allowed exactly when its
      host belongs to an enabled resource and either that resource is public, exposes
      the path and the caller holds a session of its gate, or it is not and the caller
      is entitled. */
  lemma AllowedIff(cfg: Config, db: Db, req: CheckRequest, now: Instant)
    ensures Check(cfg, db, req, now).decision == Allow
       <==> exists f :: Owns(db, f, HostOf(req))
              && if db.gate.resources[f].publicAccess
                 then Exposed(db.gate.resources[f], req.uri) && GateSession(cfg, db, f, req, now)
                 else Entitled(cfg, db, f, req, now)
  {
    if f :| Owns(db, f, HostOf(req)) {
      forall g | Owns(db, g, HostOf(req)) ensures g == f {}
      if db.gate.resources[f].publicAccess {
        PublicAnswers(cfg, db, req, now, f);
      } else {
        AllowedWhenEntitled(cfg, db, req, now, f);
      }
    } else {
      UnknownHostsAreDenied(cfg, db, req, now);
    }
  }

  lemma AllowedWhenEntitled(cfg: Config, db: Db, req: CheckRequest, now: Instant, f: Id)
    requires Owns(db, f, HostOf(req)) && !db.gate.resources[f].publicAccess
    ensures Check(cfg, db, req, now).decision == Allow <==> Entitled(cfg, db, f, req, now)
  {
    var cookie := cfg.cookie(req.gatewayCookie);
    if SignedIn(cfg, db, cookie, req.ip, now, true) {
      var user := db.gateways[cookie.value.id].user;
      var asked := PolicyRequest(cfg, db, user, f, Port(db.gate.resources[f], req.port), PathPart(req.uri), now);
      forall q { QuestionIsAsked(cfg, db, user, f, req, now, q); }
      SignedInAnswers(cfg, db, req, now, f, asked);
    } else {
      SignedInAnswers(cfg, db, req, now, f, P.Request({}, f, 0, "", cfg.moment(now)));
    }
  }

  // ------------------------------------------------------- the identity headers

  /** The order of code points: a proper prefix first, else the first difference. */
  predicate EarlierAt(a: string, b: string, k: nat) {
    k <= |a| && k < |b| && a[..k] == b[..k] && (k < |a| ==> a[k] < b[k])
  }

  ghost predicate Earlier(a: string, b: string) { exists k: nat :: EarlierAt(a, b, k) }

  lemma {:induction false} NameLessIsEarlier(a: string, b: string)
    ensures NameLess(a, b) <==> Earlier(a, b)
  {
    if a == "" || b == "" || a[0] != b[0] {
      if NameLess(a, b) { assert EarlierAt(a, b, 0); }
    } else {
      NameLessIsEarlier(a[1..], b[1..]);
      if Earlier(a[1..], b[1..]) {
        var k: nat :| EarlierAt(a[1..], b[1..], k);
        assert a[..k + 1] == [a[0]] + a[1..][..k] && b[..k + 1] == [b[0]] + b[1..][..k];
        assert EarlierAt(a, b, k + 1);
      }
      if Earlier(a, b) {
        var k: nat :| EarlierAt(a, b, k);
        assert a[1..][..k - 1] == a[..k][1..] && b[1..][..k - 1] == b[..k][1..];
        assert EarlierAt(a[1..], b[1..], k - 1);
      }
    }
  }

  /** Nothing later stands before something earlier. */
  predicate InOrder(names: seq<string>) {
    forall i, j :: 0 <= i < j < |names| ==> !NameLess(names[j], names[i])
  }

  lemma {:induction false} OrderIsTransitive(a: string, b: string, c: string)
    requires !NameLess(b, a) && !NameLess(c, b)
    ensures !NameLess(c, a)
  {
    if a != "" && b != "" && c != "" && a[0] == b[0] == c[0] { OrderIsTransitive(a[1..], b[1..], c[1..]); }
  }

  lemma {:induction false} OrderIsTotal(a: string, b: string)
    ensures !NameLess(a, b) || !NameLess(b, a)
  {
    if a != "" && b != "" && a[0] == b[0] { OrderIsTotal(a[1..], b[1..]); }
  }

  /** A list in order below a head that is not later than any of it. */
  lemma ConsInOrder(head: string, rest: seq<string>)
    requires InOrder(rest) && forall n :: n in rest ==> !NameLess(n, head)
    ensures InOrder([head] + rest)
  {
    var all := [head] + rest;
    forall i, j | 0 <= i < j < |all| ensures !NameLess(all[j], all[i]) {
      assert all[j] == rest[j - 1] && rest[j - 1] in rest;
      if i > 0 { assert all[i] == rest[i - 1]; }
    }
  }

  lemma TailInOrder(names: seq<string>)
    requires InOrder(names) && names != []
    ensures InOrder(names[1..]) && forall n :: n in names[1..] ==> !NameLess(n, names[0])
  {
    var rest := names[1..];
    forall i, j | 0 <= i < j < |rest| ensures !NameLess(rest[j], rest[i]) {
      assert rest[i] == names[i + 1] && rest[j] == names[j + 1];
    }
    forall n | n in rest ensures !NameLess(n, names[0]) {
      var j :| 0 <= j < |rest| && rest[j] == n;
      assert names[j + 1] == n;
    }
  }

  lemma {:induction false} InsertHolds(name: string, names: seq<string>)
    ensures multiset(InsertName(name, names)) == multiset{name} + multiset(names)
    ensures forall n :: n in InsertName(name, names) ==> n == name || n in names
  {
    if names != [] && NameLess(names[0], name) {
      assert names == [names[0]] + names[1..];
      InsertHolds(name, names[1..]);
    }
  }

  lemma {:induction false} InsertKeepsOrder(name: string, names: seq<string>)
    requires InOrder(names)
    ensures InOrder(InsertName(name, names))
  {
    if names != [] {
      TailInOrder(names);
      if NameLess(names[0], name) {
        var rest := InsertName(name, names[1..]);
        InsertKeepsOrder(name, names[1..]);
        InsertHolds(name, names[1..]);
        OrderIsTotal(names[0], name);
        ConsInOrder(names[0], rest);
      } else {
        forall n | n in names ensures !NameLess(n, name) {
          if n != names[0] {
            assert n in names[1..];
            OrderIsTransitive(name, names[0], n);
          }
        }
        ConsInOrder(name, names);
      }
    }
  }

  function Names(roles: seq<Role>): seq<string> { seq(|roles|, i requires 0 <= i < |roles| => roles[i].name) }

  lemma {:induction false} SortedNamesAreSorted(roles: seq<Role>)
    ensures InOrder(SortedNames(roles)) && multiset(SortedNames(roles)) == multiset(Names(roles))
  {
    if roles != [] {
      SortedNamesAreSorted(roles[1..]);
      InsertKeepsOrder(roles[0].name, SortedNames(roles[1..]));
      InsertHolds(roles[0].name, SortedNames(roles[1..]));
      assert Names(roles) == [roles[0].name] + Names(roles[1..]);
    }
  }

  /** All of the user's role names, as often as there are roles, in code-point order. */
  ghost predicate Listing(names: seq<string>, roles: seq<Role>) {
    multiset(names) == multiset(Names(roles))
    && forall i, j :: 0 <= i < j < |names| ==> !Earlier(names[j], names[i])
  }

  /** The headers an allow hands to the backend: e-mail and external id of the user the
      gateway session belongs to, and the names of the roles it holds, all of them, in
      order, with commas between. */
  lemma AllowsCarryTheUser(cfg: Config, db: Db, req: CheckRequest, now: Instant, f: Id)
    requires Owns(db, f, HostOf(req)) && !db.gate.resources[f].publicAccess
    requires Check(cfg, db, req, now).decision == Allow
    ensures
      var cookie := cfg.cookie(req.gatewayCookie);
      SignedIn(cfg, db, cookie, req.ip, now, true)
      && var user := db.gateways[cookie.value.id].user;
         user in db.users
         && exists names ::
              Listing(names, if user in db.roles then db.roles[user] else [])
              && Check(cfg, db, req, now).headers ==
                 map["X-Forwarded-User" := db.users[user].email, "X-Auth-User-Id" := db.users[user].externalId,
                     "X-Auth-Roles" := Texts.Joined(names, ',')]
  {
    AllowedWhenEntitled(cfg, db, req, now, f);
    var user := db.gateways[cfg.cookie(req.gatewayCookie).value.id].user;
    var roles := RolesOf(db, user);
    SortedNamesAreSorted(roles);
    forall a, b { NameLessIsEarlier(a, b); }
    assert Listing(SortedNames(roles), roles);
    OwnerIsFound(db, HostOf(req), f);
    HeadersAreTheIdentity(cfg, db, f, user, req, now);
  }

  lemma HeadersAreTheIdentity(cfg: Config, db: Db, f: Id, user: Id, req: CheckRequest, now: Instant)
    requires f in db.gate.resources && CheckUser(cfg, db, f, user, req, now).decision == Allow
    ensures user in db.users
    ensures CheckUser(cfg, db, f, user, req, now).headers ==
            map["X-Forwarded-User" := db.users[user].email, "X-Auth-User-Id" := db.users[user].externalId,
                "X-Auth-Roles" := Texts.Joined(SortedNames(RolesOf(db, user)), ',')]
  {
  }

  /** However a host is dressed up in the request, the answer is the one for the host. */
  lemma DressedHostsAreTheHost(cfg: Config, db: Db, req: CheckRequest, now: Instant, raw: string, lead: string,
      name: string, dots: string, trail: string)
    requires HostNames.Canonical(req.host) && HostNames.Dressed(raw, req.host, lead, name, dots, trail)
    ensures HostOf(req) == req.host && HostOf(req.(host := raw)) == req.host
    ensures Check(cfg, db, req.(host := raw), now) == Check(cfg, db, req, now)
  {
    HostNames.LookupKeyFixesCanonical(req.host);
    HostNames.DressIsStripped(raw, req.host, lead, name, dots, trail);
  }

  /** Across the two planes: whatever a client writes as the host, when the data plane
      takes it for `req.host` and the decision point allows the request, it is for the
      enabled resource that is stored under that very host, which the client spelled. */
  lemma ClientsReachTheHostTheySpell(cfg: Config, db: Db, raw: string, req: CheckRequest, now: Instant)
    requires HostNames.Normalized(raw) == Some(req.host) && Check(cfg, db, req, now).decision == Allow
    ensures exists f :: Serves(db, f, req.host)
    ensures exists name, dot, port :: HostNames.Spells(raw, name, dot, port, req.host)
  {
    HostNames.NormalizationAcceptsExactlySpellings(raw, req.host);
    HostNames.BothPlanesUseTheSameKey(req.host, req.host);
    AllowedIff(cfg, db, req, now);
    var f :| Owns(db, f, HostOf(req));
    assert HostOf(req) == req.host && Serves(db, f, req.host);
  }

  /** The response says it may be reused for the whole host. */
  predicate Cacheable(r: CheckResponse) { r.decision == Allow && r.hostScope && r.ttl > 0 }

  /** The rows an answer for this host and cookie was drawn from, other than the
      liveness of the session behind the cookie. */
  predicate SameRows(cfg: Config, a: Db, b: Db, req: CheckRequest) {
    var fa := PublicGate.FindEnabled(a.gate.resources, HostOf(req), 0, a.gate.next);
    var fb := PublicGate.FindEnabled(b.gate.resources, HostOf(req), 0, b.gate.next);
    var cookie := cfg.cookie(req.gatewayCookie);
    && fa == fb
    && (fa.Some? && fa.value in a.gate.resources ==>
          fa.value in b.gate.resources && b.gate.resources[fa.value] == a.gate.resources[fa.value]
          && RulesFor(a, fa.value) == RulesFor(b, fa.value))
    && (cookie.Some? && cookie.value.id in a.gateways ==>
          cookie.value.id in b.gateways && b.gateways[cookie.value.id].user == a.gateways[cookie.value.id].user
          && var u := a.gateways[cookie.value.id].user;
             RolesOf(a, u) == RolesOf(b, u) && (u in a.users ==> u in b.users && a.users[u] == b.users[u]))
  }

  /** A cacheable answer is reproducible: while the rows it was drawn from are
      unchanged and the cookie still resolves, a fresh check of any path at any later
      time allows with the same identity headers, and is cacheable again. */
  lemma CacheableAnswersStayRight(cfg: Config, a: Db, b: Db, req: CheckRequest, uri: string, publicCookie: string,
      t0: Instant, t1: Instant)
    requires Cacheable(Check(cfg, a, req, t0))
    requires SameRows(cfg, a, b, req)
    requires GatewayLive(cfg, b, cfg.cookie(req.gatewayCookie), req.ip, t1, true)
    ensures Check(cfg, b, req.(uri := uri, publicCookie := publicCookie), t1) == Check(cfg, a, req, t0)
  {
    var f := PublicGate.FindEnabled(a.gate.resources, HostOf(req), 0, a.gate.next);
    var user := a.gateways[cfg.cookie(req.gatewayCookie).value.id].user;
    var port := Port(a.gate.resources[f.value], req.port);
    var old_q := PolicyRequest(cfg, a, user, f.value, port, PathPart(req.uri), t0);
    var new_q := PolicyRequest(cfg, b, user, f.value, port, PathPart(uri), t1);
    P.StableAllowsEverywhere(RulesFor(a, f.value), old_q);
    P.StableAllowsEverywhere(RulesFor(b, f.value), new_q);
  }

  /** Only an allow of the single sign-on branch is ever cacheable. */
  lemma OnlySignedInAllowsAreCacheable(cfg: Config, db: Db, req: CheckRequest, now: Instant)
    requires Cacheable(Check(cfg, db, req, now))
    ensures GatewayLive(cfg, db, cfg.cookie(req.gatewayCookie), req.ip, now, true)
    ensures Check(cfg, db, req, now).ttl == cfg.cacheTtl
  {
  }
}
