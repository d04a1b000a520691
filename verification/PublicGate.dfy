/** Password-gated public resources: admin edits, password rotation, gate logins and
    request checks interleaved (server/src/hyproxy/authz/publicgate.py,
    server/src/hyproxy/admin/routes/resources.py, `_check_public` in
    server/src/hyproxy/authz/check.py). */
module PublicGate {
  import opened Prelude
  import opened Rows
  import PathGlob

  /** Deployment settings; `verify` stands for argon2 verification of a stored hash. */
  datatype Config = Config(ttl: int, bindIp: bool, authHost: string, verify: (Id, string) -> bool)

  /** One field of a PATCH body: missing, JSON null, or a value. */
  datatype Edit<+T> = Absent | Null | Value(v: T)

  datatype Patch = Patch(
    host: Edit<string>, ports: Edit<seq<int>>, enabled: Edit<bool>,
    publicAccess: Edit<bool>, publicPaths: Edit<seq<string>>)

  /** Audit rows of the gate, with what was in force when they were written. */
  datatype Audit =
    | Accepted(at: Instant, resource: Id, session: Id, ip: string, hash: Id, paths: seq<string>, password: string,
               csrfOk: bool, throttled: bool, secret: Id)
    | Allowed(at: Instant, resource: Id, session: Id, ip: string, inForce: Option<Id>, paths: seq<string>, path: string,
              presented: Id)

  datatype State = State(
    now: Instant, next: Id,
    resources: map<Id, Resource>, sessions: map<Id, PublicSession>, log: seq<Audit>)

  const INITIAL := State(0, 0, map[], map[], [])

  // ------------------------------------------------------------------ lookups

  function PathsOf(r: Resource): seq<string> { if r.publicPaths.Some? then r.publicPaths.value else [] }

  /** The enabled resource routed at a host, scanning the rows in id order. */
  function FindEnabled(resources: map<Id, Resource>, host: string, k: Id, bound: Id): Option<Id>
    decreases bound - k
  {
    if k >= bound then None
    else if k in resources && resources[k].host == Some(host) && resources[k].enabled then Some(k)
    else FindEnabled(resources, host, k + 1, bound)
  }

  lemma {:induction false} FoundIsEnabled(resources: map<Id, Resource>, host: string, k: Id, bound: Id)
    ensures var f := FindEnabled(resources, host, k, bound);
            f.Some? ==> f.value in resources && resources[f.value].host == Some(host) && resources[f.value].enabled
    decreases bound - k
  {
    if k < bound { FoundIsEnabled(resources, host, k + 1, bound); }
  }

  /** And it is the first such row of the scan, which misses none. */
  lemma {:induction false} FindsTheFirst(resources: map<Id, Resource>, host: string, k: Id, bound: Id, id: Id)
    ensures FindEnabled(resources, host, k, bound) == Some(id)
       <==> k <= id < bound && id in resources && resources[id].host == Some(host) && resources[id].enabled
            && forall j :: k <= j < id && j in resources && resources[j].host == Some(host) ==> !resources[j].enabled
    decreases bound - k
  {
    if k < bound { FindsTheFirst(resources, host, k + 1, bound, id); }
  }

  predicate HostTaken(resources: map<Id, Resource>, host: string, self: Option<Id>) {
    exists id :: id in resources && Some(id) != self && resources[id].host == Some(host)
  }

  /** What `_normalize_public_paths` lets through: a stored allowlist. */
  predicate StoredPaths(paths: seq<string>) {
    paths != [] && forall k :: 0 <= k < |paths| ==> PathGlob.Validated(paths[k])
  }

  predicate Tunnelled(p: Protocol) { p.Vnc? || p.Rdp? || p.Ssh? || p.Rtsp? }

  predicate PublicShape(r: Resource) {
    r.publicAccess ==>
      (r.protocol.Http? || r.protocol.Https?) && r.host.Some? && r.host != Some("") && PathsOf(r) != []
  }

  // ------------------------------------------------------------- transitions

  /** `revoke_public_sessions`. */
  function RevokeAll(sessions: map<Id, PublicSession>, resource: Id): map<Id, PublicSession> {
    map id | id in sessions :: if sessions[id].resource == resource then sessions[id].(revoked := true)
        else sessions[id]
  }

  /** `create_resource`; a rejected body changes nothing. */
  function Create(cfg: Config, s: State, r: Resource): State {
    if (r.publicPaths.Some? && !StoredPaths(r.publicPaths.value)) || !PublicShape(r) then s
    else if r.host.Some? && (r.host.value == cfg.authHost || HostTaken(s.resources, r.host.value, None)) then s
    else
      var row := r.(passwordHash := if r.publicAccess then Some(s.next + 1) else None);
      s.(next := s.next + 2, resources := s.resources[s.next := row])
  }

  /** The setattr loop over the fields present in the body. */
  function Merge(r: Resource, p: Patch): Resource
    requires !p.ports.Null? && !p.enabled.Null? && !p.publicAccess.Null?
  {
    r.(host := if p.host.Absent? then r.host else if p.host.Null? then None else Some(p.host.v),
       ports := if p.ports.Value? then p.ports.v else r.ports,
       enabled := if p.enabled.Value? then p.enabled.v else r.enabled,
       publicAccess := if p.publicAccess.Value? then p.publicAccess.v else r.publicAccess,
       publicPaths := if p.publicPaths.Absent? then r.publicPaths
                      else if p.publicPaths.Null? then None else Some(p.publicPaths.v))
  }

  predicate GrantChanged(before: Resource, after: Resource, p: Patch) {
    (before.publicAccess && !after.publicAccess)
    || (after.publicAccess && PathsOf(after) != PathsOf(before))
    || (before.publicAccess && !p.enabled.Absent? && !after.enabled)
  }

  /** A body the route refuses, or that violates a NOT NULL column; either rolls back. */
  predicate PatchRefused(cfg: Config, s: State, id: Id, p: Patch) {
    id !in s.resources || p.ports.Null? || p.enabled.Null? || p.publicAccess.Null?
    || (p.publicPaths.Value? && !StoredPaths(p.publicPaths.v))
    || (p.host.Value? && (Tunnelled(s.resources[id].protocol)
                          || p.host.v == cfg.authHost || HostTaken(s.resources, p.host.v, Some(id))))
    || !PublicShape(Merge(s.resources[id], p))
  }

  function PatchResource(cfg: Config, s: State, id: Id, p: Patch): State {
    if PatchRefused(cfg, s, id, p) then s
    else
      var before := s.resources[id];
      var merged := Merge(before, p);
      var after := if merged.publicAccess then merged else merged.(passwordHash := None);
      s.(resources := s.resources[id := after],
         sessions := if GrantChanged(before, merged, p) then RevokeAll(s.sessions, id) else s.sessions)
  }

  function Rotate(s: State, id: Id): State {
    if id !in s.resources || !s.resources[id].publicAccess then s
    else s.(next := s.next + 1,
            resources := s.resources[id := s.resources[id].(passwordHash := Some(s.next))],
            sessions := RevokeAll(s.sessions, id))
  }

  /** `delete_resource`; the foreign key takes the sessions along. */
  function Delete(s: State, id: Id): State {
    if id !in s.resources then s
    else s.(resources := s.resources - {id},
            sessions := map k | k in s.sessions && s.sessions[k].resource != id :: s.sessions[k])
  }

  /** The public resource a gate request belongs to. */
  function GateResource(s: State, host: string): Option<Id> {
    var f := FindEnabled(s.resources, host, 0, s.next);
    if f.Some? && f.value in s.resources && s.resources[f.value].publicAccess then f else None
  }

  /** `gate_submit`: the form token and the throttle answer are what they are. */
  function GateSubmit(cfg: Config, s: State, host: string, ip: string, csrfOk: bool, throttled: bool,
      password: string): State
  {
    var f := GateResource(s, host);
    if f.None? || !csrfOk || throttled then s
    else
      var r := s.resources[f.value];
      if r.passwordHash.None? || !cfg.verify(r.passwordHash.value, password) then s
      else
        var row := PublicSession(f.value, s.next + 1, if cfg.bindIp then Some(ip) else None,
                                 s.now + cfg.ttl, s.now, false);
        s.(next := s.next + 2, sessions := s.sessions[s.next := row],
           log := s.log + [Accepted(s.now, f.value, s.next, ip, r.passwordHash.value, PathsOf(r), password,
                                     csrfOk, throttled, s.next + 1)])
  }

  /** `resolve_public_session` for a cookie, or None when it is missing or malformed. */
  predicate Resolves(cfg: Config, s: State, cookie: Option<Cookie>, resource: Id, ip: string) {
    cookie.Some? && cookie.value.id in s.sessions
    && var row := s.sessions[cookie.value.id];
       !row.revoked && row.resource == resource && row.secret == cookie.value.secret
       && row.expires > s.now && (cfg.bindIp ==> row.ip == Some(ip))
  }

  datatype Answer = NotFound | AuthRequired | Allow

  /** `_check_public`: the paths outside the allowlist do not exist. */
  ghost function CheckPublic(cfg: Config, s: State, resource: Id, ip: string, path: string,
      cookie: Option<Cookie>): Answer
    requires resource in s.resources
  {
    if !PathGlob.Matches(PathsOf(s.resources[resource]), path) then NotFound
    else if !Resolves(cfg, s, cookie, resource, ip) then AuthRequired
    else Allow
  }

  /** The state `_check_public` leaves: an allow is logged and touches the session. */
  ghost function AfterPublic(cfg: Config, s: State, resource: Id, ip: string, path: string,
      cookie: Option<Cookie>): State
    requires resource in s.resources
  {
    if CheckPublic(cfg, s, resource, ip, path, cookie) != Allow then s
    else
      var r, id := s.resources[resource], cookie.value.id;
      s.(sessions := s.sessions[id := s.sessions[id].(lastSeen := s.now)],
         log := s.log + [Allowed(s.now, resource, id, ip, r.passwordHash, PathsOf(r), path, cookie.value.secret)])
  }

  ghost function Check(cfg: Config, s: State, host: string, ip: string, path: string, cookie: Option<Cookie>): State {
    var f := GateResource(s, host);
    if f.None? then s else AfterPublic(cfg, s, f.value, ip, path, cookie)
  }

  function Gc(s: State): State {
    s.(sessions := map k | k in s.sessions && s.sessions[k].expires > s.now && !s.sessions[k].revoked :: s.sessions[k])
  }

  // ---------------------------------------------------------- rows in place

  /** The resource and session tables as the handlers update them. */
  class GateDb {
    var now: Instant
    var next: Id
    var resources: map<Id, Resource>
    var sessions: map<Id, PublicSession>
    ghost var log: seq<Audit>
    const cfg: Config

    ghost function Snapshot(): State
      reads this
    {
      State(now, next, resources, sessions, log)
    }

    constructor (cfg: Config)
      ensures Snapshot() == INITIAL && this.cfg == cfg
    {
      now, next, resources, sessions, log := 0, 0, map[], map[], [];
      this.cfg := cfg;
    }

    method RevokePublicSessions(resource: Id)
      modifies this`sessions
      ensures sessions == RevokeAll(old(sessions), resource)
    {
      var todo := sessions.Keys;
      while todo != {}
        invariant todo <= sessions.Keys == old(sessions).Keys
        invariant forall k :: k in sessions ==>
                    sessions[k] == if k in todo then old(sessions)[k] else RevokeAll(old(sessions), resource)[k]
        decreases todo
      {
        var k :| k in todo;
        if sessions[k].resource == resource && !sessions[k].revoked {
          sessions := sessions[k := sessions[k].(revoked := true)];
        }
        todo := todo - {k};
      }
    }

    method RotatePublicPassword(id: Id)
      modifies this
      ensures Snapshot() == Rotate(old(Snapshot()), id)
    {
      if id !in resources || !resources[id].publicAccess { return; }
      resources := resources[id := resources[id].(passwordHash := Some(next))];
      next := next + 1;
      RevokePublicSessions(id);
    }

    /** The setattr loop. */
    method SetFields(r: Resource, p: Patch) returns (row: Resource)
      requires !p.ports.Null? && !p.enabled.Null? && !p.publicAccess.Null?
      ensures row == Merge(r, p)
    {
      row := r;
      if p.host.Null? { row := row.(host := None); }
      if p.host.Value? { row := row.(host := Some(p.host.v)); }
      if p.ports.Value? { row := row.(ports := p.ports.v); }
      if p.enabled.Value? { row := row.(enabled := p.enabled.v); }
      if p.publicAccess.Value? { row := row.(publicAccess := p.publicAccess.v); }
      if p.publicPaths.Null? { row := row.(publicPaths := None); }
      if p.publicPaths.Value? { row := row.(publicPaths := Some(p.publicPaths.v)); }
    }

    method PatchRow(id: Id, p: Patch)
      modifies this
      ensures Snapshot() == PatchResource(cfg, old(Snapshot()), id, p)
    {
      if id !in resources || p.ports.Null? || p.enabled.Null? || p.publicAccess.Null? { return; }
      if p.publicPaths.Value? && !StoredPaths(p.publicPaths.v) { return; }
      var row := resources[id];
      if p.host.Value? {
        if Tunnelled(row.protocol) || p.host.v == cfg.authHost { return; }
        if HostTaken(resources, p.host.v, Some(id)) { return; }
      }
      var wasPublic, oldPaths := row.publicAccess, PathsOf(row);
      row := SetFields(row, p);
      if !PublicShape(row) { return; }
      var grantChanged :=
        (wasPublic && !row.publicAccess)
        || (row.publicAccess && PathsOf(row) != oldPaths)
        || (wasPublic && !p.enabled.Absent? && !row.enabled);
      if grantChanged { RevokePublicSessions(id); }
      if !row.publicAccess { row := row.(passwordHash := None); }
      resources := resources[id := row];
    }

    method SubmitPassword(host: string, ip: string, csrfOk: bool, throttled: bool, password: string)
      returns (cookie: Option<Cookie>)
      modifies this
      ensures Snapshot() == GateSubmit(cfg, old(Snapshot()), host, ip, csrfOk, throttled, password)
      ensures cookie.Some? <==> |log| > |old(log)|
      ensures cookie.Some? ==> cookie.value.id in sessions && sessions[cookie.value.id].secret == cookie.value.secret
    {
      var f := FindEnabled(resources, host, 0, next);
      if f.None? || f.value !in resources || !resources[f.value].publicAccess { return None; }
      if !csrfOk || throttled { return None; }
      var stored := resources[f.value].passwordHash;
      if stored.None? { return None; }
      if !cfg.verify(stored.value, password) { return None; }
      log := log + [Accepted(now, f.value, next, ip, stored.value, PathsOf(resources[f.value]), password,
                             csrfOk, throttled, next + 1)];
      sessions := sessions[next := PublicSession(f.value, next + 1, if cfg.bindIp then Some(ip) else None,
                                                 now + cfg.ttl, now, false)];
      cookie := Some(Cookie(next, next + 1));
      next := next + 2;
    }

    /** `_check_public`, with `resolve_public_session` inside. */
    method CheckPublicRequest(resource: Id, ip: string, path: string, cookie: Option<Cookie>) returns (answer: Answer)
      requires resource in resources
      modifies this
      ensures answer == CheckPublic(cfg, old(Snapshot()), resource, ip, path, cookie)
      ensures Snapshot() == AfterPublic(cfg, old(Snapshot()), resource, ip, path, cookie)
    {
      var exposed := PathGlob.MatchesAny(PathsOf(resources[resource]), path);
      if !exposed { return NotFound; }
      if cookie.None? || cookie.value.id !in sessions { return AuthRequired; }
      var row := sessions[cookie.value.id];
      if row.revoked { return AuthRequired; }
      if row.resource != resource { return AuthRequired; }
      if row.secret != cookie.value.secret { return AuthRequired; }
      if row.expires <= now { return AuthRequired; }
      if cfg.bindIp && row.ip != Some(ip) { return AuthRequired; }
      sessions := sessions[cookie.value.id := row.(lastSeen := now)];
      log := log + [Allowed(now, resource, cookie.value.id, ip, resources[resource].passwordHash,
                            PathsOf(resources[resource]), path, cookie.value.secret)];
      return Allow;
    }
  }

  // --------------------------------------------------------------------- runs

  datatype Action =
    | CreateResource(r: Resource)
    | Edit(id: Id, p: Patch)
    | RotatePassword(id: Id)
    | DeleteResource(id: Id)
    | Submit(host: string, ip: string, csrfOk: bool, throttled: bool, password: string)
    | Request(host: string, ip: string, path: string, cookie: Option<Cookie>)
    | Collect

  datatype Event = Event(dt: nat, action: Action)

  ghost function Apply(cfg: Config, s: State, action: Action): State {
    match action
    case CreateResource(r) => Create(cfg, s, r)
    case Edit(id, p) => PatchResource(cfg, s, id, p)
    case RotatePassword(id) => Rotate(s, id)
    case DeleteResource(id) => Delete(s, id)
    case Submit(host, ip, csrfOk, throttled, password) => GateSubmit(cfg, s, host, ip, csrfOk, throttled, password)
    case Request(host, ip, path, cookie) => Check(cfg, s, host, ip, path, cookie)
    case Collect => Gc(s)
  }

  ghost function Step(cfg: Config, s: State, e: Event): State {
    Apply(cfg, s.(now := s.now + e.dt), e.action)
  }

  ghost function Run(cfg: Config, s: State, events: seq<Event>): State
    decreases |events|
  {
    if events == [] then s else Run(cfg, Step(cfg, s, events[0]), events[1..])
  }

  // ------------------------------------------------------------- invariants

  /** An accepted login that explains a session row. */
  predicate MintedBy(cfg: Config, a: Audit, id: Id, row: PublicSession) {
    a.Accepted? && a.session == id && a.resource == row.resource
    && row.expires == a.at + cfg.ttl && (cfg.bindIp ==> row.ip == Some(a.ip))
    && cfg.verify(a.hash, a.password) && a.csrfOk && !a.throttled && row.secret == a.secret
  }

  /** A session was minted under what its resource grants now. */
  predicate Current(cfg: Config, s: State, id: Id, a: Audit)
    requires id in s.sessions
  {
    var row := s.sessions[id];
    MintedBy(cfg, a, id, row) && row.resource in s.resources
    && var r := s.resources[row.resource];
       r.publicAccess && r.enabled && r.passwordHash == Some(a.hash) && PathsOf(r) == a.paths
  }

  ghost predicate SessionsCurrent(cfg: Config, s: State) {
    forall id :: id in s.sessions && !s.sessions[id].revoked ==>
      exists a :: a in s.log && Current(cfg, s, id, a)
  }

  predicate PathsStored(r: Resource) { r.publicPaths.Some? ==> StoredPaths(r.publicPaths.value) }

  ghost predicate RowsSane(s: State) {
    && (forall id :: id in s.sessions ==> id < s.next)
    && (forall id :: id in s.resources ==> id < s.next)
    && (forall id :: id in s.resources ==> PublicShape(s.resources[id]) && PathsStored(s.resources[id]))
    && (forall a :: a in s.log ==> a.session < s.next)
  }

  /** The login a public allow rests on. */
  ghost predicate Explains(cfg: Config, login: Audit, allow: Audit) {
    && login.Accepted? && allow.Allowed?
    && login.resource == allow.resource && login.session == allow.session
    && allow.at < login.at + cfg.ttl
    && (cfg.bindIp ==> login.ip == allow.ip)
    && allow.inForce == Some(login.hash) && cfg.verify(login.hash, login.password)
    && login.csrfOk && !login.throttled && allow.presented == login.secret
    && allow.paths == login.paths && PathGlob.Matches(allow.paths, allow.path)
  }

  ghost predicate AllowsExplained(cfg: Config, log: seq<Audit>) {
    forall k :: 0 <= k < |log| && log[k].Allowed? ==>
      exists j :: 0 <= j < k && Explains(cfg, log[j], log[k])
  }

  ghost predicate Inv(cfg: Config, s: State) {
    RowsSane(s) && SessionsCurrent(cfg, s) && AllowsExplained(cfg, s.log)
  }

  /** Resources and log unchanged, and no session gained or brought back to life. */
  lemma FewerSessions(cfg: Config, s: State, t: State)
    requires Inv(cfg, s) && t.next >= s.next && t.resources == s.resources && t.log == s.log
    requires forall id :: id in t.sessions ==> id in s.sessions && t.sessions[id] == s.sessions[id]
    ensures Inv(cfg, t)
  {
    forall id | id in t.sessions && !t.sessions[id].revoked
      ensures exists a :: a in t.log && Current(cfg, t, id, a)
    {
      var a :| a in s.log && Current(cfg, s, id, a);
      assert Current(cfg, t, id, a);
    }
  }

  /** One resource row replaced: its sessions are revoked, or what they grant is kept. */
  lemma ResourceReplaced(cfg: Config, s: State, t: State, id: Id, r: Resource)
    requires Inv(cfg, s) && t.log == s.log && t.next >= s.next && id < t.next
    requires t.resources == s.resources[id := r]
    requires PublicShape(r) && PathsStored(r)
    requires t.sessions == RevokeAll(s.sessions, id)
             || (t.sessions == s.sessions
                 && (id in s.resources && s.resources[id].publicAccess && s.resources[id].enabled ==>
                       r.publicAccess && r.enabled && r.passwordHash == s.resources[id].passwordHash
                       && PathsOf(r) == PathsOf(s.resources[id])))
    ensures Inv(cfg, t)
  {
    forall k | k in t.sessions && !t.sessions[k].revoked
      ensures exists a :: a in t.log && Current(cfg, t, k, a)
    {
      assert t.sessions[k] == s.sessions[k];
      var a :| a in s.log && Current(cfg, s, k, a);
      assert Current(cfg, t, k, a);
    }
  }

  lemma PatchKeepsInv(cfg: Config, s: State, id: Id, p: Patch)
    requires Inv(cfg, s)
    ensures Inv(cfg, PatchResource(cfg, s, id, p))
  {
    if !PatchRefused(cfg, s, id, p) {
      var t := PatchResource(cfg, s, id, p);
      ResourceReplaced(cfg, s, t, id, t.resources[id]);
    }
  }

  lemma CreateKeepsInv(cfg: Config, s: State, r: Resource)
    requires Inv(cfg, s)
    ensures Inv(cfg, Create(cfg, s, r))
  {
    var t := Create(cfg, s, r);
    if t != s { ResourceReplaced(cfg, s, t, s.next, t.resources[s.next]); }
  }

  lemma RotateKeepsInv(cfg: Config, s: State, id: Id)
    requires Inv(cfg, s)
    ensures Inv(cfg, Rotate(s, id))
  {
    var t := Rotate(s, id);
    if t != s { ResourceReplaced(cfg, s, t, id, t.resources[id]); }
  }

  lemma DeleteKeepsInv(cfg: Config, s: State, id: Id)
    requires Inv(cfg, s)
    ensures Inv(cfg, Delete(s, id))
  {
    var t := Delete(s, id);
    forall k | k in t.sessions && !t.sessions[k].revoked
      ensures exists a :: a in t.log && Current(cfg, t, k, a)
    {
      var a :| a in s.log && Current(cfg, s, k, a);
      assert Current(cfg, t, k, a);
    }
  }

  lemma SubmitKeepsInv(cfg: Config, s: State, host: string, ip: string, csrfOk: bool, throttled: bool, password: string)
    requires Inv(cfg, s)
    ensures Inv(cfg, GateSubmit(cfg, s, host, ip, csrfOk, throttled, password))
  {
    var t := GateSubmit(cfg, s, host, ip, csrfOk, throttled, password);
    if t != s {
      FoundIsEnabled(s.resources, host, 0, s.next);
      var login := t.log[|s.log|];
      assert Current(cfg, t, s.next, login);
      forall k | k in t.sessions && !t.sessions[k].revoked
        ensures exists a :: a in t.log && Current(cfg, t, k, a)
      {
        if k != s.next {
          var a :| a in s.log && Current(cfg, s, k, a);
          assert Current(cfg, t, k, a);
        }
      }
      LogGrows(cfg, s.log, login);
    }
  }

  lemma LogGrows(cfg: Config, log: seq<Audit>, a: Audit)
    requires AllowsExplained(cfg, log)
    requires a.Allowed? ==> exists login :: login in log && Explains(cfg, login, a)
    ensures AllowsExplained(cfg, log + [a])
  {
    var log' := log + [a];
    forall k | 0 <= k < |log'| && log'[k].Allowed?
      ensures exists j :: 0 <= j < k && Explains(cfg, log'[j], log'[k])
    {
      if k < |log| {
        var j :| 0 <= j < k && Explains(cfg, log[j], log[k]);
        assert log'[j] == log[j];
      } else {
        var login :| login in log && Explains(cfg, login, a);
        var j :| 0 <= j < |log| && log[j] == login;
        assert log'[j] == login;
      }
    }
  }

  lemma CheckKeepsInv(cfg: Config, s: State, host: string, ip: string, path: string, cookie: Option<Cookie>)
    requires Inv(cfg, s)
    ensures Inv(cfg, Check(cfg, s, host, ip, path, cookie))
  {
    var f := GateResource(s, host);
    if f.Some? && CheckPublic(cfg, s, f.value, ip, path, cookie) == Allow {
      var t := Check(cfg, s, host, ip, path, cookie);
      var id := cookie.value.id;
      var login :| login in s.log && Current(cfg, s, id, login);
      var allow := t.log[|s.log|];
      assert Explains(cfg, login, allow);
      LogGrows(cfg, s.log, allow);
      forall k | k in t.sessions && !t.sessions[k].revoked
        ensures exists a :: a in t.log && Current(cfg, t, k, a)
      {
        var a :| a in s.log && Current(cfg, s, k, a);
        assert Current(cfg, t, k, a);
      }
    }
  }

  lemma ApplyKeepsInv(cfg: Config, s: State, action: Action, t: State)
    requires Inv(cfg, s) && t == Apply(cfg, s, action)
    ensures Inv(cfg, t)
  {
    match action
    case CreateResource(r) => CreateKeepsInv(cfg, s, r);
    case Edit(id, p) => PatchKeepsInv(cfg, s, id, p);
    case RotatePassword(id) => RotateKeepsInv(cfg, s, id);
    case DeleteResource(id) => DeleteKeepsInv(cfg, s, id);
    case Submit(host, ip, csrfOk, throttled, password) => SubmitKeepsInv(cfg, s, host, ip, csrfOk, throttled, password);
    case Request(host, ip, path, cookie) => CheckKeepsInv(cfg, s, host, ip, path, cookie);
    case Collect => FewerSessions(cfg, s, Gc(s));
  }

  lemma StepKeepsInv(cfg: Config, s: State, e: Event, t: State)
    requires Inv(cfg, s) && t == Step(cfg, s, e)
    ensures Inv(cfg, t)
  {
    hide Inv, Apply;
    var later := s.(now := s.now + e.dt);
    assert Inv(cfg, later) by { FewerSessions(cfg, s, later); }
    assert t == Apply(cfg, later, e.action);
    assert Inv(cfg, t) by { ApplyKeepsInv(cfg, later, e.action, t); }
  }

  lemma {:induction false} RunKeepsInv(cfg: Config, s: State, events: seq<Event>)
    requires Inv(cfg, s)
    ensures Inv(cfg, Run(cfg, s, events))
    decreases |events|
  {
    if events != [] {
      var t := Step(cfg, s, events[0]);
      StepKeepsInv(cfg, s, events[0], t);
      RunKeepsInv(cfg, t, events[1..]);
    }
  }

  // ------------------------------------------------------------ main results

  /** After any interleaving of edits, rotations, deletions, logins, checks and
      collections: an unrevoked session belongs to a resource that is public and
      enabled, and was minted by a correct password under the hash and the path list
      that resource has now. */
  lemma UnrevokedSessionsMatchTheirResource(cfg: Config, events: seq<Event>, id: Id)
    requires id in Run(cfg, INITIAL, events).sessions && !Run(cfg, INITIAL, events).sessions[id].revoked
    ensures
      var s := Run(cfg, INITIAL, events);
      && s.sessions[id].resource in s.resources
      && s.resources[s.sessions[id].resource].publicAccess
      && s.resources[s.sessions[id].resource].enabled
      && exists a :: a in s.log && Current(cfg, s, id, a)
  {
    RunKeepsInv(cfg, INITIAL, events);
  }

  /** Every public allow ever given follows a correct-password login to the same
      resource, through a valid form and not throttled, less than the session lifetime
      earlier, presents the secret that login handed out, comes from the same address when
      binding is on, under the hash and patterns still in force when it was given,
      for a path those patterns expose. */
  lemma PublicAllowTracesToALogin(cfg: Config, events: seq<Event>, k: nat)
    requires k < |Run(cfg, INITIAL, events).log| && Run(cfg, INITIAL, events).log[k].Allowed?
    ensures
      var log := Run(cfg, INITIAL, events).log;
      exists j :: 0 <= j < k && Explains(cfg, log[j], log[k])
  {
    RunKeepsInv(cfg, INITIAL, events);
  }

  /** In every reachable state the gate's return path for a public resource stays on
      its origin and is exposed or the fixed head of its first pattern. */
  lemma ReturnPathIsSafeInEveryState(cfg: Config, events: seq<Event>, id: Id, rd: string)
    requires id in Run(cfg, INITIAL, events).resources && Run(cfg, INITIAL, events).resources[id].publicAccess
    ensures
      var patterns := PathsOf(Run(cfg, INITIAL, events).resources[id]);
      var target := PathGlob.SafeRd(rd, patterns);
      && "/" <= target && !("//" <= target) && '\\' !in target
      && (PathGlob.Matches(patterns, PathGlob.PathOf(target))
          || (patterns != [] && target == PathGlob.Head(patterns[0])))
  {
    RunKeepsInv(cfg, INITIAL, events);
    PathGlob.SafeRdStaysInside(rd, PathsOf(Run(cfg, INITIAL, events).resources[id]));
  }
}
