/** What the edits of a resource do to the stored rows, field by field, and what they
    mean for the link (server/src/hyproxy/admin/routes/resources.py,
    server/src/hyproxy/authz/publicgate.py). */
module GateEdits {
  import opened Prelude
  import opened Rows
  import opened PublicGate
  import PathGlob

  // ------------------------------------------------------------------- the body

  /** A nullable column after a field of the body: kept, cleared or set. */
  predicate Lands<T(==)>(edit: Edit<T>, before: Option<T>, after: Option<T>) {
    match edit
    case Absent => after == before
    case Null => after == None
    case Value(v) => after == Some(v)
  }

  /** A column that cannot be null. */
  predicate LandsFirmly<T(==)>(edit: Edit<T>, before: T, after: T) {
    match edit
    case Absent => after == before
    case Null => false
    case Value(v) => after == v
  }

  /** The row the body asks for: five fields edited, the protocol left alone. */
  predicate Edited(p: Patch, before: Resource, after: Resource) {
    && Lands(p.host, before.host, after.host)
    && Lands(p.publicPaths, before.publicPaths, after.publicPaths)
    && LandsFirmly(p.ports, before.ports, after.ports)
    && LandsFirmly(p.enabled, before.enabled, after.enabled)
    && LandsFirmly(p.publicAccess, before.publicAccess, after.publicAccess)
    && after.protocol == before.protocol
  }

  /** Something to serve publicly: a plain web resource with a host and some paths. */
  predicate Servable(r: Resource) {
    r.protocol in {Http, Https} && r.host.Some? && r.host.value != ""
    && r.publicPaths.Some? && r.publicPaths.value != []
  }

  /** The new host is free, allowed on this resource, and not the sign-in host. */
  ghost predicate HostFree(cfg: Config, s: State, id: Id, host: string)
    requires id in s.resources
  {
    host != cfg.authHost && s.resources[id].protocol !in {Vnc, Rdp, Ssh, Rtsp}
    && forall other :: other in s.resources && other != id ==> s.resources[other].host != Some(host)
  }

  /** A list the validator stored: not empty, and each pattern a fixed point of it. */
  predicate StoredList(paths: seq<string>) {
    paths != [] && forall p :: p in paths ==> PathGlob.Validated(p)
  }

  /** The body is accepted, and this is the row it asks for. */
  ghost predicate Accepted(cfg: Config, s: State, id: Id, p: Patch, asked: Resource) {
    && id in s.resources && Edited(p, s.resources[id], asked)
    && (p.publicPaths.Value? ==> StoredList(p.publicPaths.v))
    && (p.host.Value? ==> HostFree(cfg, s, id, p.host.v))
    && (asked.publicAccess ==> Servable(asked))
    && asked.passwordHash == s.resources[id].passwordHash
  }

  /** What the visitor was promised has moved: the link is closed, exposes other paths,
      or its resource was disabled by this very body. */
  predicate PromiseMoved(p: Patch, before: Resource, asked: Resource) {
    var none: seq<string> := [];
    || (before.publicAccess && !asked.publicAccess)
    || (asked.publicAccess && (if asked.publicPaths.Some? then asked.publicPaths.value else none)
                              != (if before.publicPaths.Some? then before.publicPaths.value else none))
    || (before.publicAccess && p.enabled == Value(false))
  }

  lemma MergeIsEdited(p: Patch, before: Resource, asked: Resource)
    requires !p.ports.Null? && !p.enabled.Null? && !p.publicAccess.Null?
    ensures asked == Merge(before, p) <==> Edited(p, before, asked) && asked.passwordHash == before.passwordHash
  {
  }

  lemma RefusedUnlessAccepted(cfg: Config, s: State, id: Id, p: Patch)
    ensures PatchRefused(cfg, s, id, p) <==> !exists asked :: Accepted(cfg, s, id, p, asked)
  {
    if !PatchRefused(cfg, s, id, p) {
      var asked := Merge(s.resources[id], p);
      MergeIsEdited(p, s.resources[id], asked);
      if p.publicPaths.Value? { StoredReads(p.publicPaths.v); }
      assert Accepted(cfg, s, id, p, asked);
    }
    if asked :| Accepted(cfg, s, id, p, asked) {
      MergeIsEdited(p, s.resources[id], asked);
      if p.publicPaths.Value? { StoredReads(p.publicPaths.v); }
    }
  }

  lemma StoredReads(paths: seq<string>)
    ensures StoredPaths(paths) <==> StoredList(paths)
  {
    assert forall k :: 0 <= k < |paths| ==> paths[k] in paths;
  }

  /** An accepted edit: each field of the body lands on the row, a private resource is
      left without a password, no other row changes, and the resource's sessions, no
      others, are revoked exactly when what was promised has moved. */
  lemma EditLands(cfg: Config, s: State, id: Id, p: Patch, asked: Resource)
    requires Accepted(cfg, s, id, p, asked)
    ensures
      var t := PatchResource(cfg, s, id, p);
      var after := if asked.publicAccess then asked else asked.(passwordHash := None);
      && t.resources == s.resources[id := after]
      && t.sessions.Keys == s.sessions.Keys
      && (forall k :: k in s.sessions ==>
            t.sessions[k] == s.sessions[k].(revoked := s.sessions[k].revoked
                || (s.sessions[k].resource == id && PromiseMoved(p, s.resources[id], asked))))
      && t.now == s.now && t.next == s.next && t.log == s.log
  {
    RefusedUnlessAccepted(cfg, s, id, p);
    MergeIsEdited(p, s.resources[id], asked);
  }

  /** Any other body changes nothing. */
  lemma RefusedEditsChangeNothing(cfg: Config, s: State, id: Id, p: Patch)
    requires !exists asked :: Accepted(cfg, s, id, p, asked)
    ensures PatchResource(cfg, s, id, p) == s
  {
    RefusedUnlessAccepted(cfg, s, id, p);
  }

  // ----------------------------------------------------- out of service for good

  /** The row is not enabled, or not there, and its number is taken. */
  predicate OutOfService(s: State, id: Id) {
    id < s.next && (id in s.resources ==> !s.resources[id].enabled)
  }

  predicate Enables(e: Event, id: Id) { e.action.Edit? && e.action.id == id && e.action.p.enabled == Value(true) }

  lemma StepKeepsOutOfService(cfg: Config, s: State, e: Event, t: State, id: Id)
    requires OutOfService(s, id) && t == Step(cfg, s, e) && !Enables(e, id)
    ensures OutOfService(t, id)
  {
  }

  lemma {:induction false} RunKeepsOutOfService(cfg: Config, s: State, events: seq<Event>, id: Id)
    requires OutOfService(s, id) && forall k :: 0 <= k < |events| ==> !Enables(events[k], id)
    ensures OutOfService(Run(cfg, s, events), id)
    decreases |events|
  {
    if events != [] {
      var t := Step(cfg, s, events[0]);
      StepKeepsOutOfService(cfg, s, events[0], t, id);
      RunKeepsOutOfService(cfg, t, events[1..], id);
    }
  }

  /** In every reachable state, from an accepted edit that disables a resource on, no lookup by any host finds it,
      so neither gate nor check serves it, until an edit that enables it; and its gate
      sessions do not outlive the edit. */
  lemma DisabledUntilEnabled(cfg: Config, before: seq<Event>, id: Id, p: Patch, asked: Resource, after: seq<Event>,
      host: string)
    requires Accepted(cfg, Run(cfg, INITIAL, before), id, p, asked) && p.enabled == Value(false)
    requires forall k :: 0 <= k < |after| ==> !Enables(after[k], id)
    ensures
      var s := Run(cfg, INITIAL, before);
      var t := PatchResource(cfg, s, id, p);
      var end := Run(cfg, t, after);
      && FindEnabled(end.resources, host, 0, end.next) != Some(id)
      && (s.resources[id].publicAccess ==>
            forall k :: k in t.sessions && t.sessions[k].resource == id ==> t.sessions[k].revoked)
  {
    var s := Run(cfg, INITIAL, before);
    RunKeepsInv(cfg, INITIAL, before);
    var t := PatchResource(cfg, s, id, p);
    EditLands(cfg, s, id, p, asked);
    RunKeepsOutOfService(cfg, t, after, id);
    var end := Run(cfg, t, after);
    FindsTheFirst(end.resources, host, 0, end.next, id);
  }

  // ------------------------------------------------------- the other operations

  /** A resource is stored as its body says, under a new number, with a first password
      exactly when it is public; or nothing is. */
  lemma CreationStores(cfg: Config, s: State, r: Resource)
    ensures
      var fits := (r.publicPaths.Some? ==> StoredList(r.publicPaths.value)) && (r.publicAccess ==> Servable(r))
        && (r.host.Some? ==>
              r.host.value != cfg.authHost
              && forall other :: other in s.resources ==> s.resources[other].host != r.host);
      Create(cfg, s, r) ==
        if fits
        then s.(next := s.next + 2,
                resources := s.resources[
                  s.next := r.(passwordHash := if r.publicAccess then Some(s.next + 1) else None)])
        else s
  {
    if r.publicPaths.Some? { StoredReads(r.publicPaths.value); }
    if r.host.Some? && HostTaken(s.resources, r.host.value, None) {
      var other :| other in s.resources && s.resources[other].host == Some(r.host.value);
    }
  }

  /** A rotation gives a public resource a password that was never in use and revokes
      its sessions, all of them and no others. */
  lemma RotationReplaces(s: State, id: Id)
    requires id in s.resources && s.resources[id].publicAccess
    ensures
      var t := Rotate(s, id);
      && t.resources == s.resources[id := s.resources[id].(passwordHash := Some(s.next))] && t.next == s.next + 1
      && t.sessions.Keys == s.sessions.Keys
      && forall k :: k in s.sessions ==>
           t.sessions[k] == s.sessions[k].(revoked := s.sessions[k].revoked || s.sessions[k].resource == id)
  {
  }

  /** A deletion takes the row and its sessions and leaves everything else. */
  lemma DeletionTakes(s: State, id: Id)
    ensures
      var t := Delete(s, id);
      && t.resources == s.resources - {id}
      && (id in s.resources ==>
            forall k :: k in t.sessions <==> k in s.sessions && s.sessions[k].resource != id)
      && forall k :: k in t.sessions ==> k in s.sessions && t.sessions[k] == s.sessions[k]
  {
    if id !in s.resources { assert s.resources - {id} == s.resources; }
  }

  /** The enabled resource the host belongs to. */
  predicate FirstAt(s: State, host: string, f: Id) {
    f < s.next && f in s.resources && s.resources[f].host == Some(host) && s.resources[f].enabled
    && forall j :: j in s.resources && j < f && s.resources[j].host == Some(host) ==> !s.resources[j].enabled
  }

  /** A collection takes exactly the sessions that are over. */
  lemma CollectionTakes(s: State, k: Id)
    ensures k in Gc(s).sessions <==> k in s.sessions && !s.sessions[k].revoked && s.now < s.sessions[k].expires
    ensures k in Gc(s).sessions ==> Gc(s).sessions[k] == s.sessions[k]
  {
  }

  /** The gate opens exactly for the password of the enabled, public resource of the
      host, through a valid form that is not throttled; it then hands out one new
      session, live until its bound and tied to the address when binding is on. */
  lemma GateOpensIff(cfg: Config, s: State, host: string, ip: string, csrfOk: bool, throttled: bool, password: string,
      f: Id)
    requires FirstAt(s, host, f)
    ensures
      var t := GateSubmit(cfg, s, host, ip, csrfOk, throttled, password);
      var r := s.resources[f];
      if r.publicAccess && csrfOk && !throttled && r.passwordHash.Some? && cfg.verify(r.passwordHash.value, password)
      then
        && t.sessions == s.sessions[s.next := PublicSession(f, s.next + 1, if cfg.bindIp then Some(ip) else None,
                                                            s.now + cfg.ttl, s.now, false)]
        && t.resources == s.resources && |t.log| == |s.log| + 1
      else t == s
  {
    FindsTheFirst(s.resources, host, 0, s.next, f);
  }

  lemma GateStaysShut(cfg: Config, s: State, host: string, ip: string, csrfOk: bool, throttled: bool, password: string)
    requires forall f :: !FirstAt(s, host, f)
    ensures GateSubmit(cfg, s, host, ip, csrfOk, throttled, password) == s
  {
    var f := FindEnabled(s.resources, host, 0, s.next);
    if f.Some? {
      FindsTheFirst(s.resources, host, 0, s.next, f.value);
      assert FirstAt(s, host, f.value);
    }
  }

  /** An allowed request is noted with the session's time and changes nothing else; one
      that is not allowed changes nothing. */
  lemma ChecksNoteTheTime(cfg: Config, s: State, resource: Id, ip: string, path: string, cookie: Option<Cookie>)
    requires resource in s.resources
    ensures
      var t := AfterPublic(cfg, s, resource, ip, path, cookie);
      if CheckPublic(cfg, s, resource, ip, path, cookie) == Allow then
        && cookie.Some? && cookie.value.id in s.sessions && |t.log| == |s.log| + 1
        && t.sessions == s.sessions[cookie.value.id := s.sessions[cookie.value.id].(lastSeen := s.now)]
        && t.resources == s.resources && t.next == s.next
      else t == s
  {
  }

  /** The session the gate hands out lets its holder in at once, on every exposed path,
      and until it runs out, is revoked, or the check comes from elsewhere. */
  lemma GateSessionsOpen(cfg: Config, s: State, host: string, ip: string, password: string, f: Id, path: string,
      later: Instant)
    requires FirstAt(s, host, f)
    requires
      var r := s.resources[f];
      r.publicAccess && r.passwordHash.Some? && cfg.verify(r.passwordHash.value, password)
      && r.publicPaths.Some? && PathGlob.Matches(r.publicPaths.value, path)
    requires s.now <= later < s.now + cfg.ttl
    ensures
      var t := GateSubmit(cfg, s, host, ip, true, false, password).(now := later);
      CheckPublic(cfg, t, f, ip, path, Some(Cookie(s.next, s.next + 1))) == Allow
  {
    FindsTheFirst(s.resources, host, 0, s.next, f);
  }
}
