/** Building, swapping and reading the routing snapshot
    (`buildRouteSet`, `SwapRoutes` in dataplane/internal/proxy/server.go and
    `Lookup` in dataplane/internal/routing/routing.go). */
module RouteTable {
  import opened Prelude
  import HostNames
  import AuthzCache

  datatype Route = Route(
    backend: string, backendPort: int, auth: bool, guacTunnel: bool,
    guacTunnelPath: bool, rtspTunnelPath: bool, publicGate: bool, lanOnly: bool)

  /** A proxy is known by the backend it dials. */
  datatype RouteSet = RouteSet(table: map<string, Route>, proxies: map<string, string>)

  /** Fixed at startup; `parses` stands for `url.Parse` succeeding. */
  datatype Settings = Settings(
    authHost: string, statics: map<string, Route>, guacBackend: string, parses: string -> bool)

  function BackendOf(cfg: Settings, r: Route): string {
    if r.backend == "" && r.guacTunnel then cfg.guacBackend else r.backend
  }

  predicate Usable(cfg: Settings, r: Route) {
    BackendOf(cfg, r) != "" && cfg.parses(BackendOf(cfg, r))
  }

  /** The route a host should have: the static one if there is one, else the row's. */
  function Chosen(cfg: Settings, db: map<string, Route>, host: string): Option<Route> {
    if host in cfg.statics then Some(cfg.statics[host])
    else if host in db then Some(db[host])
    else None
  }

  /** A snapshot is right for a set of database routes. */
  ghost predicate Right(cfg: Settings, db: map<string, Route>, rs: RouteSet) {
    && rs.table.Keys == rs.proxies.Keys
    && (forall host :: host in rs.table <==> Chosen(cfg, db, host).Some? && Usable(cfg, Chosen(cfg, db, host).value))
    && (forall host :: host in rs.table ==>
          rs.table[host] == Chosen(cfg, db, host).value
          && rs.proxies[host] == BackendOf(cfg, rs.table[host]))
  }

  /** There is only one right snapshot. */
  lemma RightIsUnique(cfg: Settings, db: map<string, Route>, a: RouteSet, b: RouteSet)
    requires Right(cfg, db, a) && Right(cfg, db, b)
    ensures a == b
  {
    assert a.table.Keys == b.table.Keys;
    assert a.table == b.table;
    assert a.proxies == b.proxies;
  }

  /** The route of a host and the backend it dials: the static route if there is one,
      else the row's; its own backend, else the tunnel's; and one that parses. */
  predicate Routed(cfg: Settings, db: map<string, Route>, host: string, route: Route, backend: string) {
    && (if host in cfg.statics then route == cfg.statics[host] else host in db && route == db[host])
    && (if route.backend != "" then backend == route.backend else route.guacTunnel && backend == cfg.guacBackend)
    && backend != "" && cfg.parses(backend)
  }

  /** A right snapshot on the rows: it holds exactly the routed hosts, each with its
      route and backend. */
  lemma RightOnTheRows(cfg: Settings, db: map<string, Route>, rs: RouteSet, host: string, route: Route, backend: string)
    requires Right(cfg, db, rs)
    ensures Routed(cfg, db, host, route, backend)
       <==> host in rs.table && host in rs.proxies && rs.table[host] == route && rs.proxies[host] == backend
  {
  }

  function Rows(db: Option<map<string, Route>>): map<string, Route> { if db.Some? then db.value else map[] }

  datatype Kind = KindNone | KindAuth | KindApp(host: string, route: Route)

  function Lookup(cfg: Settings, rs: RouteSet, rawHost: string): Kind {
    var host := HostNames.Normalized(rawHost);
    if host.None? then KindNone
    else if host.value == cfg.authHost then KindAuth
    else if host.value in rs.table then KindApp(host.value, rs.table[host.value])
    else KindNone
  }

  /** Where a request goes: the sign-in host is never an app, an app is a routed host, and
      everything else is nowhere. */
  lemma LookupLeads(cfg: Settings, db: map<string, Route>, rs: RouteSet, rawHost: string)
    requires Right(cfg, db, rs)
    ensures
      var kind := Lookup(cfg, rs, rawHost);
      var host := HostNames.Normalized(rawHost);
      && (kind == KindAuth <==> host == Some(cfg.authHost))
      && forall h, route :: kind == KindApp(h, route) <==>
           host == Some(h) && h != cfg.authHost && exists backend :: Routed(cfg, db, h, route, backend)
  {
    forall h, route, backend { RightOnTheRows(cfg, db, rs, h, route, backend); }
    var host := HostNames.Normalized(rawHost);
    if host.Some? && host.value in rs.table {
      assert Routed(cfg, db, host.value, rs.table[host.value], rs.proxies[host.value]);
    }
  }

  /** A snapshot computed by rows alone, to compare histories of swaps with. */
  function Build(cfg: Settings, db: map<string, Route>): RouteSet {
    var merged := db + cfg.statics;
    var table := map h | h in merged && Usable(cfg, merged[h]) :: merged[h];
    RouteSet(table, map h | h in table :: BackendOf(cfg, table[h]))
  }

  lemma BuildIsRight(cfg: Settings, db: map<string, Route>)
    ensures Right(cfg, db, Build(cfg, db))
  {
  }

  /** What the server holds: last rows, snapshot, and how many times the decision cache
      was emptied. */
  datatype Held = Held(last: Option<map<string, Route>>, routes: RouteSet, purges: nat)

  function Swapped(cfg: Settings, h: Held, db: Option<map<string, Route>>): Held {
    if h.last.Some? && db == h.last then h else Held(db, Build(cfg, Rows(db)), h.purges + 1)
  }

  function History(cfg: Settings, swaps: seq<Option<map<string, Route>>>): Held {
    if swaps == [] then Held(None, Build(cfg, map[]), 0)
    else Swapped(cfg, History(cfg, swaps[..|swaps| - 1]), swaps[|swaps| - 1])
  }

  class Server {
    const cfg: Settings
    const cache: AuthzCache.Cache
    var routes: RouteSet
    var lastDbRoutes: Option<map<string, Route>>
    ghost var purges: nat

    ghost predicate Valid()
      reads this
    {
      Right(cfg, Rows(lastDbRoutes), routes)
    }

    ghost function Snapshot(): Held
      reads this
    {
      Held(lastDbRoutes, routes, purges)
    }

    constructor (cfg: Settings)
      ensures Valid() && this.cfg == cfg && Snapshot() == History(cfg, [])
      ensures fresh(cache) && cache.entries == map[]
    {
      this.cfg := cfg;
      cache := new AuthzCache.Cache();
      lastDbRoutes := None;
      routes := RouteSet(map[], map[]);
      purges := 0;
      new;
      routes := BuildRouteSet(map[]);
      BuildIsRight(cfg, map[]);
      RightIsUnique(cfg, map[], routes, Build(cfg, map[]));
    }

    /** Copies `from` over `into`, entry by entry. */
    method CopyInto(into: map<string, Route>, from: map<string, Route>) returns (merged: map<string, Route>)
      ensures merged == into + from
    {
      merged := into;
      var todo := from.Keys;
      while todo != {}
        invariant todo <= from.Keys
        invariant merged.Keys == into.Keys + (from.Keys - todo)
        invariant forall h :: h in merged ==>
                    merged[h] == if h in from && h !in todo then from[h] else into[h]
        decreases todo
      {
        var host :| host in todo;
        merged := merged[host := from[host]];
        todo := todo - {host};
      }
      assert merged == into + from;
    }

    method BuildRouteSet(db: map<string, Route>) returns (rs: RouteSet)
      ensures Right(cfg, db, rs)
    {
      var merged := CopyInto(map[], db);
      merged := CopyInto(merged, cfg.statics);
      ghost var all := merged;
      assert forall host :: host in all <==> Chosen(cfg, db, host).Some?;
      assert forall host :: host in all ==> all[host] == Chosen(cfg, db, host).value;
      var proxies: map<string, string> := map[];
      var todo := merged.Keys;
      while todo != {}
        invariant todo <= merged.Keys <= all.Keys
        invariant proxies.Keys == merged.Keys - todo
        invariant forall h :: h in merged ==> merged[h] == all[h]
        invariant forall h :: h in all && h !in todo ==> (h in merged <==> Usable(cfg, all[h]))
        invariant forall h :: h in proxies ==> proxies[h] == BackendOf(cfg, all[h])
        decreases todo
      {
        var host :| host in todo;
        todo := todo - {host};
        var route := merged[host];
        var backend := route.backend;
        if backend == "" && route.guacTunnel { backend := cfg.guacBackend; }
        if backend == "" {
          merged := merged - {host};
          continue;
        }
        if !cfg.parses(backend) {
          merged := merged - {host};
          continue;
        }
        proxies := proxies[host := backend];
      }
      rs := RouteSet(merged, proxies);
    }

    /** `SwapRoutes`: skipped when the rows are those of the last swap; the decision
        cache is emptied exactly when it is not skipped. `None` is the nil map. */
    method SwapRoutes(db: Option<map<string, Route>>)
      requires Valid()
      modifies this, cache
      ensures Valid() && Snapshot() == Swapped(cfg, old(Snapshot()), db)
      ensures lastDbRoutes == db && Right(cfg, Rows(db), routes)
      ensures cache.entries ==
                if old(lastDbRoutes).Some? && db == old(lastDbRoutes) then old(cache.entries) else map[]
    {
      if lastDbRoutes.Some? && db == lastDbRoutes { return; }
      var rs := BuildRouteSet(if db.Some? then db.value else map[]);
      routes := rs;
      lastDbRoutes := db;
      cache.Purge();
      purges := purges + 1;
      BuildIsRight(cfg, Rows(db));
      RightIsUnique(cfg, Rows(db), routes, Build(cfg, Rows(db)));
    }

    /** The lookup of `ServeHTTP`: an app route always has its proxy. */
    method Resolve(rawHost: string) returns (kind: Kind, backend: string)
      requires Valid()
      ensures kind == Lookup(cfg, routes, rawHost)
      ensures kind.KindApp? ==>
                Chosen(cfg, Rows(lastDbRoutes), kind.host) == Some(kind.route)
                && Usable(cfg, kind.route) && backend == BackendOf(cfg, kind.route)
    {
      kind := Lookup(cfg, routes, rawHost);
      backend := if kind.KindApp? then routes.proxies[kind.host] else "";
    }
  }

  /** Number of swaps that are not a repetition of the one before. */
  function Changes(swaps: seq<Option<map<string, Route>>>): nat {
    if swaps == [] then 0
    else
      var n := |swaps| - 1;
      Changes(swaps[..n]) + (if n > 0 && swaps[n].Some? && swaps[n] == swaps[n - 1] then 0 else 1)
  }

  /** After any history the snapshot is a fresh build of the last rows, skipped swaps
      included, and the cache was emptied once per change of rows. */
  lemma {:induction false} HistoryIsAFreshBuild(cfg: Settings, swaps: seq<Option<map<string, Route>>>)
    ensures
      var h := History(cfg, swaps);
      && h.routes == Build(cfg, if swaps == [] then map[] else Rows(swaps[|swaps| - 1]))
      && h.last == (if swaps == [] then None else swaps[|swaps| - 1])
      && h.purges == Changes(swaps)
  {
    if swaps != [] {
      HistoryIsAFreshBuild(cfg, swaps[..|swaps| - 1]);
    }
  }
}
