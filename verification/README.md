# hyproxy, modelled and verified in Dafny

hyproxy is an identity-aware reverse proxy: a Python control plane that signs users in,
decides who may reach which resource and issues tokens, and a Go data plane that routes
requests and caches the control plane's answers. This project models the parts whose
correctness depends on whole runs, or on a fast form agreeing with a slow one, and proves
what they promise.

`dafny verify dfyconfig.toml` checks everything.

## How it is modelled

- One HTTP request is one atomic transaction over a record of tables. A run is a list of
  events; each event lets a nonnegative time pass and then does one thing. Clocks are in
  microseconds and never go back. A request that raises changes nothing.
- A stored hash is represented by what was hashed, and a new identifier or secret by a
  number never used before. Signatures, argon2, TOTP, WebAuthn and the PKCE digest are
  functions of the settings, about which nothing is assumed.
- Where the source updates rows or fields in place there is a class with those fields,
  whose methods follow the handlers branch by branch. Each is proved to leave the state, or
  the table it owns, that a function computes, and the steps of the runs are made of those
  same functions. The theorems are about every run.
- What the decision points and the handlers compute is also characterised on the stored
  rows, in terms that do not mention those functions: exactly when something is granted,
  and every row that then changes. So the theorems that forbid have their converses beside
  them.
- Most state records carry a log of what was answered, with the rows it was answered on.
  The log is history for the theorems; no step reads it.

| file | what it models |
|---|---|
| `Prelude.dfy`, `Texts.dfy`, `Rows.dfy` | shared vocabulary, splitting of texts, and table rows |
| `PolicyEngine.dfy`, `RuleMeaning.dfy` | the deny-overrides engine, time windows and the host-stability scan; what a stored rule says |
| `AuthzCheck.dfy` | the decision point `/authz/check` and its cache hint |
| `AuthzCache.dfy`, `EdgeCache.dfy` | the data plane's decision cache, alone and interleaved with everything else |
| `RouteTable.dfy`, `HostNames.dfy` | route snapshots and swaps; host normalisation in both languages |
| `PathGlob.dfy`, `PublicGate.dfy`, `GateEdits.dfy` | the path allowlist compiler; the password gate with its admin edits; what each edit does |
| `IdpSessions.dfy`, `LoginFlow.dfy`, `LoginHandlers.dfy`, `LoginOutcomes.dfy` | session liveness; the login stage machine, its handlers, and what each post leads to |
| `RefreshFamilies.dfy`, `Oidc.dfy`, `OidcExchanges.dfy` | refresh-token families; code and refresh exchanges; when tokens are handed out and what ends that |
| `SigningKeys.dfy`, `DpopReplay.dfy`, `Throttle.dfy` | key rotation, proof replay, progressive delays |
| `GatewayLogin.dfy`, `Grants.dfy` | the gateway's sign-in round trip; tunnel and stream grants |
| `LogRotate.dfy`, `LogShipping.dfy`, `KeysetPaging.dfy` | log rotation, cursor shipping, keyset paging |

## Findings

Places where the code does not do what its own text says, or does it only on a condition.
Each is a lemma.

- A login flow is described as single-use. A completed TOTP flow can mint a second session,
  because confirming an enrolment does not look at `completed_session_id`
  (`LoginFlow.OneFlowMintsTwice`, a run from the start); a step mints a second one exactly
  when the flow was already completed (`LoginFlow.SecondSessionIffCompleted`), and there is
  never a third.
- `bootstrap_if_empty` leaves a table holding only pending keys without an active one
  (`SigningKeys.BootstrapActivatesOnlyAnEmptyTable`).
- "At most `backups` archives" fails for `backups` below one, where a rotation still leaves
  `x.1` (`LogRotate.AtMostBackupsArchives`).
- A DPoP proof dated at or after its first acceptance is accepted again one window later
  once the collection has run (`DpopReplay.LaterDatedProofReplays`); this is the exact gap.
- `literal_prefix` is a prefix of every match exactly when the pattern starts with neither
  nothing nor a star (`PathGlob.LiteralPrefixIsPrefix`). The validator refuses `/`-star and
  `/`-star-star as exposing a whole host, but a slash and three stars pass and expose it
  (`PathGlob.WholeHostPatterns`).
- One host normaliser is said to mirror the other. They agree on every host that is stored,
  and on raw input exactly when it has no port, no surrounding space and at most one trailing
  dot, or neither accepts it (`HostNames.PlanesAgreeIff`). A port is accepted by the data
  plane alone, a surrounding space and further dots by the control plane alone.
- The host-stability scan is sound, as it promises, and not complete: the hint is withheld
  from an allow everywhere exactly when the relevant denies are dead and every instant is
  covered, so that nothing is ever refused, and yet there is such a dead deny, or all that
  covers does so by the root path, windows or unknown conditions
  (`PolicyEngine.HintIsWithheldExactly`).
- A row committed with an id at or below a shipping cursor is never shipped
  (`LogShipping.LateRowsAreNeverShipped`, `LogShipping.LateRowsHappen`), as the source's own comment warns.
- Keyset paging is said to be stable under concurrent inserts. It shows exactly the first
  request's rows when rows commit in id order (`KeysetPaging.PagesAreTheFirstSnapshot`). A
  row committed late below the cursor is returned exactly when it is there by the one
  request that decides about it (`KeysetPaging.LateRowsAreDecidedByTheirRequest`), and both
  outcomes occur (`KeysetPaging.LateRowsGoEitherWay`); no row is repeated and none of the
  first request's is missed in any case.
- A change of routes purges the decision cache, since route policy may have moved under it,
  but not an answer still on its way: from an empty edge, a request whose answer may be cached, decided before the swap and
  delivered after it, is replayed to the next one (`EdgeCache.InFlightReplayIsReached`).

## Model

| member | source | states |
|---|---|---|
| PolicyEngine.EvaluateIsDenyOverrides | server/src/hyproxy/policy/engine.py:77-127 | Some applicable rule allows and none denies, if and only if the verdict is allow; the reason is explicit_deny exactly when one denies. Order and repetition of rules do not matter |
| RuleMeaning.EngineDecidesByWhatSpeaks | server/src/hyproxy/policy/engine.py:38-127 | On the stored fields: a deny that speaks to the request refuses it, else an allow that speaks admits it, else it is refused, with the reason for each; a rule speaks when enabled, for this resource, role and port, for a path that is a prefix of it, that lies under the prefix without its trailing slashes, or any path for the root prefix, inside one of its windows as their clock texts read |
| RuleMeaning.RuleReads | server/src/hyproxy/policy/engine.py:77-99 | A rule applies if and only if it speaks in that sense |
| RuleMeaning.PrefixReads | server/src/hyproxy/policy/engine.py:94-97 | A prefix takes a path if and only if they are equal, it is the root, or the path is the prefix without its trailing slashes, a slash, and anything |
| RuleMeaning.ClockReads | server/src/hyproxy/policy/engine.py:38-43 | A text parses as a time of day if and only if it is one or two figures, a colon and one or two figures, at most 23 and 59, and then as that minute |
| RuleMeaning.WindowsRead | server/src/hyproxy/policy/engine.py:46-74 | Windows match if and only if there are none, or one of the list is on at this weekday and minute |
| RuleMeaning.DenyCoversItsSubtree | server/src/hyproxy/policy/engine.py:94-97 | A deny on a prefix refuses the prefix and everything under it, whatever allows there are |
| RuleMeaning.StabilityReads | server/src/hyproxy/authz/decision.py:26-65 | The stability scan on the stored fields: no concerned rule is a deny and one concerned allow has neither paths nor any condition but blank windows |
| PolicyEngine.WindowIsAnArc | server/src/hyproxy/policy/engine.py:38-74 | A time window is one arc of the 24-hour dial walked forward from its start to its end, crossing midnight or not, on the weekday of the current instant |
| PolicyEngine.HostStable | server/src/hyproxy/authz/decision.py:26-65 | The two scans with their early returns decide exactly: no relevant deny, and one relevant allow without paths, windows or unknown conditions |
| PolicyEngine.StableAllowsEverywhere | server/src/hyproxy/authz/decision.py:26-65 | A host-stable verdict is an allow of the engine for every path and every instant |
| PolicyEngine.StableIsExactForBlindRules | server/src/hyproxy/authz/decision.py:26-65 | Where every relevant rule looks at neither path nor clock and carries no unknown condition, nothing is withheld: allowed if and only if stable |
| PolicyEngine.AllowedEverywhereIff | server/src/hyproxy/policy/engine.py:77-127 | The engine allows every path at every instant if and only if every relevant deny is dead (an empty path list, or windows that never come) and at every instant some relevant allow without paths, or with the root path, is on |
| PolicyEngine.HintIsWithheldExactly | server/src/hyproxy/authz/decision.py:26-65 | The engine allows every path at every instant and yet the scan says no, if and only if every relevant deny is dead, some relevant allow takes every path at each instant, and either such a dead deny exists or every allow that ever covers all paths names the root path, has windows or carries an unknown condition |
| PolicyEngine.StableIsNotComplete | server/src/hyproxy/authz/decision.py:26-65 | Both occur: a dead deny, and an allow of the root path, each withhold the claim from an allow everywhere |
| AuthzCheck.AllowedIff | server/src/hyproxy/authz/check.py:96-276 | On the stored rows: a request is allowed if and only if an enabled resource is stored under its host and, for a public one, its path list exposes the path and the cookie names a live session of its gate; otherwise the cookie names an unrevoked gateway row by its secret from its address, over an IdP session neither revoked nor stale and inside both bounds, of an active user of the tier the host needs, to whom some stored rule says allow and none says deny |
| AuthzCheck.SignedInAnswers | server/src/hyproxy/authz/check.py:187-276 | The whole response about a resource behind sign-on, refusal by refusal with its reason, and for an allow the hint exactly when the stored rules carry it |
| AuthzCheck.PublicAnswers | server/src/hyproxy/authz/check.py:96-168 | The whole response about a public resource: not found off the list, sign-in without a gate session, else an allow with no identity and nothing to cache |
| AuthzCheck.UnknownHostsAreDenied | server/src/hyproxy/authz/check.py:171-186 | A host no enabled resource is stored under is denied as unknown |
| AuthzCheck.AllowsCarryTheUser | server/src/hyproxy/authz/check.py:264-276 | The headers of an allow are the e-mail and external id of the user behind the gateway row and all of its role names, in code-point order, joined by commas |
| AuthzCheck.SignedInIsLive | server/src/hyproxy/authz/gateway.py:215-267 | A gateway session resolves if and only if its row is unrevoked, proved, from its address where bound, and its IdP session stands |
| AuthzCheck.ClientsReachTheHostTheySpell | server/src/hyproxy/authz/check.py:171-179 | When the data plane takes what a client wrote for a host and the check allows it, the request is for the enabled resource stored under exactly that host, of which the client wrote a spelling |
| AuthzCheck.DressedHostsAreTheHost | server/src/hyproxy/authz/check.py:171-179 | The answer to a request with any such text as its host is the answer for the host itself |
| AuthzCheck.CacheableAnswersStayRight | server/src/hyproxy/authz/check.py:171-276 | While the rows behind a cacheable answer are unchanged and the cookie resolves, a fresh check of any path at any later time gives the same answer, headers and hint included |
| AuthzCheck.OnlySignedInAllowsAreCacheable | server/src/hyproxy/authz/check.py:247-276 | Only an allow to a live gateway session is cacheable, for the configured time |
| AuthzCache.KeysAreInjective | dataplane/internal/proxy/authzcache.go:38-42 | Keys of different (host, port, address, cookie) differ when host and address hold no NUL byte, whatever the cookie holds |
| AuthzCache.Cache.Get | dataplane/internal/proxy/authzcache.go:44-56 | Returns exactly an unexpired entry's headers, and drops the entry when it has expired |
| AuthzCache.Cache.EvictExpired | dataplane/internal/proxy/authzcache.go:67-73 | The deletion loop leaves exactly the unexpired entries |
| AuthzCache.Cache.Put | dataplane/internal/proxy/authzcache.go:58-80 | The whole new table: capped lifetime, eviction of expired entries when full, a reset when still full |
| AuthzCache.Cache.Purge | dataplane/internal/proxy/authzcache.go:82-86 | Empties the table |
| AuthzCache.PutStaysBounded | dataplane/internal/proxy/authzcache.go:58-80 | A put never takes the table over 4096 entries |
| AuthzCache.PutInventsNothing | dataplane/internal/proxy/authzcache.go:58-80 | Every entry after a put was there unchanged or is the one put, expiring no later than 60 seconds on |
| AuthzCache.PutKeepsWhatFits | dataplane/internal/proxy/authzcache.go:58-80 | A put keeps every other entry while there is room, else the unexpired ones if that makes room, else none, and stores its own with the capped lifetime |
| EdgeCache.CacheHitsAgreeWithTheControlPlane | dataplane/internal/proxy/server.go:469-520 | In every interleaving of requests, puts, purges, swaps and database changes, a hit replays the headers of an allow given to the same host, port, address and cookie for a request begun at most min(ttl, 60s) before; if the rows are unchanged and the cookie resolves, a fresh check of this very request allows with those headers |
| EdgeCache.RevocationLatency | dataplane/internal/proxy/server.go:469-520 | If from some instant on the control plane no longer resolves a cookie, no hit serves it from min(ttl, 60s) after that instant |
| EdgeCache.CacheStaysBounded | dataplane/internal/proxy/authzcache.go:58-80 | The table stays within its bound in every interleaving |
| EdgeCache.AnonymousRequestsAreAsked | dataplane/internal/proxy/server.go:469-520 | In every run a request without a gateway cookie is never served from the cache |
| EdgeCache.HitsReplayAnswersStoredSinceTheSwap | dataplane/internal/proxy/server.go:195-214 | In every interleaving a hit replays an answer stored since the last swap of routes, and one given before that swap only if it was on its way across it |
| EdgeCache.AnswersInFlightComeBack | dataplane/internal/proxy/server.go:195-214 | From any state, a cacheable answer on its way across a swap is stored after it and replayed to the next request with its key |
| EdgeCache.InFlightReplayIsReached | dataplane/internal/proxy/server.go:195-214 | And such a state is reached: from an empty edge, for any request whose answer may be cached and any delay within its life, the run arrive, decide, swap, deliver, arrive ends in a hit that replays the answer given before the swap |
| RouteTable.Server.BuildRouteSet | dataplane/internal/proxy/server.go:165-193 | The snapshot has exactly the hosts whose chosen route has a usable backend, the static route winning over the row, each with its proxy |
| RouteTable.Server.SwapRoutes | dataplane/internal/proxy/server.go:200-214 | Rows, snapshot and number of purges become those of the swap function; the snapshot is right for the new rows even when the swap was skipped, and the decision cache is emptied exactly when it was not |
| RouteTable.Server.Resolve | dataplane/internal/routing/routing.go:87-99 | In every valid state an app lookup finds the proxy of the backend its host was built with |
| RouteTable.RightIsUnique | dataplane/internal/proxy/server.go:165-193 | The rows determine the snapshot, so a skipped swap could not have built another |
| RouteTable.RightOnTheRows | dataplane/internal/proxy/server.go:165-193 | The snapshot holds a host, route and backend if and only if the route is the static one, else the row's, and the backend is its own, else the tunnel's, not empty and parseable |
| RouteTable.LookupLeads | dataplane/internal/routing/routing.go:87-99 | A request goes to sign-in if and only if its host is the sign-in host, and to an app if and only if its host is otherwise a routed one |
| RouteTable.HistoryIsAFreshBuild | dataplane/internal/proxy/server.go:200-214 | After any list of the swaps the server is proved to make, the snapshot is a fresh build of the last rows, and the cache was emptied once per change of rows |
| HostNames.NormalizeHost | dataplane/internal/routing/routing.go:25-66 | The loops of the Go function compute the specified normal form |
| HostNames.NormalizationAcceptsExactlySpellings | dataplane/internal/routing/routing.go:25-66 | A raw host is mapped to a host if and only if it is a spelling of that canonical host: any case, at most one trailing dot, a port of one to five digits, 255 characters |
| HostNames.NormalizationIsIdempotent | dataplane/internal/routing/routing.go:25-66 | Normalising twice is normalising once |
| HostNames.BothPlanesUseTheSameKey | server/src/hyproxy/admin/schemas.py:62-84 | Every stored host is canonical and fixed by the data plane's normaliser and by the control plane's lookups, and every canonical host can be stored |
| HostNames.LookedUpAs | server/src/hyproxy/authz/check.py:175-175 | A text is looked up as a canonical host if and only if it is that host in any case, with any number of dots behind it and space around that |
| HostNames.NormalizedHostIsNulFree | dataplane/internal/routing/routing.go:25-66 | A normalised host holds no NUL byte, as the cache key needs |
| HostNames.PlanesAgreeIff | server/src/hyproxy/admin/schemas.py:62-84 | The two normalisers give a text the same answer if and only if it has no port, no surrounding space and at most one trailing dot, or neither accepts it; on any other text one of them accepts alone, and which one is said |
| HostNames.PortsAreTheDataPlanesAlone | dataplane/internal/routing/routing.go:34-46 | Every canonical host with a port is that host for the data plane, within 255 characters, and refused by the control plane |
| HostNames.SpacesAreTheControlPlanesAlone | server/src/hyproxy/admin/schemas.py:74-74 | Every canonical host with a space before it is stored as that host and refused by the data plane |
| HostNames.TwoTrailingDots | server/src/hyproxy/admin/schemas.py:74-74 | Every canonical host with two trailing dots is stored as that host and refused by the data plane |
| PathGlob.Translate | server/src/hyproxy/policy/pathglob.py:38-61 | The scanning loop's output, read back as a regular expression, is the pattern's items |
| PathGlob.CompiledGlobMeansSubstitution | server/src/hyproxy/policy/pathglob.py:38-61 | The compiled expression accepts a path if and only if the path is the pattern with each star replaced by a slash-free string and each double star by any newline-free string |
| PathGlob.MatchesAny | server/src/hyproxy/policy/pathglob.py:73-80 | True exactly when some pattern exposes the path in that sense |
| PathGlob.SegmentGlobKeepsSlashCount | server/src/hyproxy/policy/pathglob.py:38-61 | A pattern without a double star only exposes paths with its own number of slashes |
| PathGlob.LiteralPrefixIsPrefix | server/src/hyproxy/policy/pathglob.py:128-135 | The literal prefix is a prefix of every exposed path if and only if the pattern is not empty and does not start with a star |
| PathGlob.ValidatePatterns | server/src/hyproxy/policy/pathglob.py:112-125 | Ok only if every pattern validates, with the first error otherwise; the result is the stored forms without repetitions in order, all valid |
| PathGlob.AcceptedIffStorable | server/src/hyproxy/policy/pathglob.py:83-109 | A text is accepted as a pattern if and only if, with the space around it dropped, it has 1 to 512 characters, no NUL byte and no backslash, one leading slash, no segment of two dots, and is not one of the three shapes refused as the whole host; that is what is stored |
| PathGlob.ValidationIsIdempotent | server/src/hyproxy/policy/pathglob.py:83-109 | A stored pattern validates to itself |
| PathGlob.WholeHostPatterns | server/src/hyproxy/policy/pathglob.py:83-109 | A stored pattern exposes every path of the host if and only if it is a slash and three or more stars |
| PathGlob.SafeRdStaysInside | server/src/hyproxy/authz/publicgate.py:195-208 | For a stored list the return path has exactly one leading slash and no backslash, and is exposed or the first pattern's fixed head; a target with one leading slash, no backslash and an exposed path is kept as it is |
| PathGlob.PathOfReads | server/src/hyproxy/authz/publicgate.py:195-208 | The path judged is all of the target up to its first query or fragment mark |
| PublicGate.GateDb.PatchRow | server/src/hyproxy/admin/routes/resources.py:155-203 | The patch handler computes the specified new tables: shape check, field updates, revocation on a grant change, hash cleared when private |
| GateEdits.EditLands | server/src/hyproxy/admin/routes/resources.py:155-203 | After an accepted body each of the five fields is its value, cleared, or kept; a private resource has no password; no other row changes; the resource's sessions and no others are revoked, exactly when the link was closed, its paths changed, or the body disabled it |
| GateEdits.RefusedUnlessAccepted | server/src/hyproxy/admin/routes/resources.py:155-173 | A body is refused if and only if no row answers it: unknown resource, null where no null can be, a list not as stored, a host taken, forbidden or on a tunnel, or a public shape that cannot be served |
| GateEdits.DisabledUntilEnabled | server/src/hyproxy/admin/routes/resources.py:172-187 | From an accepted edit that disables a resource on, in every continuation without an edit that enables it, no host lookup finds it; its gate sessions are revoked |
| GateEdits.CreationStores | server/src/hyproxy/admin/routes/resources.py:93-116 | A resource is stored as its body says, with a first password exactly when public, or nothing is |
| PublicGate.GateDb.RotatePublicPassword | server/src/hyproxy/admin/routes/resources.py:207-236 | A new hash and every session of the resource revoked |
| PublicGate.GateDb.RevokePublicSessions | server/src/hyproxy/authz/publicgate.py:95-110 | Revokes exactly the resource's sessions |
| PublicGate.GateDb.SubmitPassword | server/src/hyproxy/authz/publicgate.py:292-393 | A cookie if and only if a login was accepted, naming a session row with that secret; otherwise nothing changes |
| GateEdits.GateOpensIff | server/src/hyproxy/authz/publicgate.py:292-393 | On the rows: one new session, live for the configured time and bound to the address when binding is on, if and only if the host's enabled resource is public, the form valid and not throttled, and the password that of the stored hash |
| GateEdits.GateSessionsOpen | server/src/hyproxy/authz/check.py:113-168 | The session so handed out is allowed on every exposed path until it runs out |
| PublicGate.GateDb.CheckPublicRequest | server/src/hyproxy/authz/check.py:96-168 | The answer and the touched row, branch by branch |
| PublicGate.UnrevokedSessionsMatchTheirResource | server/src/hyproxy/admin/routes/resources.py:170-191 | In every run of edits, rotations, deletions, logins, checks and collections, an unrevoked session's resource is public and enabled, and the session was minted by a correct password under the hash and path list it has now |
| PublicGate.PublicAllowTracesToALogin | server/src/hyproxy/authz/check.py:113-168 | Every public allow follows a correct-password, unthrottled login through a valid form, less than the session lifetime earlier, presents the secret that login handed out, comes from the same address when binding is on, and is for a path exposed by the patterns in force at both times |
| PublicGate.ReturnPathIsSafeInEveryState | server/src/hyproxy/authz/publicgate.py:195-208 | The return path is safe for every public resource of every reachable state |
| IdpSessions.SessionTable.CheckLiveness | server/src/hyproxy/idp/sessions.py:83-121 | The verdict and the row left behind, for every order of the failing conditions |
| IdpSessions.SessionTable.FromCookie | server/src/hyproxy/idp/sessions.py:124-152 | A session exactly for a matching, live row |
| IdpSessions.CommittedRefusalIsFinal | server/src/hyproxy/idp/sessions.py:83-121 | After a committed refusal no later check of that session succeeds, from any address, with or without the address test |
| IdpSessions.EndedSessionsStayRefused | server/src/hyproxy/idp/sessions.py:83-121 | A revoked session, and one past its absolute bound, is refused by every later check whatever happens to its row |
| IdpSessions.IdleGap | server/src/hyproxy/idp/sessions.py:155-160 | In every reachable state last_seen_at trails the last success by less than the touch interval; a gap above the idle bound is refused, one of at most the bound less that lag is not |
| IdpSessions.IdleGapBetweenTheBoundsIsOpen | server/src/hyproxy/idp/sessions.py:155-160 | For every configuration and every gap strictly between the two bounds, one run from any new session admits it and another refuses it for idleness alone |
| IdpSessions.IdleGapIsExact | server/src/hyproxy/idp/sessions.py:155-160 | For every configuration, a gap since the last success is refused for idleness in some life of a session if and only if it is longer than the idle bound less the lag, and admitted in some life if and only if it is not longer than the bound |
| IdpSessions.RolledBackRefusal | server/src/hyproxy/idp/sessions.py:227-231 | A refusal rolled back by its exception can be followed by a success if and only if the address was its only cause |
| RefreshFamilies.RefreshTable.Rotate | server/src/hyproxy/idp/oidc/refresh.py:56-75 | Marks the row used and adds its child with everything else copied |
| RefreshFamilies.RefreshTable.RevokeForSession | server/src/hyproxy/idp/oidc/refresh.py:86-91 | Revokes exactly the session's tokens |
| RefreshFamilies.RotationExtends | server/src/hyproxy/idp/oidc/refresh.py:56-75 | Rotating the unused token of a chain extends that chain by the child |
| RefreshFamilies.AtMostOneUnused | server/src/hyproxy/idp/oidc/refresh.py:56-75 | A chained family has at most one unused token |
| Oidc.Provider.ConsumeCode | server/src/hyproxy/idp/oidc/codes.py:47-62 | The row on the first unexpired use, else nothing and no change |
| Oidc.Provider.AuthorizationCodeGrant | server/src/hyproxy/idp/oidc/token.py:106-201 | The whole new state for every branch: replay, mismatch after consumption, dead session, inactive user, issue |
| Oidc.Provider.RefreshTokenGrant | server/src/hyproxy/idp/oidc/token.py:204-278 | The whole new state for every branch: unknown, foreign, reused, revoked, expired, wrong key, dead, rotate |
| Oidc.Provider.Revoke | server/src/hyproxy/idp/oidc/revoke.py:52-70 | Family and session revoked for the holder of the key, nothing otherwise |
| Oidc.NoTokensAfterAnAlarm | server/src/hyproxy/idp/oidc/token.py:119-137 | In every run, once a consumed code or a used refresh token has been presented again, no tokens are issued for its session, its family, or any family issued to that session |
| Oidc.PresentingAgainEndsTheSession | server/src/hyproxy/idp/oidc/token.py:218-234 | The same about requests: from any reachable state, after such a presentation no continuation issues tokens for that session |
| Oidc.AlarmsRevokeForGood | server/src/hyproxy/idp/oidc/refresh.py:78-91 | After an alarm the session, and every token it covers, is revoked in every later state |
| Oidc.ExchangesAreBoundToTheirGrant | server/src/hyproxy/idp/oidc/token.py:139-156 | Tokens are only issued while the session is live and its user active; for a code to the client it was granted to, with its redirect URI and verifier, in time, and with the scope that was granted |
| OidcExchanges.TokensExactlyWhenDue | server/src/hyproxy/idp/oidc/token.py:106-278 | The converse with it: in every reachable state a step hands out tokens if and only if it presents an unspent, unexpired code or refresh token with its client, redirect URI and verifier, or key, of a session that stands and whose user is active |
| OidcExchanges.RefreshRotates | server/src/hyproxy/idp/oidc/token.py:248-278 | Such a refresh appends one entry for its family and session, spends the row, and adds one unspent child with the same family, session, client, user, key, scope and expiry |
| OidcExchanges.CodeOpensAFamily | server/src/hyproxy/idp/oidc/token.py:139-201 | Such a code is spent and opens a family of one token with its session, user, expiry and scope and the key of the request |
| OidcExchanges.OtherCodesGetNothing | server/src/hyproxy/idp/oidc/token.py:116-156 | Any other presentation hands out nothing, and a filled-in one spends the code all the same |
| OidcExchanges.OtherRefreshesGetNothing | server/src/hyproxy/idp/oidc/token.py:213-246 | Any other refresh hands out nothing and adds no token |
| OidcExchanges.RevocationEndsTheFamily | server/src/hyproxy/idp/oidc/revoke.py:52-70 | The key holder revokes exactly the family's rows and the session; anyone else nothing |
| OidcExchanges.ReplayEnds | server/src/hyproxy/idp/oidc/token.py:119-137 | A spent code again revokes its session and exactly the session's tokens |
| OidcExchanges.ReuseEnds | server/src/hyproxy/idp/oidc/token.py:218-234 | A spent refresh token again revokes its session and exactly its family |
| OidcExchanges.EndedSessionsGetNoTokens | server/src/hyproxy/idp/oidc/token.py:148-156 | Once a session is revoked or gone, by whatever means, no continuation hands out tokens for it |
| OidcExchanges.AuthorizationGrants | server/src/hyproxy/idp/oidc/authorize.py:88-141 | A code is granted if and only if the cookie names a session that stands, for it, its user and what was asked |
| OidcExchanges.LogoutEnds | server/src/hyproxy/idp/oidc/authorize.py:145-155 | A logout with such a cookie revokes that session and touches no other |
| OidcExchanges.UserRevocationEnds | server/src/hyproxy/admin/routes/users.py:61-77 | Exactly the user's sessions but the one spared are revoked, with the refresh tokens of those |
| OidcExchanges.RemovalTakes | server/src/hyproxy/admin/routes/users.py:159-175 | Exactly the user's sessions and the codes and tokens that hang on them go with the user |
| Oidc.FamiliesHaveOneSender | server/src/hyproxy/idp/oidc/token.py:214-239 | All tokens of a family go to one client and one key |
| Oidc.EverySourceIsSpentOnce | server/src/hyproxy/idp/oidc/codes.py:47-70 | No code and no refresh token is ever exchanged for tokens twice |
| Oidc.FamiliesAreChains | server/src/hyproxy/idp/oidc/refresh.py:19-75 | In every reachable state each family is one parent-linked chain, all but the last used, of one session, client, user, key and scope, expiring with the session |
| LoginHandlers.Server.PasswordStep | server/src/hyproxy/idp/web/routes.py:82-146 | The whole new state of the password step; the second factor follows the tier |
| LoginHandlers.Server.TotpStep | server/src/hyproxy/idp/web/routes.py:305-352 | The whole new state for every branch, replay of a completed flow included |
| LoginHandlers.Server.EnrollStep | server/src/hyproxy/idp/web/routes.py:396-463 | The whole new state for every branch: secret confirmed, recovery codes replaced, session created, flow deleted |
| LoginHandlers.Server.RecoveryStep | server/src/hyproxy/idp/web/routes.py:483-535 | The code consumed, the secret dropped and the flow marked, or nothing but a new form token |
| LoginHandlers.Server.OptionsStep | server/src/hyproxy/idp/web/webauthn_routes.py:132-143 | A fresh challenge for a guarded flow whose user may assert, or enrol |
| LoginHandlers.Server.AssertionStep | server/src/hyproxy/idp/web/webauthn_routes.py:147-223 | The whole new state for every branch: the challenge cleared before it is judged |
| LoginHandlers.Server.RegistrationStep | server/src/hyproxy/idp/web/webauthn_routes.py:281-324 | A credential added only while none of the user's predates the flow |
| LoginHandlers.Server.ResumeCompletedLogin | server/src/hyproxy/idp/web/routes.py:224-237 | A new cookie exactly when the completed session is live from this address |
| LoginHandlers.Server.LoginPage | server/src/hyproxy/idp/web/routes.py:60-78 | The login form: an authenticated browser is sent on, a password-stage flow gets a new token, any other pinned flow is deleted and a new one created |
| LoginHandlers.Server.EnrollPage | server/src/hyproxy/idp/web/routes.py:359-392 | The enrolment form: a pending secret is stored only for an active standard user without one, and the token is rotated |
| LoginHandlers.Server.SecondFactorPage | server/src/hyproxy/idp/web/routes.py:287-301 | The other form pages, TOTP, recovery and both passkey pages: a new token exactly when the page is shown, and nothing else |
| LoginHandlers.Server.CreateFlow | server/src/hyproxy/idp/flows.py:25-43 | A fresh password-stage flow for the address, as the login form and the authorize endpoint create it |
| LoginFlow.SessionsAreEarned | server/src/hyproxy/idp/web/routes.py:240-252 | Every session created by login belongs to the user its flow fixed at an earlier password step that verified that user's password, whose own second factor was verified in the creating step; a passkey if and only if the tier at the password step was admin, and rc recorded if and only if one of the user's unused recovery codes was consumed in that flow; every such post carried the flow's cookie and form token in time |
| LoginOutcomes.SessionsExactlyWhenEarned | server/src/hyproxy/idp/web/routes.py:305-463 | The converse with it: in every state a step creates a session if and only if it posts, with the flow's cookie and form token and in time, a right code for the confirmed secret or a right assertion of the user's own credential on an uncompleted flow, or a right code for the pending secret of a standard user, each for an active user and not throttled |
| LoginOutcomes.PasskeySignsIn | server/src/hyproxy/idp/web/webauthn_routes.py:147-223 | If and only if so: one entry and one live session, with both methods, of the flow's user, the flow completed by it and its challenge spent; else no session |
| LoginOutcomes.CodeSignsIn | server/src/hyproxy/idp/web/routes.py:305-352 | The same for a code, with the recovery method exactly when one was used |
| LoginOutcomes.EnrolmentSignsIn | server/src/hyproxy/idp/web/routes.py:396-463 | The same for an enrolment, which confirms the secret and ends the flow |
| LoginOutcomes.EnrolmentRenewsTheCodes | server/src/hyproxy/idp/web/routes.py:440-463 | After it the user's recovery codes are the used ones and ten new ones; nobody else's change |
| LoginOutcomes.RecoveryIsAccepted | server/src/hyproxy/idp/web/routes.py:483-535 | An unused code of the user is used up, drops the authenticator and marks the flow; any other costs the form token |
| LoginOutcomes.PasswordIsAccepted | server/src/hyproxy/idp/web/routes.py:82-146 | A password step succeeds if and only if the post holds the flow and the password is that of the active account, and fixes user, stage by tier and address; else nothing changes |
| LoginOutcomes.ChallengesAreSet | server/src/hyproxy/idp/web/webauthn_routes.py:132-143 | A fresh challenge if and only if the flow is held by an active user with a passkey, or at enrolment with none from before |
| LoginOutcomes.PasskeysAreAdded | server/src/hyproxy/idp/web/webauthn_routes.py:281-324 | A credential of the user from now if and only if the registration answers the challenge of such a flow, which is spent either way |
| LoginOutcomes.WrongCodesCostTheToken | server/src/hyproxy/idp/web/routes.py:332-348 | A wrong code replaces the form token and changes nothing else |
| LoginOutcomes.CompletedFlowsResume | server/src/hyproxy/idp/web/routes.py:315-323 | A repeated code on a completed flow hands back its session under a new cookie if and only if it stands and the post is from its address |
| LoginOutcomes.LoginPageLeads | server/src/hyproxy/idp/web/routes.py:60-78 | The login page on the rows: a known browser is sent on, a waiting flow gets a new token, any other usable flow gives way to a new one |
| LoginOutcomes.PagesRenewTheToken | server/src/hyproxy/idp/web/routes.py:287-301 | Each second-factor page renews the form token of a flow its cookie holds exactly when there is something to ask for, and changes nothing else |
| LoginFlow.PasswordFixesTheUserOnce | server/src/hyproxy/idp/web/routes.py:93-146 | A flow passes the password step at most once |
| LoginFlow.FlowsMintAtMostTwice | server/src/hyproxy/idp/web/webauthn_routes.py:146-223 | A passkey flow mints one session at most; any second session of a flow comes from an enrolment after a plain code, and there is no third; no challenge proves two sessions |
| LoginFlow.ResumedSessionsWereCreated | server/src/hyproxy/idp/web/routes.py:224-237 | A resumed flow hands back a session that flow created |
| LoginFlow.SecondSessionIffCompleted | server/src/hyproxy/idp/web/routes.py:395-463 | A step creates a flow's second session if and only if the flow was completed before the post, and then it is an enrolment |
| LoginFlow.CompletedFlowCanMintAgain | server/src/hyproxy/idp/web/routes.py:395-463 | From any completed flow of an active non-admin with an unused recovery code, a recovery post, the enrolment page and its post create a further session |
| LoginFlow.OneFlowMintsTwice | server/src/hyproxy/idp/web/routes.py:395-463 | And such a flow is reached: for any settings and accounts with such a user, six requests from an empty service create two sessions in one flow |
| SigningKeys.KeyTable.ActivatePending | server/src/hyproxy/core/keys.py:58-76 | The newest pending key becomes active and every active one retiring, or nothing when none is pending |
| SigningKeys.KeyTable.FindPending | server/src/hyproxy/core/keys.py:58-68 | A newest pending row, or none exactly when there is none |
| SigningKeys.KeyTable.GcRetired | server/src/hyproxy/core/keys.py:108-118 | Retires exactly the keys retiring for the whole buffer, and counts them |
| SigningKeys.UnexpiredTokensVerify | server/src/hyproxy/idp/oidc/tokens.py:144-157 | In every run an unexpired access token finds its key active or retiring, when tokens live at most the 15-minute buffer |
| SigningKeys.LongerTokensOutliveTheirKey | server/src/hyproxy/core/keys.py:22-22 | For any longer lifetime a run leaves an unexpired token without its key |
| SigningKeys.OneActiveKeyAfterBootstrap | server/src/hyproxy/core/keys.py:58-84 | From a bootstrapped table on exactly one key is active at every step |
| SigningKeys.OneActiveKeyOnceActivated | server/src/hyproxy/core/keys.py:50-118 | In every reachable state exactly one key is active if and only if some key was ever activated |
| SigningKeys.BootstrapActivatesOnlyAnEmptyTable | server/src/hyproxy/core/keys.py:79-84 | On a table without an active key, bootstrap makes exactly one active if and only if the table is empty |
| SigningKeys.StatesMoveForward | server/src/hyproxy/core/keys.py:50-118 | A key's state never moves backwards, and no key disappears |
| DpopReplay.ReplayCache.VerifyProof | server/src/hyproxy/idp/oidc/dpop.py:191-219 | Accepted exactly when valid, fresh and unseen, stored then for one window; otherwise no change |
| DpopReplay.ReplayIsConfined | server/src/hyproxy/idp/oidc/dpop.py:168-175 | A second acceptance falls between one window after the first and one window after the proof's own date, so a proof dated before its first acceptance is never accepted again |
| DpopReplay.FirstPresentationsAreAccepted | server/src/hyproxy/idp/oidc/dpop.py:191-219 | In every run a proof is accepted only if valid, dated inside window and skew, and a window after any acceptance of its key and identifier; and always if valid, so dated, and never accepted before |
| DpopReplay.LaterDatedProofReplays | server/src/hyproxy/cli.py:263-266 | Any other proof is accepted again, one window later, after a collection |
| DpopReplay.NeverThreeTimes | server/src/hyproxy/idp/oidc/dpop.py:204-219 | With the skew below the window no proof is accepted three times |
| Throttle.Table.Check | server/src/hyproxy/security/ratelimit.py:37-53 | Allows exactly when neither key is delayed; the advertised wait is the worse of the two |
| Throttle.Table.RegisterFailure | server/src/hyproxy/security/ratelimit.py:56-84 | Both rows bumped, a window restarted when it is over |
| Throttle.RetryAfterSuffices | server/src/hyproxy/security/ratelimit.py:49-52 | Waiting the advertised time suffices, and until one second before it the check still denies |
| Throttle.FailuresAreSpaced | server/src/hyproxy/security/ratelimit.py:56-84 | In every run the n-th failure of a window comes no earlier than its start plus the first n - 1 delays |
| Throttle.DefaultsAdmitAtMost | server/src/hyproxy/config.py:165-169 | With the defaults at most 22 failures per account and 44 per address in a window |
| Throttle.SpacingIsAttained | server/src/hyproxy/security/ratelimit.py:26-34 | The bound is attained: any number of failures whose delays fit a window is reached by some run |
| Throttle.NeverBlockedBeyondTheCap | server/src/hyproxy/security/ratelimit.py:26-34 | In every reachable state a blocked key failed last less than its cap ago |
| GatewayLogin.Desk.Finish | server/src/hyproxy/authz/gateway.py:116-198 | The whole new state of a callback; the login state is gone whatever the exchange yields |
| GatewayLogin.CallbackOpensIff | server/src/hyproxy/authz/gateway.py:116-198 | On the rows: a gateway session of the claimed IdP session and its user opens if and only if the state is parked, in time and from this address, and the exchange brings its nonce and an existing session; the state is spent either way |
| GatewayLogin.Desk.Resolve | server/src/hyproxy/authz/gateway.py:215-267 | A gateway session exactly for a matching, unrevoked row with a live IdP session, bound to the address when asked |
| GatewayLogin.Desk.Logout | server/src/hyproxy/authz/gateway.py:270-287 | Revokes exactly the session the cookie resolves to |
| GatewayLogin.SignOutIsFinal | server/src/hyproxy/authz/gateway.py:270-287 | In every reachable state a sign-out whose cookie resolves revokes that row and no other, and no continuation resolves it again, by any secret from any address |
| GatewayLogin.ResolvesAsTheCheckDoes | server/src/hyproxy/authz/gateway.py:215-267 | What resolves is exactly what the access check takes for signed in |
| GatewayLogin.GatewaySessionsTraceToAStart | server/src/hyproxy/authz/gateway.py:116-198 | Every gateway session answers a start from the same address less than the state lifetime earlier, with its nonce, and returns to its URL |
| GatewayLogin.StatesAreSingleUse | server/src/hyproxy/authz/gateway.py:132-137 | No login state is accepted twice or opens two sessions |
| GatewayLogin.GatewaySessionsAreLinked | server/src/hyproxy/authz/gateway.py:172-184 | In every reachable state a gateway session was opened by a callback from its address for the IdP session it names |
| GatewayLogin.AdmissionsTraceToAStart | server/src/hyproxy/authz/gateway.py:215-263 | In every reachable state, a cookie the gateway accepts from an address names a session opened on a state that was parked from that same address, inside its lifetime and with its nonce, for the IdP session that is still live |
| Grants.Broker.Issue | server/src/hyproxy/guac/broker.py:63-129 | Every decision past the key check leaves one audit row, an allow exactly when a grant is stored |
| Grants.MintsIff | server/src/hyproxy/authz/guac.py:39-67 | On the rows: a grant of this user, resource and address for the broker's lifetime if and only if the cookie is signed in (from its address for tunnels), the broker has its key, the resource is enabled with a connection it serves, and some stored rule allows the root path while none denies it |
| Grants.DecisionHasItsCause | server/src/hyproxy/guac/broker.py:63-129 | Each outcome of the decision if and only if its cause |
| Grants.Broker.Consume | server/src/hyproxy/rtsp/broker.py:154-176 | True exactly for an unspent, unexpired grant of this user and address, which is then spent |
| Grants.OpensIff | server/src/hyproxy/authz/guac.py:71-91 | On the rows: the grant is spent and the connection admitted if and only if it is unspent, in time, and granted to the signed-in user at this address |
| Grants.TokensOpenAtMostOnce | server/src/hyproxy/guac/broker.py:132-154 | Whatever else happens to the rows, no token opens twice |
| Grants.AdmissionTracesToAnAllowedIssue | server/src/hyproxy/authz/guac.py:70-91 | Every admission follows an issue to the same user and address, strictly less than the grant lifetime earlier, which the policy allowed; gateway and IdP session were live both times |
| Grants.GrantStaysOpenable | server/src/hyproxy/cli.py:267-274 | A grant neither spent nor expired survives the collection and opens |
| LogRotate.Writer.Rename | dataplane/internal/logrotate/logrotate.go:67-69 | A rename moves one file, and is only made to a suffix that is free |
| LogRotate.Writer.Rotate | dataplane/internal/logrotate/logrotate.go:63-75 | The directory after the rename loop, whose renames all meet that demand |
| LogRotate.Writer.Write | dataplane/internal/logrotate/logrotate.go:47-59 | The directory after a write |
| LogRotate.ShiftedUpAt | dataplane/internal/logrotate/logrotate.go:67-69 | After the loop suffix k holds what k - 1 held, and suffix 1 is free |
| LogRotate.FilesHoldASuffix | dataplane/internal/logrotate/logrotate.go:47-75 | From any directory, what was given up followed by x.N, ..., x.1, x is what the files held followed by every write, in order |
| LogRotate.WritesThatFitAppend | dataplane/internal/logrotate/logrotate.go:47-59 | A write that fits, or finds an empty file, is appended and moves nothing; any other, under a limit, starts a new file |
| LogRotate.FilesStayWithinTheLimit | dataplane/internal/logrotate/logrotate.go:47-59 | Every file is within the limit, holds a single write, or was there before |
| LogRotate.AtMostBackupsArchives | dataplane/internal/logrotate/logrotate.go:1-7 | At most `backups` archives in every run from an empty directory if and only if `backups` is positive or there is no limit |
| LogRotate.RetentionFloor | dataplane/internal/logrotate/logrotate.go:47-75 | Once anything has been given up, each pair of neighbouring files among x.N, ..., x.1, x holds more than one limit: (N + 1) / 2 limits in all, rounded down |
| LogRotate.NoLimitNeverRotates | dataplane/internal/logrotate/logrotate.go:47-59 | Without a positive limit the file is only appended to |
| LogShipping.Shipper.Ship | server/src/hyproxy/audit/shipping.py:174-194 | The new cursors and sinks of all streams, for every point at which the sink may fail |
| LogShipping.CallsAppend | server/src/hyproxy/audit/shipping.py:174-194 | What a call does to each stream: the whole batch, of the failing one what was taken, nothing behind it; cursors move only if the whole call succeeds |
| LogShipping.CursorTellsWhatReachedTheSink | server/src/hyproxy/audit/shipping.py:159-194 | In every run with ids committed in any order and any failures, a row at or below the cursor reached the sink if and only if it was not committed behind it; successful batches concatenate to those rows in strictly ascending order |
| LogShipping.DeliveredIsATablePrefix | server/src/hyproxy/audit/shipping.py:159-194 | With ids in commit order the batches concatenate to a prefix of the table |
| LogShipping.CallsDrain | server/src/hyproxy/audit/shipping.py:174-194 | A table nothing is added to shrinks by exactly one batch per successful call, failing ones in between changing nothing |
| LogShipping.LateRowsAreNeverShipped | server/src/hyproxy/audit/shipping.py:12-17 | A row committed behind the cursor stays unshipped in every continuation |
| LogShipping.LateRowsHappen | server/src/hyproxy/audit/shipping.py:12-17 | Such rows occur: commit 2, ship, commit 1 |
| KeysetPaging.EachRowIsDecidedOnce | server/src/hyproxy/admin/routes/viewers.py:52-64 | Whatever happens to the table between the requests, following the cursor terminates, the rows come strictly newest first, and a matching row is returned if and only if it is there at the first request whose page reaches down to it |
| KeysetPaging.PagesAreFull | server/src/hyproxy/admin/routes/viewers.py:56-64 | Every page but the last holds exactly the limit, and none holds more |
| KeysetPaging.LateRowsAreDecidedByTheirRequest | server/src/hyproxy/admin/routes/viewers.py:52-64 | When rows are only added, in any order, a matching row is returned if and only if it was committed by that request; those of the first request's table always are |
| KeysetPaging.LateRowsGoEitherWay | server/src/hyproxy/admin/routes/viewers.py:4-6 | A row committed below the cursor between two pages is returned, and one committed after the page that would hold it is missed |
| KeysetPaging.PagesAreTheFirstSnapshot | server/src/hyproxy/admin/routes/viewers.py:52-64 | Where rows commit in id order the pages are every matching row of the first request's table exactly once, newest first, whatever is added meanwhile |
| KeysetPaging.CursorCuts | server/src/hyproxy/admin/routes/viewers.py:52-64 | Moving the cursor to a row leaves exactly what follows it |

## Left out

- The console, the Node tunnel, templates, headers, CSP and CORS: presentation.
- TLS, listeners, byte copying, WebSocket pumping, subprocesses, DNS and GeoIP: input and output.
- Cryptography and token formats: uninterpreted functions of the settings.
- Concurrency below one transaction: every handler is atomic, refresh requests included, whose row the source reads without a lock.
- Failures between a decision and its commit: a request that raises is no step, and a missing signing key during minting is not modelled.
- Strings outside ASCII, newlines in request paths, and address normalisation of e-mails: Go, Python and the regex engine differ there.
- Two clock readings in the second-factor handlers: there the throttle is checked a moment after the instant a failure is stamped with; `Throttle.dfy` gives both one instant.
- The throttle inside the gate and the login handlers: its answer is an input of the request there; the table itself is in `Throttle.dfy`.
- Plain editing of roles, policies and connections, and the join that collects a user's roles: they appear as arbitrary changes of the rows.
- Audit detail fields: only the decision rows of the grant brokers and the history needed by a theorem are kept.
- URL parsing of backends in the route table: a predicate of the settings.
- Integer width: sizes in the log writer and ports are unbounded integers.
- File-system errors during rotation: `LogRotate.dfy` assumes none.
- Retention of consumed stream grants: the collection deletes tunnel grants only, and so does the model.
- Cookie and form parsing: requests carry the parsed parts.
- Which fault a rejected host or pattern is reported for: the kinds are modelled, acceptance and what is stored are characterised.
