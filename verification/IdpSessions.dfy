/** Liveness of an IdP session (server/src/hyproxy/idp/sessions.py). */
module IdpSessions {
  import opened Prelude
  import opened Rows

  /** `idle_ttl` and `session_touch_interval`, as durations. */
  datatype Config = Config(idle: int, touchInterval: int)

  // --------------------------------------------------------- row transitions

  function Touch(cfg: Config, s: Session, now: Instant): Session {
    if now - s.lastSeen >= cfg.touchInterval then s.(lastSeen := now) else s
  }

  /** Not revoked, not stale, inside the absolute and the idle bound. */
  predicate Alive(cfg: Config, s: Session, now: Instant) {
    !s.revoked && !s.stale && now < s.absoluteExpiry && now - s.lastSeen <= cfg.idle
  }

  /** The same on the columns, bound by bound. */
  predicate Standing(cfg: Config, s: Session, now: Instant) {
    !s.revoked && !s.stale && now < s.absoluteExpiry && now <= s.lastSeen + cfg.idle
  }

  /** The verdict of `check_liveness`. */
  predicate Admitted(cfg: Config, s: Session, ip: string, now: Instant, enforceIp: bool) {
    Alive(cfg, s, now) && (enforceIp ==> s.ip == ip)
  }

  /** The row `check_liveness` leaves behind. */
  function Checked(cfg: Config, s: Session, ip: string, now: Instant, enforceIp: bool): Session {
    if s.revoked || s.stale || now >= s.absoluteExpiry then s
    else if now - s.lastSeen > cfg.idle then s.(revoked := true)
    else if enforceIp && s.ip != ip then s.(stale := true)
    else Touch(cfg, s, now)
  }

  /** What a check decides and what it leaves, column by column. */
  lemma CheckOnTheRow(cfg: Config, s: Session, ip: string, now: Instant, enforceIp: bool)
    ensures Alive(cfg, s, now) <==> Standing(cfg, s, now)
    ensures Admitted(cfg, s, ip, now, enforceIp) <==> Standing(cfg, s, now) && (enforceIp ==> ip == s.ip)
    ensures
      var ended := s.revoked || s.stale || now >= s.absoluteExpiry;
      var t := Checked(cfg, s, ip, now, enforceIp);
      && t == s.(revoked := t.revoked, stale := t.stale, lastSeen := t.lastSeen)
      && (t.revoked <==> s.revoked || (!ended && now > s.lastSeen + cfg.idle))
      && (t.stale <==> s.stale || (Standing(cfg, s, now) && enforceIp && ip != s.ip))
      && t.lastSeen == if Admitted(cfg, s, ip, now, enforceIp) && now >= s.lastSeen + cfg.touchInterval
                       then now else s.lastSeen
  {
  }

  /** The session table with the updates made to it in place. */
  class SessionTable {
    var rows: map<Id, Session>
    const cfg: Config

    constructor (cfg: Config)
      ensures rows == map[] && this.cfg == cfg
    {
      rows := map[];
      this.cfg := cfg;
    }

    method Revoke(id: Id)
      requires id in rows
      modifies this
      ensures rows == old(rows)[id := old(rows)[id].(revoked := true)]
    {
      if rows[id].revoked { return; }
      rows := rows[id := rows[id].(revoked := true)];
    }

    method TouchRow(id: Id, now: Instant)
      requires id in rows
      modifies this
      ensures rows == old(rows)[id := Touch(cfg, old(rows)[id], now)]
    {
      if now - rows[id].lastSeen >= cfg.touchInterval {
        rows := rows[id := rows[id].(lastSeen := now)];
      }
    }

    method CheckLiveness(id: Id, ip: string, now: Instant, enforceIp: bool) returns (live: bool)
      requires id in rows
      modifies this
      ensures live == Admitted(cfg, old(rows)[id], ip, now, enforceIp)
      ensures rows == old(rows)[id := Checked(cfg, old(rows)[id], ip, now, enforceIp)]
    {
      if rows[id].revoked || rows[id].stale { return false; }
      if now >= rows[id].absoluteExpiry { return false; }
      if now - rows[id].lastSeen > cfg.idle {
        Revoke(id);
        return false;
      }
      if enforceIp && rows[id].ip != ip {
        rows := rows[id := rows[id].(stale := true)];
        return false;
      }
      TouchRow(id, now);
      return true;
    }

    /** `get_session_from_cookie`, from a cookie that parses. */
    method FromCookie(cookie: Cookie, ip: string, now: Instant) returns (session: Option<Id>)
      modifies this
      ensures session.Some? ==> session.value == cookie.id
      ensures session.Some? <==>
              cookie.id in old(rows) && old(rows)[cookie.id].secret == cookie.secret
              && Alive(cfg, old(rows)[cookie.id], now)
      ensures rows == if cookie.id in old(rows) && old(rows)[cookie.id].secret == cookie.secret
                      then old(rows)[cookie.id := Checked(cfg, old(rows)[cookie.id], ip, now, false)]
                      else old(rows)
    {
      if cookie.id !in rows { return None; }
      if rows[cookie.id].secret != cookie.secret { return None; }
      var live := CheckLiveness(cookie.id, ip, now, false);
      return if live then Some(cookie.id) else None;
    }

    /** `reissue_cookie`: a fresh secret, nothing else. */
    method ReissueCookie(id: Id, secret: Id)
      requires id in rows
      modifies this
      ensures rows == old(rows)[id := old(rows)[id].(secret := secret)]
    {
      rows := rows[id := rows[id].(secret := secret)];
    }
  }

  // ------------------------------------------------ the life of one session

  /** Everything the code does to a session row after creating it. `Check` commits
      its verdict whatever it is; `CheckRequest` is the resource-server path, which
      raises on refusal and so leaves the row as it was. */
  datatype Op =
    | Check(ip: string, enforceIp: bool)
    | CheckRequest(ip: string)
    | Revocation
    | Reissue(secret: Id)

  datatype Event = Event(dt: nat, op: Op)

  datatype Verdict = Verdict(at: Instant, admitted: bool, committed: bool)

  datatype Life = Life(now: Instant, row: Session, verdicts: seq<Verdict>)

  function Next(cfg: Config, l: Life, e: Event): Life {
    var now := l.now + e.dt;
    match e.op
    case Check(ip, enforceIp) =>
      Life(now, Checked(cfg, l.row, ip, now, enforceIp),
           l.verdicts + [Verdict(now, Admitted(cfg, l.row, ip, now, enforceIp), true)])
    case CheckRequest(ip) =>
      var ok := Admitted(cfg, l.row, ip, now, true);
      Life(now, if ok then Checked(cfg, l.row, ip, now, true) else l.row,
           l.verdicts + [Verdict(now, ok, ok)])
    case Revocation => l.(now := now, row := l.row.(revoked := true))
    case Reissue(secret) => l.(now := now, row := l.row.(secret := secret))
  }

  function Run(cfg: Config, l: Life, events: seq<Event>): Life
    decreases |events|
  {
    if events == [] then l else Run(cfg, Next(cfg, l, events[0]), events[1..])
  }

  /** A new session: created and last seen at the same instant. */
  predicate Born(l: Life) {
    l.verdicts == [] && l.row.lastSeen == l.row.issuedAt == l.now && !l.row.revoked && !l.row.stale
  }

  /** Dead for good: no later check, from anywhere, with or without the IP test. */
  ghost predicate Dead(cfg: Config, l: Life) {
    forall t: Instant :: t >= l.now ==> !Alive(cfg, l.row, t)
  }

  function LastSuccess(l: Life): Instant {
    LastAdmitted(l.verdicts, l.row.issuedAt)
  }

  function LastAdmitted(vs: seq<Verdict>, start: Instant): Instant {
    if vs == [] then start
    else if vs[|vs| - 1].admitted then vs[|vs| - 1].at
    else LastAdmitted(vs[..|vs| - 1], start)
  }

  /** How far `last_seen_at` may trail the last successful check. */
  predicate Trails(cfg: Config, lastSeen: Instant, success: Instant) {
    lastSeen <= success && (success == lastSeen || success - lastSeen < cfg.touchInterval)
  }

  predicate Trailing(cfg: Config, l: Life) {
    LastSuccess(l) <= l.now && Trails(cfg, l.row.lastSeen, LastSuccess(l))
  }

  ghost predicate Inv(cfg: Config, l: Life) { Trailing(cfg, l) && Finality(cfg, l) }

  ghost predicate Finality(cfg: Config, l: Life) {
    forall k :: 0 <= k < |l.verdicts| && l.verdicts[k].committed && !l.verdicts[k].admitted ==>
      Dead(cfg, l) && forall j :: k <= j < |l.verdicts| ==> !l.verdicts[j].admitted
  }

  lemma DeathIsFinal(cfg: Config, l: Life, e: Event)
    requires Dead(cfg, l)
    ensures Dead(cfg, Next(cfg, l, e))
    ensures |Next(cfg, l, e).verdicts| > |l.verdicts| ==>
              !Next(cfg, l, e).verdicts[|l.verdicts|].admitted
  {
    var l' := Next(cfg, l, e);
    assert !Alive(cfg, l.row, l'.now);
    forall t: Instant | t >= l'.now ensures !Alive(cfg, l'.row, t) {
      assert !Alive(cfg, l.row, t);
    }
  }

  lemma RefusalKills(cfg: Config, s: Session, ip: string, now: Instant, enforceIp: bool, t: Instant)
    requires !Admitted(cfg, s, ip, now, enforceIp) && t >= now
    ensures !Alive(cfg, Checked(cfg, s, ip, now, enforceIp), t)
  {
  }

  lemma VerdictsGrow(l: Life, v: Verdict)
    ensures LastAdmitted(l.verdicts + [v], l.row.issuedAt) == if v.admitted then v.at else LastSuccess(l)
  {
    assert (l.verdicts + [v])[..|l.verdicts|] == l.verdicts;
  }

  lemma CheckTrails(cfg: Config, row: Session, ip: string, now: Instant, enforceIp: bool)
    requires row.lastSeen <= now
    ensures Admitted(cfg, row, ip, now, enforceIp) ==> Trails(cfg, Checked(cfg, row, ip, now, enforceIp).lastSeen, now)
    ensures !Admitted(cfg, row, ip, now, enforceIp) ==> Checked(cfg, row, ip, now, enforceIp).lastSeen == row.lastSeen
    ensures Checked(cfg, row, ip, now, enforceIp).issuedAt == row.issuedAt
  {
  }

  lemma VerdictKeepsTrailing(cfg: Config, l: Life, v: Verdict, l': Life)
    requires Trailing(cfg, l) && l'.verdicts == l.verdicts + [v] && l.now <= v.at == l'.now
    requires l'.row.issuedAt == l.row.issuedAt
    requires if v.admitted then Trails(cfg, l'.row.lastSeen, v.at) else l'.row.lastSeen == l.row.lastSeen
    ensures Trailing(cfg, l')
  {
    hide LastAdmitted;
    VerdictsGrow(l, v);
  }

  lemma NextKeepsTrailing(cfg: Config, l: Life, e: Event, l': Life)
    requires l' == Next(cfg, l, e) && Trailing(cfg, l)
    ensures Trailing(cfg, l')
  {
    hide LastAdmitted;
    match e.op
    case Check(ip, enforceIp) =>
      CheckTrails(cfg, l.row, ip, l'.now, enforceIp);
      VerdictKeepsTrailing(cfg, l, Verdict(l'.now, Admitted(cfg, l.row, ip, l'.now, enforceIp), true), l');
    case CheckRequest(ip) =>
      var ok := Admitted(cfg, l.row, ip, l'.now, true);
      CheckTrails(cfg, l.row, ip, l'.now, true);
      VerdictKeepsTrailing(cfg, l, Verdict(l'.now, ok, ok), l');
    case Revocation => assert LastSuccess(l') == LastSuccess(l);
    case Reissue(_) => assert LastSuccess(l') == LastSuccess(l);
  }

  lemma NextKeepsFinality(cfg: Config, l: Life, e: Event, l': Life)
    requires l' == Next(cfg, l, e) && Finality(cfg, l)
    ensures Finality(cfg, l')
  {
    if e.op.Check? && !Admitted(cfg, l.row, e.op.ip, l'.now, e.op.enforceIp) {
      forall t: Instant | t >= l'.now ensures !Alive(cfg, l'.row, t) {
        RefusalKills(cfg, l.row, e.op.ip, l'.now, e.op.enforceIp, t);
      }
    }
    if Dead(cfg, l) { DeathIsFinal(cfg, l, e); }
  }

  lemma NextKeepsInv(cfg: Config, l: Life, e: Event, l': Life)
    requires Inv(cfg, l) && l' == Next(cfg, l, e)
    ensures Inv(cfg, l')
  {
    NextKeepsTrailing(cfg, l, e, l');
    NextKeepsFinality(cfg, l, e, l');
  }

  lemma {:induction false} RunKeepsInv(cfg: Config, l: Life, events: seq<Event>)
    requires Inv(cfg, l)
    ensures Inv(cfg, Run(cfg, l, events))
    decreases |events|
  {
    if events != [] {
      var l' := Next(cfg, l, events[0]);
      NextKeepsInv(cfg, l, events[0], l');
      RunKeepsInv(cfg, l', events[1..]);
    }
  }

  /** A committed refusal is final: in every run from creation, no check after it,
      from any address and with or without the address test, is admitted. */
  lemma CommittedRefusalIsFinal(cfg: Config, born: Life, events: seq<Event>, i: nat, j: nat)
    requires Born(born)
    requires i <= j < |Run(cfg, born, events).verdicts|
    requires Run(cfg, born, events).verdicts[i].committed && !Run(cfg, born, events).verdicts[i].admitted
    ensures !Run(cfg, born, events).verdicts[j].admitted
  {
    RunKeepsInv(cfg, born, events);
  }

  lemma {:induction false} DeadStaysRefused(cfg: Config, l: Life, events: seq<Event>, j: nat)
    requires Dead(cfg, l) && |l.verdicts| <= j < |Run(cfg, l, events).verdicts|
    ensures !Run(cfg, l, events).verdicts[j].admitted
    decreases |events|
  {
    if events != [] {
      var t := Next(cfg, l, events[0]);
      DeathIsFinal(cfg, l, events[0]);
      if j < |t.verdicts| {
        VerdictsStay(cfg, t, events[1..], j);
      } else {
        DeadStaysRefused(cfg, t, events[1..], j);
      }
    }
  }

  lemma {:induction false} VerdictsStay(cfg: Config, l: Life, events: seq<Event>, j: nat)
    requires j < |l.verdicts|
    ensures j < |Run(cfg, l, events).verdicts| && Run(cfg, l, events).verdicts[j] == l.verdicts[j]
    decreases |events|
  {
    if events != [] { VerdictsStay(cfg, Next(cfg, l, events[0]), events[1..], j); }
  }

  /** A revoked session, and one past its absolute bound, is refused by every later
      check, whatever happens to its row. */
  lemma EndedSessionsStayRefused(cfg: Config, l: Life, events: seq<Event>, j: nat)
    requires l.row.revoked || l.now >= l.row.absoluteExpiry
    requires |l.verdicts| <= j < |Run(cfg, l, events).verdicts|
    ensures !Run(cfg, l, events).verdicts[j].admitted
  {
    DeadStaysRefused(cfg, l, events, j);
  }

  /** How far `last_seen_at` trails at most: a touch is skipped within the interval. */
  function Lag(cfg: Config): nat { Max(cfg.touchInterval - 1, 0) }

  /** The throttled touch against the idle bound, in every reachable state of a session
      that is otherwise live: a gap since the last success above the bound is refused,
      a gap at most the bound less the lag is not refused for idleness. */
  lemma IdleGap(cfg: Config, born: Life, events: seq<Event>, dt: nat)
    requires Born(born)
    ensures
      var l := Run(cfg, born, events);
      var t := l.now + dt;
      && Trails(cfg, l.row.lastSeen, LastSuccess(l))
      && (t - LastSuccess(l) > cfg.idle ==> !Alive(cfg, l.row, t))
      && ((t - LastSuccess(l) <= cfg.idle - Lag(cfg)
           && !l.row.revoked && !l.row.stale && t < l.row.absoluteExpiry) ==> Alive(cfg, l.row, t))
  {
    RunKeepsInv(cfg, born, events);
  }

  /** Between the two bounds both outcomes occur, under every configuration and for
      every such gap: counted from the creation it is admitted, counted from a success
      as late in the touch interval as the idle bound lets it be it is refused, and
      nothing else has changed about the row. */
  lemma IdleGapBetweenTheBoundsIsOpen(cfg: Config, born: Life, ip: string, gap: int)
    requires Born(born) && 0 < gap && cfg.idle - Lag(cfg) < gap <= cfg.idle
    requires born.now + Min(Lag(cfg), cfg.idle) + gap < born.row.absoluteExpiry
    ensures
      var wait := Min(Lag(cfg), cfg.idle);
      var late := Run(cfg, born, [Event(wait, Check(ip, false))]);
      && LastSuccess(born) == born.now && Alive(cfg, born.row, born.now + gap)
      && LastSuccess(late) == late.now == born.now + wait && late.row == born.row
      && !Alive(cfg, late.row, late.now + gap)
  {
    var e := Event(Min(Lag(cfg), cfg.idle), Check(ip, false));
    var late := Next(cfg, born, e);
    assert Run(cfg, born, [e]) == Run(cfg, late, [e][1..]) == late;
  }

  /** A state of the session's life right after a successful check, or its creation, in
      which nothing but idleness can end it within the gap. */
  ghost predicate JustSucceeded(cfg: Config, born: Life, events: seq<Event>, gap: nat) {
    var l := Run(cfg, born, events);
    LastSuccess(l) == l.now && !l.row.revoked && !l.row.stale && l.now + gap < l.row.absoluteExpiry
  }

  ghost predicate MayBeRefused(cfg: Config, born: Life, gap: nat) {
    exists events :: JustSucceeded(cfg, born, events, gap)
      && !Alive(cfg, Run(cfg, born, events).row, Run(cfg, born, events).now + gap)
  }

  ghost predicate MayBeAdmitted(cfg: Config, born: Life, gap: nat) {
    exists events :: JustSucceeded(cfg, born, events, gap)
      && Alive(cfg, Run(cfg, born, events).row, Run(cfg, born, events).now + gap)
  }

  /** What the idle bound comes to with a throttled touch, exactly: a gap is refused in
      some life of a session if and only if it is longer than the bound less the lag,
      and admitted in some life if and only if it is not longer than the bound. */
  lemma IdleGapIsExact(cfg: Config, born: Life, gap: nat)
    requires Born(born) && gap > 0 && born.now + Lag(cfg) + gap < born.row.absoluteExpiry
    ensures MayBeRefused(cfg, born, gap) <==> gap > cfg.idle - Lag(cfg)
    ensures MayBeAdmitted(cfg, born, gap) <==> gap <= cfg.idle
  {
    forall events | JustSucceeded(cfg, born, events, gap)
      ensures var l := Run(cfg, born, events);
              && (Alive(cfg, l.row, l.now + gap) ==> gap <= cfg.idle)
              && (!Alive(cfg, l.row, l.now + gap) ==> gap > cfg.idle - Lag(cfg))
    {
      IdleGap(cfg, born, events, gap);
    }
    assert JustSucceeded(cfg, born, [], gap);
    if cfg.idle - Lag(cfg) < gap <= cfg.idle {
      IdleGapBetweenTheBoundsIsOpen(cfg, born, "", gap);
      assert JustSucceeded(cfg, born, [Event(Min(Lag(cfg), cfg.idle), Check("", false))], gap);
    }
  }

  /** A refusal that was rolled back is final too unless the address was its only
      cause: exactly then some later check of the same row succeeds. */
  lemma RolledBackRefusal(cfg: Config, s: Session, ip: string, now: Instant)
    requires !Admitted(cfg, s, ip, now, true)
    ensures (exists t: Instant, from: string :: t >= now && Admitted(cfg, s, from, t, true))
       <==> Alive(cfg, s, now)
  {
    if Alive(cfg, s, now) {
      assert Admitted(cfg, s, s.ip, now, true);
    }
  }
}
