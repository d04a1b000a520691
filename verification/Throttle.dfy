/** Progressive login delays (server/src/hyproxy/security/ratelimit.py). */
module Throttle {
  import opened Prelude

  datatype Scope = Ip | Account

  datatype Key = Key(scope: Scope, name: string)

  datatype Row = Row(count: nat, windowStart: Instant, nextAllowed: Instant)

  type Rows = map<Key, Row>

  /** Settings, in failures and seconds. */
  datatype Config = Config(window: nat, accountFree: nat, accountCap: nat, ipFree: nat, ipCap: nat)

  const DEFAULTS := Config(900, 3, 60, 10, 30)

  datatype Decision = Decision(allowed: bool, retryAfter: int)

  function Pow2(n: nat): (p: nat)
    ensures p > 0
  {
    if n == 0 then 1 else 2 * Pow2(n - 1)
  }

  function Cap(cfg: Config, scope: Scope): nat {
    if scope == Account then cfg.accountCap else cfg.ipCap
  }

  function Delay(cfg: Config, scope: Scope, failures: nat): (seconds: nat)
    ensures seconds <= Cap(cfg, scope)
  {
    var free := if scope == Account then cfg.accountFree else cfg.ipFree;
    if failures <= free then 0 else Min(Pow2(failures - free), Cap(cfg, scope))
  }

  // ------------------------------------------------------------ row functions

  predicate Blocked(rows: Rows, key: Key, now: Instant) {
    key in rows && rows[key].nextAllowed > now
  }

  function Keys(ip: string, account: Option<string>): (keys: seq<Key>)
    ensures |keys| == if account.Some? then 2 else 1
  {
    [Key(Ip, ip)] + (if account.Some? then [Key(Account, account.value)] else [])
  }

  function RetryAfter(rows: Rows, key: Key, now: Instant): int {
    if Blocked(rows, key, now) then (rows[key].nextAllowed - now) / SECOND + 1 else 0
  }

  /** The row after one more failure. */
  function Bumped(cfg: Config, scope: Scope, row: Row, now: Instant): Row {
    var over := now - row.windowStart > cfg.window * SECOND;
    var count := (if over then 0 else row.count) + 1;
    Row(count, if over then now else row.windowStart, now + Delay(cfg, scope, count) * SECOND)
  }

  function Failed(cfg: Config, rows: Rows, key: Key, now: Instant): Rows {
    rows[key := Bumped(cfg, key.scope, if key in rows then rows[key] else Row(0, now, now), now)]
  }

  function FailedAll(cfg: Config, rows: Rows, keys: seq<Key>, now: Instant): Rows {
    if keys == [] then rows
    else Failed(cfg, FailedAll(cfg, rows, keys[..|keys| - 1], now), keys[|keys| - 1], now)
  }

  predicate AnyBlocked(rows: Rows, keys: seq<Key>, now: Instant) {
    exists k :: k in keys && Blocked(rows, k, now)
  }

  /** The `auth_throttle` table. */
  class Table {
    var rows: Rows
    const cfg: Config

    constructor (cfg: Config)
      ensures rows == map[] && this.cfg == cfg
    {
      rows := map[];
      this.cfg := cfg;
    }

    /** Denies if either key is inside its delay, for as long as the worse of the two. */
    method Check(ip: string, account: Option<string>, now: Instant) returns (worst: Decision)
      ensures worst.allowed <==> !AnyBlocked(rows, Keys(ip, account), now)
      ensures forall k :: k in Keys(ip, account) ==> RetryAfter(rows, k, now) <= worst.retryAfter
      ensures exists k :: k in Keys(ip, account) && RetryAfter(rows, k, now) == worst.retryAfter
    {
      var keys := Keys(ip, account);
      worst := Decision(true, 0);
      ghost var at := keys[0];
      for i := 0 to |keys|
        invariant at in keys
        invariant worst.allowed <==> forall j :: 0 <= j < i ==> !Blocked(rows, keys[j], now)
        invariant worst.allowed ==> worst.retryAfter == 0
        invariant !worst.allowed ==> RetryAfter(rows, at, now) == worst.retryAfter > 0
        invariant forall j :: 0 <= j < i ==> RetryAfter(rows, keys[j], now) <= worst.retryAfter
      {
        if keys[i] in rows && rows[keys[i]].nextAllowed > now {
          var retry := (rows[keys[i]].nextAllowed - now) / SECOND + 1;
          if retry > worst.retryAfter {
            worst := Decision(false, retry);
            at := keys[i];
          }
        }
      }
      if worst.allowed { assert RetryAfter(rows, keys[0], now) == 0; }
    }

    /** The body of the loop below: find or create the row, restart its window when it
        has passed, count and delay. */
    method FailKey(key: Key, now: Instant)
      modifies this
      ensures rows == Failed(cfg, old(rows), key, now)
    {
      if key !in rows { rows := rows[key := Row(0, now, now)]; }
      var row := rows[key];
      if now - row.windowStart > cfg.window * SECOND {
        row := row.(count := 0, windowStart := now);
      }
      row := row.(count := row.count + 1);
      row := row.(nextAllowed := now + Delay(cfg, key.scope, row.count) * SECOND);
      rows := rows[key := row];
    }

    method RegisterFailure(ip: string, account: Option<string>, now: Instant)
      modifies this
      ensures rows == FailedAll(cfg, old(rows), Keys(ip, account), now)
    {
      var keys := Keys(ip, account);
      for i := 0 to |keys|
        invariant rows == FailedAll(cfg, old(rows), keys[..i], now)
      {
        FailKey(keys[i], now);
        assert keys[..i + 1][..i] == keys[..i];
      }
      assert keys[..|keys|] == keys;
    }

    method ResetAccount(account: string)
      modifies this
      ensures rows == old(rows) - {Key(Account, account)}
    {
      rows := rows - {Key(Account, account)};
    }
  }

  /** Waiting out the advertised time suffices while no failure is added, and the time
      is right to the second: until one second before it the check still denies. */
  lemma RetryAfterSuffices(rows: Rows, key: Key, now: Instant, retry: int, later: Instant)
    requires RetryAfter(rows, key, now) <= retry
    ensures later >= now + retry * SECOND ==> !Blocked(rows, key, later)
    ensures Blocked(rows, key, now) && later < now + (RetryAfter(rows, key, now) - 1) * SECOND ==>
        Blocked(rows, key, later)
  {
    if key in rows {
      var diff := rows[key].nextAllowed - now;
      assert diff / SECOND * SECOND <= diff < (diff / SECOND + 1) * SECOND;
    }
  }

  // --------------------------------------------------------------------- runs

  /** `Failure` also records the window its row was in. */
  datatype Entry =
    | Failure(key: Key, at: Instant, windowStart: Instant)
    | Cleared(key: Key)

  datatype State = State(now: Instant, rows: Rows, log: seq<Entry>)

  /** A failed attempt is registered only behind an allowing check at that instant. */
  datatype Action =
    | Fail(ip: string, account: Option<string>)
    | Reset(name: string)

  datatype Event = Event(dt: nat, action: Action)

  function Register(cfg: Config, s: State, key: Key): State {
    var rows := Failed(cfg, s.rows, key, s.now);
    s.(rows := rows, log := s.log + [Failure(key, s.now, rows[key].windowStart)])
  }

  function RegisterAll(cfg: Config, s: State, keys: seq<Key>): State {
    if keys == [] then s
    else Register(cfg, RegisterAll(cfg, s, keys[..|keys| - 1]), keys[|keys| - 1])
  }

  /** A run's steps do to the rows what the table's methods do. */
  lemma StepsAreTheTables(cfg: Config, s: State, ip: string, account: Option<string>, name: string)
    ensures Apply(cfg, s, Fail(ip, account)).rows
         == if AnyBlocked(s.rows, Keys(ip, account), s.now) then s.rows
             else FailedAll(cfg, s.rows, Keys(ip, account), s.now)
    ensures Apply(cfg, s, Reset(name)).rows == s.rows - {Key(Account, name)}
  {
    RegisterAllRows(cfg, s, Keys(ip, account));
  }

  lemma {:induction false} RegisterAllRows(cfg: Config, s: State, keys: seq<Key>)
    ensures RegisterAll(cfg, s, keys).rows == FailedAll(cfg, s.rows, keys, s.now)
    ensures RegisterAll(cfg, s, keys).now == s.now
  {
    if keys != [] { RegisterAllRows(cfg, s, keys[..|keys| - 1]); }
  }

  function Apply(cfg: Config, s: State, action: Action): State {
    match action
    case Fail(ip, account) =>
      if AnyBlocked(s.rows, Keys(ip, account), s.now) then s else RegisterAll(cfg, s, Keys(ip, account))
    case Reset(account) =>
      s.(rows := s.rows - {Key(Account, account)}, log := s.log + [Cleared(Key(Account, account))])
  }

  function Step(cfg: Config, s: State, e: Event): State {
    Apply(cfg, s.(now := s.now + e.dt), e.action)
  }

  function Run(cfg: Config, s: State, events: seq<Event>): State
    decreases |events|
  {
    if events == [] then s else Run(cfg, Step(cfg, s, events[0]), events[1..])
  }

  /** The failures of a key in the window that began at `start`, since its last reset. */
  function InWindow(log: seq<Entry>, key: Key, start: Instant): nat {
    if log == [] then 0
    else
      var last := log[|log| - 1];
      var before := log[..|log| - 1];
      if last == Cleared(key) then 0
      else if last.Failure? && last.key == key && last.windowStart == start then InWindow(before, key, start) + 1
      else InWindow(before, key, start)
  }

  /** The delays after the first `n` failures of a window, in seconds. */
  function TotalDelay(cfg: Config, scope: Scope, n: nat): nat {
    if n == 0 then 0 else TotalDelay(cfg, scope, n - 1) + Delay(cfg, scope, n)
  }

  /** The failure at the end of this log came after all the delays its window imposed
      before it, and while its window was open. */
  predicate Spaced(cfg: Config, log: seq<Entry>) {
    log != [] && log[|log| - 1].Failure? ==>
      var f := log[|log| - 1];
      var n := InWindow(log, f.key, f.windowStart);
      && n >= 1
      && f.windowStart + TotalDelay(cfg, f.key.scope, n - 1) * SECOND <= f.at
      && f.at <= f.windowStart + cfg.window * SECOND
  }

  predicate AllSpaced(cfg: Config, log: seq<Entry>) {
    forall k :: 0 <= k <= |log| ==> var before := log[..k]; Spaced(cfg, before)
  }

  function LastFailure(log: seq<Entry>, key: Key): Option<Instant> {
    if log == [] then None
    else
      var last := log[|log| - 1];
      if last == Cleared(key) then None
      else if last.Failure? && last.key == key then Some(last.at)
      else LastFailure(log[..|log| - 1], key)
  }

  /** What the row of a key knows about the log: its window's failures and the delay
      the last of them imposed. */
  ghost predicate RowRight(cfg: Config, s: State, key: Key) {
    if key in s.rows then
      var row := s.rows[key];
      && row.count >= 1 && row.windowStart <= s.now
      && row.count == InWindow(s.log, key, row.windowStart)
      && row.windowStart + TotalDelay(cfg, key.scope, row.count) * SECOND <= row.nextAllowed
      && LastFailure(s.log, key) == Some(row.nextAllowed - Delay(cfg, key.scope, row.count) * SECOND)
    else forall start: Instant :: InWindow(s.log, key, start) == 0
  }

  /** No entry belongs to a window later than the row's. */
  ghost predicate NothingAhead(s: State, key: Key) {
    key in s.rows ==> forall start: Instant :: start > s.rows[key].windowStart ==> InWindow(s.log, key, start) == 0
  }

  ghost predicate Inv(cfg: Config, s: State) {
    AllSpaced(cfg, s.log) && forall key: Key :: RowRight(cfg, s, key) && NothingAhead(s, key)
  }

  lemma InWindowSnoc(log: seq<Entry>, e: Entry, key: Key, start: Instant)
    ensures InWindow(log + [e], key, start)
         == if e == Cleared(key) then 0
            else if e.Failure? && e.key == key && e.windowStart == start then InWindow(log, key, start) + 1
            else InWindow(log, key, start)
    ensures LastFailure(log + [e], key)
         == if e == Cleared(key) then None
            else if e.Failure? && e.key == key then Some(e.at)
            else LastFailure(log, key)
  {
    assert (log + [e])[..|log|] == log;
  }

  lemma SpacedSnoc(cfg: Config, log: seq<Entry>, e: Entry)
    requires AllSpaced(cfg, log) && Spaced(cfg, log + [e])
    ensures AllSpaced(cfg, log + [e])
  {
    var log' := log + [e];
    forall k | 0 <= k <= |log'| ensures var before := log'[..k]; Spaced(cfg, before) {
      if k <= |log| {
        assert log'[..k] == log[..k];
        var before := log[..k];
        assert Spaced(cfg, before);
      } else {
        assert log'[..k] == log';
      }
    }
  }

  /** The key that fails, when it was free to try. */
  lemma RegisteredKey(cfg: Config, s: State, key: Key, t: State)
    requires RowRight(cfg, s, key) && NothingAhead(s, key)
    requires !Blocked(s.rows, key, s.now) && t == Register(cfg, s, key)
    ensures RowRight(cfg, t, key) && NothingAhead(t, key) && Spaced(cfg, t.log)
  {
    var e := t.log[|s.log|];
    InWindowSnoc(s.log, e, key, e.windowStart);
    forall start: Instant | start > e.windowStart ensures InWindow(t.log, key, start) == 0 {
      InWindowSnoc(s.log, e, key, start);
    }
    assert TotalDelay(cfg, key.scope, 1) == TotalDelay(cfg, key.scope, 0) + Delay(cfg, key.scope, 1);
  }

  /** Every other key is left as it was. */
  lemma OtherKey(cfg: Config, s: State, e: Entry, key: Key, t: State)
    requires RowRight(cfg, s, key) && NothingAhead(s, key)
    requires t.log == s.log + [e] && e.key != key && t.now == s.now
    requires (key in t.rows <==> key in s.rows) && (key in s.rows ==> t.rows[key] == s.rows[key])
    ensures RowRight(cfg, t, key) && NothingAhead(t, key)
  {
    forall start: Instant ensures InWindow(t.log, key, start) == InWindow(s.log, key, start) {
      InWindowSnoc(s.log, e, key, start);
    }
    InWindowSnoc(s.log, e, key, 0);
  }

  lemma RegisterKeepsInv(cfg: Config, s: State, key: Key, t: State)
    requires Inv(cfg, s) && !Blocked(s.rows, key, s.now) && t == Register(cfg, s, key)
    ensures Inv(cfg, t)
  {
    var e := t.log[|s.log|];
    RegisteredKey(cfg, s, key, t);
    SpacedSnoc(cfg, s.log, e);
    forall k: Key ensures RowRight(cfg, t, k) && NothingAhead(t, k) {
      if k != key { OtherKey(cfg, s, e, k, t); }
    }
  }

  lemma {:induction false} RegisterAllKeepsInv(cfg: Config, s: State, keys: seq<Key>)
    requires Inv(cfg, s)
    requires forall i :: 0 <= i < |keys| ==> !Blocked(s.rows, keys[i], s.now)
    requires forall i, j :: 0 <= i < j < |keys| ==> keys[i] != keys[j]
    ensures Inv(cfg, RegisterAll(cfg, s, keys))
    ensures RegisterAll(cfg, s, keys).now == s.now
    ensures forall k :: k !in keys && !Blocked(s.rows, k, s.now) ==> !Blocked(RegisterAll(cfg, s, keys).rows, k, s.now)
  {
    if keys != [] {
      var last := |keys| - 1;
      var before := RegisterAll(cfg, s, keys[..last]);
      RegisterAllKeepsInv(cfg, s, keys[..last]);
      assert keys[last] !in keys[..last];
      RegisterKeepsInv(cfg, before, keys[last], RegisterAll(cfg, s, keys));
    }
  }

  lemma ResetKeepsInv(cfg: Config, s: State, account: string, t: State)
    requires Inv(cfg, s) && t == Apply(cfg, s, Reset(account))
    ensures Inv(cfg, t)
  {
    var key := Key(Account, account);
    var e := Cleared(key);
    SpacedSnoc(cfg, s.log, e);
    forall k: Key ensures RowRight(cfg, t, k) && NothingAhead(t, k) {
      if k != key {
        OtherKey(cfg, s, e, k, t);
      } else {
        forall start: Instant ensures InWindow(t.log, k, start) == 0 { InWindowSnoc(s.log, e, k, start); }
      }
    }
  }

  lemma LaterKeepsInv(cfg: Config, s: State, t: State)
    requires Inv(cfg, s) && t.now >= s.now && t == s.(now := t.now)
    ensures Inv(cfg, t)
  {
    forall k: Key ensures RowRight(cfg, t, k) && NothingAhead(t, k) {
      assert RowRight(cfg, s, k) && NothingAhead(s, k);
    }
  }

  lemma FailKeepsInv(cfg: Config, s: State, ip: string, account: Option<string>, t: State)
    requires Inv(cfg, s) && t == Apply(cfg, s, Fail(ip, account))
    ensures Inv(cfg, t)
  {
    var keys := Keys(ip, account);
    if !AnyBlocked(s.rows, keys, s.now) {
      forall i | 0 <= i < |keys| ensures !Blocked(s.rows, keys[i], s.now) {
        assert keys[i] in keys;
      }
      RegisterAllKeepsInv(cfg, s, keys);
    }
  }

  lemma ApplyKeepsInv(cfg: Config, s: State, action: Action, t: State)
    requires Inv(cfg, s) && t == Apply(cfg, s, action)
    ensures Inv(cfg, t)
  {
    match action
    case Fail(ip, account) => FailKeepsInv(cfg, s, ip, account, t);
    case Reset(account) => ResetKeepsInv(cfg, s, account, t);
  }

  lemma StepKeepsInv(cfg: Config, s: State, e: Event, t: State)
    requires Inv(cfg, s) && t == Step(cfg, s, e)
    ensures Inv(cfg, t)
  {
    hide Inv, Apply;
    var later := s.(now := s.now + e.dt);
    assert Inv(cfg, later) by { LaterKeepsInv(cfg, s, later); }
    assert t == Apply(cfg, later, e.action);
    assert Inv(cfg, t) by { ApplyKeepsInv(cfg, later, e.action, t); }
  }

  lemma {:induction false} RunKeepsInv(cfg: Config, s: State, events: seq<Event>)
    requires Inv(cfg, s)
    ensures Inv(cfg, Run(cfg, s, events))
    decreases |events|
  {
    if events != [] {
      var t := Step(cfg, s, events[0]);
      StepKeepsInv(cfg, s, events[0], t);
      RunKeepsInv(cfg, t, events[1..]);
    }
  }

  // ------------------------------------------------------------ main results

  function Empty(start: Instant): State { State(start, map[], []) }

  /** In every run, the n-th failure of a key in a window comes no earlier than the
      start of the window plus the first n - 1 delays, and inside the window. */
  lemma FailuresAreSpaced(cfg: Config, start: Instant, events: seq<Event>, k: nat)
    requires k < |Run(cfg, Empty(start), events).log| && Run(cfg, Empty(start), events).log[k].Failure?
    ensures
      var log := Run(cfg, Empty(start), events).log;
      var f := log[k];
      var n := InWindow(log[..k + 1], f.key, f.windowStart);
      && n >= 1
      && f.windowStart + TotalDelay(cfg, f.key.scope, n - 1) * SECOND <= f.at
      && f.at <= f.windowStart + cfg.window * SECOND
  {
    RunKeepsInv(cfg, Empty(start), events);
    var log := Run(cfg, Empty(start), events).log;
    var before := log[..k + 1];
    assert Spaced(cfg, before);
  }

  lemma {:induction false} AccountTotal(n: nat)
    requires n >= 8
    ensures TotalDelay(DEFAULTS, Account, n) == 62 + 60 * (n - 8)
  {
    if n == 8 {
      assert Pow2(5) == 32;
      assert TotalDelay(DEFAULTS, Account, 3) == 0;
      assert TotalDelay(DEFAULTS, Account, 6) == 14;
    } else {
      AccountTotal(n - 1);
      Pow2Grows(6, n - 3);
      assert Pow2(6) == 64;
    }
  }

  lemma {:induction false} IpTotal(n: nat)
    requires n >= 14
    ensures TotalDelay(DEFAULTS, Ip, n) == 30 + 30 * (n - 14)
  {
    if n == 14 {
      assert Pow2(4) == 16;
      assert TotalDelay(DEFAULTS, Ip, 5) == 0;
      assert TotalDelay(DEFAULTS, Ip, 10) == 0;
      assert TotalDelay(DEFAULTS, Ip, 12) == 6;
    } else {
      IpTotal(n - 1);
      Pow2Grows(5, n - 10);
      assert Pow2(5) == 32;
    }
  }

  lemma {:induction false} Pow2Grows(a: nat, b: nat)
    requires a <= b
    ensures Pow2(a) <= Pow2(b)
  {
    if a < b { Pow2Grows(a, b - 1); }
  }

  /** With the default settings at most 22 attempts per account (since its last
      success) and 44 per address fail in any one window. */
  lemma DefaultsAdmitAtMost(start: Instant, events: seq<Event>, k: nat)
    requires k < |Run(DEFAULTS, Empty(start), events).log| && Run(DEFAULTS, Empty(start), events).log[k].Failure?
    ensures
      var log := Run(DEFAULTS, Empty(start), events).log;
      InWindow(log[..k + 1], log[k].key, log[k].windowStart) <= if log[k].key.scope == Account then 22 else 44
  {
    FailuresAreSpaced(DEFAULTS, start, events, k);
    var log := Run(DEFAULTS, Empty(start), events).log;
    var n := InWindow(log[..k + 1], log[k].key, log[k].windowStart);
    if n >= 9 && log[k].key.scope == Account { AccountTotal(n - 1); }
    if n >= 15 && log[k].key.scope == Ip { IpTotal(n - 1); }
  }

  /** In every reachable state, whoever is blocked failed last less than its cap ago. */
  lemma NeverBlockedBeyondTheCap(cfg: Config, start: Instant, events: seq<Event>, key: Key, later: Instant)
    requires Blocked(Run(cfg, Empty(start), events).rows, key, later)
    ensures
      var last := LastFailure(Run(cfg, Empty(start), events).log, key);
      last.Some? && later < last.value + Cap(cfg, key.scope) * SECOND
  {
    RunKeepsInv(cfg, Empty(start), events);
    assert RowRight(cfg, Run(cfg, Empty(start), events), key);
  }

  lemma {:induction false} RunSnoc(cfg: Config, s: State, events: seq<Event>, e: Event)
    ensures Run(cfg, s, events + [e]) == Step(cfg, Run(cfg, s, events), e)
    decreases |events|
  {
    if events == [] {
      assert [e][1..] == [];
    } else {
      assert (events + [e])[1..] == events[1..] + [e];
      RunSnoc(cfg, Step(cfg, s, events[0]), events[1..], e);
    }
  }

  function Unary(n: nat): (s: string)
    ensures |s| == n
  {
    seq(n, _ => 'x')
  }

  /** One more failure against the same key, as early as it is allowed: an account is
      tried from an address not used before. */
  function Greedy(scope: Scope, n: nat): Action {
    if scope == Ip then Fail("", None) else Fail(Unary(n), Some(""))
  }

  /** The spacing is attained: whenever the delays before the n-th failure fit into the
      window, an attacker trying at every first allowed instant gets n failures in. */
  lemma {:induction false} SpacingIsAttained(cfg: Config, scope: Scope, n: nat) returns (events: seq<Event>)
    requires n >= 1 && TotalDelay(cfg, scope, n - 1) <= cfg.window
    ensures
      var s := Run(cfg, Empty(0), events);
      && s.now == TotalDelay(cfg, scope, n - 1) * SECOND
      && AfterGreedy(cfg, scope, n, s.rows)
      && InWindow(s.log, Key(scope, ""), 0) == n
    decreases n
  {
    if n == 1 {
      events := [];
    } else {
      events := SpacingIsAttained(cfg, scope, n - 1);
    }
    var wait := if n == 1 then 0 else Delay(cfg, scope, n - 1) * SECOND;
    var e := Event(wait, Greedy(scope, n));
    var s := Run(cfg, Empty(0), events);
    RunSnoc(cfg, Empty(0), events, e);
    events := events + [e];
    var t := Run(cfg, Empty(0), events);
    GreedyStep(cfg, scope, n, s, wait, t);
    RunKeepsInv(cfg, Empty(0), events);
    GreedyCount(cfg, scope, n, t);
  }

  lemma GreedyCount(cfg: Config, scope: Scope, n: nat, t: State)
    requires n >= 1 && AfterGreedy(cfg, scope, n, t.rows) && Inv(cfg, t)
    ensures InWindow(t.log, Key(scope, ""), 0) == n
  {
    assert RowRight(cfg, t, Key(scope, ""));
  }

  lemma RegisterEach(cfg: Config, s: State, keys: seq<Key>)
    ensures |keys| == 1 ==> RegisterAll(cfg, s, keys) == Register(cfg, s, keys[0])
    ensures |keys| == 2 ==> RegisterAll(cfg, s, keys) == Register(cfg, Register(cfg, s, keys[0]), keys[1])
  {
    if |keys| == 2 { RegisterEach(cfg, s, keys[..1]); }
  }

  predicate AfterGreedy(cfg: Config, scope: Scope, n: nat, rows: Rows) {
    if n == 0 then rows == map[]
    else
      && Key(scope, "") in rows
      && rows[Key(scope, "")] == Row(n, 0, TotalDelay(cfg, scope, n) * SECOND)
      && forall k :: k in rows && k != Key(scope, "") ==> k.scope == Ip && |k.name| <= n
  }

  lemma RegisterGreedy(cfg: Config, scope: Scope, n: nat, s: State)
    requires n >= 1 && TotalDelay(cfg, scope, n - 1) <= cfg.window
    requires s.now == TotalDelay(cfg, scope, n - 1) * SECOND
    requires
      Key(scope, "") in s.rows ==> s.rows[Key(scope, "")] == Row(n - 1, 0, TotalDelay(cfg, scope, n - 1) * SECOND)
    requires Key(scope, "") !in s.rows ==> n == 1
    requires forall k :: k in s.rows && k != Key(scope, "") ==> k.scope == Ip && |k.name| <= n
    ensures AfterGreedy(cfg, scope, n, Register(cfg, s, Key(scope, "")).rows)
    ensures !Blocked(s.rows, Key(scope, ""), s.now)
  {
    assert TotalDelay(cfg, scope, 1) == TotalDelay(cfg, scope, 0) + Delay(cfg, scope, 1);
  }

  /** The clock is at the first instant the n-th attempt is allowed. */
  predicate Due(cfg: Config, scope: Scope, n: nat, s: State) {
    n >= 1 && TotalDelay(cfg, scope, n - 1) <= cfg.window && s.now == TotalDelay(cfg, scope, n - 1) * SECOND
    && AfterGreedy(cfg, scope, n - 1, s.rows)
  }

  lemma GreedyIp(cfg: Config, scope: Scope, n: nat, s: State, t: State)
    requires scope == Ip && Due(cfg, scope, n, s) && t == Apply(cfg, s, Greedy(scope, n))
    ensures AfterGreedy(cfg, scope, n, t.rows) && t.now == s.now
  {
    RegisterGreedy(cfg, Ip, n, s);
    var keys := Keys("", None);
    assert keys == [Key(Ip, "")];
    RegisterEach(cfg, s, keys);
  }

  lemma GreedyAccount(cfg: Config, scope: Scope, n: nat, s: State, t: State)
    requires scope == Account && Due(cfg, scope, n, s) && t == Apply(cfg, s, Greedy(scope, n))
    ensures AfterGreedy(cfg, scope, n, t.rows) && t.now == s.now
  {
    var other := Key(Ip, Unary(n));
    var keys := Keys(Unary(n), Some(""));
    RegisterGreedy(cfg, Account, n, s);
    assert keys == [other, Key(Account, "")] && other !in s.rows;
    RegisterEach(cfg, s, keys);
    RegisterGreedy(cfg, Account, n, Register(cfg, s, other));
  }

  lemma GreedyApply(cfg: Config, scope: Scope, n: nat, s: State, t: State)
    requires Due(cfg, scope, n, s) && t == Apply(cfg, s, Greedy(scope, n))
    ensures AfterGreedy(cfg, scope, n, t.rows) && t.now == s.now
  {
    match scope
    case Ip => GreedyIp(cfg, scope, n, s, t);
    case Account => GreedyAccount(cfg, scope, n, s, t);
  }

  lemma GreedyStep(cfg: Config, scope: Scope, n: nat, s: State, wait: nat, t: State)
    requires Due(cfg, scope, n, s.(now := s.now + wait)) && t == Step(cfg, s, Event(wait, Greedy(scope, n)))
    ensures AfterGreedy(cfg, scope, n, t.rows) && t.now == s.now + wait
  {
    GreedyApply(cfg, scope, n, s.(now := s.now + wait), t);
  }
}
