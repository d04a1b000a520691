/** The signing-key lifecycle pending -> active -> retiring -> retired
    (server/src/hyproxy/core/keys.py) against the access tokens signed along the way
    (server/src/hyproxy/idp/oidc/tokens.py). */
module SigningKeys {
  import opened Prelude

  datatype KeyState = Pending | Active | Retiring | Retired

  datatype KeyRow = KeyRow(state: KeyState, createdAt: Instant, retiringAt: Instant)

  type Keys = map<Id, KeyRow>

  const RETIRE_BUFFER: int := 15 * 60 * SECOND

  // ----------------------------------------------------------- row functions

  predicate NewestPending(rows: Keys, id: Id) {
    id in rows && rows[id].state == Pending
    && forall k :: k in rows && rows[k].state == Pending ==> rows[k].createdAt <= rows[id].createdAt
  }

  function Demoted(row: KeyRow, now: Instant): KeyRow {
    if row.state == Active then row.(state := Retiring, retiringAt := now) else row
  }

  function Activated(rows: Keys, id: Id, now: Instant): Keys {
    map k | k in rows :: if k == id then rows[k].(state := Active) else Demoted(rows[k], now)
  }

  predicate Due(row: KeyRow, now: Instant) {
    row.state == Retiring && row.retiringAt <= now - RETIRE_BUFFER
  }

  function Collected(rows: Keys, now: Instant): Keys {
    map k | k in rows :: if Due(rows[k], now) then rows[k].(state := Retired) else rows[k]
  }

  /** The key table as the service updates it. */
  class KeyTable {
    var rows: Keys
    var next: Id

    predicate Valid()
      reads this
    {
      forall k :: k in rows ==> k < next
    }

    ghost function Snapshot(now: Instant): State
      reads this
    {
      State(now, next, rows, [])
    }

    constructor ()
      ensures Valid() && Snapshot(0) == INITIAL
    {
      rows, next := map[], 0;
    }

    method CreatePending(now: Instant) returns (id: Id)
      requires Valid()
      modifies this
      ensures Valid() && id !in old(rows) && rows == old(rows)[id := KeyRow(Pending, now, 0)]
      ensures Snapshot(now) == Apply(0, old(Snapshot(now)), Create)
    {
      id := next;
      rows := rows[id := KeyRow(Pending, now, 0)];
      next := next + 1;
    }

    /** The newest pending row, or None. */
    method FindPending() returns (pending: Option<Id>)
      ensures pending.None? <==> forall k :: k in rows ==> rows[k].state != Pending
      ensures pending.Some? ==> NewestPending(rows, pending.value)
    {
      pending := None;
      var todo := rows.Keys;
      while todo != {}
        invariant todo <= rows.Keys
        invariant pending.None? ==> forall k :: k in rows && k !in todo ==> rows[k].state != Pending
        invariant pending.Some? ==> pending.value in rows && rows[pending.value].state == Pending
        invariant pending.Some? ==> forall k :: k in rows && k !in todo && rows[k].state == Pending ==>
                    rows[k].createdAt <= rows[pending.value].createdAt
        decreases todo
      {
        var k :| k in todo;
        todo := todo - {k};
        if rows[k].state == Pending && (pending.None? || rows[pending.value].createdAt < rows[k].createdAt) {
          pending := Some(k);
        }
      }
    }

    /** `activate_pending`; without a pending key it raises and nothing changes. */
    method ActivatePending(now: Instant) returns (activated: Option<Id>)
      requires Valid()
      modifies this
      ensures Valid()
      ensures activated.None? ==> rows == old(rows) && forall k :: k in rows ==> rows[k].state != Pending
      ensures activated.Some? ==> NewestPending(old(rows), activated.value)
                                  && rows == Activated(old(rows), activated.value, now)
                                  && Snapshot(now) == Apply(0, old(Snapshot(now)), Activate(activated.value))
      ensures next == old(next)
    {
      activated := FindPending();
      if activated.None? { return; }
      rows := map k | k in rows :: Demoted(rows[k], now);
      rows := rows[activated.value := rows[activated.value].(state := Active)];
    }

    /** `bootstrap_if_empty`. */
    method BootstrapIfEmpty(now: Instant)
      requires Valid()
      modifies this
      ensures Valid()
      ensures Snapshot(now) == Apply(0, old(Snapshot(now)), Bootstrap)
    {
      if rows == map[] {
        var id := CreatePending(now);
        var activated := ActivatePending(now);
        assert id in old(rows)[id := KeyRow(Pending, now, 0)];
        assert rows == map[id := KeyRow(Active, now, 0)];
      }
    }

    /** `gc_retired`, with the number of keys it retired. */
    method GcRetired(now: Instant) returns (count: nat)
      requires Valid()
      modifies this
      ensures Valid() && rows == Collected(old(rows), now)
      ensures Snapshot(now) == Apply(0, old(Snapshot(now)), Gc)
      ensures count == |set k | k in old(rows) && Due(old(rows)[k], now)|
    {
      var due := set k | k in rows && Due(rows[k], now);
      rows := map k | k in rows :: if k in due then rows[k].(state := Retired) else rows[k];
      count := |due|;
    }
  }

  // --------------------------------------------------------------------- runs

  /** A token carries its expiry in whole seconds, truncated as `int()` does. */
  datatype Token = Token(kid: Id, exp: int, mintedAt: Instant)

  datatype State = State(now: Instant, next: Id, rows: Keys, tokens: seq<Token>)

  const INITIAL := State(0, 0, map[], [])

  datatype Action =
    | Create
    | Activate(id: Id)
    | Bootstrap
    | Gc
    | Mint(id: Id)

  datatype Event = Event(dt: nat, action: Action)

  /** An action whose guard fails raises and rolls back. Which of several equally new
      pending keys is activated is left to the event. */
  function Apply(ttl: nat, s: State, action: Action): State {
    match action
    case Create => s.(next := s.next + 1, rows := s.rows[s.next := KeyRow(Pending, s.now, 0)])
    case Activate(id) => if NewestPending(s.rows, id) then s.(rows := Activated(s.rows, id, s.now)) else s
    case Bootstrap =>
      if s.rows != map[] then s
      else s.(next := s.next + 1, rows := map[s.next := KeyRow(Active, s.now, 0)])
    case Gc => s.(rows := Collected(s.rows, s.now))
    case Mint(id) =>
      if id in s.rows && s.rows[id].state == Active
      then s.(tokens := s.tokens + [Token(id, (s.now + ttl * SECOND) / SECOND, s.now)])
      else s
  }

  function Step(ttl: nat, s: State, e: Event): State {
    Apply(ttl, s.(now := s.now + e.dt), e.action)
  }

  function Run(ttl: nat, s: State, events: seq<Event>): State
    decreases |events|
  {
    if events == [] then s else Run(ttl, Step(ttl, s, events[0]), events[1..])
  }

  /** `verify_access_token` would reject the token as expired. */
  predicate Expired(t: Token, now: Instant) { t.exp * SECOND <= now }

  /** The key lookup of `verify_access_token`. */
  predicate Verifies(rows: Keys, t: Token) {
    t.kid in rows && (rows[t.kid].state == Active || rows[t.kid].state == Retiring)
  }

  predicate OnlyActive(rows: Keys, id: Id) {
    id in rows && rows[id].state == Active && forall k :: k in rows && rows[k].state == Active ==> k == id
  }

  ghost predicate SingleActive(rows: Keys) {
    exists id :: OnlyActive(rows, id)
  }

  function Rank(state: KeyState): nat {
    match state case Pending => 0 case Active => 1 case Retiring => 2 case Retired => 3
  }

  predicate TokenSane(ttl: nat, s: State, t: Token) {
    && t.kid in s.rows && s.rows[t.kid].state != Pending
    && t.exp * SECOND <= t.mintedAt + ttl * SECOND && t.mintedAt <= s.now
    && (s.rows[t.kid].state == Retiring ==> t.mintedAt <= s.rows[t.kid].retiringAt)
    && (s.rows[t.kid].state == Retired ==> Expired(t, s.now))
  }

  predicate TokensSane(ttl: nat, s: State) {
    forall k :: 0 <= k < |s.tokens| ==> TokenSane(ttl, s, s.tokens[k])
  }

  predicate IdsSane(s: State) { forall id :: id in s.rows ==> id < s.next }

  predicate NeverActivated(rows: Keys) { forall id :: id in rows ==> rows[id].state == Pending }

  ghost predicate Inv(ttl: nat, s: State) {
    s.now >= 0 && IdsSane(s) && TokensSane(ttl, s) && (SingleActive(s.rows) || NeverActivated(s.rows))
  }

  lemma TruncatedExpiry(ttl: nat, now: Instant)
    requires now >= 0
    ensures (now + ttl * SECOND) / SECOND * SECOND <= now + ttl * SECOND
  {
  }

  lemma SingleActiveStays(ttl: nat, s: State, action: Action, t: State)
    requires IdsSane(s) && t == Apply(ttl, s, action)
    ensures IdsSane(t)
    ensures SingleActive(s.rows) ==> SingleActive(t.rows)
    ensures NeverActivated(s.rows) ==> SingleActive(t.rows) || NeverActivated(t.rows)
  {
    if action.Activate? && NewestPending(s.rows, action.id) {
      assert OnlyActive(t.rows, action.id);
    } else if action.Bootstrap? && s.rows == map[] {
      assert OnlyActive(t.rows, s.next);
    } else if SingleActive(s.rows) {
      var id :| OnlyActive(s.rows, id);
      assert OnlyActive(t.rows, id);
    }
  }

  lemma TokensStaySane(ttl: nat, s: State, action: Action, t: State)
    requires ttl * SECOND <= RETIRE_BUFFER
    requires s.now >= 0 && IdsSane(s) && TokensSane(ttl, s) && t == Apply(ttl, s, action)
    ensures TokensSane(ttl, t)
  {
    TruncatedExpiry(ttl, s.now);
    forall k | 0 <= k < |t.tokens| ensures TokenSane(ttl, t, t.tokens[k]) {
      if k < |s.tokens| {
        assert TokenSane(ttl, s, s.tokens[k]);
      }
    }
  }

  lemma StepKeepsInv(ttl: nat, s: State, e: Event, t: State)
    requires ttl * SECOND <= RETIRE_BUFFER
    requires Inv(ttl, s) && t == Step(ttl, s, e)
    ensures Inv(ttl, t)
  {
    var later := s.(now := s.now + e.dt);
    assert TokensSane(ttl, later) by {
      forall k | 0 <= k < |later.tokens| ensures TokenSane(ttl, later, later.tokens[k]) {
        assert TokenSane(ttl, s, s.tokens[k]);
      }
    }
    assert t == Apply(ttl, later, e.action);
    SingleActiveStays(ttl, later, e.action, t);
    TokensStaySane(ttl, later, e.action, t);
  }

  lemma {:induction false} RunKeepsInv(ttl: nat, s: State, events: seq<Event>)
    requires ttl * SECOND <= RETIRE_BUFFER
    requires Inv(ttl, s)
    ensures Inv(ttl, Run(ttl, s, events))
    decreases |events|
  {
    if events != [] {
      var t := Step(ttl, s, events[0]);
      StepKeepsInv(ttl, s, events[0], t);
      RunKeepsInv(ttl, t, events[1..]);
    }
  }

  /** In every run, a token that has not expired still finds its key active or
      retiring, when tokens live at most as long as the retirement buffer. */
  lemma UnexpiredTokensVerify(ttl: nat, events: seq<Event>, k: nat)
    requires ttl * SECOND <= RETIRE_BUFFER
    requires k < |Run(ttl, INITIAL, events).tokens|
    ensures var s := Run(ttl, INITIAL, events);
            Expired(s.tokens[k], s.now) || Verifies(s.rows, s.tokens[k])
  {
    RunKeepsInv(ttl, INITIAL, events);
    var s := Run(ttl, INITIAL, events);
    assert TokenSane(ttl, s, s.tokens[k]);
  }

  /** The bound is exact: with any longer token lifetime there is a run that leaves an
      unexpired token without its key. */
  lemma LongerTokensOutliveTheirKey(ttl: nat) returns (events: seq<Event>)
    requires ttl * SECOND > RETIRE_BUFFER
    ensures
      var s := Run(ttl, INITIAL, events);
      |s.tokens| == 1 && !Expired(s.tokens[0], s.now) && !Verifies(s.rows, s.tokens[0])
  {
    var e0, e1, e2, e3, e4 :=
      Event(0, Bootstrap), Event(0, Mint(0)), Event(0, Create), Event(0, Activate(1)), Event(RETIRE_BUFFER, Gc);
    events := [e0, e1, e2, e3, e4];
    var first := KeyRow(Active, 0, 0);
    var s1 := Step(ttl, INITIAL, e0);
    assert s1 == State(0, 1, map[0 := first], []);
    var s2 := Step(ttl, s1, e1);
    assert s2 == s1.(tokens := [Token(0, ttl, 0)]) by { assert (0 + ttl * SECOND) / SECOND == ttl; }
    var s3 := Step(ttl, s2, e2);
    assert s3 == s2.(next := 2, rows := map[0 := first, 1 := KeyRow(Pending, 0, 0)]);
    assert NewestPending(s3.rows, 1);
    var s4 := Step(ttl, s3, e3);
    assert s4 == s3.(rows := map[0 := KeyRow(Retiring, 0, 0), 1 := first]);
    var s5 := Step(ttl, s4, e4);
    assert s5.rows[0] == KeyRow(Retired, 0, 0) && s5.tokens == s2.tokens && s5.now == RETIRE_BUFFER;
    Unroll(ttl, events, s1, s2, s3, s4, s5);
  }

  lemma Unroll(ttl: nat, events: seq<Event>, s1: State, s2: State, s3: State, s4: State, s5: State)
    requires |events| == 5
    requires s1 == Step(ttl, INITIAL, events[0]) && s2 == Step(ttl, s1, events[1])
    requires s3 == Step(ttl, s2, events[2]) && s4 == Step(ttl, s3, events[3]) && s5 == Step(ttl, s4, events[4])
    ensures Run(ttl, INITIAL, events) == s5
  {
    assert Run(ttl, INITIAL, events) == Run(ttl, s1, events[1..]);
    assert Run(ttl, s1, events[1..]) == Run(ttl, s2, events[1..][1..]);
    assert Run(ttl, s2, events[1..][1..]) == Run(ttl, s3, events[1..][1..][1..]);
    assert Run(ttl, s3, events[1..][1..][1..]) == Run(ttl, s4, events[1..][1..][1..][1..]);
    assert Run(ttl, s4, events[1..][1..][1..][1..]) == Run(ttl, s5, events[1..][1..][1..][1..][1..]) == s5;
  }

  lemma {:induction false} RunKeepsActivity(ttl: nat, s: State, events: seq<Event>)
    requires IdsSane(s) && (SingleActive(s.rows) || NeverActivated(s.rows))
    ensures
      var rows := Run(ttl, s, events).rows;
      SingleActive(rows) || NeverActivated(rows)
    decreases |events|
  {
    if events != [] {
      var t := Step(ttl, s, events[0]);
      SingleActiveStays(ttl, s.(now := s.now + events[0].dt), events[0].action, t);
      RunKeepsActivity(ttl, t, events[1..]);
    }
  }

  /** In every reachable state exactly one key is active, or no key was ever activated. */
  lemma OneActiveKeyOnceActivated(ttl: nat, events: seq<Event>)
    ensures var rows := Run(ttl, INITIAL, events).rows;
            SingleActive(rows) <==> exists id :: id in rows && rows[id].state != Pending
  {
    RunKeepsActivity(ttl, INITIAL, events);
  }

  /** From a bootstrapped table on there is exactly one active key at every step. */
  lemma {:induction false} OneActiveKeyAfterBootstrap(ttl: nat, s: State, events: seq<Event>)
    requires SingleActive(s.rows) && IdsSane(s)
    ensures SingleActive(Run(ttl, s, events).rows)
    decreases |events|
  {
    if events != [] {
      var t := Step(ttl, s, events[0]);
      SingleActiveStays(ttl, s.(now := s.now + events[0].dt), events[0].action, t);
      OneActiveKeyAfterBootstrap(ttl, t, events[1..]);
    }
  }

  /** Bootstrap gives an empty table its active key and does nothing to any other: a
      table that has keys, but no active one, is left with none to sign with. */
  lemma BootstrapActivatesOnlyAnEmptyTable(ttl: nat, s: State, dt: nat)
    requires forall id :: id in s.rows ==> s.rows[id].state != Active
    ensures SingleActive(Step(ttl, s, Event(dt, Bootstrap)).rows) <==> s.rows == map[]
  {
    var t := Step(ttl, s, Event(dt, Bootstrap));
    if s.rows == map[] { assert OnlyActive(t.rows, s.next); }
  }

  /** A key's state never moves backwards, whatever happens. */
  lemma {:induction false} StatesMoveForward(ttl: nat, s: State, events: seq<Event>, id: Id)
    requires id in s.rows && forall k :: k in s.rows ==> k < s.next
    ensures id in Run(ttl, s, events).rows
    ensures Rank(s.rows[id].state) <= Rank(Run(ttl, s, events).rows[id].state)
    decreases |events|
  {
    if events != [] {
      StatesMoveForward(ttl, Step(ttl, s, events[0]), events[1..], id);
    }
  }
}
