/** Freshness and replay of DPoP proofs (server/src/hyproxy/idp/oidc/dpop.py,
    server/src/hyproxy/idp/oidc/replay.py, and the collection in
    server/src/hyproxy/cli.py).

    Everything `verify_proof_offline` decides without a clock (structure, signature,
    method, URL, token hash, key binding) is one boolean input of an attempt. */
module DpopReplay {
  import opened Prelude

  /** `iat` is in whole seconds, as the claim is. */
  datatype Proof = Proof(jkt: nat, jti: string, iat: int)

  datatype Key = Key(jkt: nat, jti: string)

  /** `dpop_iat_window` and `dpop_iat_future_skew`, in seconds. */
  datatype Config = Config(window: nat, skew: nat)

  datatype Error = Invalid | StaleIat | IatInFuture | JtiReplay

  type Seen = map<Key, Instant>

  function KeyOf(p: Proof): Key { Key(p.jkt, p.jti) }

  predicate Fresh(cfg: Config, p: Proof, now: Instant) {
    now - cfg.window * SECOND <= p.iat * SECOND <= now + cfg.skew * SECOND
  }

  function Unexpired(seen: Seen, now: Instant): Seen {
    map k | k in seen && seen[k] > now :: seen[k]
  }

  /** The `dpop_jti_seen` table. */
  class ReplayCache {
    var seen: Seen
    const cfg: Config

    constructor (cfg: Config)
      ensures seen == map[] && this.cfg == cfg
    {
      seen := map[];
      this.cfg := cfg;
    }

    /** An insert that does nothing on conflict, reporting whether it was new. */
    method CheckAndStore(key: Key, expires: Instant) returns (stored: bool)
      modifies this
      ensures stored <==> key !in old(seen)
      ensures seen == if stored then old(seen)[key := expires] else old(seen)
    {
      if key in seen { return false; }
      seen := seen[key := expires];
      return true;
    }

    method VerifyProof(p: Proof, valid: bool, now: Instant) returns (result: Result<Proof, Error>)
      modifies this
      ensures result.Ok? <==> valid && Fresh(cfg, p, now) && KeyOf(p) !in old(seen)
      ensures result.Ok? ==> result.value == p
      ensures result.Ok? ==> now - cfg.window * SECOND <= p.iat * SECOND <= now + cfg.skew * SECOND
      ensures result == Err(Invalid) <==> !valid
      ensures result == Err(StaleIat) <==> valid && p.iat * SECOND < now - cfg.window * SECOND
      ensures result == Err(IatInFuture) <==>
              valid && now - cfg.window * SECOND <= p.iat * SECOND && now + cfg.skew * SECOND < p.iat * SECOND
      ensures result == Err(JtiReplay) <==> valid && Fresh(cfg, p, now) && KeyOf(p) in old(seen)
      ensures seen == if result.Ok? then old(seen)[KeyOf(p) := now + cfg.window * SECOND] else old(seen)
      ensures State(now, seen, if result.Ok? then [Acceptance(p, now)] else [])
              == Apply(cfg, State(now, old(seen), []), Present(p, valid, true))
    {
      if !valid { return Err(Invalid); }
      if p.iat * SECOND < now - cfg.window * SECOND { return Err(StaleIat); }
      if p.iat * SECOND > now + cfg.skew * SECOND { return Err(IatInFuture); }
      var stored := CheckAndStore(KeyOf(p), now + cfg.window * SECOND);
      if !stored { return Err(JtiReplay); }
      return Ok(p);
    }

    method Gc(now: Instant)
      modifies this
      ensures seen == Unexpired(old(seen), now)
      ensures State(now, seen, []) == Apply(cfg, State(now, old(seen), []), Collect)
    {
      seen := map k | k in seen && !(seen[k] <= now) :: seen[k];
    }
  }

  // --------------------------------------------------------------------- runs

  datatype Acceptance = Acceptance(proof: Proof, at: Instant)

  datatype State = State(now: Instant, seen: Seen, accepted: seq<Acceptance>)

  /** `committed` says whether the request around the proof committed: one that raises
      afterwards rolls the stored identifier back and grants nothing. */
  datatype Action =
    | Present(proof: Proof, valid: bool, committed: bool)
    | Collect

  datatype Event = Event(dt: nat, action: Action)

  function Apply(cfg: Config, s: State, action: Action): State {
    match action
    case Present(p, valid, committed) =>
      if valid && committed && Fresh(cfg, p, s.now) && KeyOf(p) !in s.seen
      then s.(seen := s.seen[KeyOf(p) := s.now + cfg.window * SECOND],
              accepted := s.accepted + [Acceptance(p, s.now)])
      else s
    case Collect => s.(seen := Unexpired(s.seen, s.now))
  }

  function Step(cfg: Config, s: State, e: Event): State {
    Apply(cfg, s.(now := s.now + e.dt), e.action)
  }

  function Run(cfg: Config, s: State, events: seq<Event>): State
    decreases |events|
  {
    if events == [] then s else Run(cfg, Step(cfg, s, events[0]), events[1..])
  }

  /** An accepted proof is remembered for the whole window. */
  predicate Remembered(cfg: Config, s: State, a: Acceptance) {
    a.at <= s.now
    && (s.now < a.at + cfg.window * SECOND ==>
          KeyOf(a.proof) in s.seen && s.seen[KeyOf(a.proof)] >= a.at + cfg.window * SECOND)
  }

  /** What the earlier of two acceptances of one identifier says about the later. */
  predicate Apart(cfg: Config, first: Acceptance, second: Acceptance) {
    KeyOf(first.proof) == KeyOf(second.proof) ==> second.at >= first.at + cfg.window * SECOND
  }

  predicate Inv(cfg: Config, s: State) {
    && (forall k :: 0 <= k < |s.accepted| ==>
        Remembered(cfg, s, s.accepted[k]) && Fresh(cfg, s.accepted[k].proof, s.accepted[k].at))
    && (forall i, j :: 0 <= i < j < |s.accepted| ==> Apart(cfg, s.accepted[i], s.accepted[j]))
  }

  lemma StepKeepsInv(cfg: Config, s: State, e: Event, t: State)
    requires Inv(cfg, s) && t == Step(cfg, s, e)
    ensures Inv(cfg, t)
  {
    forall k | 0 <= k < |t.accepted|
      ensures Remembered(cfg, t, t.accepted[k]) && Fresh(cfg, t.accepted[k].proof, t.accepted[k].at)
    {
      if k < |s.accepted| {
        assert Remembered(cfg, s, s.accepted[k]);
      }
    }
    forall i, j | 0 <= i < j < |t.accepted| ensures Apart(cfg, t.accepted[i], t.accepted[j]) {
      assert Remembered(cfg, s, s.accepted[i]);
    }
  }

  lemma {:induction false} RunKeepsInv(cfg: Config, s: State, events: seq<Event>)
    requires Inv(cfg, s)
    ensures Inv(cfg, Run(cfg, s, events))
    decreases |events|
  {
    if events != [] {
      var t := Step(cfg, s, events[0]);
      StepKeepsInv(cfg, s, events[0], t);
      RunKeepsInv(cfg, t, events[1..]);
    }
  }

  /** Over every interleaving of presentations and collections, a second acceptance of
      a proof falls between one window after the first and one window after its own
      date; a proof dated strictly before its first acceptance is never accepted again. */
  lemma ReplayIsConfined(cfg: Config, start: Instant, events: seq<Event>, i: nat, j: nat)
    requires i < j < |Run(cfg, State(start, map[], []), events).accepted|
    requires
      var log := Run(cfg, State(start, map[], []), events).accepted;
      log[i].proof == log[j].proof
    ensures
      var log := Run(cfg, State(start, map[], []), events).accepted;
      var iat := log[i].proof.iat * SECOND;
      log[i].at + cfg.window * SECOND <= log[j].at <= iat + cfg.window * SECOND
      && log[i].at <= iat
  {
    RunKeepsInv(cfg, State(start, map[], []), events);
    var s := Run(cfg, State(start, map[], []), events);
    assert Apart(cfg, s.accepted[i], s.accepted[j]);
    assert Fresh(cfg, s.accepted[j].proof, s.accepted[j].at);
  }

  /** With a skew below the window, as configured by default, no proof is accepted a
      third time. */
  lemma NeverThreeTimes(cfg: Config, start: Instant, events: seq<Event>, i: nat, j: nat, k: nat)
    requires cfg.skew < cfg.window
    requires i < j < k < |Run(cfg, State(start, map[], []), events).accepted|
    ensures
      var log := Run(cfg, State(start, map[], []), events).accepted;
      !(log[i].proof == log[j].proof == log[k].proof)
  {
    RunKeepsInv(cfg, State(start, map[], []), events);
    var s := Run(cfg, State(start, map[], []), events);
    assert Apart(cfg, s.accepted[i], s.accepted[j]) && Apart(cfg, s.accepted[j], s.accepted[k]);
    assert Fresh(cfg, s.accepted[i].proof, s.accepted[i].at) && Fresh(cfg, s.accepted[k].proof, s.accepted[k].at);
  }

  predicate SameIdentifier(a: Proof, b: Proof) { a.jkt == b.jkt && a.jti == b.jti }

  /** Everything remembered was accepted. */
  ghost predicate Known(s: State) {
    forall k :: k in s.seen ==> exists i :: 0 <= i < |s.accepted| && KeyOf(s.accepted[i].proof) == k
  }

  lemma StepKeepsKnown(cfg: Config, s: State, e: Event, t: State)
    requires Known(s) && t == Step(cfg, s, e)
    ensures Known(t)
  {
    forall k | k in t.seen ensures exists i :: 0 <= i < |t.accepted| && KeyOf(t.accepted[i].proof) == k {
      if k in s.seen {
        var i :| 0 <= i < |s.accepted| && KeyOf(s.accepted[i].proof) == k;
        assert t.accepted[i] == s.accepted[i];
      } else {
        assert KeyOf(t.accepted[|s.accepted|].proof) == k;
      }
    }
  }

  lemma {:induction false} RunKeepsKnown(cfg: Config, s: State, events: seq<Event>)
    requires Known(s)
    ensures Known(Run(cfg, s, events))
    decreases |events|
  {
    if events != [] {
      var t := Step(cfg, s, events[0]);
      StepKeepsKnown(cfg, s, events[0], t);
      RunKeepsKnown(cfg, t, events[1..]);
    }
  }

  /** What a presentation meets in a state. */
  predicate Meets(cfg: Config, s: State, dt: nat, p: Proof, valid: bool) {
    var now := s.now + dt;
    var t := Step(cfg, s, Event(dt, Present(p, valid, true)));
    var dated := now - cfg.window * SECOND <= p.iat * SECOND <= now + cfg.skew * SECOND;
    && (t.accepted == s.accepted + [Acceptance(p, now)] || t.accepted == s.accepted)
    && (t.accepted != s.accepted ==>
          valid && dated && forall a :: a in s.accepted && SameIdentifier(a.proof, p) ==>
            now >= a.at + cfg.window * SECOND)
    && (valid && dated && (forall a :: a in s.accepted ==> !SameIdentifier(a.proof, p)) ==>
          t.accepted == s.accepted + [Acceptance(p, now)])
  }

  lemma PresentationMeets(cfg: Config, s: State, dt: nat, p: Proof, valid: bool)
    requires Inv(cfg, s) && Known(s)
    ensures Meets(cfg, s, dt, p, valid)
  {
    forall a | a in s.accepted && SameIdentifier(a.proof, p)
      ensures s.now + dt < a.at + cfg.window * SECOND ==> KeyOf(p) in s.seen
    {
      var i :| 0 <= i < |s.accepted| && s.accepted[i] == a;
      assert Remembered(cfg, s, s.accepted[i]);
    }
    if KeyOf(p) in s.seen {
      var i :| 0 <= i < |s.accepted| && KeyOf(s.accepted[i].proof) == KeyOf(p);
      assert s.accepted[i] in s.accepted && SameIdentifier(s.accepted[i].proof, p);
    }
  }

  /** What a presentation meets in every run: it is accepted only if valid, dated inside
      the window and the skew, and not within one window of an acceptance of the same
      key and identifier; and it is accepted whenever it is valid and so dated and
      nothing with that key and identifier was accepted before. */
  lemma FirstPresentationsAreAccepted(cfg: Config, start: Instant, events: seq<Event>, dt: nat, p: Proof, valid: bool)
    ensures Meets(cfg, Run(cfg, State(start, map[], []), events), dt, p, valid)
  {
    var s := Run(cfg, State(start, map[], []), events);
    RunKeepsInv(cfg, State(start, map[], []), events);
    RunKeepsKnown(cfg, State(start, map[], []), events);
    PresentationMeets(cfg, s, dt, p, valid);
  }

  /** The confinement is exact: a proof dated at or after its first acceptance is
      accepted a second time, one window later, once a collection has run. */
  lemma LaterDatedProofReplays(cfg: Config, p: Proof, start: Instant) returns (events: seq<Event>)
    requires Fresh(cfg, p, start) && start <= p.iat * SECOND
    ensures
      Run(cfg, State(start, map[], []), events).accepted
      == [Acceptance(p, start), Acceptance(p, start + cfg.window * SECOND)]
  {
    var use := Event(0, Present(p, true, true));
    var gc := Event(cfg.window * SECOND, Collect);
    events := [use, gc, use];
    var s0 := State(start, map[], []);
    var s1 := Step(cfg, s0, use);
    var s2 := Step(cfg, s1, gc);
    var s3 := Step(cfg, s2, use);
    assert s1.accepted == [Acceptance(p, start)];
    assert KeyOf(p) !in s2.seen;
    assert events[1..] == [gc, use] && events[1..][1..] == [use] && events[1..][1..][1..] == [];
    assert Run(cfg, s0, events) == Run(cfg, s1, events[1..]);
    assert Run(cfg, s1, events[1..]) == Run(cfg, s2, events[1..][1..]);
    assert Run(cfg, s2, [use]) == Run(cfg, s3, []);
  }
}
