/** The data plane serving app requests from its decision cache while the control plane
    keeps changing underneath (`serveApp` in dataplane/internal/proxy/server.go).

    A request is several steps here: it looks in the cache, waits for the control plane,
    and stores a cacheable allow under the time it began. Other requests, database
    changes and route swaps may come between any two of them. */
module EdgeCache {
  import opened Prelude
  import opened Rows
  import C = AuthzCache
  import A = AuthzCheck

  /** The control plane as the data plane knows it: a database, a request, an instant. */
  type Checker = (A.Db, A.CheckRequest, Instant) -> A.CheckResponse

  datatype Pending =
    | Waiting(req: A.CheckRequest, begin: Instant)
    | Answered(req: A.CheckRequest, begin: Instant, answer: nat)

  /** One call of `/authz/check`, with the database it read. */
  datatype Answer = Answer(req: A.CheckRequest, begin: Instant, at: Instant, response: A.CheckResponse, db: A.Db)

  /** What there is to tell about the last swap of routes: how many answers there were,
      which of them were still on their way, and which were stored since. */
  datatype Era = Era(mark: nat, inFlight: set<nat>, stored: set<nat>)

  /** One request served from the cache, with the database at that moment. */
  datatype Served = Served(req: A.CheckRequest, at: Instant, headers: C.Headers, db: A.Db, era: Era)

  /** `answers`, `served` and `era` are history. */
  datatype State = State(
    now: Instant, db: A.Db, entries: C.Entries,
    pending: map<nat, Pending>, answers: seq<Answer>, served: seq<Served>, era: Era)

  datatype Action =
    | Database(db: A.Db)
    | Arrive(id: nat, req: A.CheckRequest)
    | Decide(id: nat)
    | Deliver(id: nat)
    | Fail(id: nat)
    | SwapRoutes

  datatype Event = Event(dt: nat, action: Action)

  function Key(req: A.CheckRequest): string { C.KeyText(req.host, req.port, req.ip, req.gatewayCookie) }

  /** Hosts come out of normalisation and addresses out of the listener. */
  predicate NulFree(req: A.CheckRequest) { '\0' !in req.host && '\0' !in req.ip }

  function ArriveStep(s: State, id: nat, req: A.CheckRequest): State {
    if id in s.pending || !NulFree(req) then s
    else if req.gatewayCookie == "" then s.(pending := s.pending[id := Waiting(req, s.now)])
    else
      var hit := C.Hit(s.entries, Key(req), s.now);
      var after := s.(entries := C.AfterGet(s.entries, Key(req), s.now));
      if hit.Some? then after.(served := s.served + [Served(req, s.now, hit.value, s.db, s.era)])
      else after.(pending := s.pending[id := Waiting(req, s.now)])
  }

  ghost function DecideStep(check: Checker, s: State, id: nat): State {
    if id !in s.pending || !s.pending[id].Waiting? then s
    else
      var p := s.pending[id];
      s.(answers := s.answers + [Answer(p.req, p.begin, s.now, check(s.db, p.req, s.now), s.db)],
         pending := s.pending[id := Answered(p.req, p.begin, |s.answers|)])
  }

  function DeliverStep(s: State, id: nat): State {
    if id !in s.pending || !s.pending[id].Answered? || s.pending[id].answer >= |s.answers| then s
    else
      var p := s.pending[id];
      var r := s.answers[p.answer].response;
      var delivered := s.(pending := s.pending - {id});
      if p.req.gatewayCookie != "" && A.Cacheable(r)
      then delivered.(entries := C.AfterPut(s.entries, Key(p.req), r.headers, r.ttl * SECOND, p.begin),
                      era := s.era.(stored := s.era.stored + {p.answer}))
      else delivered
  }

  /** The answers on their way. */
  function InFlight(s: State): set<nat> {
    set id | id in s.pending && s.pending[id].Answered? :: s.pending[id].answer
  }

  ghost function Apply(check: Checker, s: State, action: Action): State {
    match action
    case Database(db) => s.(db := db)
    case Arrive(id, req) => ArriveStep(s, id, req)
    case Decide(id) => DecideStep(check, s, id)
    case Deliver(id) => DeliverStep(s, id)
    case Fail(id) => s.(pending := s.pending - {id})
    case SwapRoutes => s.(entries := map[], era := Era(|s.answers|, InFlight(s), {}))
  }

  ghost function Step(check: Checker, s: State, e: Event): State {
    Apply(check, s.(now := s.now + e.dt), e.action)
  }

  ghost function Run(check: Checker, s: State, events: seq<Event>): State
    decreases |events|
  {
    if events == [] then s else Run(check, Step(check, s, events[0]), events[1..])
  }

  predicate Fresh(s: State) {
    s.entries == map[] && s.pending == map[] && s.answers == [] && s.served == [] && s.era == Era(0, {}, {})
  }

  // -------------------------------------------------------------- invariant

  /** How long an answer may be replayed, counted from the start of its request. */
  function Lifetime(a: Answer): int { Min(a.response.ttl * SECOND, C.TTL_CAP) }

  ghost predicate Genuine(check: Checker, a: Answer) {
    a.response == check(a.db, a.req, a.at) && a.begin <= a.at && NulFree(a.req)
  }

  predicate Backs(a: Answer, key: string, e: C.Entry) {
    A.Cacheable(a.response) && Key(a.req) == key && a.response.headers == e.headers
    && e.expires == a.begin + Lifetime(a)
  }

  /** The answer a cache hit replays. */
  predicate Justifies(a: Answer, h: Served) {
    && A.Cacheable(a.response) && a.response.headers == h.headers
    && a.req.host == h.req.host && a.req.port == h.req.port
    && a.req.ip == h.req.ip && a.req.gatewayCookie == h.req.gatewayCookie
    && a.at <= h.at <= a.begin + Lifetime(a)
  }

  ghost predicate AnswersGenuine(check: Checker, s: State) {
    forall i :: 0 <= i < |s.answers| ==> Genuine(check, s.answers[i]) && s.answers[i].at <= s.now
  }

  ghost predicate Backed(answers: seq<Answer>, key: string, e: C.Entry) {
    exists i :: 0 <= i < |answers| && Backs(answers[i], key, e)
  }

  ghost predicate Justified(answers: seq<Answer>, h: Served) {
    exists i :: 0 <= i < |answers| && Justifies(answers[i], h)
  }

  ghost predicate EntriesBacked(s: State) {
    forall k :: k in s.entries ==> Backed(s.answers, k, s.entries[k])
  }

  ghost predicate PendingSane(s: State) {
    forall id :: id in s.pending ==>
      var p := s.pending[id];
      NulFree(p.req) && p.begin <= s.now
      && (p.Answered? ==> p.answer < |s.answers|
                          && s.answers[p.answer].req == p.req && s.answers[p.answer].begin == p.begin)
  }

  ghost predicate HitsJustified(s: State) {
    forall k :: 0 <= k < |s.served| ==> Justified(s.answers, s.served[k])
  }

  ghost predicate Inv(check: Checker, s: State) {
    AnswersGenuine(check, s) && EntriesBacked(s) && PendingSane(s) && HitsJustified(s) && |s.entries| <= C.MAX_ENTRIES
  }

  lemma FewerEntries(check: Checker, s: State, t: State)
    requires Inv(check, s)
    requires t.now >= s.now && t.answers == s.answers && t.served == s.served
    requires t.entries.Keys <= s.entries.Keys && forall k :: k in t.entries ==> t.entries[k] == s.entries[k]
    requires forall id :: id in t.pending ==> id in s.pending && t.pending[id] == s.pending[id]
    ensures Inv(check, t)
  {
    assert |t.entries.Keys| <= |s.entries.Keys| by { SubsetSize(t.entries.Keys, s.entries.Keys); }
  }

  lemma SubsetSize<T>(a: set<T>, b: set<T>)
    requires a <= b
    ensures |a| <= |b|
  {
    assert b == a + (b - a);
  }

  lemma PendingAdded(check: Checker, s: State, id: nat, p: Pending)
    requires Inv(check, s) && NulFree(p.req) && p.begin <= s.now
    requires p.Answered? ==>
               p.answer < |s.answers| && s.answers[p.answer].req == p.req && s.answers[p.answer].begin == p.begin
    ensures Inv(check, s.(pending := s.pending[id := p]))
  {
  }

  lemma ServedAdded(check: Checker, s: State, h: Served)
    requires Inv(check, s) && Justified(s.answers, h)
    ensures Inv(check, s.(served := s.served + [h]))
  {
  }

  lemma BackedGrows(answers: seq<Answer>, a: Answer, key: string, e: C.Entry)
    requires Backed(answers, key, e)
    ensures Backed(answers + [a], key, e)
  {
    var i :| 0 <= i < |answers| && Backs(answers[i], key, e);
    assert (answers + [a])[i] == answers[i];
  }

  lemma JustifiedGrows(answers: seq<Answer>, a: Answer, h: Served)
    requires Justified(answers, h)
    ensures Justified(answers + [a], h)
  {
    var i :| 0 <= i < |answers| && Justifies(answers[i], h);
    assert (answers + [a])[i] == answers[i];
  }

  lemma AnswerAdded(check: Checker, s: State, a: Answer)
    requires Inv(check, s) && Genuine(check, a) && a.at <= s.now
    ensures Inv(check, s.(answers := s.answers + [a]))
  {
    var t := s.(answers := s.answers + [a]);
    forall k | k in t.entries ensures Backed(t.answers, k, t.entries[k]) { BackedGrows(s.answers, a, k, s.entries[k]); }
    forall k | 0 <= k < |t.served| ensures Justified(t.answers, t.served[k]) {
      JustifiedGrows(s.answers, a, s.served[k]);
    }
  }

  lemma ArriveKeepsInv(check: Checker, s: State, id: nat, req: A.CheckRequest, t: State)
    requires Inv(check, s) && t == ArriveStep(s, id, req)
    ensures Inv(check, t)
  {
    if id in s.pending || !NulFree(req) { return; }
    if req.gatewayCookie == "" {
      PendingAdded(check, s, id, Waiting(req, s.now));
      return;
    }
    var hit := C.Hit(s.entries, Key(req), s.now);
    var after := s.(entries := C.AfterGet(s.entries, Key(req), s.now));
    FewerEntries(check, s, after);
    if hit.Some? {
      HitIsJustified(check, s, req);
      ServedAdded(check, after, Served(req, s.now, hit.value, s.db, s.era));
    } else {
      PendingAdded(check, after, id, Waiting(req, s.now));
    }
  }

  /** The answer behind a live entry of this key justifies a hit now. */
  lemma BackerJustifies(check: Checker, s: State, req: A.CheckRequest, a: Answer)
    requires Genuine(check, a) && a.at <= s.now && NulFree(req) && C.Hit(s.entries, Key(req), s.now).Some?
    requires Backs(a, Key(req), s.entries[Key(req)])
    ensures Justifies(a, Served(req, s.now, C.Hit(s.entries, Key(req), s.now).value, s.db, s.era))
  {
    C.KeysAreInjective(
      a.req.host, a.req.port, a.req.ip, a.req.gatewayCookie, req.host, req.port, req.ip, req.gatewayCookie);
  }

  lemma HitIsJustified(check: Checker, s: State, req: A.CheckRequest)
    requires AnswersGenuine(check, s) && EntriesBacked(s) && NulFree(req)
    requires C.Hit(s.entries, Key(req), s.now).Some?
    ensures Justified(s.answers, Served(req, s.now, C.Hit(s.entries, Key(req), s.now).value, s.db, s.era))
  {
    var i :| 0 <= i < |s.answers| && Backs(s.answers[i], Key(req), s.entries[Key(req)]);
    BackerJustifies(check, s, req, s.answers[i]);
  }

  lemma DecideKeepsInv(check: Checker, s: State, id: nat, t: State)
    requires Inv(check, s) && t == DecideStep(check, s, id)
    ensures Inv(check, t)
  {
    if t != s {
      var p := s.pending[id];
      var a := Answer(p.req, p.begin, s.now, check(s.db, p.req, s.now), s.db);
      AnswerAdded(check, s, a);
      PendingAdded(check, s.(answers := s.answers + [a]), id, Answered(p.req, p.begin, |s.answers|));
    }
  }

  lemma DeliverKeepsInv(check: Checker, s: State, id: nat, t: State)
    requires Inv(check, s) && t == DeliverStep(s, id)
    ensures Inv(check, t)
  {
    if t != s {
      var p := s.pending[id];
      var a := s.answers[p.answer];
      var r := a.response;
      var before := s.(pending := s.pending - {id});
      FewerEntries(check, s, before);
      if p.req.gatewayCookie != "" && A.Cacheable(r) {
        C.PutStaysBounded(s.entries, Key(p.req), r.headers, r.ttl * SECOND, p.begin);
        PutKeepsBacked(s, p.req, p.begin, p.answer);
        EntriesReplaced(check, before, t);
      }
    }
  }

  lemma EntriesReplaced(check: Checker, s: State, t: State)
    requires Inv(check, s) && t == s.(entries := t.entries, era := t.era)
    requires EntriesBacked(t) && |t.entries| <= C.MAX_ENTRIES
    ensures Inv(check, t)
  {
  }

  lemma PutKeepsBacked(s: State, req: A.CheckRequest, begin: Instant, i: nat)
    requires EntriesBacked(s) && i < |s.answers| && A.Cacheable(s.answers[i].response)
    requires s.answers[i].req == req && s.answers[i].begin == begin
    ensures
      var r := s.answers[i].response;
      EntriesBacked(s.(entries := C.AfterPut(s.entries, Key(req), r.headers, r.ttl * SECOND, begin)))
  {
    var r := s.answers[i].response;
    var entries := C.AfterPut(s.entries, Key(req), r.headers, r.ttl * SECOND, begin);
    forall k | k in entries ensures Backed(s.answers, k, entries[k]) {
      C.PutInventsNothing(s.entries, Key(req), r.headers, r.ttl * SECOND, begin, k);
      if !(k in s.entries && entries[k] == s.entries[k]) { assert Backs(s.answers[i], k, entries[k]); }
    }
  }

  lemma ApplyKeepsInv(check: Checker, s: State, action: Action, t: State)
    requires Inv(check, s) && t == Apply(check, s, action)
    ensures Inv(check, t)
  {
    match action
    case Database(db) => FewerEntries(check, s, t);
    case Arrive(id, req) => ArriveKeepsInv(check, s, id, req, t);
    case Decide(id) => DecideKeepsInv(check, s, id, t);
    case Deliver(id) => DeliverKeepsInv(check, s, id, t);
    case Fail(id) => FewerEntries(check, s, t);
    case SwapRoutes => FewerEntries(check, s, t);
  }

  lemma StepKeepsInv(check: Checker, s: State, e: Event, t: State)
    requires Inv(check, s) && t == Step(check, s, e)
    ensures Inv(check, t)
  {
    hide Inv, Apply;
    var later := s.(now := s.now + e.dt);
    assert Inv(check, later) by { FewerEntries(check, s, later); }
    assert t == Apply(check, later, e.action);
    assert Inv(check, t) by { ApplyKeepsInv(check, later, e.action, t); }
  }

  lemma {:induction false} RunKeepsInv(check: Checker, s: State, events: seq<Event>)
    requires Inv(check, s)
    ensures Inv(check, Run(check, s, events))
    decreases |events|
  {
    if events != [] {
      var t := Step(check, s, events[0]);
      StepKeepsInv(check, s, events[0], t);
      RunKeepsInv(check, t, events[1..]);
    }
  }

  // ------------------------------------------------------ what a swap separates

  ghost predicate StoredSince(answers: seq<Answer>, stored: set<nat>, key: string, e: C.Entry) {
    exists i :: i in stored && i < |answers| && Backs(answers[i], key, e)
  }

  /** An answer stored since the swap was given after it or was on its way across it. */
  predicate Crossed(era: Era, i: nat) { i >= era.mark || i in era.inFlight }

  /** The answer a hit replays was stored since the last swap. */
  predicate Replays(answers: seq<Answer>, h: Served, i: nat) {
    i < |answers| && Justifies(answers[i], h) && i in h.era.stored && Crossed(h.era, i)
  }

  ghost predicate EntriesRecent(s: State) {
    forall k :: k in s.entries ==> StoredSince(s.answers, s.era.stored, k, s.entries[k])
  }

  predicate EraSane(s: State) {
    && s.era.mark <= |s.answers|
    && (forall i :: i in s.era.stored ==> i < |s.answers| && Crossed(s.era, i))
    && (forall id :: id in s.pending && s.pending[id].Answered? ==> Crossed(s.era, s.pending[id].answer))
  }

  ghost predicate HitReplays(answers: seq<Answer>, h: Served) {
    exists i :: Replays(answers, h, i)
  }

  ghost predicate HitsRecent(s: State) {
    forall k :: 0 <= k < |s.served| ==> HitReplays(s.answers, s.served[k])
  }

  ghost predicate Separated(s: State) { EntriesRecent(s) && EraSane(s) && HitsRecent(s) }

  lemma StoredGrows(answers: seq<Answer>, a: Answer, stored: set<nat>, key: string, e: C.Entry)
    requires StoredSince(answers, stored, key, e)
    ensures StoredSince(answers + [a], stored, key, e)
  {
    var i :| i in stored && i < |answers| && Backs(answers[i], key, e);
    assert (answers + [a])[i] == answers[i];
  }

  lemma ReplayGrows(answers: seq<Answer>, a: Answer, h: Served)
    requires HitReplays(answers, h)
    ensures HitReplays(answers + [a], h)
  {
    var i :| Replays(answers, h, i);
    assert Replays(answers + [a], h, i);
  }

  lemma HitIsRecent(check: Checker, s: State, req: A.CheckRequest)
    requires AnswersGenuine(check, s) && EntriesRecent(s) && EraSane(s) && NulFree(req)
    requires C.Hit(s.entries, Key(req), s.now).Some?
    ensures HitReplays(s.answers, Served(req, s.now, C.Hit(s.entries, Key(req), s.now).value, s.db, s.era))
  {
    var h := Served(req, s.now, C.Hit(s.entries, Key(req), s.now).value, s.db, s.era);
    var i :| i in s.era.stored && i < |s.answers| && Backs(s.answers[i], Key(req), s.entries[Key(req)]);
    BackerJustifies(check, s, req, s.answers[i]);
    assert Replays(s.answers, h, i);
  }

  /** Entries, pending requests and hits only fewer or already accounted for. */
  lemma FewerSeparate(s: State, t: State)
    requires Separated(s) && t.answers == s.answers && t.era == s.era
    requires forall k :: k in t.entries ==> k in s.entries && t.entries[k] == s.entries[k]
    requires forall id :: id in t.pending && t.pending[id].Answered? ==>
        id in s.pending && t.pending[id] == s.pending[id]
    requires forall k :: 0 <= k < |t.served| ==> HitReplays(s.answers, t.served[k])
    ensures Separated(t)
  {
  }

  lemma ServedSeparates(s: State, h: Served, t: State)
    requires Separated(s) && HitReplays(s.answers, h) && t == s.(served := s.served + [h])
    ensures Separated(t)
  {
  }

  lemma ArriveSeparates(check: Checker, s: State, id: nat, req: A.CheckRequest, t: State)
    requires AnswersGenuine(check, s) && Separated(s) && t == ArriveStep(s, id, req)
    ensures Separated(t)
  {
    if id in s.pending || !NulFree(req) { return; }
    if req.gatewayCookie == "" {
      FewerSeparate(s, t);
      return;
    }
    var hit := C.Hit(s.entries, Key(req), s.now);
    var after := s.(entries := C.AfterGet(s.entries, Key(req), s.now));
    FewerSeparate(s, after);
    if hit.Some? {
      HitIsRecent(check, s, req);
      ServedSeparates(after, Served(req, s.now, hit.value, s.db, s.era), t);
    } else {
      FewerSeparate(after, t);
    }
  }

  lemma DecideSeparates(check: Checker, s: State, id: nat, t: State)
    requires Separated(s) && t == DecideStep(check, s, id)
    ensures Separated(t)
  {
    if t != s {
      var a := t.answers[|s.answers|];
      forall k | k in t.entries ensures StoredSince(t.answers, t.era.stored, k, t.entries[k]) {
        StoredGrows(s.answers, a, s.era.stored, k, s.entries[k]);
      }
      forall k | 0 <= k < |t.served| ensures HitReplays(t.answers, t.served[k]) {
        ReplayGrows(s.answers, a, s.served[k]);
      }
    }
  }

  lemma PutIsRecent(s: State, req: A.CheckRequest, begin: Instant, i: nat)
    requires EntriesRecent(s) && i < |s.answers| && A.Cacheable(s.answers[i].response)
    requires s.answers[i].req == req && s.answers[i].begin == begin
    ensures
      var r := s.answers[i].response;
      EntriesRecent(s.(entries := C.AfterPut(s.entries, Key(req), r.headers, r.ttl * SECOND, begin),
                       era := s.era.(stored := s.era.stored + {i})))
  {
    var r := s.answers[i].response;
    var entries := C.AfterPut(s.entries, Key(req), r.headers, r.ttl * SECOND, begin);
    var stored := s.era.stored + {i};
    forall k | k in entries ensures StoredSince(s.answers, stored, k, entries[k]) {
      C.PutInventsNothing(s.entries, Key(req), r.headers, r.ttl * SECOND, begin, k);
      if k in s.entries && entries[k] == s.entries[k] {
        StoredStays(s.answers, s.era.stored, i, k, s.entries[k]);
      } else {
        assert Backs(s.answers[i], k, entries[k]);
      }
    }
  }

  lemma StoredStays(answers: seq<Answer>, stored: set<nat>, more: nat, key: string, e: C.Entry)
    requires StoredSince(answers, stored, key, e)
    ensures StoredSince(answers, stored + {more}, key, e)
  {
    var i :| i in stored && i < |answers| && Backs(answers[i], key, e);
    assert i in stored + {more};
  }

  lemma StoredSeparates(s: State, id: nat, t: State)
    requires Separated(s) && id in s.pending && s.pending[id].Answered? && s.pending[id].answer < |s.answers|
    requires t.answers == s.answers && t.served == s.served && t.pending == s.pending - {id} && EntriesRecent(t)
    requires t.era == s.era.(stored := s.era.stored + {s.pending[id].answer})
    ensures Separated(t)
  {
  }

  lemma DeliverSeparates(s: State, id: nat, t: State)
    requires PendingSane(s) && Separated(s) && t == DeliverStep(s, id)
    ensures Separated(t)
  {
    if t == s { return; }
    var p := s.pending[id];
    if p.req.gatewayCookie != "" && A.Cacheable(s.answers[p.answer].response) {
      PutIsRecent(s, p.req, p.begin, p.answer);
      StoredSeparates(s, id, t);
    } else {
      FewerSeparate(s, t);
    }
  }

  lemma SwapSeparates(s: State, t: State)
    requires HitsRecent(s) && t == s.(entries := map[], era := Era(|s.answers|, InFlight(s), {}))
    ensures Separated(t)
  {
  }

  lemma ApplySeparates(check: Checker, s: State, action: Action, t: State)
    requires Inv(check, s) && Separated(s) && t == Apply(check, s, action)
    ensures Separated(t)
  {
    match action
    case Database(db) =>
    case Arrive(id, req) => ArriveSeparates(check, s, id, req, t);
    case Decide(id) => DecideSeparates(check, s, id, t);
    case Deliver(id) => DeliverSeparates(s, id, t);
    case Fail(id) =>
    case SwapRoutes => SwapSeparates(s, t);
  }

  lemma LaterSeparates(check: Checker, s: State, later: State)
    requires Inv(check, s) && Separated(s) && later.now >= s.now && later == s.(now := later.now)
    ensures Inv(check, later) && Separated(later)
  {
    FewerEntries(check, s, later);
    FewerSeparate(s, later);
  }

  lemma StepSeparates(check: Checker, s: State, e: Event, t: State)
    requires Inv(check, s) && Separated(s) && t == Step(check, s, e)
    ensures Separated(t)
  {
    hide Inv, Separated, Apply;
    var later := s.(now := s.now + e.dt);
    assert Inv(check, later) && Separated(later) by { LaterSeparates(check, s, later); }
    assert t == Apply(check, later, e.action);
    assert Separated(t) by { ApplySeparates(check, later, e.action, t); }
  }

  lemma {:induction false} RunSeparates(check: Checker, s: State, events: seq<Event>)
    requires Inv(check, s) && Separated(s)
    ensures Separated(Run(check, s, events))
    decreases |events|
  {
    if events != [] {
      var t := Step(check, s, events[0]);
      StepSeparates(check, s, events[0], t);
      StepKeepsInv(check, s, events[0], t);
      RunSeparates(check, t, events[1..]);
    }
  }

  // ------------------------------------------------------------ main results

  ghost function ControlPlane(cfg: A.Config): Checker {
    (db, req, now) => A.Check(cfg, db, req, now)
  }

  /** In every interleaving, a cache hit replays the headers of an allow the control
      plane gave to the same host, port, address and cookie, for a request that began at
      most min(ttl, 60s) earlier; and if the rows behind that answer are unchanged at
      the hit and the cookie still resolves, the control plane would give this very
      request the same headers now. */
  lemma CacheHitsAgreeWithTheControlPlane(cfg: A.Config, s: State, events: seq<Event>, k: nat)
    requires Fresh(s)
    requires k < |Run(ControlPlane(cfg), s, events).served|
    ensures
      var end := Run(ControlPlane(cfg), s, events);
      var h := end.served[k];
      exists i :: 0 <= i < |end.answers| && Justifies(end.answers[i], h)
        && end.answers[i].response == A.Check(cfg, end.answers[i].db, end.answers[i].req, end.answers[i].at)
        && ((A.SameRows(cfg, end.answers[i].db, h.db, h.req)
             && A.GatewayLive(cfg, h.db, cfg.cookie(h.req.gatewayCookie), h.req.ip, h.at, true)) ==>
              A.Check(cfg, h.db, h.req, h.at).decision == A.Allow
              && A.Check(cfg, h.db, h.req, h.at).headers == h.headers)
  {
    RunKeepsInv(ControlPlane(cfg), s, events);
    var end := Run(ControlPlane(cfg), s, events);
    var h := end.served[k];
    var i :| 0 <= i < |end.answers| && Justifies(end.answers[i], h);
    var a := end.answers[i];
    assert Genuine(ControlPlane(cfg), a);
    if A.SameRows(cfg, a.db, h.db, h.req)
       && A.GatewayLive(cfg, h.db, cfg.cookie(h.req.gatewayCookie), h.req.ip, h.at, true) {
      A.CacheableAnswersStayRight(cfg, a.db, h.db, a.req, h.req.uri, h.req.publicCookie, a.at, h.at);
      assert a.req.(uri := h.req.uri, publicCookie := h.req.publicCookie) == h.req;
    }
  }

  predicate ServedHaveCookies(s: State) { forall k :: 0 <= k < |s.served| ==> s.served[k].req.gatewayCookie != "" }

  lemma ActionServesCookies(check: Checker, s: State, action: Action, t: State)
    requires ServedHaveCookies(s) && t == Apply(check, s, action)
    ensures ServedHaveCookies(t)
  {
  }

  /** A request without a gateway cookie is never served from the cache. */
  lemma {:induction false} AnonymousRequestsAreAsked(check: Checker, s: State, events: seq<Event>)
    requires ServedHaveCookies(s)
    ensures ServedHaveCookies(Run(check, s, events))
    decreases |events|
  {
    hide Apply;
    if events != [] {
      var later := s.(now := s.now + events[0].dt);
      var t := Step(check, s, events[0]);
      assert t == Apply(check, later, events[0].action);
      ActionServesCookies(check, later, events[0].action, t);
      AnonymousRequestsAreAsked(check, t, events[1..]);
    }
  }

  /** Revocation latency: if from some instant on the control plane never resolves a
      cookie, the cache stops serving it at the latest one capped lifetime later. */
  lemma RevocationLatency(cfg: A.Config, s: State, events: seq<Event>, k: nat, revokedAt: Instant)
    requires Fresh(s)
    requires k < |Run(ControlPlane(cfg), s, events).served|
    requires
      var end := Run(ControlPlane(cfg), s, events);
      var h := end.served[k];
      forall i :: 0 <= i < |end.answers| && end.answers[i].at >= revokedAt ==>
        !A.GatewayLive(cfg, end.answers[i].db, cfg.cookie(h.req.gatewayCookie), h.req.ip, end.answers[i].at, true)
    ensures Run(ControlPlane(cfg), s, events).served[k].at < revokedAt + Min(cfg.cacheTtl * SECOND, C.TTL_CAP)
  {
    RunKeepsInv(ControlPlane(cfg), s, events);
    var end := Run(ControlPlane(cfg), s, events);
    var i :| 0 <= i < |end.answers| && Justifies(end.answers[i], end.served[k]);
    var a := end.answers[i];
    assert Genuine(ControlPlane(cfg), a);
    A.OnlySignedInAllowsAreCacheable(cfg, a.db, a.req, a.at);
  }

  /** The table stays bounded in every interleaving. */
  lemma CacheStaysBounded(cfg: A.Config, s: State, events: seq<Event>)
    requires Fresh(s)
    ensures |Run(ControlPlane(cfg), s, events).entries| <= C.MAX_ENTRIES
  {
    RunKeepsInv(ControlPlane(cfg), s, events);
  }

  /** What emptying the cache at a swap buys: every hit replays an answer stored since
      the last swap, and one the control plane gave before that swap only if it was on
      its way to the data plane when the routes were swapped. */
  lemma HitsReplayAnswersStoredSinceTheSwap(cfg: A.Config, s: State, events: seq<Event>, k: nat)
    requires Fresh(s)
    requires k < |Run(ControlPlane(cfg), s, events).served|
    ensures
      var end := Run(ControlPlane(cfg), s, events);
      exists i :: Replays(end.answers, end.served[k], i)
  {
    RunSeparates(ControlPlane(cfg), s, events);
    assert HitReplays(Run(ControlPlane(cfg), s, events).answers, Run(ControlPlane(cfg), s, events).served[k]);
  }

  /** And such an answer does come back: from any state, a cacheable answer on its way
      is stored after the swap and replayed to the next request with its key. */
  lemma AnswersInFlightComeBack(check: Checker, s: State, id: nat, other: nat)
    requires id in s.pending && s.pending[id].Answered? && s.pending[id].answer < |s.answers|
    requires
      var p := s.pending[id];
      var a := s.answers[p.answer];
      && A.Cacheable(a.response) && p.req.gatewayCookie != "" && NulFree(p.req)
      && s.now <= p.begin + Lifetime(a)
    requires other !in s.pending
    ensures
      var p := s.pending[id];
      var t := Run(check, s, [Event(0, SwapRoutes), Event(0, Deliver(id)), Event(0, Arrive(other, p.req))]);
      && t.served == s.served + [Served(p.req, s.now, s.answers[p.answer].response.headers, s.db, t.era)]
      && t.answers == s.answers && p.answer < t.era.mark
      && p.answer in t.era.inFlight && p.answer in t.era.stored
  {
    var p := s.pending[id];
    var e0, e1, e2 := Event(0, SwapRoutes), Event(0, Deliver(id)), Event(0, Arrive(other, p.req));
    var s1 := Step(check, s, e0);
    assert p.answer in InFlight(s);
    var s2 := Step(check, s1, e1);
    assert Key(p.req) in s2.entries;
    var s3 := Step(check, s2, e2);
    assert [e0, e1, e2][1..] == [e1, e2] && [e1, e2][1..] == [e2] && [e2][1..] == [];
    assert Run(check, s2, [e2]) == Run(check, s3, []) == s3;
    assert Run(check, s1, [e1, e2]) == Run(check, s2, [e2]);
  }

  /** The state in which a request from a fresh edge has its answer on the way. */
  ghost function AfterTheAnswer(check: Checker, s: State, req: A.CheckRequest, wait: nat, id: nat): State {
    s.(now := s.now + wait, pending := map[id := Answered(req, s.now, 0)],
       answers := [Answer(req, s.now, s.now + wait, check(s.db, req, s.now + wait), s.db)])
  }

  lemma FirstTwoSteps(check: Checker, s: State, req: A.CheckRequest, wait: nat, id: nat, rest: seq<Event>)
    requires Fresh(s) && NulFree(req)
    ensures Run(check, s, [Event(0, Arrive(id, req)), Event(wait, Decide(id))] + rest)
         == Run(check, AfterTheAnswer(check, s, req, wait, id), rest)
  {
    var e0, e1 := Event(0, Arrive(id, req)), Event(wait, Decide(id));
    var s1 := Step(check, s, e0);
    assert s1 == s.(pending := map[id := Waiting(req, s.now)]);
    assert Step(check, s1, e1) == AfterTheAnswer(check, s, req, wait, id);
    assert ([e0, e1] + rest)[1..] == [e1] + rest && ([e1] + rest)[1..] == rest;
    assert Run(check, s, [e0, e1] + rest) == Run(check, s1, [e1] + rest);
  }

  /** The whole run, from a fresh edge: for any request whose answer may be cached, and
      however long the control plane takes within the life of that answer, a swap of the
      routes while the answer is on its way does not keep the next request with the same
      key from being served with it. */
  lemma InFlightReplayIsReached(check: Checker, s: State, req: A.CheckRequest, wait: nat, id: nat, other: nat)
    requires Fresh(s) && id != other && NulFree(req) && req.gatewayCookie != ""
    requires
      var r := check(s.db, req, s.now + wait);
      A.Cacheable(r) && wait <= Min(r.ttl * SECOND, C.TTL_CAP)
    ensures
      var end := Run(check, s, [Event(0, Arrive(id, req)), Event(wait, Decide(id))]
                               + [Event(0, SwapRoutes), Event(0, Deliver(id)), Event(0, Arrive(other, req))]);
      && |end.served| == 1 && end.served[0].headers == check(s.db, req, s.now + wait).headers
      && |end.answers| == 1 && Replays(end.answers, end.served[0], 0)
      && 0 < end.served[0].era.mark && 0 in end.served[0].era.inFlight
  {
    hide Run;
    FirstTwoSteps(check, s, req, wait, id,
        [Event(0, SwapRoutes), Event(0, Deliver(id)), Event(0, Arrive(other, req))]);
    AnswersInFlightComeBack(check, AfterTheAnswer(check, s, req, wait, id), id, other);
  }
}
