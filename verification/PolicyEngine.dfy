/** The policy decision core (server/src/hyproxy/policy/engine.py) and the claim that an
    allow holds for every path and time (server/src/hyproxy/authz/decision.py). */
module PolicyEngine {
  import opened Prelude

  /** The JSON values an administrator can store in a rule's conditions. */
  datatype Json =
    | JNull | JBool(b: bool) | JNumber(n: int) | JString(s: string)
    | JList(items: seq<Json>) | JObject(fields: map<string, Json>)

  /** Python truthiness. */
  predicate Truthy(v: Json) {
    match v
    case JNull => false
    case JBool(b) => b
    case JNumber(n) => n != 0
    case JString(s) => s != ""
    case JList(items) => items != []
    case JObject(fields) => fields != map[]
  }

  type Conditions = map<string, Json>

  datatype Action = Allow | Deny

  datatype Rule = Rule(
    role: Id, resource: Id, action: Action,
    ports: Option<seq<int>>, paths: Option<seq<string>>,
    conditions: Conditions, enabled: bool)

  datatype Decision = Decision(allowed: bool, reason: string)

  /** What a rule looks at: the user's roles and the request. */
  datatype Request = Request(roles: set<Id>, resource: Id, port: int, path: string, now: Moment)

  /** A UTC instant as the engine sees it: weekday key and minute of the day. */
  datatype Moment = Moment(day: string, minute: int)

  const DAY_KEYS := ["mon", "tue", "wed", "thu", "fri", "sat", "sun"]
  const DAY_MINUTES := 1440

  ghost predicate ValidMoment(now: Moment) {
    now.day in DAY_KEYS && 0 <= now.minute < DAY_MINUTES
  }

  // ------------------------------------------------------------ time windows

  function Digits(s: string): Option<int> {
    if |s| == 1 && Digit(s[0]) then Some(s[0] as int - '0' as int)
    else if |s| == 2 && Digit(s[0]) && Digit(s[1]) then
      Some((s[0] as int - '0' as int) * 10 + (s[1] as int - '0' as int))
    else None
  }

  /** `_parse_hhmm`: one or two digits on each side of the colon, in range. */
  function ParseHhMm(v: Json): Option<int> {
    if !v.JString? then None
    else
      var parts := Split(v.s, ':');
      if |parts| != 2 then None
      else
        var h, m := Digits(parts[0]), Digits(parts[1]);
        if h.Some? && m.Some? && h.value <= 23 && m.value <= 59 then Some(h.value * 60 + m.value) else None
  }

  function Field(fields: map<string, Json>, key: string, default: Json): Json {
    if key in fields then fields[key] else default
  }

  predicate DayListed(window: map<string, Json>, now: Moment) {
    var days := Field(window, "days", JNull);
    days == JNull || (days.JList? && JString(now.day) in days.items)
  }

  /** One window; a malformed one never matches. */
  predicate WindowMatches(window: Json, now: Moment) {
    if !window.JObject? then false
    else if !DayListed(window.fields, now) then false
    else
      var start := ParseHhMm(Field(window.fields, "start", JString("00:00")));
      var end := ParseHhMm(Field(window.fields, "end", JString("23:59")));
      if start.None? || end.None? then false
      else if start.value <= end.value then start.value <= now.minute <= end.value
      else now.minute >= start.value || now.minute <= end.value
  }

  predicate TimeWindowMatches(conditions: Conditions, now: Moment) {
    var windows := Field(conditions, "time_windows", JNull);
    if !Truthy(windows) then true
    else if !windows.JList? then false
    else exists w :: w in windows.items && WindowMatches(w, now)
  }

  lemma {:induction false} ParsedInRange(v: Json)
    ensures ParseHhMm(v).Some? ==> 0 <= ParseHhMm(v).value < DAY_MINUTES
  {
  }

  /** Going forward from a clock minute around the dial. */
  function Ahead(from: int, to: int): int { (to - from) % DAY_MINUTES }

  /** A window is one arc of the 24-hour dial, walked forward from its start to its
      end, whether or not it crosses midnight; the weekday asked about is the one of
      the current instant on both sides of midnight. */
  lemma WindowIsAnArc(window: map<string, Json>, now: Moment)
    requires ValidMoment(now)
    ensures
      var start := ParseHhMm(Field(window, "start", JString("00:00")));
      var end := ParseHhMm(Field(window, "end", JString("23:59")));
      WindowMatches(JObject(window), now)
      <==> DayListed(window, now) && start.Some? && end.Some?
           && Ahead(start.value, now.minute) <= Ahead(start.value, end.value)
  {
    hide ParseHhMm, DayListed, Ahead;
    var start := ParseHhMm(Field(window, "start", JString("00:00")));
    var end := ParseHhMm(Field(window, "end", JString("23:59")));
    ParsedInRange(Field(window, "start", JString("00:00")));
    ParsedInRange(Field(window, "end", JString("23:59")));
    if start.Some? && end.Some? {
      Wrap(start.value, now.minute);
      Wrap(start.value, end.value);
    }
  }

  lemma Wrap(a: int, b: int)
    requires 0 <= a < DAY_MINUTES && 0 <= b < DAY_MINUTES
    ensures Ahead(a, b) == if a <= b then b - a else b - a + DAY_MINUTES
  {
  }

  // -------------------------------------------------------------- evaluation

  function RStripSlash(s: string): string {
    if s != "" && s[|s| - 1] == '/' then RStripSlash(s[..|s| - 1]) else s
  }

  predicate PathAllowed(prefix: string, path: string) {
    path == prefix || RStripSlash(prefix) + "/" <= path || prefix == "/"
  }

  /** The part of a rule that does not look at the path or the clock. */
  predicate Relevant(rule: Rule, roles: set<Id>, resource: Id, port: int) {
    rule.enabled && rule.resource == resource && rule.role in roles
    && (rule.ports.None? || port in rule.ports.value)
  }

  predicate RuleApplies(rule: Rule, q: Request) {
    if !rule.enabled then false
    else if rule.resource != q.resource then false
    else if rule.role !in q.roles then false
    else if rule.ports.Some? && q.port !in rule.ports.value then false
    else if rule.paths.Some? && !(exists p :: p in rule.paths.value && PathAllowed(p, q.path)) then false
    else TimeWindowMatches(rule.conditions, q.now)
  }

  function Applicable(rules: seq<Rule>, q: Request): seq<Rule> {
    if rules == [] then []
    else (if RuleApplies(rules[0], q) then [rules[0]] else []) + Applicable(rules[1..], q)
  }

  predicate AnyWith(rules: seq<Rule>, action: Action) {
    exists r :: r in rules && r.action == action
  }

  function Evaluate(rules: seq<Rule>, q: Request): Decision {
    var applicable := Applicable(rules, q);
    if AnyWith(applicable, Deny) then Decision(false, "explicit_deny")
    else if AnyWith(applicable, Allow) then Decision(true, "allow")
    else Decision(false, "default_deny")
  }

  lemma {:induction false} ApplicableMembers(rules: seq<Rule>, q: Request, r: Rule)
    ensures r in Applicable(rules, q) <==> r in rules && RuleApplies(r, q)
  {
    if rules != [] {
      ApplicableMembers(rules[1..], q, r);
    }
  }

  /** Deny overrides, default deny: the verdict depends only on which rules exist
      and apply, not on their order or repetition. */
  lemma EvaluateIsDenyOverrides(rules: seq<Rule>, q: Request)
    ensures Evaluate(rules, q).allowed
       <==> (exists r :: r in rules && RuleApplies(r, q) && r.action == Allow)
            && !exists r :: r in rules && RuleApplies(r, q) && r.action == Deny
    ensures Evaluate(rules, q).reason == "explicit_deny"
       <==> exists r :: r in rules && RuleApplies(r, q) && r.action == Deny
  {
    forall r { ApplicableMembers(rules, q, r); }
    assert "explicit_deny"[0] != "allow"[0] && "explicit_deny"[0] != "default_deny"[0];
    assert AnyWith(Applicable(rules, q), Deny) <==> exists r :: r in rules && RuleApplies(r, q) && r.action == Deny;
    assert AnyWith(Applicable(rules, q), Allow) <==> exists r :: r in rules && RuleApplies(r, q) && r.action == Allow;
  }

  // ------------------------------------------------------------- host stability

  /** A relevant allow with nothing left that could depend on path or time. */
  predicate Unconstrained(rule: Rule) {
    rule.action == Allow && rule.paths.None?
    && !Truthy(Field(rule.conditions, "time_windows", JNull))
    && rule.conditions.Keys <= {"time_windows"}
  }

  /** `_host_stable`: the scan over the relevant rules. */
  method HostStable(rules: seq<Rule>, allowed: bool, roles: set<Id>, resource: Id, port: int)
    returns (stable: bool)
    ensures stable <==> allowed && Stable(rules, roles, resource, port)
  {
    if !allowed { return false; }
    var relevant: seq<Rule> := [];
    for i := 0 to |rules|
      invariant forall r :: r in relevant <==> r in rules[..i] && Relevant(r, roles, resource, port)
    {
      assert rules[..i + 1] == rules[..i] + [rules[i]];
      if Relevant(rules[i], roles, resource, port) { relevant := relevant + [rules[i]]; }
    }
    assert rules[..|rules|] == rules;
    if exists k :: 0 <= k < |relevant| && relevant[k].action == Deny {
      return false;
    }
    for i := 0 to |relevant|
      invariant forall k :: 0 <= k < i ==> !Unconstrained(relevant[k])
    {
      if Unconstrained(relevant[i]) {
        assert relevant[i] in rules && StableAllow(relevant[i], roles, resource, port);
        return true;
      }
    }
    return false;
  }

  predicate StableAllow(r: Rule, roles: set<Id>, resource: Id, port: int) {
    Relevant(r, roles, resource, port) && Unconstrained(r)
  }

  /** What the scan decides: no relevant deny, and one unconstrained relevant allow. */
  predicate Stable(rules: seq<Rule>, roles: set<Id>, resource: Id, port: int) {
    (forall r :: r in rules && Relevant(r, roles, resource, port) ==> r.action == Allow)
    && exists r :: r in rules && StableAllow(r, roles, resource, port)
  }

  /** The claim behind the cache hint: a host-stable verdict is an allow for every
      path and every instant on this (user, resource, port). */
  lemma StableAllowsEverywhere(rules: seq<Rule>, q: Request)
    requires Stable(rules, q.roles, q.resource, q.port)
    ensures Evaluate(rules, q) == Decision(true, "allow")
  {
    EvaluateIsDenyOverrides(rules, q);
    var r :| r in rules && StableAllow(r, q.roles, q.resource, q.port);
    assert RuleApplies(r, q);
    forall r' | r' in rules && RuleApplies(r', q) ensures r'.action != Deny {
      assert Relevant(r', q.roles, q.resource, q.port);
    }
  }

  // ------------------------------------------ what an allow everywhere comes down to

  /** Allowed on every path at every instant. */
  ghost predicate AllowedEverywhere(rules: seq<Rule>, roles: set<Id>, resource: Id, port: int) {
    forall path, now | ValidMoment(now) :: Evaluate(rules, Request(roles, resource, port, path, now)).allowed
  }

  /** The windows of a rule never let it apply. */
  ghost predicate NeverOn(rule: Rule) {
    forall now | ValidMoment(now) :: !TimeWindowMatches(rule.conditions, now)
  }

  /** A rule that applies to no request: an empty path list, or windows that never come. */
  ghost predicate Dead(rule: Rule) {
    rule.paths == Some([]) || NeverOn(rule)
  }

  /** A relevant allow that at this instant applies to every path. */
  predicate Covers(rule: Rule, roles: set<Id>, resource: Id, port: int, now: Moment) {
    Relevant(rule, roles, resource, port) && rule.action == Allow
    && (rule.paths.None? || "/" in rule.paths.value) && TimeWindowMatches(rule.conditions, now)
  }

  ghost predicate Covered(rules: seq<Rule>, roles: set<Id>, resource: Id, port: int, now: Moment) {
    exists r :: r in rules && Covers(r, roles, resource, port, now)
  }

  predicate RelevantDeny(rule: Rule, roles: set<Id>, resource: Id, port: int) {
    Relevant(rule, roles, resource, port) && rule.action == Deny
  }

  /** As many letters as no prefix of the rules has. */
  function Longer(rules: seq<Rule>): nat {
    if rules == [] then 1
    else LongerThan(if rules[0].paths.Some? then rules[0].paths.value else [], Longer(rules[1..]))
  }

  function LongerThan(prefixes: seq<string>, n: nat): nat {
    if prefixes == [] then n else Max(|prefixes[0]| + 1, LongerThan(prefixes[1..], n))
  }

  lemma {:induction false} LongerThanAll(prefixes: seq<string>, n: nat, p: string)
    ensures LongerThan(prefixes, n) >= n
    ensures p in prefixes ==> |p| < LongerThan(prefixes, n)
  {
    if prefixes != [] { LongerThanAll(prefixes[1..], n, p); }
  }

  lemma {:induction false} LongerExceeds(rules: seq<Rule>, r: Rule, p: string)
    requires r in rules && r.paths.Some? && p in r.paths.value
    ensures |p| < Longer(rules)
  {
    LongerThanAll(if rules[0].paths.Some? then rules[0].paths.value else [], Longer(rules[1..]), p);
    if rules[0] != r { LongerExceeds(rules[1..], r, p); }
  }

  /** A path of letters longer than every prefix is reached by the root prefix only. */
  function Remote(rules: seq<Rule>): (path: string)
    ensures |path| == Longer(rules) && forall k :: 0 <= k < |path| ==> path[k] == 'x'
  {
    seq(Longer(rules), _ => 'x')
  }

  lemma RemoteNeedsTheRoot(rules: seq<Rule>, r: Rule, p: string)
    requires r in rules && r.paths.Some? && p in r.paths.value && PathAllowed(p, Remote(rules))
    ensures p == "/"
  {
    LongerExceeds(rules, r, p);
    if RStripSlash(p) + "/" <= Remote(rules) {
      assert (RStripSlash(p) + "/")[|RStripSlash(p)|] == '/';
    }
  }

  lemma EverywhereIsCovered(rules: seq<Rule>, roles: set<Id>, resource: Id, port: int, now: Moment)
    requires AllowedEverywhere(rules, roles, resource, port) && ValidMoment(now)
    ensures Covered(rules, roles, resource, port, now)
  {
    var q := Request(roles, resource, port, Remote(rules), now);
    assert Evaluate(rules, q).allowed;
    EvaluateIsDenyOverrides(rules, q);
    var r :| r in rules && RuleApplies(r, q) && r.action == Allow;
    if r.paths.Some? {
      var p :| p in r.paths.value && PathAllowed(p, q.path);
      RemoteNeedsTheRoot(rules, r, p);
    }
    assert Covers(r, roles, resource, port, now);
  }

  lemma EverywhereLeavesDeniesDead(rules: seq<Rule>, roles: set<Id>, resource: Id, port: int, r: Rule)
    requires AllowedEverywhere(rules, roles, resource, port)
    requires r in rules && RelevantDeny(r, roles, resource, port)
    ensures Dead(r)
  {
    if !Dead(r) {
      var now :| ValidMoment(now) && TimeWindowMatches(r.conditions, now);
      var q := Request(roles, resource, port, if r.paths.None? then "" else r.paths.value[0], now);
      assert r.paths.Some? ==> PathAllowed(r.paths.value[0], q.path);
      assert RuleApplies(r, q) && Evaluate(rules, q).allowed;
      EvaluateIsDenyOverrides(rules, q);
      assert false;
    }
  }

  lemma CoveredIsAllowed(rules: seq<Rule>, q: Request)
    requires Covered(rules, q.roles, q.resource, q.port, q.now) && ValidMoment(q.now)
    requires forall r :: r in rules && RelevantDeny(r, q.roles, q.resource, q.port) ==> Dead(r)
    ensures Evaluate(rules, q).allowed
  {
    EvaluateIsDenyOverrides(rules, q);
    var r :| r in rules && Covers(r, q.roles, q.resource, q.port, q.now);
    assert r.paths.Some? ==> PathAllowed("/", q.path);
    assert RuleApplies(r, q);
    forall d | d in rules && RuleApplies(d, q) ensures d.action != Deny {
      assert d.action == Deny ==> RelevantDeny(d, q.roles, q.resource, q.port);
    }
  }

  /** Exactly when the engine allows every path at every instant: each relevant deny is
      dead, and at each instant some relevant allow takes every path. */
  lemma AllowedEverywhereIff(rules: seq<Rule>, roles: set<Id>, resource: Id, port: int)
    ensures AllowedEverywhere(rules, roles, resource, port)
       <==> (forall r :: r in rules && RelevantDeny(r, roles, resource, port) ==> Dead(r))
            && forall now | ValidMoment(now) :: Covered(rules, roles, resource, port, now)
  {
    if AllowedEverywhere(rules, roles, resource, port) {
      forall now | ValidMoment(now) ensures Covered(rules, roles, resource, port, now) {
        EverywhereIsCovered(rules, roles, resource, port, now);
      }
      forall r | r in rules && RelevantDeny(r, roles, resource, port) ensures Dead(r) {
        EverywhereLeavesDeniesDead(rules, roles, resource, port, r);
      }
    }
    if (forall r :: r in rules && RelevantDeny(r, roles, resource, port) ==> Dead(r))
       && forall now | ValidMoment(now) :: Covered(rules, roles, resource, port, now) {
      forall path, now | ValidMoment(now)
        ensures Evaluate(rules, Request(roles, resource, port, path, now)).allowed
      {
        CoveredIsAllowed(rules, Request(roles, resource, port, path, now));
      }
    }
  }

  /** An allow that needs the root path, windows or an unknown condition to say what it
      says. */
  predicate Qualified(rule: Rule) {
    (rule.paths.Some? && "/" in rule.paths.value)
    || Truthy(Field(rule.conditions, "time_windows", JNull))
    || !(rule.conditions.Keys <= {"time_windows"})
  }

  lemma StableAllowCovers(rule: Rule, roles: set<Id>, resource: Id, port: int, now: Moment)
    ensures StableAllow(rule, roles, resource, port)
       <==> Covers(rule, roles, resource, port, now) && !Qualified(rule)
  {
  }

  /** How far the hint falls short: it is withheld from an allow everywhere exactly when
      every relevant deny is dead and every instant is covered, so that the engine never
      refuses, and yet there is such a dead deny, or whatever covers an instant does so
      by the root path, by windows or under an unknown condition. */
  lemma HintIsWithheldExactly(rules: seq<Rule>, roles: set<Id>, resource: Id, port: int)
    ensures AllowedEverywhere(rules, roles, resource, port) && !Stable(rules, roles, resource, port)
       <==> (forall r :: r in rules && RelevantDeny(r, roles, resource, port) ==> Dead(r))
            && (forall now | ValidMoment(now) :: Covered(rules, roles, resource, port, now))
            && ((exists r :: r in rules && RelevantDeny(r, roles, resource, port))
                || forall r, now | r in rules && ValidMoment(now) && Covers(r, roles, resource, port, now) ::
                     Qualified(r))
  {
    AllowedEverywhereIff(rules, roles, resource, port);
    forall r, now { StableAllowCovers(r, roles, resource, port, now); }
    assert ValidMoment(Moment("mon", 0)) by { assert DAY_KEYS[0] == "mon"; }
    if Stable(rules, roles, resource, port) {
      var r :| r in rules && StableAllow(r, roles, resource, port);
      assert Covers(r, roles, resource, port, Moment("mon", 0)) && !Qualified(r);
    } else if !(exists r :: r in rules && RelevantDeny(r, roles, resource, port)) {
      forall r | r in rules && Relevant(r, roles, resource, port) ensures r.action == Allow {
        assert r.action == Deny ==> RelevantDeny(r, roles, resource, port);
      }
      forall r, now | r in rules && ValidMoment(now) && Covers(r, roles, resource, port, now) ensures Qualified(r) {
        StableAllowCovers(r, roles, resource, port, now);
      }
    }
  }

  /** The rule looks at neither path nor clock. */
  ghost predicate Blind(r: Rule) { r.paths.None? && !Truthy(Field(r.conditions, "time_windows", JNull)) }

  /** Where every relevant rule is blind to path and clock and carries no unknown
      condition nothing is withheld: there, one allow is as good as all of them. */
  lemma StableIsExactForBlindRules(rules: seq<Rule>, q: Request)
    requires forall r :: r in rules && Relevant(r, q.roles, q.resource, q.port) ==>
               Blind(r) && r.conditions.Keys <= {"time_windows"}
    ensures Evaluate(rules, q).allowed <==> Stable(rules, q.roles, q.resource, q.port)
  {
    EvaluateIsDenyOverrides(rules, q);
    forall r | r in rules
      ensures RuleApplies(r, q) <==> Relevant(r, q.roles, q.resource, q.port)
    {
    }
    if Evaluate(rules, q).allowed {
      var r :| r in rules && RuleApplies(r, q) && r.action == Allow;
      assert StableAllow(r, q.roles, q.resource, q.port);
    }
    if Stable(rules, q.roles, q.resource, q.port) { StableAllowsEverywhere(rules, q); }
  }

  /** Both ways of falling short occur: a deny whose path list is empty never applies,
      and an allow of the root path takes every path; each withholds the hint from an
      allow everywhere. */
  lemma StableIsNotComplete() returns (deadDeny: seq<Rule>, rootAllow: seq<Rule>)
    ensures AllowedEverywhere(deadDeny, {1}, 1, 80) && !Stable(deadDeny, {1}, 1, 80)
    ensures AllowedEverywhere(rootAllow, {1}, 1, 80) && !Stable(rootAllow, {1}, 1, 80)
  {
    var allow := Rule(1, 1, Allow, None, None, map[], true);
    var idle := Rule(1, 1, Deny, None, Some([]), map[], true);
    var root := Rule(1, 1, Allow, None, Some(["/"]), map[], true);
    deadDeny, rootAllow := [allow, idle], [root];
    forall now | ValidMoment(now)
      ensures Covered(deadDeny, {1}, 1, 80, now) && Covered(rootAllow, {1}, 1, 80, now)
    {
      assert allow in deadDeny && Covers(allow, {1}, 1, 80, now);
      assert root in rootAllow && Covers(root, {1}, 1, 80, now);
    }
    AllowedEverywhereIff(deadDeny, {1}, 1, 80);
    AllowedEverywhereIff(rootAllow, {1}, 1, 80);
    assert idle in deadDeny && Relevant(idle, {1}, 1, 80);
  }
}
