/** What a policy rule says, on the fields an administrator stores
    (`rule_applies` and `time_window_matches` in server/src/hyproxy/policy/engine.py),
    and the engine proved to decide by it. */
module RuleMeaning {
  import opened Prelude
  import P = PolicyEngine
  import Texts

  // -------------------------------------------------------------------- clocks

  function Figure(d: nat): char
    requires d < 10
  {
    '0' + d as char
  }

  /** One or two figures that read as the number. */
  predicate Numeral(text: string, n: nat) {
    n < 100 && (text == [Figure(n / 10), Figure(n % 10)] || (n < 10 && text == [Figure(n)]))
  }

  predicate ClockParts(text: string, hours: string, minutes: string, h: nat, m: nat) {
    text == hours + ":" + minutes && Numeral(hours, h) && Numeral(minutes, m) && h <= 23 && m <= 59
  }

  /** The text is a time of day, and this is its minute. */
  ghost predicate Clock(v: P.Json, minute: int) {
    v.JString? && exists hours, minutes, h: nat, m: nat :: ClockParts(v.s, hours, minutes, h, m) && minute == h * 60 + m
  }

  lemma DigitsRead(text: string, n: nat)
    ensures P.Digits(text) == Some(n) <==> Numeral(text, n)
  {
    if P.Digits(text) == Some(n) && |text| == 2 {
      assert text == [text[0], text[1]];
    }
  }

  lemma ClockReads(v: P.Json, minute: int)
    ensures P.ParseHhMm(v) == Some(minute) <==> Clock(v, minute)
  {
    if v.JString? {
      Texts.JoinedSplit(v.s, ':');
      var parts := Split(v.s, ':');
      if P.ParseHhMm(v) == Some(minute) {
        var h, m := P.Digits(parts[0]).value, P.Digits(parts[1]).value;
        DigitsRead(parts[0], h);
        DigitsRead(parts[1], m);
        assert ClockParts(v.s, parts[0], parts[1], h, m);
      }
      if Clock(v, minute) {
        var hours, minutes, h: nat, m: nat :| ClockParts(v.s, hours, minutes, h, m) && minute == h * 60 + m;
        ClockSplits(v.s, hours, minutes, h, m);
        DigitsRead(hours, h);
        DigitsRead(minutes, m);
      }
    }
  }

  lemma ClockSplits(text: string, hours: string, minutes: string, h: nat, m: nat)
    requires ClockParts(text, hours, minutes, h, m)
    ensures Split(text, ':') == [hours, minutes]
  {
    Texts.SplitFirst(hours, minutes, ':');
    Texts.SplitWhole(minutes, ':');
  }

  // ------------------------------------------------------------------- windows

  /** Nothing, as a JSON value can say it. */
  predicate Blank(v: P.Json) {
    v == P.JNull || v == P.JBool(false) || v == P.JNumber(0) || v == P.JString("") || v == P.JList([])
    || v == P.JObject(map[])
  }

  predicate OnDay(window: map<string, P.Json>, now: P.Moment) {
    "days" !in window || window["days"] == P.JNull
    || (window["days"].JList? && P.JString(now.day) in window["days"].items)
  }

  /** The edge of a window: as written, or the edge of the day. */
  ghost predicate Edge(window: map<string, P.Json>, key: string, default: int, minute: int) {
    if key in window then Clock(window[key], minute) else minute == default
  }

  predicate Between(start: int, end: int, minute: int) {
    if start <= end then start <= minute <= end else start <= minute || minute <= end
  }

  ghost predicate WindowOn(window: P.Json, now: P.Moment) {
    window.JObject? && OnDay(window.fields, now)
    && exists start, end ::
         Edge(window.fields, "start", 0, start) && Edge(window.fields, "end", 24 * 60 - 1, end)
         && Between(start, end, now.minute)
  }

  /** The rule's windows are on: it has none, or a list of which one is. */
  ghost predicate WindowsOn(conditions: P.Conditions, now: P.Moment) {
    "time_windows" !in conditions || Blank(conditions["time_windows"])
    || (conditions["time_windows"].JList?
        && exists w :: w in conditions["time_windows"].items && WindowOn(w, now))
  }

  lemma EdgeReads(window: map<string, P.Json>, key: string, text: string, default: int, minute: int)
    requires Clock(P.JString(text), default)
    ensures P.ParseHhMm(P.Field(window, key, P.JString(text))) == Some(minute)
       <==> Edge(window, key, default, minute)
  {
    ClockReads(P.Field(window, key, P.JString(text)), minute);
    ClockReads(P.JString(text), default);
  }

  lemma DayEdges()
    ensures Clock(P.JString("00:00"), 0) && Clock(P.JString("23:59"), 24 * 60 - 1)
  {
    assert ClockParts("00:00", "00", "00", 0, 0);
    assert ClockParts("23:59", "23", "59", 23, 59);
  }

  lemma DayReads(window: map<string, P.Json>, now: P.Moment)
    ensures P.DayListed(window, now) <==> OnDay(window, now)
  {
  }

  lemma WindowReads(window: P.Json, now: P.Moment)
    ensures P.WindowMatches(window, now) <==> WindowOn(window, now)
  {
    hide P.ParseHhMm, P.Field, Edge, Clock;
    if window.JObject? {
      DayEdges();
      var w := window.fields;
      DayReads(w, now);
      var start := P.ParseHhMm(P.Field(w, "start", P.JString("00:00")));
      var end := P.ParseHhMm(P.Field(w, "end", P.JString("23:59")));
      if P.WindowMatches(window, now) {
        EdgeReads(w, "start", "00:00", 0, start.value);
        EdgeReads(w, "end", "23:59", 24 * 60 - 1, end.value);
        assert Between(start.value, end.value, now.minute);
        assert WindowOn(window, now);
      }
      if WindowOn(window, now) {
        var s, e :| Edge(w, "start", 0, s) && Edge(w, "end", 24 * 60 - 1, e) && Between(s, e, now.minute);
        EdgeReads(w, "start", "00:00", 0, s);
        EdgeReads(w, "end", "23:59", 24 * 60 - 1, e);
        assert start == Some(s) && end == Some(e);
        assert P.WindowMatches(window, now);
      }
    }
  }

  lemma WindowsRead(conditions: P.Conditions, now: P.Moment)
    ensures P.TimeWindowMatches(conditions, now) <==> WindowsOn(conditions, now)
  {
    forall w { WindowReads(w, now); }
  }

  // --------------------------------------------------------------------- paths

  /** The path is the prefix without its trailing slashes, then a slash, then anything. */
  predicate Below(prefix: string, path: string, stem: string, slashes: string, rest: string) {
    prefix == stem + slashes && (forall k :: 0 <= k < |slashes| ==> slashes[k] == '/')
    && (stem != "" ==> stem[|stem| - 1] != '/') && path == stem + "/" + rest
  }

  ghost predicate Takes(prefix: string, path: string) {
    path == prefix || prefix == "/" || exists stem, slashes, rest :: Below(prefix, path, stem, slashes, rest)
  }

  lemma {:induction false} Stripped(prefix: string) returns (slashes: string)
    ensures prefix == P.RStripSlash(prefix) + slashes && forall k :: 0 <= k < |slashes| ==> slashes[k] == '/'
    ensures var stem := P.RStripSlash(prefix); stem != "" ==> stem[|stem| - 1] != '/'
  {
    if prefix != "" && prefix[|prefix| - 1] == '/' {
      var fewer := Stripped(prefix[..|prefix| - 1]);
      slashes := fewer + "/";
    } else {
      slashes := "";
    }
  }

  lemma {:induction false} StripsTo(stem: string, slashes: string)
    requires forall k :: 0 <= k < |slashes| ==> slashes[k] == '/'
    requires stem != "" ==> stem[|stem| - 1] != '/'
    ensures P.RStripSlash(stem + slashes) == stem
    decreases |slashes|
  {
    if slashes == "" {
      assert stem + slashes == stem;
    } else {
      var fewer := slashes[..|slashes| - 1];
      StripsTo(stem, fewer);
      assert (stem + slashes)[..|stem + slashes| - 1] == stem + fewer;
    }
  }

  lemma PrefixReads(prefix: string, path: string)
    ensures P.PathAllowed(prefix, path) <==> Takes(prefix, path)
  {
    var slashes := Stripped(prefix);
    var stem := P.RStripSlash(prefix);
    if stem + "/" <= path {
      assert Below(prefix, path, stem, slashes, path[|stem| + 1..]);
    }
    if exists stem', slashes', rest :: Below(prefix, path, stem', slashes', rest) {
      var stem', slashes', rest :| Below(prefix, path, stem', slashes', rest);
      StripsTo(stem', slashes');
    }
  }

  // --------------------------------------------------------------------- rules

  /** The rule speaks about the request. */
  ghost predicate Speaks(rule: P.Rule, q: P.Request) {
    && rule.enabled && rule.resource == q.resource && rule.role in q.roles
    && (rule.ports.None? || q.port in rule.ports.value)
    && (rule.paths.None? || exists p :: p in rule.paths.value && Takes(p, q.path))
    && WindowsOn(rule.conditions, q.now)
  }

  lemma RuleReads(rule: P.Rule, q: P.Request)
    ensures P.RuleApplies(rule, q) <==> Speaks(rule, q)
  {
    forall p { PrefixReads(p, q.path); }
    WindowsRead(rule.conditions, q.now);
  }

  ghost predicate SomeSpeaks(rules: seq<P.Rule>, q: P.Request, action: P.Action) {
    exists r :: r in rules && r.action == action && Speaks(r, q)
  }

  /** The engine on the stored rules: a deny that speaks refuses whatever else there is,
      an allow that speaks admits where none does, and silence refuses. */
  lemma EngineDecidesByWhatSpeaks(rules: seq<P.Rule>, q: P.Request)
    ensures P.Evaluate(rules, q) ==
            if SomeSpeaks(rules, q, P.Deny) then P.Decision(false, "explicit_deny")
            else if SomeSpeaks(rules, q, P.Allow) then P.Decision(true, "allow")
            else P.Decision(false, "default_deny")
  {
    forall r { RuleReads(r, q); }
    P.EvaluateIsDenyOverrides(rules, q);
  }

  /** A deny on a prefix refuses the prefix and everything under it. */
  lemma DenyCoversItsSubtree(rules: seq<P.Rule>, q: P.Request, deny: P.Rule, prefix: string, rest: string)
    requires deny in rules && deny.action == P.Deny && Concerns(deny, q.roles, q.resource, q.port)
    requires deny.paths.Some? && prefix in deny.paths.value && WindowsOn(deny.conditions, q.now)
    requires prefix != "" && prefix[|prefix| - 1] != '/'
    requires q.path == prefix || q.path == prefix + "/" + rest
    ensures P.Evaluate(rules, q) == P.Decision(false, "explicit_deny")
  {
    if q.path != prefix { assert Below(prefix, q.path, prefix, "", rest); }
    assert Takes(prefix, q.path) && Speaks(deny, q);
    EngineDecidesByWhatSpeaks(rules, q);
  }

  // ------------------------------------------------------------------ the hint

  /** An allow with nothing in it that looks at path, clock or anything unknown. */
  predicate Plain(rule: P.Rule) {
    rule.action == P.Allow && rule.paths.None?
    && forall key :: key in rule.conditions ==> key == "time_windows" && Blank(rule.conditions[key])
  }

  predicate Concerns(rule: P.Rule, roles: set<Id>, resource: Id, port: int) {
    rule.enabled && rule.resource == resource && rule.role in roles
    && (rule.ports.None? || port in rule.ports.value)
  }

  /** The stability scan on the stored rules. */
  lemma StabilityReads(rules: seq<P.Rule>, roles: set<Id>, resource: Id, port: int)
    ensures P.Stable(rules, roles, resource, port)
       <==> (forall r :: r in rules && Concerns(r, roles, resource, port) ==> r.action == P.Allow)
            && exists r :: r in rules && Concerns(r, roles, resource, port) && Plain(r)
  {
    forall r
      ensures P.Relevant(r, roles, resource, port) <==> Concerns(r, roles, resource, port)
      ensures P.Unconstrained(r) <==> Plain(r)
    {
      assert forall v: P.Json :: P.Truthy(v) <==> !Blank(v);
    }
    if exists r :: r in rules && Concerns(r, roles, resource, port) && Plain(r) {
      var r :| r in rules && Concerns(r, roles, resource, port) && Plain(r);
      assert P.StableAllow(r, roles, resource, port);
    }
    if exists r :: r in rules && P.StableAllow(r, roles, resource, port) {
      var r :| r in rules && P.StableAllow(r, roles, resource, port);
      assert Concerns(r, roles, resource, port) && Plain(r);
    }
  }
}
