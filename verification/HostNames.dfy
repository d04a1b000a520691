/** Host normalisation in both planes: `NormalizeHost` in
    dataplane/internal/routing/routing.go and `_normalize_public_host` in
    server/src/hyproxy/admin/schemas.py. Strings are ASCII. */
module HostNames {
  import opened Prelude
  import PathGlob

  predicate Upper(c: char) { 'A' <= c <= 'Z' }

  predicate LabelChar(c: char) { c == '-' || Digit(c) || 'a' <= c <= 'z' }

  function LowerChar(c: char): char {
    if Upper(c) then 'a' + (c - 'A') else c
  }

  function Lower(s: string): (t: string)
    ensures |t| == |s| && forall k :: 0 <= k < |s| ==> t[k] == LowerChar(s[k])
  {
    seq(|s|, k requires 0 <= k < |s| => LowerChar(s[k]))
  }

  predicate Label(part: string) {
    0 < |part| <= 63 && (forall k :: 0 <= k < |part| ==> LabelChar(part[k]))
    && part[0] != '-' && part[|part| - 1] != '-'
  }

  /** A host in the one form both planes store and look up. */
  predicate Canonical(host: string) {
    0 < |host| <= 253 && forall k :: 0 <= k < |Split(host, '.')| ==> Label(Split(host, '.')[k])
  }

  predicate Port(s: string) {
    s == "" || (2 <= |s| <= 6 && s[0] == ':' && forall k :: 1 <= k < |s| ==> Digit(s[k]))
  }

  /** The ways a client may write a host: any case, one trailing dot, a port. */
  predicate Spells(raw: string, name: string, dot: string, port: string, host: string) {
    raw == name + dot + port && Lower(name) == host && (dot == "" || dot == ".") && Port(port)
  }

  // ---------------------------------------------------------- the data plane

  /** Position of the last occurrence, or -1. */
  function LastIndex(s: string, c: char): (i: int)
    ensures -1 <= i < |s|
    ensures i >= 0 ==> s[i] == c
    ensures forall k :: i < k < |s| ==> s[k] != c
  {
    if s == "" then -1 else if s[|s| - 1] == c then |s| - 1 else LastIndex(s[..|s| - 1], c)
  }

  function TrimDot(s: string): string {
    if s != "" && s[|s| - 1] == '.' then s[..|s| - 1] else s
  }

  /** The host without its port; a malformed port rejects the whole value. */
  function BodyOf(raw: string): Option<string> {
    var i := LastIndex(raw, ':');
    if i < 0 then Some(raw) else if Port(raw[i..]) then Some(raw[..i]) else None
  }

  /** What the scan computes, without its loops. */
  function Normalized(raw: string): Option<string> {
    if raw == "" || |raw| > 255 || raw[0] == '[' then None
    else
      var body := BodyOf(raw);
      if body.None? then None
      else
        var host := Lower(TrimDot(body.value));
        if Canonical(host) then Some(host) else None
  }

  method AllDigits(s: string) returns (ok: bool)
    ensures ok <==> forall k :: 0 <= k < |s| ==> Digit(s[k])
  {
    for j := 0 to |s|
      invariant forall k :: 0 <= k < j ==> Digit(s[k])
    {
      if !Digit(s[j]) { return false; }
    }
    return true;
  }

  method GoodLabel(part: string) returns (ok: bool)
    ensures ok <==> Label(part)
  {
    if part == "" || |part| > 63 { return false; }
    for k := 0 to |part|
      invariant forall j :: 0 <= j < k ==> LabelChar(part[j])
    {
      if !LabelChar(part[k]) { return false; }
    }
    return part[0] != '-' && part[|part| - 1] != '-';
  }

  method StripPort(raw: string) returns (body: string, ok: bool)
    ensures BodyOf(raw) == if ok then Some(body) else None
  {
    var i := LastIndex(raw, ':');
    if i < 0 { return raw, true; }
    var port := raw[i + 1..];
    PortDigits(raw, i, port);
    if port == "" || |port| > 5 { return "", false; }
    var digits := AllDigits(port);
    return if digits then raw[..i] else "", digits;
  }

  method GoodLabels(parts: seq<string>) returns (ok: bool)
    ensures ok <==> forall k :: 0 <= k < |parts| ==> Label(parts[k])
  {
    for n := 0 to |parts|
      invariant forall k :: 0 <= k < n ==> Label(parts[k])
    {
      var good := GoodLabel(parts[n]);
      if !good { return false; }
    }
    return true;
  }

  method NormalizeHost(raw: string) returns (host: string, ok: bool)
    ensures ok <==> Normalized(raw).Some?
    ensures ok ==> host == Normalized(raw).value
    ensures !ok ==> host == ""
  {
    if raw == "" || |raw| > 255 { return "", false; }
    if raw[0] == '[' { return "", false; }
    host, ok := StripPort(raw);
    if !ok { return "", false; }
    host := TrimDot(host);
    if host == "" || |host| > 253 { return "", false; }
    host := Lower(host);
    ok := GoodLabels(Split(host, '.'));
    if !ok { host := ""; }
  }

  lemma PortDigits(raw: string, i: nat, port: string)
    requires i < |raw| && raw[i] == ':' && port == raw[i + 1..]
    ensures Port(raw[i..]) <==> 0 < |port| <= 5 && forall k :: 0 <= k < |port| ==> Digit(port[k])
  {
    var tail := raw[i..];
    assert forall k :: 1 <= k < |tail| ==> tail[k] == port[k - 1];
    assert forall k :: 0 <= k < |port| ==> port[k] == tail[k + 1];
  }

  predicate LabelChars(s: string) { forall k :: 0 <= k < |s| ==> LabelChar(s[k]) }

  lemma {:induction false} SplitChars(s: string)
    requires forall p :: 0 <= p < |Split(s, '.')| ==> LabelChars(Split(s, '.')[p])
    ensures forall k :: 0 <= k < |s| ==> s[k] == '.' || LabelChar(s[k])
  {
    if s != "" {
      var rest, all := Split(s[1..], '.'), Split(s, '.');
      forall p | 0 <= p < |rest| ensures LabelChars(rest[p]) {
        if s[0] == '.' {
          assert all[p + 1] == rest[p];
        } else if p > 0 {
          assert all[p] == rest[p];
        } else {
          assert all[0] == [s[0]] + rest[0];
          assert forall k :: 0 <= k < |rest[0]| ==> rest[0][k] == all[0][k + 1];
        }
      }
      SplitChars(s[1..]);
      if s[0] != '.' { assert LabelChar(all[0][0]); }
    }
  }

  /** A canonical host holds label characters and dots only, and ends in no dot. */
  lemma CanonicalChars(host: string)
    requires Canonical(host)
    ensures forall k :: 0 <= k < |host| ==> host[k] == '.' || LabelChar(host[k])
    ensures host[|host| - 1] != '.'
    ensures Lower(host) == host
  {
    SplitChars(host);
    if host[|host| - 1] == '.' {
      SplitLast(host, '.');
      assert false;
    }
  }

  lemma {:induction false} SplitLast(s: string, sep: char)
    requires s != "" && s[|s| - 1] == sep
    ensures Split(s, sep)[|Split(s, sep)| - 1] == ""
  {
    if |s| == 1 {
      assert Split(s[1..], sep) == [""];
    } else {
      SplitLast(s[1..], sep);
      assert s[1..][|s| - 2] == sep;
    }
  }

  lemma NoColonBefore(raw: string, name: string, dot: string, port: string, host: string)
    requires Canonical(host) && Spells(raw, name, dot, port, host)
    ensures (if LastIndex(raw, ':') >= 0 then raw[..LastIndex(raw, ':')] else raw) == name + dot
    ensures LastIndex(raw, ':') >= 0 ==> raw[LastIndex(raw, ':')..] == port
  {
    CanonicalChars(host);
    var body := name + dot;
    assert forall k :: 0 <= k < |name| ==> name[k] != ':' && host[k] == LowerChar(name[k]);
    assert ':' !in body;
    assert raw == body + port;
    LastColon(raw, body, port);
  }

  lemma LastColon(raw: string, body: string, port: string)
    requires raw == body + port && ':' !in body && Port(port)
    ensures LastIndex(raw, ':') == if port == "" then -1 else |body|
    ensures port == "" ==> raw == body
    ensures raw[|body|..] == port && raw[..|body|] == body
  {
    assert forall k :: 0 <= k < |body| ==> raw[k] == body[k];
    assert forall k :: |body| <= k < |raw| ==> raw[k] == port[k - |body|];
    if port != "" { assert raw[|body|] == ':'; } else { assert raw == body; }
  }

  lemma NameFromBody(name: string, dot: string, host: string)
    requires Canonical(host) && Lower(name) == host && (dot == "" || dot == ".")
    ensures TrimDot(name + dot) == name && name != "" && name[0] != '['
  {
    CanonicalChars(host);
    assert host[|host| - 1] == LowerChar(name[|name| - 1]) && host[0] == LowerChar(name[0]);
    if dot == "." {
      assert (name + dot)[..|name|] == name;
    } else {
      assert name + dot == name;
    }
  }

  lemma SpellingsAreAccepted(raw: string, name: string, dot: string, port: string, host: string)
    requires |raw| <= 255 && Canonical(host) && Spells(raw, name, dot, port, host)
    ensures Normalized(raw) == Some(host)
  {
    NoColonBefore(raw, name, dot, port, host);
    NameFromBody(name, dot, host);
    assert raw[0] == name[0];
  }

  lemma Trimmed(body: string) returns (name: string, dot: string)
    ensures name == TrimDot(body) && body == name + dot && (dot == "" || dot == ".")
  {
    name := TrimDot(body);
    dot := body[|name|..];
  }

  lemma AcceptedIsSpelling(raw: string, host: string) returns (name: string, dot: string, port: string)
    requires Normalized(raw) == Some(host)
    ensures Spells(raw, name, dot, port, host)
  {
    var i := LastIndex(raw, ':');
    if i >= 0 {
      name, dot := Trimmed(raw[..i]);
      port := raw[i..];
      assert raw == raw[..i] + port;
    } else {
      name, dot := Trimmed(raw);
      port := "";
      assert raw == raw + port;
    }
  }

  /** Exactly the spellings of a canonical host are accepted, and each is mapped to
      that host: case, one trailing dot and a port of one to five digits are all that
      may differ, within 255 characters. */
  lemma NormalizationAcceptsExactlySpellings(raw: string, host: string)
    ensures Normalized(raw) == Some(host)
       <==> |raw| <= 255 && Canonical(host)
            && exists name, dot, port :: Spells(raw, name, dot, port, host)
  {
    if Normalized(raw) == Some(host) {
      var name, dot, port := AcceptedIsSpelling(raw, host);
    }
    if |raw| <= 255 && Canonical(host) && exists name, dot, port :: Spells(raw, name, dot, port, host) {
      var name, dot, port :| Spells(raw, name, dot, port, host);
      SpellingsAreAccepted(raw, name, dot, port, host);
    }
  }

  /** Normalising twice is normalising once, and a canonical host is its own form. */
  lemma NormalizationIsIdempotent(raw: string, host: string)
    requires Normalized(raw) == Some(host)
    ensures Normalized(host) == Some(host)
  {
    CanonicalIsFixed(host);
  }

  lemma CanonicalIsFixed(host: string)
    requires Canonical(host)
    ensures Normalized(host) == Some(host)
  {
    CanonicalChars(host);
    assert Spells(host, host, "", "", host) by { assert host + "" + "" == host; }
    NormalizationAcceptsExactlySpellings(host, host);
  }

  // ------------------------------------------------------- the control plane

  function RStripDots(s: string): string {
    if s != "" && s[|s| - 1] == '.' then RStripDots(s[..|s| - 1]) else s
  }

  /** `host.strip().lower().rstrip(".")`, used by the schema, by `/authz/check` and by
      `/authz/routes`. */
  function LookupKey(host: string): string { RStripDots(Lower(PathGlob.Strip(host))) }

  datatype HostError = BadLength | BadLabel | BadHyphen | BadCharacter

  function CheckLabels(labels: seq<string>): Option<HostError> {
    if labels == [] then None
    else
      var part := labels[0];
      if part == "" || |part| > 63 then Some(BadLabel)
      else if part[0] == '-' || part[|part| - 1] == '-' then Some(BadHyphen)
      else if !(forall k :: 0 <= k < |part| ==> LabelChar(part[k])) then Some(BadCharacter)
      else CheckLabels(labels[1..])
  }

  /** `_normalize_public_host`; a null host stays null. */
  function NormalizePublicHost(v: Option<string>): Result<Option<string>, HostError> {
    if v.None? then Ok(None)
    else
      var host := LookupKey(v.value);
      if host == "" || |host| > 253 then Err(BadLength)
      else
        var error := CheckLabels(Split(host, '.'));
        if error.Some? then Err(error.value) else Ok(Some(host))
  }

  lemma {:induction false} CheckLabelsExact(labels: seq<string>)
    ensures CheckLabels(labels).None? <==> forall k :: 0 <= k < |labels| ==> Label(labels[k])
  {
    if labels != [] {
      CheckLabelsExact(labels[1..]);
      assert forall k :: 1 <= k < |labels| ==> labels[k] == labels[1..][k - 1];
    }
  }

  lemma LookupKeyFixesCanonical(host: string)
    requires Canonical(host)
    ensures LookupKey(host) == host
  {
    CanonicalChars(host);
    assert !PathGlob.Space(host[0]) && !PathGlob.Space(host[|host| - 1]);
    assert PathGlob.StripLeft(host) == host && PathGlob.StripRight(host) == host;
  }

  /** The two planes agree: whatever the control plane stores is canonical, is left
      alone by the data plane and by the control plane's own lookups, and every
      canonical host can be stored; so both planes use the same key. */
  lemma BothPlanesUseTheSameKey(v: string, host: string)
    ensures NormalizePublicHost(Some(v)) == Ok(Some(host)) ==>
              Canonical(host) && Normalized(host) == Some(host) && LookupKey(host) == host
    ensures Canonical(host) ==> NormalizePublicHost(Some(host)) == Ok(Some(host))
  {
    CheckLabelsExact(Split(LookupKey(v), '.'));
    if NormalizePublicHost(Some(v)) == Ok(Some(host)) {
      CanonicalIsFixed(host);
      LookupKeyFixesCanonical(host);
    }
    if Canonical(host) {
      LookupKeyFixesCanonical(host);
      CheckLabelsExact(Split(host, '.'));
    }
  }

  /** What the data plane resolves carries no NUL byte, so cache keys built from it
      are injective. */
  lemma NormalizedHostIsNulFree(raw: string)
    requires Normalized(raw).Some?
    ensures '\0' !in Normalized(raw).value
  {
    CanonicalChars(Normalized(raw).value);
  }

  // --------------------------------------------------- where the planes differ

  /** What the control plane stores for a text, if it stores anything. */
  function Stored(v: string): Option<string> {
    var r := NormalizePublicHost(Some(v));
    if r.Ok? then r.value else None
  }

  /** No port, no surrounding space, at most one trailing dot. */
  predicate Plain(s: string) {
    ':' !in s && PathGlob.Strip(s) == s && !(|s| >= 2 && s[|s| - 1] == s[|s| - 2] == '.')
  }

  lemma StoredIsCanonical(v: string)
    ensures Stored(v) == if Canonical(LookupKey(v)) then Some(LookupKey(v)) else None
  {
    CheckLabelsExact(Split(LookupKey(v), '.'));
  }

  lemma PlainIsAgreed(s: string)
    requires Plain(s)
    ensures Normalized(s) == Stored(s)
  {
    StoredIsCanonical(s);
    assert LastIndex(s, ':') < 0;
    assert LookupKey(s) == Lower(TrimDot(s)) by { OneDotFalls(s); }
    if Canonical(Lower(TrimDot(s))) {
      CanonicalChars(Lower(TrimDot(s)));
      assert Lower(TrimDot(s))[0] == LowerChar(s[0]);
    }
  }

  lemma OneDotFalls(s: string)
    requires !(|s| >= 2 && s[|s| - 1] == s[|s| - 2] == '.')
    ensures RStripDots(Lower(s)) == Lower(TrimDot(s))
  {
    if s != "" && s[|s| - 1] == '.' {
      assert Lower(s)[..|s| - 1] == Lower(s[..|s| - 1]);
    }
  }

  /** A stored text carries no port. */
  lemma StoredHasNoColon(v: string)
    requires Stored(v).Some?
    ensures ':' !in v
  {
    StoredIsCanonical(v);
    CanonicalChars(LookupKey(v));
    if ':' in v {
      StripKeepsColon(v);
      StripDotsKeepsColon(Lower(PathGlob.Strip(v)));
    }
  }

  lemma StripKeepsColon(v: string)
    requires ':' in v
    ensures ':' in PathGlob.Strip(v) && ':' in Lower(PathGlob.Strip(v))
  {
    StripLeftKeepsColon(v);
    StripRightKeepsColon(PathGlob.StripLeft(v));
    var k :| 0 <= k < |PathGlob.Strip(v)| && PathGlob.Strip(v)[k] == ':';
    assert Lower(PathGlob.Strip(v))[k] == ':';
  }

  lemma {:induction false} StripLeftKeepsColon(v: string)
    requires ':' in v
    ensures ':' in PathGlob.StripLeft(v)
  {
    if PathGlob.Space(v[0]) { StripLeftKeepsColon(v[1..]); }
  }

  lemma {:induction false} StripRightKeepsColon(v: string)
    requires ':' in v
    ensures ':' in PathGlob.StripRight(v)
  {
    if PathGlob.Space(v[|v| - 1]) {
      assert v == v[..|v| - 1] + [v[|v| - 1]];
      StripRightKeepsColon(v[..|v| - 1]);
    }
  }

  lemma {:induction false} StripDotsKeepsColon(v: string)
    requires ':' in v
    ensures ':' in RStripDots(v)
  {
    if v[|v| - 1] == '.' {
      assert v == v[..|v| - 1] + [v[|v| - 1]];
      StripDotsKeepsColon(v[..|v| - 1]);
    }
  }

  /** Without a port the data plane accepts nothing but a host and at most one dot. */
  lemma AcceptedWithoutPortIsPlain(s: string)
    requires Normalized(s).Some? && ':' !in s
    ensures Plain(s)
  {
    var host := Normalized(s).value;
    assert LastIndex(s, ':') < 0;
    CanonicalChars(host);
    assert forall k :: 0 <= k < |TrimDot(s)| ==> host[k] == LowerChar(s[k]);
    assert forall k :: 0 <= k < |s| ==> !PathGlob.Space(s[k]);
    assert PathGlob.StripLeft(s) == s && PathGlob.StripRight(s) == s;
  }

  /** Exactly when the two normalisers give the same answer to a text: it has no port,
      no surrounding space and no second trailing dot, or neither accepts it. On any
      other text one of them accepts alone: the data plane a host with a port, the
      control plane a host with space around it or more dots behind it. */
  lemma PlanesAgreeIff(s: string)
    ensures Normalized(s) == Stored(s) <==> Plain(s) || (Normalized(s).None? && Stored(s).None?)
    ensures !Plain(s) && Normalized(s).Some? ==> ':' in s && Stored(s).None?
    ensures !Plain(s) && Stored(s).Some? ==> ':' !in s && Normalized(s).None?
  {
    if Plain(s) { PlainIsAgreed(s); }
    if Stored(s).Some? { StoredHasNoColon(s); }
    if Normalized(s).Some? && ':' !in s { AcceptedWithoutPortIsPlain(s); }
  }

  /** The port: every host with one, within the 255 characters, is the host itself for
      the data plane and refused by the control plane. */
  lemma PortsAreTheDataPlanesAlone(host: string, port: string)
    requires Canonical(host) && Port(port) && port != ""
    ensures Normalized(host + port) == if |host + port| <= 255 then Some(host) else None
    ensures Stored(host + port) == None
  {
    var s := host + port;
    CanonicalChars(host);
    assert Spells(s, host, "", port, host) by { assert s == host + "" + port; }
    if |s| <= 255 { NormalizationAcceptsExactlySpellings(s, host); }
    assert s[|host|] == ':';
    if Stored(s).Some? { StoredHasNoColon(s); }
  }

  /** The space: every host with one before it is stored as the host and refused by the
      data plane. */
  lemma SpacesAreTheControlPlanesAlone(host: string, c: char)
    requires Canonical(host) && PathGlob.Space(c)
    ensures Stored([c] + host) == Some(host) && Normalized([c] + host) == None
  {
    var s := [c] + host;
    LookupKeyFixesCanonical(host);
    CanonicalChars(host);
    assert s[1..] == host && PathGlob.StripLeft(s) == PathGlob.StripLeft(host);
    StoredIsCanonical(s);
    PlanesAgreeIff(s);
    assert PathGlob.Strip(s) == PathGlob.Strip(host);
    assert |PathGlob.Strip(host)| <= |host| by { StripShortens(host); }
  }

  lemma StripShortens(s: string)
    ensures |PathGlob.Strip(s)| <= |s|
  {
    StripLeftShortens(s);
    StripRightShortens(PathGlob.StripLeft(s));
  }

  lemma {:induction false} StripLeftShortens(s: string)
    ensures |PathGlob.StripLeft(s)| <= |s|
  {
    if s != "" && PathGlob.Space(s[0]) { StripLeftShortens(s[1..]); }
  }

  lemma {:induction false} StripRightShortens(s: string)
    ensures |PathGlob.StripRight(s)| <= |s|
  {
    if s != "" && PathGlob.Space(s[|s| - 1]) { StripRightShortens(s[..|s| - 1]); }
  }

  /** The data plane strips one trailing dot, the control plane all of them: a host
      written with two is the host itself for the one and refused by the other. */
  lemma TwoTrailingDots(host: string, s: string)
    requires Canonical(host) && s == host + ['.', '.']
    ensures LookupKey(s) == host && Stored(s) == Some(host) && Normalized(s).None?
  {
    StoredIsCanonical(s);
    DotsFall(host, host + ['.'], s);
    OneDotIsLeft(host, host + ['.'], s);
  }

  lemma OneDotIsLeft(host: string, one: string, two: string)
    requires Canonical(host) && one == host + ['.'] && two == one + ['.']
    ensures Normalized(two).None?
  {
    CanonicalChars(host);
    assert TrimDot(two) == one && Lower(one) == one && LastIndex(two, ':') < 0;
    assert !Canonical(one) by {
      SplitLast(one, '.');
      assert !Label("");
    }
  }

  lemma DotsFall(host: string, one: string, two: string)
    requires Canonical(host) && one == host + ['.'] && two == one + ['.']
    ensures LookupKey(two) == host
  {
    CanonicalChars(host);
    assert PathGlob.StripLeft(two) == two && PathGlob.StripRight(two) == two;
    assert Lower(two) == two;
    assert two[..|two| - 1] == one && one[..|one| - 1] == host;
    assert RStripDots(host) == host;
    assert RStripDots(one) == host;
  }

  // ------------------------------------------------------ the lookup key in full

  /** A host as a lookup accepts it: any case, any number of dots behind it, and space
      around that. */
  predicate Dressed(raw: string, host: string, lead: string, name: string, dots: string, trail: string) {
    raw == lead + (name + dots) + trail && Lower(name) == host
    && (forall k :: 0 <= k < |dots| ==> dots[k] == '.')
    && (forall k :: 0 <= k < |lead| ==> PathGlob.Space(lead[k]))
    && (forall k :: 0 <= k < |trail| ==> PathGlob.Space(trail[k]))
  }

  lemma {:induction false} DotsAreStripped(host: string, dots: string)
    requires (forall k :: 0 <= k < |dots| ==> dots[k] == '.') && (host != "" ==> host[|host| - 1] != '.')
    ensures RStripDots(host + dots) == host
    decreases |dots|
  {
    if dots == "" {
      assert host + dots == host;
    } else {
      var fewer := dots[..|dots| - 1];
      DotsAreStripped(host, fewer);
      assert (host + dots)[..|host + dots| - 1] == host + fewer;
    }
  }

  lemma {:induction false} StrippedAreDots(s: string) returns (dots: string)
    ensures s == RStripDots(s) + dots && forall k :: 0 <= k < |dots| ==> dots[k] == '.'
  {
    if s != "" && s[|s| - 1] == '.' {
      dots := StrippedAreDots(s[..|s| - 1]);
      dots := dots + ".";
    } else {
      dots := "";
    }
  }

  lemma DressIsStripped(raw: string, host: string, lead: string, name: string, dots: string, trail: string)
    requires Canonical(host) && Dressed(raw, host, lead, name, dots, trail)
    ensures LookupKey(raw) == host
  {
    var bare := name + dots;
    CanonicalChars(host);
    assert host[0] == LowerChar(name[0]) && host[|host| - 1] == LowerChar(name[|host| - 1]);
    assert !PathGlob.Space(bare[0]) && !PathGlob.Space(bare[|bare| - 1]);
    assert PathGlob.Bare(raw, bare, lead, trail);
    PathGlob.StripReads(raw, bare);
    assert Lower(bare) == host + dots;
    DotsAreStripped(host, dots);
  }

  lemma KeysAreDressedHosts(raw: string, host: string)
    returns (lead: string, name: string, dots: string, trail: string)
    requires Canonical(host) && LookupKey(raw) == host
    ensures Dressed(raw, host, lead, name, dots, trail)
  {
    hide RStripDots, PathGlob.Strip, Lower;
    var bare := PathGlob.Strip(raw);
    var tail := StrippedAreDots(Lower(bare));
    assert host != "" && host[|host| - 1] != '.' by { CanonicalChars(host); }
    assert |Lower(bare)| == |bare| && Lower(bare) == host + tail;
    PathGlob.StripReads(raw, bare);
    lead, trail :| PathGlob.Bare(raw, bare, lead, trail);
    name, dots := bare[..|host|], bare[|host|..];
    assert name + dots == bare;
    LoweredInParts(bare, host, tail);
  }

  lemma LoweredInParts(bare: string, host: string, tail: string)
    requires Lower(bare) == host + tail && forall k :: 0 <= k < |tail| ==> tail[k] == '.'
    ensures Lower(bare[..|host|]) == host
    ensures var dots := bare[|host|..]; forall k :: 0 <= k < |dots| ==> dots[k] == '.'
  {
    var dots := bare[|host|..];
    forall k | 0 <= k < |dots| ensures dots[k] == '.' {
      assert tail[k] == (host + tail)[|host| + k] == LowerChar(bare[|host| + k]);
    }
    assert forall k :: 0 <= k < |host| ==> host[k] == (host + tail)[k];
  }

  /** Exactly the texts that are looked up as a host, by the schema and by both of the
      control plane's lookups. */
  lemma LookedUpAs(raw: string, host: string)
    requires Canonical(host)
    ensures LookupKey(raw) == host <==> exists lead, name, dots, trail :: Dressed(raw, host, lead, name, dots, trail)
  {
    if LookupKey(raw) == host { var lead, name, dots, trail := KeysAreDressedHosts(raw, host); }
    if lead, name, dots, trail :| Dressed(raw, host, lead, name, dots, trail) {
      DressIsStripped(raw, host, lead, name, dots, trail);
    }
  }
}
