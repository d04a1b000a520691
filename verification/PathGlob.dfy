/** The path allowlist of a public resource (server/src/hyproxy/policy/pathglob.py).

    A glob is compiled to the source text of an anchored regular expression. The
    meaning of that text is given here by reading it back (`ReadRegex`) and by the
    language of what was read (`Accepts`); the meaning of a glob is given without
    any of this, as substitution (`Fill`). The main theorem is that they agree. */
module PathGlob {
  import opened Prelude
  import Texts

  // ---------------------------------------------------------------- regexes

  /** One item of the regular expressions the compiler emits. */
  datatype Item = Lit(c: char) | Segment | Deep

  // The characters `re.escape` puts a backslash in front of: tab to carriage
  // return, space, # $ & ( ) * + - . ? [ \ ] ^ { | } ~
  predicate Escaped(c: char) {
    var n := c as int;
    9 <= n <= 13 || n == 32 || n == 35 || n == 36 || n == 38 || 40 <= n <= 43 || n == 45 || n == 46
    || n == 63 || 91 <= n <= 94 || 123 <= n <= 126
  }

  function RenderItem(item: Item): string {
    match item
    case Deep => ".*"
    case Segment => "[^/]*"
    case Lit(c) => if Escaped(c) then ['\\', c] else [c]
  }

  function Render(items: seq<Item>): string {
    if items == [] then "" else RenderItem(items[0]) + Render(items[1..])
  }

  /** Reads regular-expression text of the fragment: `.*`, `[^/]*`, an escaped
      punctuation character, or a character without a special meaning. */
  function ReadItems(text: string): Option<seq<Item>>
    decreases |text|
  {
    if text == "" then Some([])
    else if ".*" <= text then Prepend(Deep, ReadItems(text[2..]))
    else if "[^/]*" <= text then Prepend(Segment, ReadItems(text[5..]))
    else if text[0] == '\\' then
      if |text| >= 2 && Escaped(text[1]) then Prepend(Lit(text[1]), ReadItems(text[2..])) else None
    else if Escaped(text[0]) then None
    else Prepend(Lit(text[0]), ReadItems(text[1..]))
  }

  function Prepend(item: Item, rest: Option<seq<Item>>): Option<seq<Item>> {
    if rest.None? then None else Some([item] + rest.value)
  }

  /** Anchored text `\A...\Z`; anything else is outside the fragment. */
  function ReadRegex(source: string): Option<seq<Item>> {
    if |source| >= 4 && source[..2] == "\\A" && source[|source| - 2..] == "\\Z"
    then ReadItems(source[2..|source| - 2])
    else None
  }

  /** `[^/]*` stands for a slash-free string, `.*` for one without a newline. */
  predicate Free(item: Item, s: string)
    requires !item.Lit?
  {
    if item.Segment? then '/' !in s else '\n' !in s
  }

  /** The language of a list of items, matched from end to end. */
  predicate Accepts(items: seq<Item>, s: string)
    decreases |items|
  {
    if items == [] then s == ""
    else if items[0].Lit? then s != "" && s[0] == items[0].c && Accepts(items[1..], s[1..])
    else exists k :: 0 <= k <= |s| && Free(items[0], s[..k]) && Accepts(items[1..], s[k..])
  }

  /** What `re.compile(source).match(path)` answers on the fragment. */
  predicate RegexMatches(source: string, path: string) {
    var items := ReadRegex(source);
    items.Some? && Accepts(items.value, path)
  }

  lemma {:induction false} ReadBack(items: seq<Item>)
    ensures ReadItems(Render(items)) == Some(items)
  {
    if items != [] {
      var text, tail := Render(items), Render(items[1..]);
      ReadBack(items[1..]);
      assert [items[0]] + items[1..] == items;
      match items[0]
      case Deep => assert text[2..] == tail;
      case Segment => assert text[5..] == tail;
      case Lit(c) =>
        if Escaped(c) {
          assert text[0] == '\\' && text[1] == c && text[2..] == tail;
        } else {
          assert text[0] == c && text[1..] == tail;
        }
    }
  }

  lemma AnchoredReadsBack(items: seq<Item>)
    ensures ReadRegex("\\A" + Render(items) + "\\Z") == Some(items)
  {
    var source := "\\A" + Render(items) + "\\Z";
    assert source[..2] == "\\A" && source[|source| - 2..] == "\\Z";
    assert source[2..|source| - 2] == Render(items);
    ReadBack(items);
  }

  // ------------------------------------------------------------------ globs

  predicate Doubled(pattern: string) { |pattern| >= 2 && pattern[0] == '*' && pattern[1] == '*' }

  /** The items of a glob, read left to right: `**` is tried before `*`. */
  function Items(pattern: string): seq<Item> {
    if pattern == "" then []
    else if Doubled(pattern) then [Deep] + Items(pattern[2..])
    else if pattern[0] == '*' then [Segment] + Items(pattern[1..])
    else [Lit(pattern[0])] + Items(pattern[1..])
  }

  function Width(pattern: string): nat { if Doubled(pattern) then 2 else 1 }

  lemma {:induction false} RenderAppend(items: seq<Item>, item: Item)
    ensures Render(items + [item]) == Render(items) + RenderItem(item)
  {
    if items == [] {
      assert Render([item]) == RenderItem(item) + Render([]);
      assert items + [item] == [item];
    } else {
      assert (items + [item])[1..] == items[1..] + [item];
      RenderAppend(items[1..], item);
    }
  }

  lemma ItemsFrom(pattern: string, i: nat, items: seq<Item>, item: Item, w: nat)
    requires i < |pattern| && w == Width(pattern[i..])
    requires item == if pattern[i] != '*' then Lit(pattern[i]) else if w == 2 then Deep else Segment
    ensures i + w <= |pattern|
    ensures items + Items(pattern[i..]) == items + [item] + Items(pattern[i + w..])
    ensures Render(items + [item]) == Render(items) + RenderItem(item)
  {
    assert pattern[i..][w..] == pattern[i + w..];
    RenderAppend(items, item);
  }

  /** The scanning loop of `_translate`. */
  method Translate(pattern: string) returns (source: string)
    ensures ReadRegex(source) == Some(Items(pattern))
  {
    var out := "";
    var i := 0;
    var n := |pattern|;
    ghost var items: seq<Item> := [];
    while i < n
      invariant 0 <= i <= n
      invariant Items(pattern) == items + Items(pattern[i..])
      invariant out == Render(items)
      decreases n - i
    {
      var c := pattern[i];
      if c == '*' {
        if i + 1 < n && pattern[i + 1] == '*' {
          ItemsFrom(pattern, i, items, Deep, 2);
          items := items + [Deep];
          out := out + ".*";
          i := i + 2;
          continue;
        }
        ItemsFrom(pattern, i, items, Segment, 1);
        items := items + [Segment];
        out := out + "[^/]*";
        i := i + 1;
        continue;
      }
      ItemsFrom(pattern, i, items, Lit(c), 1);
      items := items + [Lit(c)];
      out := out + (if Escaped(c) then ['\\', c] else [c]);
      i := i + 1;
    }
    assert items + Items(pattern[i..]) == items;
    source := "\\A" + out + "\\Z";
    AnchoredReadsBack(items);
  }

  // --------------------------------------------------- substitution meaning

  /** Number of wildcards of a glob: one per `**`, one per remaining `*`. */
  function Wildcards(pattern: string): nat {
    if pattern == "" then 0
    else if Doubled(pattern) then 1 + Wildcards(pattern[2..])
    else if pattern[0] == '*' then 1 + Wildcards(pattern[1..])
    else Wildcards(pattern[1..])
  }

  /** Each `*` gets a slash-free string, each `**` one without a newline. */
  predicate Admissible(pattern: string, fills: seq<string>)
    requires |fills| == Wildcards(pattern)
  {
    if pattern == "" then true
    else if Doubled(pattern) then '\n' !in fills[0] && Admissible(pattern[2..], fills[1..])
    else if pattern[0] == '*' then '/' !in fills[0] && Admissible(pattern[1..], fills[1..])
    else Admissible(pattern[1..], fills)
  }

  /** The pattern with its wildcards replaced, in order, by `fills`. */
  function Fill(pattern: string, fills: seq<string>): string
    requires |fills| == Wildcards(pattern)
  {
    if pattern == "" then ""
    else if Doubled(pattern) then fills[0] + Fill(pattern[2..], fills[1..])
    else if pattern[0] == '*' then fills[0] + Fill(pattern[1..], fills[1..])
    else [pattern[0]] + Fill(pattern[1..], fills)
  }

  ghost predicate Filling(pattern: string, fills: seq<string>, path: string) {
    |fills| == Wildcards(pattern) && Admissible(pattern, fills) && Fill(pattern, fills) == path
  }

  /** What a glob exposes, said without regular expressions. */
  ghost predicate Exposes(pattern: string, path: string) {
    exists fills :: Filling(pattern, fills, path)
  }

  lemma {:induction false} AcceptsFill(pattern: string, fills: seq<string>)
    requires |fills| == Wildcards(pattern) && Admissible(pattern, fills)
    ensures Accepts(Items(pattern), Fill(pattern, fills))
  {
    if pattern != "" {
      var path := Fill(pattern, fills);
      if pattern[0] == '*' {
        var rest := pattern[Width(pattern)..];
        AcceptsFill(rest, fills[1..]);
        var k := |fills[0]|;
        assert path[..k] == fills[0] && path[k..] == Fill(rest, fills[1..]);
        assert Items(pattern)[1..] == Items(rest);
      } else {
        AcceptsFill(pattern[1..], fills);
        assert path[1..] == Fill(pattern[1..], fills);
        assert Items(pattern)[1..] == Items(pattern[1..]);
      }
    }
  }

  lemma {:induction false} FillOfAccepted(pattern: string, path: string) returns (fills: seq<string>)
    requires Accepts(Items(pattern), path)
    ensures Filling(pattern, fills, path)
  {
    if pattern == "" {
      fills := [];
    } else if pattern[0] == '*' {
      var rest := pattern[Width(pattern)..];
      var items := Items(pattern);
      assert items[1..] == Items(rest);
      var k :| 0 <= k <= |path| && Free(items[0], path[..k]) && Accepts(items[1..], path[k..]);
      var tail := FillOfAccepted(rest, path[k..]);
      fills := [path[..k]] + tail;
      assert fills[1..] == tail && path[..k] + path[k..] == path;
    } else {
      assert Items(pattern)[1..] == Items(pattern[1..]);
      fills := FillOfAccepted(pattern[1..], path[1..]);
      assert [path[0]] + path[1..] == path;
    }
  }

  /** The compiler preserves meaning: the anchored regular expression accepts a
      path exactly when the path is the glob with each `*` replaced by a slash-free
      string and each `**` by a string without a newline. */
  lemma CompiledGlobMeansSubstitution(pattern: string, source: string, path: string)
    requires ReadRegex(source) == Some(Items(pattern))
    ensures RegexMatches(source, path) <==> Exposes(pattern, path)
  {
    if RegexMatches(source, path) {
      var fills := FillOfAccepted(pattern, path);
    }
    if Exposes(pattern, path) {
      var fills :| Filling(pattern, fills, path);
      AcceptsFill(pattern, fills);
    }
  }

  /** `matches`: exposed by any pattern; no patterns expose nothing. */
  ghost predicate Matches(patterns: seq<string>, path: string) {
    exists k :: 0 <= k < |patterns| && Exposes(patterns[k], path)
  }

  /** The scan of `matches` over the compiled patterns. */
  method MatchesAny(patterns: seq<string>, path: string) returns (exposed: bool)
    ensures exposed <==> Matches(patterns, path)
  {
    for i := 0 to |patterns|
      invariant forall k :: 0 <= k < i ==> !Exposes(patterns[k], path)
    {
      var source := Translate(patterns[i]);
      CompiledGlobMeansSubstitution(patterns[i], source, path);
      if RegexMatches(source, path) { return true; }
    }
    return false;
  }

  // ------------------------------------------------------------ consequences

  predicate NoDeep(pattern: string) {
    pattern != "" ==> !(Doubled(pattern)) && NoDeep(pattern[1..])
  }

  lemma {:induction false} FillKeepsSlashes(pattern: string, fills: seq<string>)
    requires |fills| == Wildcards(pattern) && Admissible(pattern, fills)
    requires NoDeep(pattern)
    ensures Count(Fill(pattern, fills), '/') == Count(pattern, '/')
  {
    if pattern != "" {
      var rest := pattern[1..];
      if pattern[0] == '*' {
        FillKeepsSlashes(rest, fills[1..]);
        CountConcat(fills[0], Fill(rest, fills[1..]), '/');
        CountZero(fills[0], '/');
      } else {
        FillKeepsSlashes(rest, fills);
        assert Fill(pattern, fills)[1..] == Fill(rest, fills);
      }
    }
  }

  /** A pattern without `**` never crosses a segment boundary. */
  lemma SegmentGlobKeepsSlashCount(pattern: string, path: string)
    requires NoDeep(pattern)
    requires Exposes(pattern, path)
    ensures Count(path, '/') == Count(pattern, '/')
  {
    var fills :| Filling(pattern, fills, path);
    FillKeepsSlashes(pattern, fills);
  }

  /** Everything before the first `*`. */
  function Head(pattern: string): string {
    if pattern == "" || pattern[0] == '*' then "" else [pattern[0]] + Head(pattern[1..])
  }

  function LiteralPrefix(pattern: string): string {
    if Head(pattern) == "" then "/" else Head(pattern)
  }

  lemma {:induction false} FillStartsWithHead(pattern: string, fills: seq<string>)
    requires |fills| == Wildcards(pattern)
    ensures Head(pattern) <= Fill(pattern, fills)
  {
    if pattern != "" && pattern[0] != '*' {
      FillStartsWithHead(pattern[1..], fills);
    }
  }

  /** An admissible filling whose every wildcard is replaced by `s`. */
  function Constant(pattern: string, s: string): (fills: seq<string>)
    ensures |fills| == Wildcards(pattern)
    ensures forall k :: 0 <= k < |fills| ==> fills[k] == s
  {
    seq(Wildcards(pattern), _ => s)
  }

  lemma {:induction false} ConstantAdmissible(pattern: string, s: string, fills: seq<string>)
    requires '/' !in s && '\n' !in s
    requires |fills| == Wildcards(pattern) && forall k :: 0 <= k < |fills| ==> fills[k] == s
    ensures Admissible(pattern, fills)
  {
    if pattern != "" {
      if pattern[0] == '*' {
        ConstantAdmissible(pattern[Width(pattern)..], s, fills[1..]);
      } else {
        ConstantAdmissible(pattern[1..], s, fills);
      }
    }
  }

  /** `literal_prefix` is a prefix of everything the pattern exposes, except for
      the two shapes whose fixed head is empty and is reported as `/`. */
  lemma LiteralPrefixIsPrefix(pattern: string)
    ensures (forall path | Exposes(pattern, path) :: LiteralPrefix(pattern) <= path)
       <==> pattern != "" && pattern[0] != '*'
  {
    forall path | Exposes(pattern, path) ensures Head(pattern) <= path {
      var fills :| Filling(pattern, fills, path);
      FillStartsWithHead(pattern, fills);
    }
    if pattern == "" {
      assert Filling(pattern, [], "");
      assert Exposes(pattern, "") && |LiteralPrefix(pattern)| > 0;
    } else if pattern[0] == '*' {
      var fills := Constant(pattern, "x");
      ConstantAdmissible(pattern, "x", fills);
      var path := Fill(pattern, fills);
      assert Filling(pattern, fills, path);
      assert path[0] == 'x' && LiteralPrefix(pattern)[0] == '/';
      assert Exposes(pattern, path) && !(LiteralPrefix(pattern) <= path);
    }
  }

  // -------------------------------------------------------------- validation

  const MAX_PATTERN_LENGTH := 512
  const MAX_PATTERNS := 64

  datatype PatternError =
    | EmptyPattern | TooLong | NulByte | NoLeadingSlash | DoubleSlash
    | Backslash | DotDotSegment | WholeHost | TooManyPatterns | NoPatterns

  /** `str.isspace` for the characters `str.strip` removes. */
  predicate Space(c: char) {
    var n := c as int;
    9 <= n <= 13 || 28 <= n <= 32 || n in {0x85, 0xa0, 0x1680, 0x2028, 0x2029, 0x202f, 0x205f, 0x3000}
    || 0x2000 <= n <= 0x200a
  }

  function StripLeft(s: string): string {
    if s != "" && Space(s[0]) then StripLeft(s[1..]) else s
  }

  function StripRight(s: string): string {
    if s != "" && Space(s[|s| - 1]) then StripRight(s[..|s| - 1]) else s
  }

  function Strip(s: string): string { StripRight(StripLeft(s)) }

  function ValidatePattern(pattern: string): Result<string, PatternError> {
    var p := Strip(pattern);
    if p == "" then Err(EmptyPattern)
    else if |p| > MAX_PATTERN_LENGTH then Err(TooLong)
    else if '\0' in p then Err(NulByte)
    else if !("/" <= p) then Err(NoLeadingSlash)
    else if "//" <= p then Err(DoubleSlash)
    else if '\\' in p then Err(Backslash)
    else if ".." in Split(p, '/') then Err(DotDotSegment)
    else if p in {"/*", "/**", "/"} then Err(WholeHost)
    else Ok(p)
  }

  /** A stored pattern: a fixed point of validation. */
  predicate Validated(p: string) { ValidatePattern(p) == Ok(p) }

  lemma {:induction false} StripRightTrims(s: string)
    ensures StripRight(s) <= s
    ensures StripRight(s) != "" ==> !Space(StripRight(s)[|StripRight(s)| - 1])
  {
    if s != "" && Space(s[|s| - 1]) { StripRightTrims(s[..|s| - 1]); }
  }

  lemma {:induction false} StripLeftTrims(s: string)
    ensures StripLeft(s) != "" ==> !Space(StripLeft(s)[0])
  {
    if s != "" && Space(s[0]) { StripLeftTrims(s[1..]); }
  }

  /** A text with the space around it gone. */
  predicate Bare(text: string, bare: string, lead: string, trail: string) {
    text == lead + bare + trail
    && (forall k :: 0 <= k < |lead| ==> Space(lead[k])) && (forall k :: 0 <= k < |trail| ==> Space(trail[k]))
    && (bare != "" ==> !Space(bare[0]) && !Space(bare[|bare| - 1]))
  }

  lemma {:induction false} LeadFalls(lead: string, rest: string)
    requires (forall k :: 0 <= k < |lead| ==> Space(lead[k])) && (rest != "" ==> !Space(rest[0]))
    ensures StripLeft(lead + rest) == rest
    decreases |lead|
  {
    if lead == "" {
      assert lead + rest == rest;
    } else {
      LeadFalls(lead[1..], rest);
      assert (lead + rest)[1..] == lead[1..] + rest;
    }
  }

  lemma {:induction false} TrailFalls(rest: string, trail: string)
    requires (forall k :: 0 <= k < |trail| ==> Space(trail[k])) && (rest != "" ==> !Space(rest[|rest| - 1]))
    ensures StripRight(rest + trail) == rest
    decreases |trail|
  {
    if trail == "" {
      assert rest + trail == rest;
    } else {
      var fewer := trail[..|trail| - 1];
      TrailFalls(rest, fewer);
      assert (rest + trail)[..|rest + trail| - 1] == rest + fewer;
    }
  }

  lemma {:induction false} LeadIsSpace(text: string) returns (lead: string)
    ensures text == lead + StripLeft(text) && forall k :: 0 <= k < |lead| ==> Space(lead[k])
  {
    if text != "" && Space(text[0]) {
      lead := LeadIsSpace(text[1..]);
      lead := [text[0]] + lead;
    } else {
      lead := "";
    }
  }

  lemma {:induction false} TrailIsSpace(text: string) returns (trail: string)
    ensures text == StripRight(text) + trail && forall k :: 0 <= k < |trail| ==> Space(trail[k])
  {
    if text != "" && Space(text[|text| - 1]) {
      trail := TrailIsSpace(text[..|text| - 1]);
      trail := trail + [text[|text| - 1]];
    } else {
      trail := "";
    }
  }

  lemma StripReads(text: string, bare: string)
    requires bare != ""
    ensures Strip(text) == bare <==> exists lead, trail :: Bare(text, bare, lead, trail)
  {
    hide StripLeft, StripRight;
    if Strip(text) == bare {
      var middle := StripLeft(text);
      var lead := LeadIsSpace(text);
      var trail := TrailIsSpace(middle);
      StripLeftTrims(text);
      StripRightTrims(middle);
      assert middle == bare + trail && middle[0] == bare[0];
      assert text == lead + bare + trail;
      assert Bare(text, bare, lead, trail);
    }
    if lead, trail :| Bare(text, bare, lead, trail) {
      assert text == lead + (bare + trail) && (bare + trail)[0] == bare[0];
      LeadFalls(lead, bare + trail);
      TrailFalls(bare, trail);
    }
  }

  /** What an administrator may store as a pattern. */
  ghost predicate Storable(p: string) {
    && 1 <= |p| <= MAX_PATTERN_LENGTH && '\0' !in p && '\\' !in p
    && p[0] == '/' && (|p| >= 2 ==> p[1] != '/')
    && !(exists a, b :: Texts.StandsIn(p, "..", '/', a, b))
    && p != "/" && p != "/*" && p != "/**"
  }

  /** Exactly which texts are accepted and what is stored for them: a storable pattern,
      with any space around it dropped. */
  lemma AcceptedIffStorable(text: string, p: string)
    ensures ValidatePattern(text) == Ok(p)
       <==> Storable(p) && exists lead, trail :: Bare(text, p, lead, trail)
  {
    hide Strip, Split, Bare;
    if p != "" { StripReads(text, p); }
    if ".." in Split(p, '/') { var a, b := Texts.PieceStands(p, "..", '/'); }
    if a, b :| Texts.StandsIn(p, "..", '/', a, b) { Texts.StandingIsAPiece(p, "..", '/', a, b); }
  }

  /** Saving a pattern twice is saving it once. */
  lemma ValidationIsIdempotent(pattern: string)
    requires ValidatePattern(pattern).Ok?
    ensures Validated(ValidatePattern(pattern).value)
  {
    var left := StripLeft(pattern);
    StripLeftTrims(pattern);
    StripRightTrims(left);
    var p := StripRight(left);
    assert p[0] == left[0];
    assert StripLeft(p) == p && StripRight(p) == p;
  }

  /** The allowlist loop: validates in order, keeps first occurrences. */
  method ValidatePatterns(patterns: seq<string>) returns (r: Result<seq<string>, PatternError>)
    ensures |patterns| > MAX_PATTERNS ==> r == Err(TooManyPatterns)
    ensures patterns == [] ==> r == Err(NoPatterns)
    ensures 0 < |patterns| <= MAX_PATTERNS && r.Ok? ==>
              forall k :: 0 <= k < |patterns| ==> ValidatePattern(patterns[k]).Ok?
    ensures 0 < |patterns| <= MAX_PATTERNS && r.Err? ==>
              exists k :: 0 <= k < |patterns| && ValidatePattern(patterns[k]) == Err(r.error)
                          && forall j :: 0 <= j < k ==> ValidatePattern(patterns[j]).Ok?
    ensures r.Ok? ==> r.value != [] && r.value == FirstOccurrences(StoredAll(patterns))
    ensures r.Ok? ==> forall k :: 0 <= k < |r.value| ==> Validated(r.value[k])
  {
    if |patterns| > MAX_PATTERNS { return Err(TooManyPatterns); }
    var collected := CollectDistinct(patterns, ValidatePattern);
    if collected.Ok? && collected.value == [] { return Err(NoPatterns); }
    if collected.Ok? {
      assert StoredBy(ValidatePattern, patterns) == StoredAll(patterns);
      StoredAreValidated(patterns);
    }
    return collected;
  }

  /** The patterns as a validator stores them. */
  function StoredBy(validate: string -> Result<string, PatternError>, patterns: seq<string>): (stored: seq<string>)
    ensures |stored| == |patterns|
  {
    seq(|patterns|, k requires 0 <= k < |patterns| =>
          var v := validate(patterns[k]); if v.Ok? then v.value else patterns[k])
  }

  /** The loop itself, for any validator: stops at the first error, and keeps of equal
      stored patterns the first. */
  method CollectDistinct(patterns: seq<string>, validate: string -> Result<string, PatternError>)
    returns (r: Result<seq<string>, PatternError>)
    ensures r.Ok? ==> forall k :: 0 <= k < |patterns| ==> validate(patterns[k]).Ok?
    ensures r.Ok? ==> r.value == FirstOccurrences(StoredBy(validate, patterns)) && (r.value == [] ==> patterns == [])
    ensures r.Err? ==>
              exists k :: 0 <= k < |patterns| && validate(patterns[k]) == Err(r.error)
                          && forall j :: 0 <= j < k ==> validate(patterns[j]).Ok?
  {
    var seen: set<string> := {};
    var out: seq<string> := [];
    ghost var stored: seq<string> := [];
    for i := 0 to |patterns|
      invariant |stored| == i
      invariant forall k :: 0 <= k < i ==> validate(patterns[k]).Ok? && stored[k] == validate(patterns[k]).value
      invariant out == FirstOccurrences(stored)
      invariant forall p :: p in seen <==> p in out
      invariant i > 0 ==> out != []
    {
      var checked := validate(patterns[i]);
      if checked.Err? { return Err(checked.error); }
      var p := checked.value;
      FirstOccurrencesSnoc(stored, p);
      stored := stored + [p];
      if p !in seen {
        seen := seen + {p};
        out := out + [p];
      }
    }
    assert stored == StoredBy(validate, patterns);
    return Ok(out);
  }

  lemma StoredAreValidated(patterns: seq<string>)
    requires forall k :: 0 <= k < |patterns| ==> ValidatePattern(patterns[k]).Ok?
    ensures forall p :: p in FirstOccurrences(StoredAll(patterns)) ==> Validated(p)
  {
    forall p | p in FirstOccurrences(StoredAll(patterns)) ensures Validated(p) {
      FirstOccurrencesMembers(StoredAll(patterns), p);
      var k :| 0 <= k < |patterns| && StoredAll(patterns)[k] == p;
      ValidationIsIdempotent(patterns[k]);
    }
  }

  /** The stored form of a pattern that validates. */
  function Stored(pattern: string): string {
    var v := ValidatePattern(pattern);
    if v.Ok? then v.value else pattern
  }

  function StoredAll(patterns: seq<string>): (stored: seq<string>)
    ensures |stored| == |patterns|
    ensures forall k :: 0 <= k < |patterns| ==> stored[k] == Stored(patterns[k])
  {
    seq(|patterns|, k requires 0 <= k < |patterns| => Stored(patterns[k]))
  }

  // ------------------------------------------- how much a stored pattern opens

  lemma {:induction false} FillLength(pattern: string, fills: seq<string>)
    requires |fills| == Wildcards(pattern)
    requires exists i :: 0 <= i < |pattern| && pattern[i] != '*'
    ensures |Fill(pattern, fills)| >= 1
  {
    if pattern[0] == '*' {
      var w := Width(pattern);
      var i :| 0 <= i < |pattern| && pattern[i] != '*';
      assert i >= w && pattern[w..][i - w] != '*';
      FillLength(pattern[w..], fills[1..]);
    }
  }

  lemma {:induction false} StarsAcceptAnything(stars: string, s: string) returns (fills: seq<string>)
    requires |stars| >= 2 && forall i :: 0 <= i < |stars| ==> stars[i] == '*'
    requires '\n' !in s
    ensures Filling(stars, fills, s)
  {
    var rest := stars[2..];
    var empty := Constant(rest, "");
    ConstantAdmissible(rest, "", empty);
    EmptyFill(rest, empty);
    fills := [s] + empty;
    assert fills[1..] == empty && s + "" == s;
  }

  lemma {:induction false} EmptyFill(stars: string, fills: seq<string>)
    requires forall i :: 0 <= i < |stars| ==> stars[i] == '*'
    requires |fills| == Wildcards(stars) && forall k :: 0 <= k < |fills| ==> fills[k] == ""
    ensures Fill(stars, fills) == ""
  {
    if stars != "" { EmptyFill(stars[Width(stars)..], fills[1..]); }
  }

  // A stored pattern exposes every path of the host exactly when it is a slash
  // followed by three or more stars: the validator refuses a slash followed by
  // one or two, and three compile to something that accepts the same paths as two.
  lemma WholeHostPatterns(p: string)
    requires Validated(p)
    ensures (forall path | "/" <= path && '\n' !in path :: Exposes(p, path))
       <==> |p| >= 4 && forall i :: 1 <= i < |p| ==> p[i] == '*'
  {
    if forall i :: 1 <= i < |p| ==> p[i] == '*' {
      assert |p| == 1 ==> p == "/";
      assert |p| == 2 ==> p == "/*";
      assert |p| == 3 ==> p == "/**";
      forall path | "/" <= path && '\n' !in path ensures Exposes(p, path) {
        var fills := StarsAcceptAnything(p[1..], path[1..]);
        assert ['/'] + path[1..] == path;
        assert Filling(p, fills, path);
      }
    } else {
      var i :| 1 <= i < |p| && p[i] != '*';
      assert "/" <= "/" && '\n' !in "/";
      if Exposes(p, "/") {
        var fills :| Filling(p, fills, "/");
        assert p[1..][i - 1] != '*';
        FillLength(p[1..], fills);
        assert false;
      }
    }
  }

  // -------------------------------------------------- the gate's return path

  function Before(s: string, c: char): string {
    if s == "" || s[0] == c then "" else [s[0]] + Before(s[1..], c)
  }

  /** `rd` without its query and fragment. */
  function PathOf(rd: string): string { Before(Before(rd, '?'), '#') }

  lemma {:induction false} BeforeReads(s: string, c: char, t: string)
    ensures Before(s, c) == t <==> c !in t && (s == t || exists rest :: s == t + [c] + rest)
  {
    if s == "" || s[0] == c {
      if s != "" { assert s == "" + [c] + s[1..]; }
    } else {
      var b := Before(s[1..], c);
      BeforeReads(s[1..], c, b);
      if b != s[1..] {
        var rest :| s[1..] == b + [c] + rest;
        assert s == ([s[0]] + b) + [c] + rest;
      }
      if c !in t && t != "" {
        BeforeReads(s[1..], c, t[1..]);
        if rest :| s == t + [c] + rest { assert s[1..] == t[1..] + [c] + rest; }
      }
    }
  }

  /** The path of a return target: all of it up to the first query or fragment mark. */
  lemma PathOfReads(rd: string, path: string)
    ensures PathOf(rd) == path
       <==> '?' !in path && '#' !in path
            && (rd == path || exists rest :: rd == path + "?" + rest || rd == path + "#" + rest)
  {
    hide Before;
    var middle := Before(rd, '?');
    BeforeReads(rd, '?', middle);
    BeforeReads(middle, '#', path);
    if PathOf(rd) == path && rd != path { Cuts(rd, middle, path); }
    if '?' !in path && '#' !in path {
      BeforeReads(path, '#', path);
      BeforeReads(rd, '?', path);
      if rest :| rd == path + "#" + rest {
        var t := path + "#" + Before(rest, '?');
        FragmentFirst(rd, path, rest);
        BeforeReads(t, '#', path);
      }
    }
  }

  lemma Cuts(rd: string, middle: string, path: string)
    requires rd == middle || exists rest :: rd == middle + ['?'] + rest
    requires middle == path || exists rest :: middle == path + ['#'] + rest
    ensures rd == path || exists rest :: rd == path + "?" + rest || rd == path + "#" + rest
  {
    if middle != path {
      var r :| middle == path + ['#'] + r;
      if rd == middle {
        assert rd == path + "#" + r;
      } else {
        var q :| rd == middle + ['?'] + q;
        assert rd == path + "#" + (r + "?" + q);
      }
    } else if rd != path {
      var q :| rd == middle + ['?'] + q;
      assert rd == path + "?" + q;
    }
  }

  lemma FragmentFirst(rd: string, path: string, rest: string)
    requires rd == path + "#" + rest && '?' !in path
    ensures Before(rd, '?') == path + "#" + Before(rest, '?')
  {
    hide Before;
    var b := Before(rest, '?');
    var t := path + "#" + b;
    BeforeReads(rest, '?', b);
    if rest != b {
      var q :| rest == b + ['?'] + q;
      assert rd == t + ['?'] + q;
    }
    BeforeReads(rd, '?', t);
  }

  /** `_safe_rd`: where the browser goes after the password is accepted. */
  ghost function SafeRd(rd: string, patterns: seq<string>): string {
    var fallback := LiteralPrefix(if patterns == [] then "/" else patterns[0]);
    if rd == "" || !("/" <= rd) || "//" <= rd || '\\' in rd then fallback
    else if !Matches(patterns, PathOf(rd)) then fallback
    else rd
  }

  /** For a stored allowlist the return path is on this origin (one leading slash,
      no backslash) and is either exposed or the fixed head of the first pattern. */
  lemma SafeRdStaysInside(rd: string, patterns: seq<string>)
    requires patterns != [] && forall k :: 0 <= k < |patterns| ==> Validated(patterns[k])
    ensures var target := SafeRd(rd, patterns);
            && "/" <= target && !("//" <= target) && '\\' !in target
            && (Matches(patterns, PathOf(target)) || target == Head(patterns[0]))
    ensures "/" <= rd && !("//" <= rd) && '\\' !in rd && Matches(patterns, PathOf(rd)) ==>
              SafeRd(rd, patterns) == rd
  {
    var p := patterns[0];
    HeadIsPrefix(p);
    assert Head(p)[0] == p[0] == '/';
  }

  lemma {:induction false} HeadIsPrefix(p: string)
    ensures Head(p) <= p
  {
    if p != "" && p[0] != '*' { HeadIsPrefix(p[1..]); }
  }
}
