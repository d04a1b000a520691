/** The data plane's cache of host-wide allow decisions
    (dataplane/internal/proxy/authzcache.go). */
module AuthzCache {
  import opened Prelude

  type Headers = map<string, string>

  datatype Entry = Entry(headers: Headers, expires: Instant)

  type Entries = map<string, Entry>

  const MAX_ENTRIES := 4096
  const TTL_CAP := 60 * SECOND

  // -------------------------------------------------------------------- keys

  function DigitOf(n: nat): char
    requires n < 10
  {
    '0' + n as char
  }

  function Decimal(n: nat): string {
    if n < 10 then [DigitOf(n)] else Decimal(n / 10) + [DigitOf(n % 10)]
  }

  /** `strconv.Itoa`. */
  function Itoa(n: int): string { if n < 0 then "-" + Decimal(-n) else Decimal(n) }

  /** The text a cache key is the SHA-256 of; an injective hash makes the text itself
      a faithful key. */
  function KeyText(host: string, port: int, ip: string, cookie: string): string {
    host + "\0" + Itoa(port) + "\0" + ip + "\0" + cookie
  }

  function Parse(s: string): int {
    if s == "" then 0 else Parse(s[..|s| - 1]) * 10 + (s[|s| - 1] as int - '0' as int)
  }

  lemma {:induction false} DecimalParses(n: nat)
    ensures Parse(Decimal(n)) == n
    ensures Decimal(n) != "" && forall k :: 0 <= k < |Decimal(n)| ==> '0' <= Decimal(n)[k] <= '9'
  {
    if n >= 10 {
      DecimalParses(n / 10);
      assert Decimal(n)[..|Decimal(n)| - 1] == Decimal(n / 10);
    } else {
      assert [DigitOf(n)][..0] == "";
    }
  }

  lemma DecimalInjective(m: nat, n: nat)
    requires Decimal(m) == Decimal(n)
    ensures m == n
  {
    DecimalParses(m);
    DecimalParses(n);
  }

  lemma ItoaHasNoNul(n: int)
    ensures '\0' !in Itoa(n)
  {
    DecimalParses(if n < 0 then -n else n);
  }

  lemma ItoaInjective(m: int, n: int)
    requires Itoa(m) == Itoa(n)
    ensures m == n
  {
    DecimalParses(if m < 0 then -m else m);
    DecimalParses(if n < 0 then -n else n);
    assert Itoa(m)[0] == Itoa(n)[0];
    if m < 0 && n < 0 {
      assert Itoa(m)[1..] == Decimal(-m) && Itoa(n)[1..] == Decimal(-n);
      DecimalInjective(-m, -n);
    } else if m >= 0 && n >= 0 {
      DecimalInjective(m, n);
    }
  }

  lemma FirstNulSplits(a: string, b: string, c: string, d: string)
    requires '\0' !in a && '\0' !in c
    requires a + "\0" + b == c + "\0" + d
    ensures a == c && b == d
  {
    var s := a + "\0" + b;
    var t := c + "\0" + d;
    assert s[|a|] == '\0' && forall k :: 0 <= k < |a| ==> s[k] == a[k];
    assert t[|c|] == '\0' && forall k :: 0 <= k < |c| ==> t[k] == c[k];
    assert s[..|a|] == a && t[..|c|] == c;
    assert s[|a| + 1..] == b && t[|c| + 1..] == d;
  }

  lemma TailInjective(p1: int, r1: string, p2: int, r2: string)
    requires Itoa(p1) + "\0" + r1 == Itoa(p2) + "\0" + r2
    ensures p1 == p2 && r1 == r2
  {
    ItoaHasNoNul(p1);
    ItoaHasNoNul(p2);
    FirstNulSplits(Itoa(p1), r1, Itoa(p2), r2);
    ItoaInjective(p1, p2);
  }

  lemma KeyTextSplits(h: string, p: int, i: string, c: string) returns (tail: string, rest: string)
    ensures KeyText(h, p, i, c) == h + "\0" + tail
    ensures tail == Itoa(p) + "\0" + rest && rest == i + "\0" + c
  {
    rest := i + "\0" + c;
    tail := Itoa(p) + "\0" + rest;
    assert KeyText(h, p, i, c) == h + "\0" + tail;
  }

  /** Keys are injective when host and address carry no NUL byte; the cookie is free. */
  lemma KeysAreInjective(h1: string, p1: int, i1: string, c1: string, h2: string, p2: int, i2: string, c2: string)
    requires '\0' !in h1 && '\0' !in h2 && '\0' !in i1 && '\0' !in i2
    requires KeyText(h1, p1, i1, c1) == KeyText(h2, p2, i2, c2)
    ensures h1 == h2 && p1 == p2 && i1 == i2 && c1 == c2
  {
    var q1, r1 := KeyTextSplits(h1, p1, i1, c1);
    var q2, r2 := KeyTextSplits(h2, p2, i2, c2);
    FirstNulSplits(h1, q1, h2, q2);
    TailInjective(p1, r1, p2, r2);
    FirstNulSplits(i1, c1, i2, c2);
  }

  // --------------------------------------------------------------- operations

  /** `now.After(e.expires)`. */
  predicate Expired(e: Entry, now: Instant) { now > e.expires }

  function Hit(entries: Entries, key: string, now: Instant): Option<Headers> {
    if key in entries && !Expired(entries[key], now) then Some(entries[key].headers) else None
  }

  function AfterGet(entries: Entries, key: string, now: Instant): Entries {
    if key in entries && Expired(entries[key], now) then entries - {key} else entries
  }

  function Unexpired(entries: Entries, now: Instant): Entries {
    map k | k in entries && !Expired(entries[k], now) :: entries[k]
  }

  /** Room for one more entry: expired ones go first, then everything. */
  function Trimmed(entries: Entries, now: Instant): Entries {
    if |entries| < MAX_ENTRIES then entries
    else if |Unexpired(entries, now)| < MAX_ENTRIES then Unexpired(entries, now)
    else map[]
  }

  function AfterPut(entries: Entries, key: string, headers: Headers, ttl: int, now: Instant): Entries {
    if ttl <= 0 then entries
    else Trimmed(entries, now)[key := Entry(headers, now + Min(ttl, TTL_CAP))]
  }

  class Cache {
    var entries: Entries

    constructor ()
      ensures entries == map[]
    {
      entries := map[];
    }

    method Get(key: string, now: Instant) returns (hit: Option<Headers>)
      modifies this
      ensures hit == Hit(old(entries), key, now)
      ensures entries == AfterGet(old(entries), key, now)
    {
      if key !in entries { return None; }
      var e := entries[key];
      if Expired(e, now) {
        entries := entries - {key};
        return None;
      }
      return Some(e.headers);
    }

    method EvictExpired(now: Instant)
      modifies this
      ensures entries == Unexpired(old(entries), now)
    {
      var todo := entries.Keys;
      while todo != {}
        invariant todo <= entries.Keys <= old(entries).Keys
        invariant forall k :: k in entries ==> entries[k] == old(entries)[k]
        invariant forall k :: k in old(entries) && k !in todo ==>
                    (k in entries <==> !Expired(old(entries)[k], now))
        decreases todo
      {
        var k :| k in todo;
        if Expired(entries[k], now) { entries := entries - {k}; }
        todo := todo - {k};
      }
    }

    method Put(key: string, headers: Headers, ttl: int, now: Instant)
      modifies this
      ensures entries == AfterPut(old(entries), key, headers, ttl, now)
    {
      if ttl <= 0 { return; }
      var ttl' := ttl;
      if ttl' > TTL_CAP { ttl' := TTL_CAP; }
      if |entries| >= MAX_ENTRIES {
        EvictExpired(now);
        if |entries| >= MAX_ENTRIES { entries := map[]; }
      }
      entries := entries[key := Entry(headers, now + ttl')];
    }

    method Purge()
      modifies this
      ensures entries == map[]
    {
      entries := map[];
    }
  }

  /** The table never holds more than `MAX_ENTRIES` entries. */
  lemma PutStaysBounded(entries: Entries, key: string, headers: Headers, ttl: int, now: Instant)
    requires |entries| <= MAX_ENTRIES
    ensures |AfterPut(entries, key, headers, ttl, now)| <= MAX_ENTRIES
  {
    var room := Trimmed(entries, now);
    assert room[key := Entry(headers, now + Min(ttl, TTL_CAP))].Keys == room.Keys + {key};
  }

  /** What a put keeps and what it gives up: everything while there is room, else what
      has not expired if that makes room, else nothing; and the entry put is there with
      its capped lifetime. A lifetime that is not positive stores nothing. */
  lemma PutKeepsWhatFits(entries: Entries, key: string, headers: Headers, ttl: int, now: Instant, k: string)
    ensures
      var after := AfterPut(entries, key, headers, ttl, now);
      var alive := set other | other in entries && now <= entries[other].expires;
      && (ttl <= 0 ==> after == entries)
      && (ttl > 0 ==> key in after && after[key] == Entry(headers, now + if ttl <= TTL_CAP then ttl else TTL_CAP))
      && (ttl > 0 && k != key ==>
            (k in after <==> k in entries && (|entries| < MAX_ENTRIES || (k in alive && |alive| < MAX_ENTRIES)))
            && (k in after ==> after[k] == entries[k]))
  {
    assert Unexpired(entries, now).Keys == set other | other in entries && now <= entries[other].expires;
  }

  /** What a lookup answers and what it leaves. */
  lemma GetAnswers(entries: Entries, key: string, now: Instant)
    ensures Hit(entries, key, now) ==
            if key in entries && now <= entries[key].expires then Some(entries[key].headers) else None
    ensures AfterGet(entries, key, now) ==
            if key in entries && now > entries[key].expires then entries - {key} else entries
  {
  }

  /** Whatever eviction does, nothing appears that was not put: an entry of the new
      table is the new one or was there before, unchanged. */
  lemma PutInventsNothing(entries: Entries, key: string, headers: Headers, ttl: int, now: Instant, k: string)
    requires k in AfterPut(entries, key, headers, ttl, now)
    ensures var e := AfterPut(entries, key, headers, ttl, now)[k];
            (k in entries && e == entries[k])
            || (k == key && ttl > 0 && e == Entry(headers, now + Min(ttl, TTL_CAP)))
  {
  }
}
