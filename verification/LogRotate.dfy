/** The size-based rotating log writer (dataplane/internal/logrotate/logrotate.go),
    on a file system that reports no errors. */
module LogRotate {
  import opened Prelude

  type Bytes = seq<bv8>

  /** `maxBytes` and `backups`, any integers. */
  datatype Config = Config(maxBytes: int, backups: int)

  /** The live file and the numbered files beside it, by suffix. */
  datatype Disk = Disk(live: Bytes, archives: Archives)

  // ------------------------------------------------------------ specification

  type Archives = map<int, Bytes>

  /** A rename of one numbered file, which does nothing when there is no such file. */
  function Renamed(a: Archives, from: int, to: int): Archives {
    if from in a then (a - {from})[to := a[from]] else a
  }

  /** The renames of suffixes n - 1 down to i. */
  function ShiftedUp(a: Archives, n: int, i: int): Archives
    decreases n - i
  {
    if i >= n then a else Renamed(ShiftedUp(a, n, i + 1), i, i + 1)
  }

  function Rotated(n: int, d: Disk): Disk {
    Disk([], ShiftedUp(d.archives - {n}, n, 1)[1 := d.live])
  }

  predicate Full(cfg: Config, d: Disk, p: Bytes) {
    cfg.maxBytes > 0 && |d.live| + |p| > cfg.maxBytes && |d.live| > 0
  }

  function Written(cfg: Config, d: Disk, p: Bytes): Disk {
    if Full(cfg, d, p) then Disk(p, Rotated(cfg.backups, d).archives) else d.(live := d.live + p)
  }

  function Run(cfg: Config, d: Disk, writes: seq<Bytes>): Disk
    decreases |writes|
  {
    if writes == [] then d else Run(cfg, Written(cfg, d, writes[0]), writes[1..])
  }

  /** Moving up: suffix i becomes free, i < k <= n holds what k - 1 held, and every
      other suffix is untouched. */
  lemma {:induction false} ShiftedUpAt(a: Archives, n: int, i: int, k: int)
    requires n !in a && i <= n
    ensures
      var b := ShiftedUp(a, n, i);
      if k == i then k !in b
      else
        var from := if i < k <= n then k - 1 else k;
        (k in b <==> from in a) && (k in b ==> b[k] == a[from])
    decreases n - i
  {
    if i < n {
      ShiftedUpAt(a, n, i + 1, k);
      ShiftedUpAt(a, n, i + 1, i);
    }
  }

  /** The writer; `live` and `archives` are the directory it works in. */
  class Writer {
    var live: Bytes
    var archives: map<int, Bytes>
    var size: int
    const cfg: Config

    predicate Valid()
      reads this
    {
      size == |live|
    }

    ghost function Snapshot(): Disk
      reads this
    {
      Disk(live, archives)
    }

    /** Opens for appending: an existing live file is kept. */
    constructor (cfg: Config, found: Disk)
      ensures Valid() && Snapshot() == found && this.cfg == cfg
    {
      this.cfg := cfg;
      live, archives := found.live, found.archives;
      size := |found.live|;
    }

    /** A rename of one numbered file to a suffix that is free. */
    method Rename(from: int, to: int)
      requires to !in archives
      modifies this`archives
      ensures archives == Renamed(old(archives), from, to)
    {
      if from in archives {
        var content := archives[from];
        archives := (archives - {from})[to := content];
      }
    }

    /** The live file becomes the first archive; with a positive limit that suffix is
        free as well. */
    method RetireLive()
      requires cfg.backups >= 1 ==> 1 !in archives
      modifies this
      ensures archives == old(archives)[1 := old(live)] && live == [] && size == 0
    {
      archives := archives[1 := live];
      live := [];
      size := 0;
    }

    /** Only what the limit's suffix held is given up. */
    method Rotate()
      requires Valid()
      modifies this
      ensures Valid() && Snapshot() == Rotated(cfg.backups, old(Snapshot()))
    {
      var n := cfg.backups;
      archives := archives - {n};
      ghost var start := archives;
      var i := n - 1;
      while i >= 1
        invariant i <= n - 1 && (n >= 1 ==> i >= 0)
        invariant live == old(live) && size == old(size)
        invariant archives == ShiftedUp(start, n, if n < 1 then n else i + 1)
      {
        ShiftedUpAt(start, n, i + 1, i + 1);
        Rename(i, i + 1);
        i := i - 1;
      }
      if n >= 1 { ShiftedUpAt(start, n, 1, 1); }
      RetireLive();
    }

    method Write(p: Bytes)
      requires Valid()
      modifies this
      ensures Valid() && Snapshot() == Written(cfg, old(Snapshot()), p)
    {
      if cfg.maxBytes > 0 && size + |p| > cfg.maxBytes && size > 0 {
        Rotate();
      }
      live := live + p;
      size := size + |p|;
    }
  }

  /** A write that fits, or that finds an empty file, is appended and nothing else
      moves; any other, under a limit, starts a new file. */
  lemma WritesThatFitAppend(cfg: Config, d: Disk, p: Bytes)
    ensures cfg.maxBytes <= 0 || |d.live| + |p| <= cfg.maxBytes || d.live == [] ==>
              Written(cfg, d, p) == Disk(d.live + p, d.archives)
    ensures 0 < cfg.maxBytes < |d.live| + |p| && d.live != [] ==> Written(cfg, d, p).live == p
  {
  }

  // --------------------------------------------------------------- what is kept

  function At(d: Disk, k: nat): Bytes {
    if k == 0 then d.live else if k in d.archives then d.archives[k] else []
  }

  /** Reading x.k, ..., x.1, x in that order; a missing file reads as nothing. */
  function Reading(d: Disk, k: nat): Bytes {
    if k == 0 then d.live else At(d, k) + Reading(d, k - 1)
  }

  function Flatten(writes: seq<Bytes>): Bytes {
    if writes == [] then [] else writes[0] + Flatten(writes[1..])
  }

  /** What one write gives up for good: the file under the limit's suffix. */
  function Lost(cfg: Config, d: Disk, p: Bytes): Bytes
    requires cfg.backups >= 1
  {
    if Full(cfg, d, p) then At(d, cfg.backups) else []
  }

  function AllLost(cfg: Config, d: Disk, writes: seq<Bytes>): Bytes
    requires cfg.backups >= 1
    decreases |writes|
  {
    if writes == [] then []
    else Lost(cfg, d, writes[0]) + AllLost(cfg, Written(cfg, d, writes[0]), writes[1..])
  }

  lemma RotatedAt(n: nat, d: Disk, k: nat)
    requires 1 <= k <= n
    ensures At(Rotated(n, d), k) == At(d, k - 1)
    ensures k in Rotated(n, d).archives <==> k == 1 || k - 1 in d.archives
  {
    ShiftedUpAt(d.archives - {n}, n, 1, k);
  }

  lemma {:induction false} ReadingAfterRotation(n: nat, d: Disk, p: Bytes, k: nat)
    requires 1 <= k <= n
    ensures Reading(Disk(p, Rotated(n, d).archives), k) == Reading(d, k - 1) + p
  {
    var t := Disk(p, Rotated(n, d).archives);
    RotatedAt(n, d, k);
    if k == 1 {
      assert Reading(t, 0) == p;
    } else {
      ReadingAfterRotation(n, d, p, k - 1);
      assert At(t, k) == At(d, k - 1);
    }
  }

  lemma {:induction false} ReadingAfterAppend(d: Disk, p: Bytes, k: nat)
    ensures Reading(d.(live := d.live + p), k) == Reading(d, k) + p
  {
    if k > 0 { ReadingAfterAppend(d, p, k - 1); }
  }

  lemma OneWrite(cfg: Config, d: Disk, p: Bytes)
    requires cfg.backups >= 1
    ensures Lost(cfg, d, p) + Reading(Written(cfg, d, p), cfg.backups) == Reading(d, cfg.backups) + p
  {
    if Full(cfg, d, p) {
      ReadingAfterRotation(cfg.backups, d, p, cfg.backups);
    } else {
      ReadingAfterAppend(d, p, cfg.backups);
    }
  }

  lemma Associate(a: Bytes, b: Bytes, c: Bytes)
    ensures (a + b) + c == a + (b + c)
  {
  }

  /** Nothing is lost but from the old end, and nothing reordered: from any starting
      directory, what was given up followed by x.N, ..., x.1, x is exactly what the
      files held at first followed by every write. */
  lemma {:induction false} FilesHoldASuffix(cfg: Config, d: Disk, writes: seq<Bytes>)
    requires cfg.backups >= 1
    ensures
      AllLost(cfg, d, writes) + Reading(Run(cfg, d, writes), cfg.backups)
      == Reading(d, cfg.backups) + Flatten(writes)
    decreases |writes|
  {
    if writes != [] {
      var p, rest := writes[0], writes[1..];
      var t := Written(cfg, d, p);
      OneWrite(cfg, d, p);
      FilesHoldASuffix(cfg, t, rest);
      var end := Reading(Run(cfg, t, rest), cfg.backups);
      Associate(Lost(cfg, d, p), AllLost(cfg, t, rest), end);
      Associate(Lost(cfg, d, p), Reading(t, cfg.backups), Flatten(rest));
      Associate(Reading(d, cfg.backups), p, Flatten(rest));
    }
  }

  // ------------------------------------------------------------------ file sizes

  predicate Holds(d: Disk, c: Bytes) {
    c == d.live || exists k :: k in d.archives && d.archives[k] == c
  }

  lemma HeldAfterWrite(cfg: Config, d: Disk, p: Bytes, c: Bytes)
    requires cfg.maxBytes > 0 && Holds(Written(cfg, d, p), c)
    ensures |c| <= cfg.maxBytes || c == p || Holds(d, c)
  {
    var t := Written(cfg, d, p);
    if c != t.live {
      var k :| k in t.archives && t.archives[k] == c;
      if Full(cfg, d, p) && k != 1 {
        var n := cfg.backups;
        if n >= 1 { ShiftedUpAt(d.archives - {n}, n, 1, k); }
      }
    }
  }

  /** With a positive limit every file is within it, holds a single write, or was
      there, as it is, before the writer started. */
  lemma {:induction false} FilesStayWithinTheLimit(cfg: Config, d: Disk, writes: seq<Bytes>, c: Bytes)
    requires cfg.maxBytes > 0 && Holds(Run(cfg, d, writes), c)
    ensures |c| <= cfg.maxBytes || c in writes || Holds(d, c)
    decreases |writes|
  {
    if writes != [] {
      var t := Written(cfg, d, writes[0]);
      FilesStayWithinTheLimit(cfg, t, writes[1..], c);
      if |c| > cfg.maxBytes && c !in writes { HeldAfterWrite(cfg, d, writes[0], c); }
    }
  }

  /** Without one the file is only ever appended to. */
  lemma {:induction false} NoLimitNeverRotates(cfg: Config, d: Disk, writes: seq<Bytes>)
    requires cfg.maxBytes <= 0
    ensures Run(cfg, d, writes) == d.(live := d.live + Flatten(writes))
    decreases |writes|
  {
    if writes == [] {
      assert d.live + [] == d.live;
    } else {
      NoLimitNeverRotates(cfg, Written(cfg, d, writes[0]), writes[1..]);
      assert d.live + writes[0] + Flatten(writes[1..]) == d.live + (writes[0] + Flatten(writes[1..]));
    }
  }

  // ------------------------------------------------------------- how many archives

  ghost predicate Within(d: Disk, n: int) {
    forall k :: k in d.archives ==> 1 <= k <= n
  }

  lemma {:induction false} StaysWithin(cfg: Config, d: Disk, writes: seq<Bytes>)
    requires cfg.backups >= 1 && Within(d, cfg.backups)
    ensures Within(Run(cfg, d, writes), cfg.backups)
    decreases |writes|
  {
    if writes != [] {
      var t := Written(cfg, d, writes[0]);
      if Full(cfg, d, writes[0]) {
        forall k | k in t.archives ensures 1 <= k <= cfg.backups {
          ShiftedUpAt(d.archives - {cfg.backups}, cfg.backups, 1, k);
        }
      }
      StaysWithin(cfg, t, writes[1..]);
    }
  }

  const FRESH := Disk([], map[])

  /** The promise that at most `backups` archives exist holds of every run from an
      empty directory exactly when there is at least one backup or no size limit:
      with none, a rotation still leaves a file under suffix 1. */
  lemma AtMostBackupsArchives(cfg: Config)
    ensures (forall writes :: Within(Run(cfg, FRESH, writes), cfg.backups)) <==> cfg.backups >= 1 || cfg.maxBytes <= 0
  {
    if cfg.maxBytes <= 0 {
      forall writes ensures Within(Run(cfg, FRESH, writes), cfg.backups) {
        NoLimitNeverRotates(cfg, FRESH, writes);
      }
    } else if cfg.backups >= 1 {
      forall writes ensures Within(Run(cfg, FRESH, writes), cfg.backups) {
        StaysWithin(cfg, FRESH, writes);
      }
    } else {
      var writes := OverflowWithoutBackups(cfg);
      assert !Within(Run(cfg, FRESH, writes), cfg.backups);
    }
  }

  lemma OverflowWithoutBackups(cfg: Config) returns (writes: seq<Bytes>)
    requires cfg.backups < 1 && cfg.maxBytes > 0
    ensures !Within(Run(cfg, FRESH, writes), cfg.backups)
  {
    var one: Bytes := [0];
    var full: Bytes := seq(cfg.maxBytes, _ => 0);
    writes := [one, full];
    var d1 := Written(cfg, FRESH, one);
    var d2 := Written(cfg, d1, full);
    assert d1.live == one && |full| == cfg.maxBytes;
    assert 1 in d2.archives;
    assert writes[1..] == [full] && [full][1..] == [];
    assert Run(cfg, FRESH, writes) == Run(cfg, d1, [full]);
    assert Run(cfg, d1, [full]) == Run(cfg, d2, []) == d2;
  }

  // --------------------------------------------------------- how much is retained

  /** No gaps, and no rotation came early: two neighbouring files exceed one limit. */
  predicate Packed(cfg: Config, d: Disk) {
    forall k :: 1 <= k <= cfg.backups && k in d.archives ==>
      (k == 1 || k - 1 in d.archives) && |At(d, k)| + |At(d, k - 1)| > cfg.maxBytes
  }

  lemma WriteKeepsPacked(cfg: Config, d: Disk, p: Bytes)
    requires cfg.backups >= 1 && Packed(cfg, d)
    ensures Packed(cfg, Written(cfg, d, p))
    ensures cfg.backups in d.archives || (Full(cfg, d, p) && cfg.backups == 1) ==>
        cfg.backups in Written(cfg, d, p).archives
    ensures Lost(cfg, d, p) != [] ==> cfg.backups in Written(cfg, d, p).archives
  {
    var t := Written(cfg, d, p);
    if Full(cfg, d, p) {
      RotatedAt(cfg.backups, d, cfg.backups);
      forall k | 1 <= k <= cfg.backups && k in t.archives
        ensures (k == 1 || k - 1 in t.archives) && |At(t, k)| + |At(t, k - 1)| > cfg.maxBytes
      {
        RotatedAt(cfg.backups, d, k);
        if k > 1 { RotatedAt(cfg.backups, d, k - 1); }
        assert At(t, 0) == p;
      }
    } else {
      forall k | 1 <= k <= cfg.backups && k in t.archives
        ensures (k == 1 || k - 1 in t.archives) && |At(t, k)| + |At(t, k - 1)| > cfg.maxBytes
      {
        assert At(t, k) == At(d, k) && |At(t, k - 1)| >= |At(d, k - 1)|;
      }
    }
  }

  lemma {:induction false} RunKeepsPacked(cfg: Config, d: Disk, writes: seq<Bytes>)
    requires cfg.backups >= 1 && Packed(cfg, d)
    ensures Packed(cfg, Run(cfg, d, writes))
    ensures cfg.backups in d.archives || AllLost(cfg, d, writes) != [] ==> cfg.backups in Run(cfg, d, writes).archives
    decreases |writes|
  {
    if writes != [] {
      WriteKeepsPacked(cfg, d, writes[0]);
      RunKeepsPacked(cfg, Written(cfg, d, writes[0]), writes[1..]);
    }
  }

  lemma {:induction false} PackedIsLong(cfg: Config, d: Disk, k: nat)
    requires cfg.maxBytes > 0 && k <= cfg.backups && Packed(cfg, d) && (k == 0 || k in d.archives)
    ensures |Reading(d, k)| >= (k + 1) / 2 * (cfg.maxBytes + 1)
  {
    if k >= 2 {
      assert k - 1 in d.archives && (k > 2 ==> k - 2 in d.archives);
      PackedIsLong(cfg, d, k - 2);
      assert (k + 1) / 2 == (k - 2 + 1) / 2 + 1;
      assert (k + 1) / 2 * (cfg.maxBytes + 1) == (k - 2 + 1) / 2 * (cfg.maxBytes + 1) + (cfg.maxBytes + 1);
      assert Reading(d, k) == At(d, k) + (At(d, k - 1) + Reading(d, k - 2));
    } else if k == 1 {
      assert Reading(d, 1) == At(d, 1) + Reading(d, 0);
      assert |Reading(d, 1)| == |At(d, 1)| + |At(d, 0)| >= cfg.maxBytes + 1;
      assert (k + 1) / 2 == 1;
    }
  }

  /** From an empty directory, by the time anything has been given up, and from then on,
      the N + 1 files hold more than one limit for each pair of neighbours. */
  lemma RetentionFloor(cfg: Config, writes: seq<Bytes>)
    requires cfg.maxBytes > 0 && cfg.backups >= 1
    requires AllLost(cfg, FRESH, writes) != []
    ensures |Reading(Run(cfg, FRESH, writes), cfg.backups)| >= (cfg.backups + 1) / 2 * (cfg.maxBytes + 1)
  {
    RunKeepsPacked(cfg, FRESH, writes);
    PackedIsLong(cfg, Run(cfg, FRESH, writes), cfg.backups);
  }
}
