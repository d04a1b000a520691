/** Cursor-based shipping of the audit tables (server/src/hyproxy/audit/shipping.py).

    A row is its id: ids are positive, and the projection of a row to a record is a
    function of the row. */
module LogShipping {
  import opened Prelude

  type Ids = seq<nat>

  // --------------------------------------------------------------- one stream

  /** Rows past a cursor, in id order. */
  function Above(rows: Ids, cursor: nat): Ids {
    if rows == [] then []
    else (if rows[0] > cursor then [rows[0]] else []) + Above(rows[1..], cursor)
  }

  function Batch(rows: Ids, cursor: nat, size: nat): Ids {
    var past := Above(rows, cursor);
    past[..Min(|past|, size)]
  }

  function Last(batch: Ids, cursor: nat): nat {
    if batch == [] then cursor else batch[|batch| - 1]
  }

  /** A row committed with its id, kept in id order as the query orders it. */
  function Inserted(rows: Ids, id: nat): Ids {
    if rows == [] || id < rows[0] then [id] + rows
    else [rows[0]] + Inserted(rows[1..], id)
  }

  /** A table with its cursor, what the sink received from it, and two histories: the
      batches of successful calls end to end, and the ids that were committed when the
      cursor had already passed them. */
  datatype Stream = Stream(rows: Ids, cursor: nat, sink: Ids, delivered: Ids, late: set<nat>)

  const EMPTY := Stream([], 0, [], [], {})

  function Commit(s: Stream, id: nat): Stream {
    if id == 0 || id in s.rows then s
    else s.(rows := Inserted(s.rows, id), late := if id <= s.cursor then s.late + {id} else s.late)
  }

  function Emitted(s: Stream, size: nat, count: nat): Stream {
    var batch := Batch(s.rows, s.cursor, size);
    s.(sink := s.sink + batch[..Min(|batch|, count)])
  }

  function Advanced(s: Stream, size: nat): Stream {
    var batch := Batch(s.rows, s.cursor, size);
    s.(sink := s.sink + batch, cursor := Last(batch, s.cursor), delivered := s.delivered + batch)
  }

  // ------------------------------------------------------------ the whole call

  /** How far the sink got with each stream before it raised, if it did: the records of
      the failing stream it took, everything of the streams before it. */
  datatype Fault = Fault(stream: nat, taken: nat)

  /** What one action does to the stream at one position of the list. */
  function StreamStep(s: Stream, position: nat, streams: nat, a: Action): Stream {
    match a
    case CommitRow(i, id) => if i == position then Commit(s, id) else s
    case Call(size, fault) =>
      if fault.None? || fault.value.stream >= streams then Advanced(s, size)
      else if position < fault.value.stream then Emitted(s, size, size)
      else if position == fault.value.stream then Emitted(s, size, fault.value.taken)
      else s
  }

  datatype Action =
    | CommitRow(stream: nat, id: nat)
    | Call(size: nat, fault: Option<Fault>)

  function Step(ss: seq<Stream>, a: Action): seq<Stream> {
    seq(|ss|, i requires 0 <= i < |ss| => StreamStep(ss[i], i, |ss|, a))
  }

  lemma WholeBatch(s: Stream, size: nat)
    ensures Emitted(s, size, size).sink == Advanced(s, size).sink
  {
    var batch := Batch(s.rows, s.cursor, size);
    assert batch[..Min(|batch|, size)] == batch;
  }

  /** The shipper over its streams. An exception from the sink rolls the cursors of the
      whole call back; what the sink took before, it keeps. */
  class Shipper {
    var tables: seq<Ids>
    var cursors: seq<nat>
    var sinks: seq<Ids>
    ghost var delivered: seq<Ids>
    ghost var late: seq<set<nat>>

    ghost predicate Valid()
      reads this
    {
      |tables| == |cursors| == |sinks| == |delivered| == |late|
    }

    ghost function Snapshot(): seq<Stream>
      reads this
      requires Valid()
    {
      seq(|tables|, i requires 0 <= i < |tables| reads this requires Valid() =>
            Stream(tables[i], cursors[i], sinks[i], delivered[i], late[i]))
    }

    constructor (streams: nat)
      ensures Valid() && Snapshot() == seq(streams, _ => EMPTY)
    {
      tables := seq(streams, _ => []);
      cursors := seq(streams, _ => 0);
      sinks := seq(streams, _ => []);
      delivered := seq(streams, _ => []);
      late := seq(streams, _ => {});
    }

    method Ship(size: nat, fault: Option<Fault>) returns (ok: bool)
      requires Valid()
      modifies this
      ensures Valid() && Snapshot() == Step(old(Snapshot()), Call(size, fault))
      ensures ok <==> fault.None? || fault.value.stream >= |tables|
    {
      var saved := cursors;
      ghost var before := Snapshot();
      for i := 0 to |tables|
        invariant Valid() && tables == old(tables) && late == old(late) && |sinks| == |old(sinks)|
        invariant fault.Some? ==> i <= fault.value.stream
        invariant forall k :: i <= k < |tables| ==>
                    cursors[k] == old(cursors)[k] && sinks[k] == old(sinks)[k] && delivered[k] == old(delivered)[k]
        invariant forall k :: 0 <= k < i ==>
                    Stream(tables[k], cursors[k], sinks[k], delivered[k], late[k]) == Advanced(before[k], size)
      {
        var batch := Batch(tables[i], cursors[i], size);
        if fault.Some? && fault.value.stream == i {
          sinks := sinks[i := sinks[i] + batch[..Min(|batch|, fault.value.taken)]];
          cursors := saved;
          delivered := old(delivered);
          forall k | 0 <= k < i ensures sinks[k] == Emitted(before[k], size, size).sink {
            WholeBatch(before[k], size);
          }
          return false;
        }
        if batch != [] {
          sinks := sinks[i := sinks[i] + batch];
          cursors := cursors[i := batch[|batch| - 1]];
          delivered := delivered[i := delivered[i] + batch];
        } else {
          assert sinks[i] + [] == sinks[i] && delivered[i] + [] == delivered[i];
        }
      }
      return true;
    }
  }

  /** What a call does to each stream: the sink gets its batch, of the failing stream
      only what was taken and of those behind it nothing, and the cursors move only if
      the whole call succeeds. */
  lemma CallsAppend(ss: seq<Stream>, size: nat, fault: Option<Fault>, i: nat)
    requires i < |ss|
    ensures
      var s, t := ss[i], Step(ss, Call(size, fault))[i];
      var batch := Batch(s.rows, s.cursor, size);
      var failed := fault.Some? && fault.value.stream < |ss|;
      var taken := if !failed || i < fault.value.stream then |batch|
                   else if i == fault.value.stream then Min(|batch|, fault.value.taken) else 0;
      && t.sink == s.sink + batch[..taken] && t.rows == s.rows
      && t.cursor == (if failed || batch == [] then s.cursor else batch[|batch| - 1])
  {
    var batch := Batch(ss[i].rows, ss[i].cursor, size);
    assert batch[..|batch|] == batch && batch[..0] == [] && ss[i].sink + [] == ss[i].sink;
  }

  // --------------------------------------------------------------------- runs

  function Run(ss: seq<Stream>, actions: seq<Action>): seq<Stream>
    decreases |actions|
  {
    if actions == [] then ss else Run(Step(ss, actions[0]), actions[1..])
  }

  function StreamRun(s: Stream, position: nat, streams: nat, actions: seq<Action>): Stream
    decreases |actions|
  {
    if actions == [] then s
    else StreamRun(StreamStep(s, position, streams, actions[0]), position, streams, actions[1..])
  }

  lemma {:induction false} RunIsPerStream(ss: seq<Stream>, actions: seq<Action>, i: nat)
    requires i < |ss|
    ensures |Run(ss, actions)| == |ss|
    ensures Run(ss, actions)[i] == StreamRun(ss[i], i, |ss|, actions)
    decreases |actions|
  {
    if actions != [] {
      var tt := Step(ss, actions[0]);
      assert |tt| == |ss| && tt[i] == StreamStep(ss[i], i, |ss|, actions[0]);
      RunIsPerStream(tt, actions[1..], i);
    }
  }

  /** The accounting of one stream: a row at or below the cursor reached the sink, in
      exactly one successful batch and in id order, unless it was committed late. */
  ghost predicate Accounted(s: Stream) {
    && Ascending(s.rows) && Ascending(s.delivered) && s.cursor == Last(s.delivered, 0)
    && (forall id :: id in s.rows ==> id > 0)
    && (forall id :: id in s.delivered ==> id in s.rows && id <= s.cursor && id in s.sink)
    && (forall id :: id in s.late ==> id in s.rows && id <= s.cursor && id !in s.sink)
    && (forall id :: id in s.rows && id <= s.cursor && id !in s.late ==> id in s.delivered)
    && (forall id :: id in s.sink ==> id in s.rows)
  }

  lemma AscendingTail(rows: Ids)
    requires Ascending(rows) && rows != []
    ensures Ascending(rows[1..]) && rows == [rows[0]] + rows[1..]
    ensures forall id :: id in rows[1..] ==> rows[0] < id
  {
    var rest := rows[1..];
    forall i, j | 0 <= i < j < |rest| ensures rest[i] < rest[j] { assert rows[i + 1] < rows[j + 1]; }
    forall id | id in rest ensures rows[0] < id {
      var j :| 0 <= j < |rest| && rest[j] == id;
      assert rows[0] < rows[j + 1];
    }
  }

  lemma AscendingCons(x: nat, rest: Ids)
    requires Ascending(rest) && forall id :: id in rest ==> x < id
    ensures Ascending([x] + rest)
  {
    var rows := [x] + rest;
    forall i, j | 0 <= i < j < |rows| ensures rows[i] < rows[j] {
      assert rows[j] == rest[j - 1] && rest[j - 1] in rest;
    }
  }

  /** An ascending list is cut at a position by the value just before it. */
  lemma AscendingCut(rows: Ids, m: nat)
    requires Ascending(rows) && 1 <= m <= |rows|
    ensures Ascending(rows[..m]) && Ascending(rows[m..])
    ensures forall id :: id in rows[..m] <==> id in rows && id <= rows[m - 1]
    ensures forall id :: id in rows[m..] <==> id in rows && id > rows[m - 1]
  {
    var low, high := rows[..m], rows[m..];
    forall i, j | 0 <= i < j < |high| ensures high[i] < high[j] { assert rows[m + i] < rows[m + j]; }
    forall id | id in rows
      ensures id in low <==> id <= rows[m - 1]
      ensures id in high <==> id > rows[m - 1]
    {
      var j :| 0 <= j < |rows| && rows[j] == id;
      assert j < m ==> low[j] == id && rows[j] <= rows[m - 1];
      assert j >= m ==> high[j - m] == id && rows[j] > rows[m - 1];
      assert forall k :: 0 <= k < |low| ==> low[k] <= rows[m - 1];
      assert forall k :: 0 <= k < |high| ==> high[k] > rows[m - 1];
    }
  }

  lemma {:induction false} AboveIs(rows: Ids, cursor: nat)
    requires Ascending(rows)
    ensures Ascending(Above(rows, cursor))
    ensures forall id :: id in Above(rows, cursor) <==> id in rows && id > cursor
  {
    if rows != [] {
      AscendingTail(rows);
      AboveIs(rows[1..], cursor);
      AscendingCons(rows[0], Above(rows[1..], cursor));
    }
  }

  lemma {:induction false} InsertedIs(rows: Ids, id: nat)
    requires Ascending(rows) && id !in rows
    ensures Ascending(Inserted(rows, id))
    ensures forall k :: k in Inserted(rows, id) <==> k == id || k in rows
  {
    if rows == [] {
    } else if id < rows[0] {
      AscendingTail(rows);
      AscendingCons(id, rows);
    } else {
      AscendingTail(rows);
      InsertedIs(rows[1..], id);
      AscendingCons(rows[0], Inserted(rows[1..], id));
    }
  }

  /** A batch is the low end of the rows past the cursor. */
  lemma BatchIs(rows: Ids, cursor: nat, size: nat)
    requires Ascending(rows)
    ensures
      var batch := Batch(rows, cursor, size);
      && Ascending(batch) && Last(batch, cursor) >= cursor
      && forall id :: id in batch <==> id in rows && cursor < id <= Last(batch, cursor)
  {
    AboveIs(rows, cursor);
    var past := Above(rows, cursor);
    var m := Min(|past|, size);
    if m > 0 {
      AscendingCut(past, m);
      assert past[m - 1] in past;
    }
  }

  lemma CommitKeeps(s: Stream, id: nat)
    requires Accounted(s)
    ensures Accounted(Commit(s, id))
  {
    if id != 0 && id !in s.rows { InsertedIs(s.rows, id); }
  }

  lemma EmittedKeeps(s: Stream, size: nat, count: nat)
    requires Accounted(s)
    ensures Accounted(Emitted(s, size, count))
  {
    BatchIs(s.rows, s.cursor, size);
    var batch := Batch(s.rows, s.cursor, size);
    var part := batch[..Min(|batch|, count)];
    forall id | id in part ensures id in batch {
      var j :| 0 <= j < |part| && part[j] == id;
      assert batch[j] == id;
    }
  }

  lemma AdvancedKeeps(s: Stream, size: nat)
    requires Accounted(s)
    ensures Accounted(Advanced(s, size))
  {
    BatchIs(s.rows, s.cursor, size);
    var batch := Batch(s.rows, s.cursor, size);
    var t := Advanced(s, size);
    forall id | id in batch ensures id <= t.cursor {
      var j :| 0 <= j < |batch| && batch[j] == id;
      if j < |batch| - 1 { assert batch[j] < batch[|batch| - 1]; }
    }
    forall i, j | 0 <= i < j < |t.delivered| ensures t.delivered[i] < t.delivered[j] {
      if i < |s.delivered| <= j {
        assert s.delivered[i] in s.delivered && batch[j - |s.delivered|] in batch;
      }
    }
    assert batch == [] ==> t.delivered == s.delivered;
  }

  lemma StepKeeps(s: Stream, position: nat, streams: nat, a: Action)
    requires Accounted(s)
    ensures Accounted(StreamStep(s, position, streams, a))
  {
    match a
    case CommitRow(k, id) => CommitKeeps(s, id);
    case Call(size, fault) =>
      if fault.None? || fault.value.stream >= streams { AdvancedKeeps(s, size); }
      else if position < fault.value.stream { EmittedKeeps(s, size, size); }
      else if position == fault.value.stream { EmittedKeeps(s, size, fault.value.taken); }
  }

  lemma {:induction false} RunKeeps(s: Stream, position: nat, streams: nat, actions: seq<Action>)
    requires Accounted(s)
    ensures Accounted(StreamRun(s, position, streams, actions))
    decreases |actions|
  {
    if actions != [] {
      StepKeeps(s, position, streams, actions[0]);
      RunKeeps(StreamStep(s, position, streams, actions[0]), position, streams, actions[1..]);
    }
  }

  // ------------------------------------------------------------ main results

  function Fresh(streams: nat): seq<Stream> { seq(streams, _ => EMPTY) }

  /** After any interleaving of commits in any id order, successful calls and calls the
      sink fails at any point: a row at or below its stream's cursor reached the sink
      if and only if it was not committed behind the cursor. The batches of successful
      calls, end to end, are exactly those rows in strictly ascending order, so nothing
      is delivered twice by them, and the sink never received a record with no row. */
  lemma CursorTellsWhatReachedTheSink(streams: nat, actions: seq<Action>, i: nat)
    requires i < streams
    ensures |Run(Fresh(streams), actions)| == streams
    ensures
      var s := Run(Fresh(streams), actions)[i];
      && (forall id :: id in s.rows && id <= s.cursor ==> (id in s.sink <==> id !in s.late))
      && (forall id :: id in s.delivered <==> id in s.rows && id <= s.cursor && id !in s.late)
      && Ascending(s.delivered)
      && (forall id :: id in s.sink ==> id in s.rows)
  {
    RunIsPerStream(Fresh(streams), actions, i);
    RunKeeps(EMPTY, i, streams, actions);
  }

  /** A row committed behind the cursor stays unshipped in every continuation. */
  lemma {:induction false} LateRowsAreNeverShipped(s: Stream, position: nat, streams: nat, actions: seq<Action>,
      id: nat)
    requires Accounted(s) && id in s.late
    ensures id in StreamRun(s, position, streams, actions).late
    ensures id !in StreamRun(s, position, streams, actions).sink
    decreases |actions|
  {
    if actions != [] {
      StepKeeps(s, position, streams, actions[0]);
      LateRowsAreNeverShipped(StreamStep(s, position, streams, actions[0]), position, streams, actions[1..], id);
    }
  }

  /** And such rows occur: commit 2, ship, commit 1. */
  lemma LateRowsHappen() returns (actions: seq<Action>)
    ensures |Run(Fresh(1), actions)| == 1 && 1 in Run(Fresh(1), actions)[0].late
  {
    var first, ship, second := CommitRow(0, 2), Call(1, None), CommitRow(0, 1);
    actions := [first, ship, second];
    var s1 := StreamStep(EMPTY, 0, 1, first);
    var s2 := StreamStep(s1, 0, 1, ship);
    assert s1.rows == [2];
    AboveIs(s1.rows, 0);
    assert Above([2], 0) == [2] + Above([2][1..], 0) == [2];
    assert s2.cursor == 2 && s2.rows == [2];
    assert actions[1..] == [ship, second] && [ship, second][1..] == [second] && [second][1..] == [];
    var s3 := StreamStep(s2, 0, 1, second);
    assert 1 in s3.late;
    assert StreamRun(s2, 0, 1, [second]) == StreamRun(s3, 0, 1, []) == s3;
    assert StreamRun(s1, 0, 1, [ship, second]) == StreamRun(s2, 0, 1, [second]);
    assert StreamRun(EMPTY, 0, 1, actions) == StreamRun(s1, 0, 1, [ship, second]);
    RunIsPerStream(Fresh(1), actions, 0);
  }

  /** Every commit's id is above every id its table already has. */
  predicate InCommitOrder(s: Stream, position: nat, streams: nat, actions: seq<Action>)
    decreases |actions|
  {
    actions == []
    || ((actions[0].CommitRow? && actions[0].stream == position ==> forall id :: id in s.rows ==> id < actions[0].id)
        && InCommitOrder(StreamStep(s, position, streams, actions[0]), position, streams, actions[1..]))
  }

  lemma {:induction false} CommitOrderIsNeverLate(s: Stream, position: nat, streams: nat, actions: seq<Action>)
    requires Accounted(s) && s.late == {} && InCommitOrder(s, position, streams, actions)
    ensures StreamRun(s, position, streams, actions).late == {}
    decreases |actions|
  {
    if actions != [] {
      StepKeeps(s, position, streams, actions[0]);
      if s.delivered != [] { assert s.cursor in s.delivered; }
      CommitOrderIsNeverLate(StreamStep(s, position, streams, actions[0]), position, streams, actions[1..]);
    }
  }

  /** Two ascending lists with the same members are the same list. */
  lemma {:induction false} AscendingUnique(a: Ids, b: Ids)
    requires Ascending(a) && Ascending(b) && forall id :: id in a <==> id in b
    ensures a == b
  {
    assert a != [] ==> a[0] in a;
    assert b != [] ==> b[0] in b;
    if a != [] && b != [] {
      AscendingTail(a);
      AscendingTail(b);
      assert a[0] == b[0];
      forall id ensures id in a[1..] <==> id in b[1..] {
        assert id in a[1..] <==> id in a && id != a[0];
        assert id in b[1..] <==> id in b && id != b[0];
      }
      AscendingUnique(a[1..], b[1..]);
    }
  }

  function UpTo(rows: Ids, cursor: nat): Ids {
    if rows == [] then []
    else (if rows[0] <= cursor then [rows[0]] else []) + UpTo(rows[1..], cursor)
  }

  lemma {:induction false} EverythingAbove(rows: Ids, cursor: nat)
    requires forall id :: id in rows ==> id > cursor
    ensures Above(rows, cursor) == rows && UpTo(rows, cursor) == []
  {
    if rows != [] {
      assert rows == [rows[0]] + rows[1..] && rows[0] in rows;
      assert forall id :: id in rows[1..] ==> id in rows;
      EverythingAbove(rows[1..], cursor);
    }
  }

  lemma {:induction false} UpToIs(rows: Ids, cursor: nat)
    requires Ascending(rows)
    ensures Ascending(UpTo(rows, cursor))
    ensures forall k :: k in UpTo(rows, cursor) <==> k in rows && k <= cursor
  {
    if rows != [] {
      AscendingTail(rows);
      UpToIs(rows[1..], cursor);
      AscendingCons(rows[0], UpTo(rows[1..], cursor));
    }
  }

  lemma {:induction false} CursorSplitsTheTable(rows: Ids, cursor: nat)
    requires Ascending(rows)
    ensures rows == UpTo(rows, cursor) + Above(rows, cursor)
  {
    if rows != [] {
      AscendingTail(rows);
      if rows[0] > cursor {
        assert forall id :: id in rows ==> id > cursor;
        EverythingAbove(rows, cursor);
      } else {
        CursorSplitsTheTable(rows[1..], cursor);
      }
    }
  }

  lemma DeliveredPrefix(s: Stream)
    requires Accounted(s) && s.late == {}
    ensures s.delivered <= s.rows && s.rows == s.delivered + Above(s.rows, s.cursor)
  {
    CursorSplitsTheTable(s.rows, s.cursor);
    UpToIs(s.rows, s.cursor);
    AscendingUnique(s.delivered, UpTo(s.rows, s.cursor));
  }

  /** With ids committed in order, the batches of successful calls concatenate to a
      prefix of the table: everything up to the cursor. */
  lemma DeliveredIsATablePrefix(streams: nat, actions: seq<Action>, i: nat)
    requires i < streams && InCommitOrder(EMPTY, i, streams, actions)
    ensures |Run(Fresh(streams), actions)| == streams
    ensures
      var s := Run(Fresh(streams), actions)[i];
      s.delivered <= s.rows && s.rows == s.delivered + Above(s.rows, s.cursor)
  {
    RunIsPerStream(Fresh(streams), actions, i);
    RunKeeps(EMPTY, i, streams, actions);
    CommitOrderIsNeverLate(EMPTY, i, streams, actions);
    DeliveredPrefix(StreamRun(EMPTY, i, streams, actions));
  }

  function Successes(streams: nat, actions: seq<Action>): nat {
    if actions == [] then 0
    else
      Successes(streams, actions[1..])
      + if Success(streams, actions[0]) then 1 else 0
  }

  lemma AboveAfterBatch(rows: Ids, cursor: nat, size: nat)
    requires Ascending(rows)
    ensures |Above(rows, Last(Batch(rows, cursor, size), cursor))| == Max(|Above(rows, cursor)| - size, 0)
  {
    AboveIs(rows, cursor);
    var past := Above(rows, cursor);
    var m := Min(|past|, size);
    if m > 0 {
      AscendingCut(past, m);
      AboveIs(rows, past[m - 1]);
      assert past[m - 1] in past;
      AscendingUnique(past[m..], Above(rows, past[m - 1]));
    }
  }

  predicate Success(streams: nat, a: Action) {
    a.Call? && (a.fault.None? || a.fault.value.stream >= streams)
  }

  /** `end` is `start` with that many full batches more behind its cursor. */
  predicate DrainedBy(start: Stream, end: Stream, batches: nat, size: nat) {
    end.rows == start.rows
    && |Above(end.rows, end.cursor)| == Max(|Above(start.rows, start.cursor)| - batches * size, 0)
  }

  lemma OneMoreBatch(start: Stream, mid: Stream, end: Stream, m: nat, k: nat, size: nat)
    requires m <= 1 && DrainedBy(start, mid, m, size) && DrainedBy(mid, end, k, size)
    ensures DrainedBy(start, end, k + m, size)
  {
    assert k * size >= 0;
    assert (k + 1) * size == k * size + size;
  }

  predicate CallsOf(actions: seq<Action>, size: nat) {
    actions == [] || (actions[0].Call? && actions[0].size == size && CallsOf(actions[1..], size))
  }

  /** A table nothing is added to drains at exactly one batch a successful call,
      however many failing calls come between: what is left past the cursor is what
      was there less the batch size for each success, so finitely many calls drain any
      table exactly when the batch size is positive. */
  lemma {:induction false} CallsDrain(s: Stream, position: nat, streams: nat, actions: seq<Action>, size: nat)
    requires Accounted(s) && CallsOf(actions, size)
    ensures DrainedBy(s, StreamRun(s, position, streams, actions), Successes(streams, actions), size)
    decreases |actions|
  {
    if actions != [] {
      var a, rest := actions[0], actions[1..];
      var t := StreamStep(s, position, streams, a);
      StepKeeps(s, position, streams, a);
      AboveAfterBatch(s.rows, s.cursor, size);
      CallsDrain(t, position, streams, rest, size);
      OneMoreBatch(s, t, StreamRun(t, position, streams, rest),
                   if Success(streams, a) then 1 else 0, Successes(streams, rest), size);
    }
  }
}
