/** Small vocabulary shared by every part of the model. */
module Prelude {

  datatype Option<+T> = None | Some(value: T)

  datatype Result<+T, +E> = Ok(value: T) | Err(error: E)

  /** Identifiers and fresh secrets. */
  type Id = nat

  /** Instants are whole microseconds, the resolution of the source's clocks. */
  type Instant = int

  const SECOND: int := 1_000_000

  function Min(a: int, b: int): int { if a <= b then a else b }

  function Max(a: int, b: int): int { if a <= b then b else a }

  predicate Digit(c: char) { '0' <= c <= '9' }

  /** Strictly, so without repetitions. */
  predicate Ascending(ids: seq<nat>) {
    forall i, j :: 0 <= i < j < |ids| ==> ids[i] < ids[j]
  }

  /** `s.split(sep)`: the pieces between separators, never an empty list. */
  function Split(s: string, sep: char): (pieces: seq<string>)
    ensures pieces != []
    ensures forall k :: 0 <= k < |pieces| ==> sep !in pieces[k]
  {
    if s == [] then [""]
    else
      var rest := Split(s[1..], sep);
      if s[0] == sep then [""] + rest else [[s[0]] + rest[0]] + rest[1..]
  }

  function Count(s: string, c: char): nat {
    if s == [] then 0 else (if s[0] == c then 1 else 0) + Count(s[1..], c)
  }

  lemma {:induction false} CountConcat(a: string, b: string, c: char)
    ensures Count(a + b, c) == Count(a, c) + Count(b, c)
  {
    if a == [] {
      assert a + b == b;
    } else {
      assert (a + b)[1..] == a[1..] + b;
      CountConcat(a[1..], b, c);
    }
  }

  lemma {:induction false} CountZero(s: string, c: char)
    ensures Count(s, c) == 0 <==> c !in s
  {
    if s != [] { CountZero(s[1..], c); }
  }

  /** The list without repetitions: an element stays where nothing equal precedes it. */
  function FirstOccurrences<T(==)>(xs: seq<T>): seq<T> {
    if xs == [] then []
    else
      var last := |xs| - 1;
      FirstOccurrences(xs[..last]) + (if xs[last] in xs[..last] then [] else [xs[last]])
  }

  lemma {:induction false} FirstOccurrencesMembers<T>(xs: seq<T>, y: T)
    ensures y in FirstOccurrences(xs) <==> y in xs
  {
    if xs != [] {
      var last := |xs| - 1;
      FirstOccurrencesMembers(xs[..last], y);
      assert xs == xs[..last] + [xs[last]];
    }
  }

  lemma FirstOccurrencesSnoc<T>(xs: seq<T>, y: T)
    ensures FirstOccurrences(xs + [y]) == FirstOccurrences(xs) + (if y in FirstOccurrences(xs) then [] else [y])
  {
    assert (xs + [y])[..|xs|] == xs;
    FirstOccurrencesMembers(xs, y);
  }
}
