/** What `split` means, as the texts it takes apart. */
module Texts {
  import opened Prelude

  /** The pieces with the separator between them. */
  function Joined(pieces: seq<string>, sep: char): string {
    if pieces == [] then "" else if |pieces| == 1 then pieces[0] else pieces[0] + [sep] + Joined(pieces[1..], sep)
  }

  lemma {:induction false} SplitWhole(s: string, sep: char)
    requires sep !in s
    ensures Split(s, sep) == [s]
  {
    if s != "" {
      SplitWhole(s[1..], sep);
      assert [s[0]] + s[1..] == s;
    }
  }

  lemma {:induction false} SplitFirst(a: string, b: string, sep: char)
    requires sep !in a
    ensures Split(a + [sep] + b, sep) == [a] + Split(b, sep)
  {
    var s := a + [sep] + b;
    if a == "" {
      assert s[1..] == b;
    } else {
      SplitFirst(a[1..], b, sep);
      assert s[1..] == a[1..] + [sep] + b && [a[0]] + a[1..] == a;
    }
  }

  /** Splitting undoes joining for pieces without the separator. */
  lemma {:induction false} SplitJoined(pieces: seq<string>, sep: char)
    requires pieces != [] && forall k :: 0 <= k < |pieces| ==> sep !in pieces[k]
    ensures Split(Joined(pieces, sep), sep) == pieces
  {
    if |pieces| == 1 {
      SplitWhole(pieces[0], sep);
    } else {
      SplitJoined(pieces[1..], sep);
      SplitFirst(pieces[0], Joined(pieces[1..], sep), sep);
    }
  }

  /** Joining undoes splitting. */
  lemma {:induction false} JoinedSplit(s: string, sep: char)
    ensures Joined(Split(s, sep), sep) == s
  {
    if s != "" {
      var rest := Split(s[1..], sep);
      JoinedSplit(s[1..], sep);
      if s[0] == sep {
        assert ([""] + rest)[1..] == rest;
      } else {
        assert ([[s[0]] + rest[0]] + rest[1..])[1..] == rest[1..];
      }
      assert [s[0]] + s[1..] == s;
    }
  }

  /** One more character in front of the pieces. */
  function Grown(c: char, sep: char, pieces: seq<string>): seq<string>
    requires pieces != []
  {
    if c == sep then [""] + pieces else [[c] + pieces[0]] + pieces[1..]
  }

  lemma GrownInFront(c: char, sep: char, front: seq<string>, back: seq<string>)
    requires front != []
    ensures Grown(c, sep, front + back) == Grown(c, sep, front) + back
  {
    var all := front + back;
    if c == sep {
      assert [""] + (front + back) == ([""] + front) + back;
    } else {
      assert all[0] == front[0] && all[1..] == front[1..] + back;
      assert [[c] + front[0]] + (front[1..] + back) == ([[c] + front[0]] + front[1..]) + back;
    }
  }

  lemma SplitGrows(s: string, sep: char)
    requires s != ""
    ensures Split(s, sep) == Grown(s[0], sep, Split(s[1..], sep))
  {
  }

  lemma {:induction false} SplitBoth(a: string, b: string, sep: char)
    ensures Split(a + [sep] + b, sep) == Split(a, sep) + Split(b, sep)
  {
    hide Grown, Split;
    var s := a + [sep] + b;
    if a == "" {
      SplitFirst("", b, sep);
      assert s == "" + [sep] + b && Split("", sep) == [""] by { SplitWhole("", sep); }
    } else {
      SplitBoth(a[1..], b, sep);
      assert s[1..] == a[1..] + [sep] + b && s[0] == a[0];
      SplitGrows(s, sep);
      SplitGrows(a, sep);
      GrownInFront(a[0], sep, Split(a[1..], sep), Split(b, sep));
    }
  }

  /** A piece stands between separators or the ends. */
  predicate StandsIn(s: string, piece: string, sep: char, a: string, b: string) {
    s == a + piece + b && (a != "" ==> a[|a| - 1] == sep) && (b != "" ==> b[0] == sep)
  }

  lemma StandingIsAPiece(s: string, piece: string, sep: char, a: string, b: string)
    requires sep !in piece && StandsIn(s, piece, sep, a, b)
    ensures piece in Split(s, sep)
  {
    FirstPiece(piece, sep, b);
    if a == "" {
      assert s == piece + b;
    } else {
      var front := a[..|a| - 1];
      assert a == front + [sep] && s == front + [sep] + (piece + b);
      SplitBoth(front, piece + b, sep);
    }
  }

  lemma FirstPiece(piece: string, sep: char, b: string)
    requires sep !in piece && (b != "" ==> b[0] == sep)
    ensures Split(piece + b, sep)[0] == piece
  {
    if b == "" {
      SplitWhole(piece, sep);
      assert piece + b == piece;
    } else {
      SplitFirst(piece, b[1..], sep);
      assert piece + b == piece + [sep] + b[1..];
    }
  }

  lemma {:induction false} PieceStands(s: string, piece: string, sep: char) returns (a: string, b: string)
    requires piece in Split(s, sep)
    ensures StandsIn(s, piece, sep, a, b)
    decreases |s|
  {
    hide Split, Joined;
    var pieces := Split(s, sep);
    if |pieces| == 1 {
      WholePiece(s, sep);
      a, b := "", "";
      assert s == a + piece + b;
    } else {
      var rest := FirstAndRest(s, sep);
      if pieces[0] == piece {
        a, b := "", [sep] + rest;
        assert s == a + piece + b;
      } else {
        var a', b' := PieceStands(rest, piece, sep);
        a, b := pieces[0] + [sep] + a', b';
        assert s == a + piece + b;
      }
    }
  }

  lemma WholePiece(s: string, sep: char)
    requires |Split(s, sep)| == 1
    ensures Split(s, sep) == [s]
  {
    JoinedSplit(s, sep);
  }

  lemma FirstAndRest(s: string, sep: char) returns (rest: string)
    requires |Split(s, sep)| > 1
    ensures s == Split(s, sep)[0] + [sep] + rest && Split(rest, sep) == Split(s, sep)[1..]
  {
    var pieces := Split(s, sep);
    JoinedSplit(s, sep);
    rest := Joined(pieces[1..], sep);
    SplitJoined(pieces[1..], sep);
  }
}
