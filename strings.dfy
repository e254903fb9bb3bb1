/** The option type used wherever the source has an optional field or a lookup that may miss. */
module Options {
  datatype Option<+T> = None | Some(value: T)
}

/**
 * The string operations the pages rely on, written for ASCII text:
 * `toLowerCase`, `includes`, `split` with a string separator, and the
 * global replacement of one character by another.
 */
module Strings {

  /** ASCII case folding of one character; every other character is kept. */
  function LowerChar(c: char): char
  {
    if 'A' <= c <= 'Z' then (c as int + 32) as char else c
  }

  /** `s.toLowerCase()`, restricted to ASCII letters. */
  function Lower(s: string): (r: string)
    ensures |r| == |s|
    ensures forall i :: 0 <= i < |r| ==> !('A' <= r[i] <= 'Z') && (r[i] == s[i] <==> !('A' <= s[i] <= 'Z'))
    ensures forall i :: 0 <= i < |s| && 'A' <= s[i] <= 'Z' ==> r[i] as int == s[i] as int + 32
  {
    seq(|s|, i requires 0 <= i < |s| => LowerChar(s[i]))
  }

  /** The two strings spell the same text once ASCII case is ignored. */
  predicate SameIgnoringCase(a: string, b: string)
  {
    |a| == |b| && forall i :: 0 <= i < |a| ==> LowerChar(a[i]) == LowerChar(b[i])
  }

  /** `s.replace(/from/g, to)` for a single character `from`. */
  function ReplaceAll(s: string, from: char, to: char): string
  {
    seq(|s|, i requires 0 <= i < |s| => if s[i] == from then to else s[i])
  }

  /** `needle` occurs in `hay` starting at position `i`. */
  predicate OccursAt(hay: string, needle: string, i: int)
  {
    0 <= i && i + |needle| <= |hay| && hay[i..i + |needle|] == needle
  }

  /** `hay.includes(needle)`: try every starting position from the left. */
  function Includes(hay: string, needle: string): (b: bool)
    ensures b ==> |needle| <= |hay|
    decreases |hay|
  {
    needle <= hay || (hay != [] && Includes(hay[1..], needle))
  }

  /** An occurrence in the tail is an occurrence one position further in the whole. */
  lemma OccursShift(hay: string, needle: string, i: int)
    requires hay != [] && 0 <= i
    ensures OccursAt(hay[1..], needle, i) <==> OccursAt(hay, needle, i + 1)
  {
    if i + |needle| <= |hay| - 1 {
      assert hay[1..][i..i + |needle|] == hay[i + 1..i + 1 + |needle|];
    }
  }

  /** An occurrence at position 0 is a prefix. */
  lemma OccursAtStart(hay: string, needle: string)
    ensures OccursAt(hay, needle, 0) <==> needle <= hay
  {
    if |needle| <= |hay| {
      assert hay[0..|needle|] == hay[..|needle|];
    }
  }

  /** `includes` holds exactly when the needle occurs at some position. */
  lemma {:induction false} IncludesIff(hay: string, needle: string)
    ensures Includes(hay, needle) <==> exists i :: OccursAt(hay, needle, i)
    decreases |hay|
  {
    OccursAtStart(hay, needle);
    if needle <= hay {
      assert OccursAt(hay, needle, 0);
    } else if hay == [] {
      forall i ensures !OccursAt(hay, needle, i) {
        if i != 0 && 0 <= i {
          assert i + |needle| > |hay|;
        }
      }
    } else {
      IncludesIff(hay[1..], needle);
      if Includes(hay[1..], needle) {
        var i :| OccursAt(hay[1..], needle, i);
        OccursShift(hay, needle, i);
      } else {
        forall i | OccursAt(hay, needle, i) ensures false {
          OccursShift(hay, needle, i - 1);
        }
      }
    }
  }

  /** Every string includes the empty string, so an empty search matches everything. */
  lemma IncludesEmpty(hay: string)
    ensures Includes(hay, "")
  {
  }

  /**
   * `s.split(sep)` for a non-empty separator: scan from the left, cut at each
   * occurrence of `sep` (occurrences do not overlap), and keep the text between
   * cuts. `piece` is the text gathered since the last cut.
   */
  function SplitFrom(s: string, sep: string, piece: string): (pieces: seq<string>)
    requires sep != []
    ensures |pieces| >= 1
    decreases |s|
  {
    if s == [] then [piece]
    else if sep <= s then [piece] + SplitFrom(s[|sep|..], sep, [])
    else SplitFrom(s[1..], sep, piece + [s[0]])
  }

  function Split(s: string, sep: string): (pieces: seq<string>)
    requires sep != []
    ensures |pieces| >= 1
  {
    SplitFrom(s, sep, [])
  }

  /** `pieces.join(sep)`. */
  function Join(pieces: seq<string>, sep: string): string
    requires |pieces| >= 1
  {
    if |pieces| == 1 then pieces[0] else pieces[0] + sep + Join(pieces[1..], sep)
  }

  /** Joining a piece in front of at least one more. */
  lemma JoinCons(piece: string, rest: seq<string>, sep: string)
    requires |rest| >= 1
    ensures Join([piece] + rest, sep) == piece + sep + Join(rest, sep)
  {
    var pieces := [piece] + rest;
    assert pieces[0] == piece && pieces[1..] == rest;
  }

  lemma {:induction false} SplitFromJoin(s: string, sep: string, piece: string)
    requires sep != []
    ensures Join(SplitFrom(s, sep, piece), sep) == piece + s
    decreases |s|
  {
    if s == [] {
      assert piece + s == piece;
    } else if sep <= s {
      var tail := s[|sep|..];
      assert sep + tail == s;
      calc {
        Join(SplitFrom(s, sep, piece), sep);
        Join([piece] + SplitFrom(tail, sep, []), sep);
        { JoinCons(piece, SplitFrom(tail, sep, []), sep); }
        piece + sep + Join(SplitFrom(tail, sep, []), sep);
        { SplitFromJoin(tail, sep, []); }
        piece + sep + ([] + tail);
        { assert [] + tail == tail; }
        piece + (sep + tail);
        piece + s;
      }
    } else {
      SplitFromJoin(s[1..], sep, piece + [s[0]]);
      assert piece + [s[0]] + s[1..] == piece + s;
    }
  }

  /** No position of `piece` starts an occurrence of `sep` in `piece + rest`: the scan made no cut there. */
  predicate NoCutIn(piece: string, rest: string, sep: string)
  {
    forall t :: 0 <= t < |piece| ==> !(sep <= (piece + rest)[t..])
  }

  /** An occurrence of a non-empty `sep` inside `piece` starts inside `piece` and is still there in `piece + rest`. */
  lemma OccursInPrefix(piece: string, rest: string, sep: string, i: int)
    requires sep != [] && OccursAt(piece, sep, i)
    ensures 0 <= i < |piece| && sep <= (piece + rest)[i..]
  {
    assert (piece + rest)[i..][..|sep|] == piece[i..i + |sep|];
  }

  /** A piece gathered without a cut does not contain the separator. */
  lemma PieceHasNoSeparator(piece: string, rest: string, sep: string)
    requires sep != [] && NoCutIn(piece, rest, sep)
    ensures !Includes(piece, sep)
  {
    IncludesIff(piece, sep);
    forall i | OccursAt(piece, sep, i) ensures false {
      OccursInPrefix(piece, rest, sep, i);
    }
  }

  lemma {:induction false} SplitFromPiecesFree(s: string, sep: string, piece: string)
    requires sep != [] && NoCutIn(piece, s, sep)
    ensures forall p :: p in SplitFrom(s, sep, piece) ==> !Includes(p, sep)
    decreases |s|
  {
    PieceHasNoSeparator(piece, s, sep);
    if s == [] {
    } else if sep <= s {
      SplitFromPiecesFree(s[|sep|..], sep, []);
    } else {
      var next := piece + [s[0]];
      assert next + s[1..] == piece + s;
      assert (piece + s)[|piece|..] == s;
      SplitFromPiecesFree(s[1..], sep, next);
    }
  }

  /** The cuts are made at every occurrence: no piece still contains the separator. */
  lemma SplitPiecesFree(s: string, sep: string)
    requires sep != []
    ensures forall p :: p in Split(s, sep) ==> !Includes(p, sep)
  {
    SplitFromPiecesFree(s, sep, []);
  }

  /** Splitting loses nothing: joining the pieces with the separator gives the string back. */
  lemma SplitJoin(s: string, sep: string)
    requires sep != []
    ensures Join(Split(s, sep), sep) == s
  {
    SplitFromJoin(s, sep, []);
  }
}
