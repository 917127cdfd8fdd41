/**
 * Model of `split(s, delimiter)` in split_string.cpp: an iterator loop that
 * collects the text between delimiters.
 *
 * The loop has two quirks that this module states exactly. After a match the
 * body advances the iterator once (`first = ++it`) and the loop header
 * advances it again, so the character right after a matched delimiter is
 * never compared. And the text after the last matched delimiter is never
 * pushed. `Detected` says, position by position, where the loop finds the
 * delimiter; `PiecesBelow` and `FirstBelow` say, from those positions alone,
 * what has been collected and where the current piece begins.
 */
module SplitString {

  /** The loop compares position j with the delimiter and finds them equal.
      Position 0 is compared; a later position is compared unless the
      position before it was a match (that is the skipped character). */
  predicate Detected(s: string, d: char, j: int)
    decreases j
  {
    0 <= j < |s| && s[j] == d && (j == 0 || !Detected(s, d, j - 1))
  }

  /** The loop reads position j at all. */
  predicate Compared(s: string, d: char, j: int)
  {
    0 <= j < |s| && (j == 0 || !Detected(s, d, j - 1))
  }

  /** The iterator never passes `end`: a match on the last character would
      make `first = ++it` reach `end` and the loop's `++it` go beyond it. */
  predicate StaysInBounds(s: string, d: char)
  {
    |s| == 0 || !Detected(s, d, |s| - 1)
  }

  /** Where the piece under construction begins once the positions below j
      have been looked at: just after the last detected delimiter, or at 0. */
  function FirstBelow(s: string, d: char, j: nat): (f: nat)
    requires j <= |s|
    ensures f <= j
    ensures j > 0 && Detected(s, d, j - 1) <==> 0 < f == j
  {
    if j == 0 then 0
    else if Detected(s, d, j - 1) then j
    else FirstBelow(s, d, j - 1)
  }

  /** The pieces ended by the detected delimiters below j, in order: each
      runs from where the previous one left off up to its delimiter. */
  function PiecesBelow(s: string, d: char, j: nat): seq<string>
    requires j <= |s|
  {
    if j == 0 then []
    else if Detected(s, d, j - 1) then PiecesBelow(s, d, j - 1) + [s[FirstBelow(s, d, j - 1)..j - 1]]
    else PiecesBelow(s, d, j - 1)
  }

  /** What `split` returns. */
  function Pieces(s: string, d: char): seq<string>
  {
    PiecesBelow(s, d, |s|)
  }

  /** How much of s the pieces and their delimiters cover. */
  function Covered(s: string, d: char): nat
  {
    FirstBelow(s, d, |s|)
  }

  /** Each piece followed by the delimiter, concatenated in order. */
  function Join(pieces: seq<string>, d: char): string
  {
    if pieces == [] then []
    else Join(pieces[..|pieces| - 1], d) + pieces[|pieces| - 1] + [d]
  }

  /** `split` with its iterator loop. `it` and `first` are indices into s and
      `n` is the source's counter. The ghost set records every position the
      loop reads. */
  method Split(s: string, delimiter: char := '\n') returns (ret: seq<string>, ghost compared: set<nat>)
    requires StaysInBounds(s, delimiter)
    ensures ret == Pieces(s, delimiter)
    ensures forall j: nat :: j in compared <==> Compared(s, delimiter, j)
  {
    var d := delimiter;
    ret := [];
    var n := 0;
    var it, first := 0, 0;
    compared := {};
    while it != |s|
      invariant 0 <= first <= it <= |s|
      invariant it == 0 || first < it
      invariant first == FirstBelow(s, d, it)
      invariant ret == PiecesBelow(s, d, it)
      invariant n == |ret|
      invariant forall j: nat :: j in compared <==> j < it && Compared(s, d, j)
      decreases |s| - it
    {
      compared := compared + {it};
      if d == s[it] {
        assert Detected(s, d, it);
        assert it + 1 < |s|;
        assert !Detected(s, d, it + 1);
        ret := ret + [s[first..it]];
        n := n + 1;
        it := it + 1;
        first := it;
      }
      it := it + 1;
    }
  }

  lemma {:induction false} NoneDetectedBelow(s: string, d: char, j: nat)
    requires j <= |s| && forall q :: 0 <= q < j ==> s[q] != d
    ensures PiecesBelow(s, d, j) == []
  {
    if j > 0 { NoneDetectedBelow(s, d, j - 1); }
  }

  lemma {:induction false} FirstOccurrence(s: string, d: char, j0: nat)
    requires j0 < |s| && s[j0] == d
    ensures exists j :: 0 <= j <= j0 && s[j] == d && (forall i :: 0 <= i < j ==> s[i] != d)
    decreases j0
  {
    if exists i :: 0 <= i < j0 && s[i] == d {
      var i :| 0 <= i < j0 && s[i] == d;
      FirstOccurrence(s, d, i);
    }
  }

  /** Once a piece has been collected it stays collected. */
  lemma {:induction false} PiecesGrow(s: string, d: char, i: nat, j: nat)
    requires i <= j <= |s|
    ensures |PiecesBelow(s, d, i)| <= |PiecesBelow(s, d, j)|
    decreases j
  {
    if i < j { PiecesGrow(s, d, i, j - 1); }
  }

  /** The positions below j where the loop detects the delimiter. */
  function DetectedBelow(s: string, d: char, j: nat): set<nat>
  {
    set q: nat | q < j && Detected(s, d, q)
  }

  /** One piece per detected delimiter: below every bound, the pieces
      collected are as many as the delimiters detected. */
  lemma {:induction false} PieceCountBelow(s: string, d: char, j: nat)
    requires j <= |s|
    ensures |PiecesBelow(s, d, j)| == |DetectedBelow(s, d, j)|
  {
    if j == 0 {
      assert DetectedBelow(s, d, 0) == {};
    } else {
      PieceCountBelow(s, d, j - 1);
      if Detected(s, d, j - 1) {
        assert DetectedBelow(s, d, j) == DetectedBelow(s, d, j - 1) + {j - 1};
      } else {
        assert DetectedBelow(s, d, j) == DetectedBelow(s, d, j - 1);
      }
    }
  }

  /** `split` returns exactly as many pieces as the loop detects
      delimiters. */
  lemma PieceCount(s: string, d: char)
    ensures |Pieces(s, d)| == |DetectedBelow(s, d, |s|)|
  {
    PieceCountBelow(s, d, |s|);
  }

  /** `split` returns nothing exactly when the input holds no delimiter; in
      particular the empty input gives no pieces. */
  lemma SplitEmptyIff(s: string, d: char)
    ensures Pieces(s, d) == [] <==> d !in s
  {
    if d in s {
      var j :| 0 <= j < |s| && s[j] == d && (forall i :: 0 <= i < j ==> s[i] != d) by {
        var j0 :| 0 <= j0 < |s| && s[j0] == d;
        FirstOccurrence(s, d, j0);
      }
      assert j == 0 || s[j - 1] != d;
      assert Detected(s, d, j);
      PiecesGrow(s, d, j + 1, |s|);
    } else {
      NoneDetectedBelow(s, d, |s|);
    }
  }

  /** The pieces collected below j, each followed by its delimiter, spell
      out s up to `first`, in order. */
  lemma {:induction false} JoinBelow(s: string, d: char, j: nat)
    requires j <= |s|
    ensures Join(PiecesBelow(s, d, j), d) == s[..FirstBelow(s, d, j)]
  {
    if j > 0 {
      JoinBelow(s, d, j - 1);
      if Detected(s, d, j - 1) {
        var f := FirstBelow(s, d, j - 1);
        var ps := PiecesBelow(s, d, j - 1);
        var qs := ps + [s[f..j - 1]];
        assert qs[..|qs| - 1] == ps;
        assert s[..j - 1] == s[..f] + s[f..j - 1];
        assert s[..j] == s[..j - 1] + [s[j - 1]];
      }
    }
  }

  /** After `first` the scan up to j has passed no delimiter, and before the
      first piece it has passed none at all. */
  lemma {:induction false} NoDelimiterAfterFirst(s: string, d: char, j: nat)
    requires j <= |s|
    ensures forall k :: FirstBelow(s, d, j) < k < j ==> s[k] != d
    ensures PiecesBelow(s, d, j) == [] ==> forall k :: 0 <= k < j ==> s[k] != d
  {
    if j > 0 {
      NoDelimiterAfterFirst(s, d, j - 1);
      if !Detected(s, d, j - 1) && s[j - 1] == d {
        assert j - 1 > 0 && Detected(s, d, j - 2);
      }
    }
  }

  /** Once a piece has been collected, `first` sits right after a detected
      delimiter. */
  lemma {:induction false} FirstAfterDelimiter(s: string, d: char, j: nat)
    requires j <= |s|
    ensures PiecesBelow(s, d, j) != [] ==> FirstBelow(s, d, j) > 0 && Detected(s, d, FirstBelow(s, d, j) - 1)
  {
    if j > 0 {
      FirstAfterDelimiter(s, d, j - 1);
    }
  }

  /** The pieces, each followed by the delimiter, spell out the input up to
      and including the last detected delimiter, in input order; the text
      that is dropped after it holds a delimiter at most as its first
      character. */
  lemma SplitDropsTail(s: string, d: char)
    ensures Covered(s, d) <= |s|
    ensures Join(Pieces(s, d), d) == s[..Covered(s, d)]
    ensures forall k :: Covered(s, d) < k < |s| ==> s[k] != d
  {
    JoinBelow(s, d, |s|);
    NoDelimiterAfterFirst(s, d, |s|);
  }

  /** Where the delimiter can stand in a piece collected below j: never in
      the first piece, only at position 0 of any later piece, and every later
      piece is non-empty. */
  lemma {:induction false} PieceShapeBelow(s: string, d: char, j: nat)
    requires j <= |s|
    ensures |PiecesBelow(s, d, j)| > 0 ==> d !in PiecesBelow(s, d, j)[0]
    ensures forall m :: 0 < m < |PiecesBelow(s, d, j)| ==> |PiecesBelow(s, d, j)[m]| > 0
    ensures forall m, i :: 0 < m < |PiecesBelow(s, d, j)| && 0 < i < |PiecesBelow(s, d, j)[m]| ==>
              PiecesBelow(s, d, j)[m][i] != d
  {
    if j > 0 {
      PieceShapeBelow(s, d, j - 1);
      if Detected(s, d, j - 1) {
        var ps := PiecesBelow(s, d, j - 1);
        var f := FirstBelow(s, d, j - 1);
        var p := s[f..j - 1];
        NoDelimiterAfterFirst(s, d, j - 1);
        FirstAfterDelimiter(s, d, j - 1);
        assert PiecesBelow(s, d, j) == ps + [p];
        if ps == [] {
          assert forall i :: 0 <= i < |p| ==> p[i] == s[f + i];
        } else {
          assert f < j - 1;
          assert forall i :: 0 < i < |p| ==> p[i] == s[f + i] && f < f + i < j - 1;
        }
      }
    }
  }

  lemma PieceShape(s: string, d: char)
    ensures |Pieces(s, d)| > 0 ==> d !in Pieces(s, d)[0]
    ensures forall m :: 0 < m < |Pieces(s, d)| ==> |Pieces(s, d)[m]| > 0
    ensures forall m, i :: 0 < m < |Pieces(s, d)| && 0 < i < |Pieces(s, d)[m]| ==> Pieces(s, d)[m][i] != d
  {
    PieceShapeBelow(s, d, |s|);
  }

  /** Between a detected delimiter at j and the next one, the piece under
      construction begins at j + 1. */
  lemma {:induction false} FirstAfter(s: string, d: char, j: nat, k: nat)
    requires Detected(s, d, j) && j < k <= |s|
    requires forall q :: j < q < k ==> !Detected(s, d, q)
    ensures FirstBelow(s, d, k) == j + 1
    decreases k
  {
    if k > j + 1 { FirstAfter(s, d, j, k - 1); }
  }

  /** Two delimiters in a row cause one split only: the second is not
      compared, and the piece ended by the next detected delimiter p begins
      with it. */
  lemma ConsecutiveDelimiters(s: string, d: char, j: nat, p: nat)
    requires Detected(s, d, j) && j + 1 < |s| && s[j + 1] == d
    requires Detected(s, d, p) && j < p && forall q :: j < q < p ==> !Detected(s, d, q)
    ensures !Compared(s, d, j + 1)
    ensures PiecesBelow(s, d, p + 1) == PiecesBelow(s, d, p) + [s[j + 1..p]]
    ensures s[j + 1..p][0] == d
  {
    FirstAfter(s, d, j, p);
  }

  /** Lines joined by the delimiter, with no delimiter after the last one. */
  function Lines(ls: seq<string>, d: char): string
  {
    if |ls| == 0 then []
    else if |ls| == 1 then ls[0]
    else Lines(ls[..|ls| - 1], d) + [d] + ls[|ls| - 1]
  }

  lemma {:induction false} DetectedPrefix(t: string, u: string, d: char, q: int)
    requires 0 <= q < |t|
    ensures Detected(t + u, d, q) == Detected(t, d, q)
    decreases q
  {
    if q > 0 { DetectedPrefix(t, u, d, q - 1); }
  }

  lemma {:induction false} ScanPrefix(t: string, u: string, d: char, j: nat)
    requires j <= |t|
    ensures PiecesBelow(t + u, d, j) == PiecesBelow(t, d, j)
    ensures FirstBelow(t + u, d, j) == FirstBelow(t, d, j)
  {
    if j > 0 {
      ScanPrefix(t, u, d, j - 1);
      DetectedPrefix(t, u, d, j - 1);
      var f := FirstBelow(t, d, j - 1);
      assert (t + u)[f..j - 1] == t[f..j - 1];
    }
  }

  lemma {:induction false} ScanNone(s: string, d: char, a: nat, b: nat)
    requires a <= b <= |s|
    requires forall q :: a <= q < b ==> s[q] != d
    ensures PiecesBelow(s, d, b) == PiecesBelow(s, d, a)
    ensures FirstBelow(s, d, b) == FirstBelow(s, d, a)
    decreases b
  {
    if b > a { ScanNone(s, d, a, b - 1); }
  }

  /** Appending a delimiter and a line without delimiters to text that does
      not end in a delimiter adds one piece: the text's unfinished last piece. */
  lemma AppendLine(t: string, l: string, d: char)
    requires |t| > 0 && t[|t| - 1] != d
    requires |l| > 0 && d !in l
    ensures Covered(t, d) <= |t|
    ensures Pieces(t + [d] + l, d) == Pieces(t, d) + [t[Covered(t, d)..]]
    ensures Covered(t + [d] + l, d) == |t| + 1
    ensures StaysInBounds(t + [d] + l, d)
  {
    var s := t + [d] + l;
    assert s == t + ([d] + l);
    ScanPrefix(t, [d] + l, d, |t|);
    DetectedPrefix(t, [d] + l, d, |t| - 1);
    assert Detected(s, d, |t|);
    assert forall q :: |t| + 1 <= q < |s| ==> s[q] in l;
    ScanNone(s, d, |t| + 1, |s|);
    assert s[|s| - 1] in l;
  }

  /** Text made of non-empty lines without a trailing delimiter keeps the
      iterator in bounds, and `split` returns every line but the last. */
  lemma {:induction false} SplitDropsLastLine(ls: seq<string>, d: char)
    requires |ls| > 0
    requires forall k :: 0 <= k < |ls| ==> |ls[k]| > 0 && d !in ls[k]
    ensures StaysInBounds(Lines(ls, d), d)
    ensures Pieces(Lines(ls, d), d) == ls[..|ls| - 1]
    ensures Covered(Lines(ls, d), d) == |Lines(ls, d)| - |ls[|ls| - 1]|
  {
    var s := Lines(ls, d);
    if |ls| == 1 {
      assert forall q :: 0 <= q < |s| ==> s[q] in ls[0];
      ScanNone(s, d, 0, |s|);
    } else {
      var init, l := ls[..|ls| - 1], ls[|ls| - 1];
      var t := Lines(init, d);
      var lp := init[|init| - 1];
      SplitDropsLastLine(init, d);
      assert t[|t| - |lp|..] == lp;
      assert t[|t| - 1] in lp;
      AppendLine(t, l, d);
      assert init[..|init| - 1] + [lp] == ls[..|ls| - 1];
    }
  }

  /** The string that the source's `main` splits, written line by line. */
  const MainQasm: string :=
    "OPENQASM 2.0;include 'qelib1.inc';" + "\n"
    + "qreg q[3];" + "\n"
    + "creg c[3];" + "\n"
    + "h q[0];" + "\n"
    + "cx q[0],q[1];" + "\n"
    + "cx q[1],q[2];" + "\n"
    + "measure q[0] -> c[0];" + "\n"
    + "measure q[1] -> c[1];" + "\n"
    + "measure q[2] -> c[2];"

  /** The lines of that string. */
  const MainLines: seq<string> := [
    "OPENQASM 2.0;include 'qelib1.inc';", "qreg q[3];", "creg c[3];", "h q[0];",
    "cx q[0],q[1];", "cx q[1],q[2];", "measure q[0] -> c[0];", "measure q[1] -> c[1];",
    "measure q[2] -> c[2];"]

  /** The string is its nine lines joined by '\n'; no line is empty or holds
      a '\n'. */
  lemma MainQasmLines()
    ensures |MainLines| == 9
    ensures MainQasm == Lines(MainLines, '\n')
    ensures forall k :: 0 <= k < |MainLines| ==> |MainLines[k]| > 0 && '\n' !in MainLines[k]
  {
    var ls := MainLines;
    assert Lines(ls[..1], '\n') == ls[0];
    assert ls[..2][..1] == ls[..1];
    assert Lines(ls[..2], '\n') == Lines(ls[..1], '\n') + "\n" + ls[1];
    assert ls[..3][..2] == ls[..2];
    assert Lines(ls[..3], '\n') == Lines(ls[..2], '\n') + "\n" + ls[2];
    assert ls[..4][..3] == ls[..3];
    assert Lines(ls[..4], '\n') == Lines(ls[..3], '\n') + "\n" + ls[3];
    assert ls[..5][..4] == ls[..4];
    assert Lines(ls[..5], '\n') == Lines(ls[..4], '\n') + "\n" + ls[4];
    assert ls[..6][..5] == ls[..5];
    assert Lines(ls[..6], '\n') == Lines(ls[..5], '\n') + "\n" + ls[5];
    assert ls[..7][..6] == ls[..6];
    assert Lines(ls[..7], '\n') == Lines(ls[..6], '\n') + "\n" + ls[6];
    assert ls[..8][..7] == ls[..7];
    assert Lines(ls[..8], '\n') == Lines(ls[..7], '\n') + "\n" + ls[7];
    assert ls[..9][..8] == ls[..8];
    assert Lines(ls[..9], '\n') == Lines(ls[..8], '\n') + "\n" + ls[8];
    assert ls[..9] == ls;
  }

  /** Splitting that string on '\n' gives its first eight lines; the final
      measurement line is dropped. */
  lemma MainExample()
    ensures StaysInBounds(MainQasm, '\n')
    ensures Pieces(MainQasm, '\n') == MainLines[..8]
    ensures MainLines[8] !in Pieces(MainQasm, '\n')
  {
    MainQasmLines();
    SplitDropsLastLine(MainLines, '\n');
  }

  // ---------------------------------------------------------------------
  // The splitter as evidently intended: every delimiter ends a field and
  // the text after the last delimiter is the last field.

  /** Where the current field begins once the positions below j have been
      read. */
  function StartBelow(s: string, d: char, j: nat): (f: nat)
    requires j <= |s|
    ensures f <= j
    ensures j > 0 && s[j - 1] == d <==> 0 < f == j
  {
    if j == 0 then 0
    else if s[j - 1] == d then j
    else StartBelow(s, d, j - 1)
  }

  /** The fields ended by the delimiters below j, in order. */
  function FieldsBelow(s: string, d: char, j: nat): seq<string>
    requires j <= |s|
  {
    if j == 0 then []
    else if s[j - 1] == d then FieldsBelow(s, d, j - 1) + [s[StartBelow(s, d, j - 1)..j - 1]]
    else FieldsBelow(s, d, j - 1)
  }

  /** All fields of s, the last one included. */
  function Fields(s: string, d: char): seq<string>
  {
    FieldsBelow(s, d, |s|) + [s[StartBelow(s, d, |s|)..]]
  }

  /** The corrected loop: each delimiter ends a field and is skipped
      exactly once, and the rest of the input is the last field. Any input
      is accepted. */
  method SplitLines(s: string, delimiter: char := '\n') returns (ret: seq<string>)
    ensures ret == Fields(s, delimiter)
  {
    var d := delimiter;
    ret := [];
    var it, first := 0, 0;
    while it != |s|
      invariant 0 <= first <= it <= |s|
      invariant first == StartBelow(s, d, it)
      invariant ret == FieldsBelow(s, d, it)
      decreases |s| - it
    {
      if d == s[it] {
        ret := ret + [s[first..it]];
        first := it + 1;
      }
      it := it + 1;
    }
    ret := ret + [s[first..]];
  }

  /** Joining with the delimiter the fields collected below j, followed by
      the current field, gives back s up to j. */
  lemma {:induction false} FieldsJoinBelow(s: string, d: char, j: nat)
    requires j <= |s|
    ensures Lines(FieldsBelow(s, d, j) + [s[StartBelow(s, d, j)..j]], d) == s[..j]
  {
    if j > 0 {
      FieldsJoinBelow(s, d, j - 1);
      var done := FieldsBelow(s, d, j - 1);
      var f := StartBelow(s, d, j - 1);
      var cur := done + [s[f..j - 1]];
      SliceSnoc(s, 0, j);
      assert s[..j] == s[0..j] && s[..j - 1] == s[0..j - 1];
      if s[j - 1] == d {
        var next := cur + [s[j..j]];
        assert next[..|next| - 1] == cur;
      } else {
        SliceSnoc(s, f, j);
        LinesExtendLast(done, s[f..j - 1], s[j - 1], d);
      }
    }
  }

  /** A slice one longer ends with the next character. */
  lemma SliceSnoc(s: string, a: nat, j: nat)
    requires a < j <= |s|
    ensures s[a..j] == s[a..j - 1] + [s[j - 1]]
  {
  }

  /** Adding a character to the last line adds it at the end. */
  lemma LinesExtendLast(ls: seq<string>, l: string, c: char, d: char)
    ensures Lines(ls + [l + [c]], d) == Lines(ls + [l], d) + [c]
  {
    var a, b := ls + [l + [c]], ls + [l];
    assert a[..|a| - 1] == ls && b[..|b| - 1] == ls;
  }

  /** The fields joined by the delimiter give back the input. */
  lemma FieldsRoundTrip(s: string, d: char)
    ensures Lines(Fields(s, d), d) == s
  {
    FieldsJoinBelow(s, d, |s|);
    assert s[..|s|] == s;
  }

  /** No field holds the delimiter. */
  lemma {:induction false} FieldsBelowClean(s: string, d: char, j: nat)
    requires j <= |s|
    ensures forall m :: 0 <= m < |FieldsBelow(s, d, j)| ==> d !in FieldsBelow(s, d, j)[m]
    ensures d !in s[StartBelow(s, d, j)..j]
  {
    if j > 0 {
      FieldsBelowClean(s, d, j - 1);
      var f := StartBelow(s, d, j - 1);
      if s[j - 1] != d {
        assert s[f..j] == s[f..j - 1] + [s[j - 1]];
      }
    }
  }

  lemma FieldsClean(s: string, d: char)
    ensures forall m :: 0 <= m < |Fields(s, d)| ==> d !in Fields(s, d)[m]
  {
    FieldsBelowClean(s, d, |s|);
  }

  lemma {:induction false} FieldScanPrefix(t: string, u: string, d: char, j: nat)
    requires j <= |t|
    ensures FieldsBelow(t + u, d, j) == FieldsBelow(t, d, j)
    ensures StartBelow(t + u, d, j) == StartBelow(t, d, j)
  {
    if j > 0 {
      FieldScanPrefix(t, u, d, j - 1);
      var f := StartBelow(t, d, j - 1);
      assert (t + u)[j - 1] == t[j - 1];
      assert (t + u)[f..j - 1] == t[f..j - 1];
    }
  }

  lemma {:induction false} FieldScanNone(s: string, d: char, a: nat, b: nat)
    requires a <= b <= |s|
    requires forall q :: a <= q < b ==> s[q] != d
    ensures FieldsBelow(s, d, b) == FieldsBelow(s, d, a)
    ensures StartBelow(s, d, b) == StartBelow(s, d, a)
    decreases b
  {
    if b > a { FieldScanNone(s, d, a, b - 1); }
  }

  /** Appending a delimiter and a line without delimiters adds that line
      as a new last field. */
  lemma AppendField(t: string, l: string, d: char)
    requires d !in l
    ensures Fields(t + [d] + l, d) == Fields(t, d) + [l]
  {
    var s := t + [d] + l;
    assert s == t + ([d] + l);
    FieldScanPrefix(t, [d] + l, d, |t|);
    assert s[|t|] == d;
    assert forall q :: |t| + 1 <= q < |s| ==> s[q] in l;
    FieldScanNone(s, d, |t| + 1, |s|);
    assert s[|t| + 1..] == l;
    assert s[StartBelow(t, d, |t|)..|t|] == t[StartBelow(t, d, |t|)..];
  }

  /** Splitting lines that hold no delimiter, joined by the delimiter, gives
      back every line, the last one included. */
  lemma {:induction false} FieldsOfLines(ls: seq<string>, d: char)
    requires |ls| > 0
    requires forall k :: 0 <= k < |ls| ==> d !in ls[k]
    ensures Fields(Lines(ls, d), d) == ls
  {
    var s := Lines(ls, d);
    if |ls| == 1 {
      assert forall q :: 0 <= q < |s| ==> s[q] in ls[0];
      FieldScanNone(s, d, 0, |s|);
      assert s[0..] == ls[0];
    } else {
      var init := ls[..|ls| - 1];
      FieldsOfLines(init, d);
      AppendField(Lines(init, d), ls[|ls| - 1], d);
      assert init + [ls[|ls| - 1]] == ls;
    }
  }

  /** On "a\n\nb\nc" the source's loop skips the second '\n' and drops
      "c", giving two pieces where the text has four fields. */
  lemma SkippedDelimiterExample()
    ensures StaysInBounds("a\n\nb\nc", '\n')
    ensures Pieces("a\n\nb\nc", '\n') == ["a", "\nb"]
  {
    var s := "a\n\nb\nc";
    assert |s| == 6 && s[0] == 'a' && s[1] == '\n' && s[2] == '\n' && s[3] == 'b' && s[4] == '\n' && s[5] == 'c';
    assert !Detected(s, '\n', 0);
    assert Detected(s, '\n', 1);
    assert !Detected(s, '\n', 2);
    assert !Detected(s, '\n', 3);
    assert Detected(s, '\n', 4);
    assert !Detected(s, '\n', 5);
    assert PiecesBelow(s, '\n', 1) == [];
    assert PiecesBelow(s, '\n', 2) == [s[0..1]];
    assert FirstBelow(s, '\n', 4) == 2;
    assert PiecesBelow(s, '\n', 5) == [s[0..1], s[2..4]];
    assert s[0..1] == "a" && s[2..4] == "\nb";
  }

  /** The same text read by the corrected splitter: four fields. */
  lemma SkippedDelimiterCorrected()
    ensures Fields("a\n\nb\nc", '\n') == ["a", "", "b", "c"]
  {
    var ls := ["a", "", "b", "c"];
    assert Lines(ls[..1], '\n') == "a";
    assert Lines(ls[..2], '\n') == "a\n" by {
      assert ls[..2][..1] == ls[..1];
    }
    assert Lines(ls[..3], '\n') == "a\n\nb" by {
      assert ls[..3][..2] == ls[..2];
    }
    assert Lines(ls, '\n') == "a\n\nb\nc" by {
      assert ls[..4][..3] == ls[..3];
      assert ls[..4] == ls;
    }
    FieldsOfLines(ls, '\n');
  }

  /** On "a\n" the source's loop matches the final character, so
      `first = ++it` reaches `end` and the loop increment goes past it;
      the corrected splitter reads an empty last field. */
  lemma TrailingDelimiterExample()
    ensures !StaysInBounds("a\n", '\n')
    ensures Fields("a\n", '\n') == ["a", ""]
  {
    var s := "a\n";
    assert |s| == 2 && s[0] == 'a' && s[1] == '\n';
    assert !Detected(s, '\n', 0);
    assert Detected(s, '\n', 1);
    AppendField("a", "", '\n');
    assert "a" + ['\n'] + "" == s;
    FieldsOfLines(["a"], '\n');
  }

  /** The corrected splitter returns all nine lines of the example. */
  lemma MainExampleCorrected()
    ensures Fields(MainQasm, '\n') == MainLines
  {
    MainQasmLines();
    FieldsOfLines(MainLines, '\n');
  }
}
