/**
  Pieces of text and the lines they form when put together: pieces may run into one another.
*/
module BotPieces {
  import opened PythonText

  /** A piece that is one line by itself: at most one line break, at its end. */
  predicate Single(piece: string) {
    piece != [] && FirstLine(piece) == |piece|
  }

  /** Two neighbours stay apart: the first ends in a break that the second does not complete. */
  predicate Apart(a: string, b: string) {
    Broken(a) && !(a[|a| - 1] == '\r' && b != [] && b[0] == '\n')
  }

  ghost predicate Singles(pieces: seq<string>) {
    forall i | 0 <= i < |pieces| :: Single(pieces[i])
  }

  ghost predicate Separated(pieces: seq<string>) {
    forall i | 0 <= i < |pieces| - 1 :: Apart(pieces[i], pieces[i + 1])
  }

  /** The first line of a piece and what follows: the piece, or the piece and more. */
  lemma {:induction false} FirstLineOf(piece: string, rest: string)
    requires Single(piece) && rest != []
    ensures Apart(piece, rest) ==> FirstLine(piece + rest) == |piece|
    ensures !Broken(piece) ==> FirstLine(piece + rest) == |piece| + FirstLine(rest)
    ensures Broken(piece) && !Apart(piece, rest) ==> FirstLine(piece + rest) == |piece| + 1
    decreases |piece|
  {
    var text := piece + rest;
    if |piece| == 1 {
      assert text[1..] == rest;
    } else if piece[0] == '\r' && piece[1] == '\n' {
      assert |piece| == 2;
    } else {
      assert !IsBreak(piece[0]);
      assert text[1..] == piece[1..] + rest;
      FirstLineOf(piece[1..], rest);
    }
  }

  lemma {:induction false} FirstLineSingle(text: string)
    requires text != []
    ensures Single(text[..FirstLine(text)])
    ensures FirstLine(text) < |text| ==> Apart(text[..FirstLine(text)], text[FirstLine(text)..])
  {
    var n := FirstLine(text);
    if !(text[0] == '\r' && |text| > 1 && text[1] == '\n') && !IsBreak(text[0]) && |text| > 1 {
      FirstLineSingle(text[1..]);
      var m := FirstLine(text[1..]);
      assert text[..n][1..] == text[1..][..m] && text[n..] == text[1..][m..];
    }
  }

  /** The lines of a text are single and apart. */
  lemma {:induction false} LinesSeparated(text: string)
    ensures Singles(SplitLines(text)) && Separated(SplitLines(text))
    decreases |text|
  {
    if text != [] {
      var n := FirstLine(text);
      var rest := text[n..];
      FirstLineSingle(text);
      LinesSeparated(rest);
      if rest != [] {
        assert SplitLines(rest)[0] == rest[..FirstLine(rest)];
        assert SplitLines(rest)[0][0] == rest[0];
      }
    }
  }

  lemma Cons(pieces: seq<string>)
    requires pieces != [] && Singles(pieces)
    ensures Joined(pieces) == pieces[0] + Joined(pieces[1..])
    ensures |pieces| > 1 ==> pieces[1] != [] && Joined(pieces[1..]) != [] && Joined(pieces[1..])[0] == pieces[1][0]
  {
    if |pieces| > 1 {
      assert pieces[1..][0] == pieces[1];
    }
  }

  lemma SplitOnce(text: string, n: nat)
    requires text != [] && n == FirstLine(text)
    ensures SplitLines(text) == [text[..n]] + SplitLines(text[n..])
  {
  }

  /** Pieces form at most as many lines as there are pieces; as many only when they stay apart. */
  lemma {:induction false} PiecesForm(pieces: seq<string>)
    requires Singles(pieces)
    ensures |SplitLines(Joined(pieces))| <= |pieces|
    ensures |SplitLines(Joined(pieces))| == |pieces| <==> Separated(pieces)
    ensures Separated(pieces) ==> SplitLines(Joined(pieces)) == pieces
  {
    hide FirstLine, SplitLines, Joined, Apart, Single;
    if pieces == [] {
      NoLines();
    } else {
      var head, tail := pieces[0], pieces[1..];
      assert Singles(tail);
      var rest := Joined(tail);
      var text := Joined(pieces);
      PiecesForm(tail);
      Cons(pieces);
      if tail == [] {
        NoLines();
        assert text == head;
        Alone(head);
      } else {
        SameBeginning(head, rest, pieces[1]);
        SeparatedCons(pieces);
        JoinedPair(head, rest);
      }
    }
  }

  lemma Alone(piece: string)
    requires Single(piece)
    ensures SplitLines(piece) == [piece]
  {
    assert piece[..|piece|] == piece && piece[|piece|..] == [];
  }

  lemma SameBeginning(a: string, b: string, c: string)
    requires b != [] && c != [] && b[0] == c[0]
    ensures Apart(a, b) == Apart(a, c)
  {
  }

  lemma SeparatedCons(pieces: seq<string>)
    requires |pieces| > 1
    ensures Separated(pieces) <==> Apart(pieces[0], pieces[1]) && Separated(pieces[1..])
  {
    hide Apart;
    var tail := pieces[1..];
    if Apart(pieces[0], pieces[1]) && Separated(tail) {
      forall i | 0 <= i < |pieces| - 1 ensures Apart(pieces[i], pieces[i + 1]) {
        if i > 0 {
          assert tail[i - 1] == pieces[i] && tail[i] == pieces[i + 1];
        }
      }
    }
    if Separated(pieces) {
      forall i | 0 <= i < |tail| - 1 ensures Apart(tail[i], tail[i + 1]) {
        assert tail[i] == pieces[i + 1] && tail[i + 1] == pieces[i + 2];
      }
    }
  }

  /** A piece before a text is a line of its own, or leaves the number of lines as it was. */
  lemma JoinedPair(piece: string, rest: string)
    requires Single(piece) && rest != []
    ensures Apart(piece, rest) ==> SplitLines(piece + rest) == [piece] + SplitLines(rest)
    ensures !Apart(piece, rest) ==> |SplitLines(piece + rest)| == |SplitLines(rest)|
  {
    hide FirstLine, SplitLines;
    var text := piece + rest;
    FirstLineOf(piece, rest);
    var n := FirstLine(text);
    SplitOnce(text, n);
    if Apart(piece, rest) {
      assert text[..n] == piece && text[n..] == rest;
    } else if !Broken(piece) {
      SplitOnce(rest, FirstLine(rest));
      assert text[n..] == rest[FirstLine(rest)..];
    } else {
      BreakFirst(rest);
      SplitOnce(rest, 1);
      assert text[n..] == rest[1..];
    }
  }

  lemma BreakFirst(text: string)
    requires text != [] && text[0] == '\n'
    ensures FirstLine(text) == 1
  {
  }
}
