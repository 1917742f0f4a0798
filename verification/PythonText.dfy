/**
  Text as the Python programs see it: lines and line breaks, `key=value` lines, decimal numbers.
*/
module PythonText {
  import opened Options

  predicate IsBreak(c: char) {
    c in {'\n', '\r', '\U{0b}', '\U{0c}', '\U{1c}', '\U{1d}', '\U{1e}', '\U{85}', '\U{2028}', '\U{2029}'}
  }

  predicate IsSpace(c: char) {
    || c in {' ', '\t', '\n', '\r', '\U{0b}', '\U{0c}', '\U{1c}', '\U{1d}', '\U{1e}', '\U{1f}', '\U{85}', '\U{a0}'}
    || c in {'\U{1680}', '\U{2028}', '\U{2029}', '\U{202f}', '\U{205f}', '\U{3000}'}
    || '\U{2000}' <= c <= '\U{200a}'
  }

  predicate StartsWith(line: string, prefix: string) {
    |prefix| <= |line| && line[..|prefix|] == prefix
  }

  /** Length of the first line of a nonempty text, its line break included. */
  function FirstLine(text: string): (n: nat)
    requires text != []
    ensures 1 <= n <= |text|
  {
    if text[0] == '\r' && |text| > 1 && text[1] == '\n' then 2
    else if IsBreak(text[0]) || |text| == 1 then 1
    else 1 + FirstLine(text[1..])
  }

  function SplitLines(text: string): seq<string> {
    if text == [] then []
    else
      var n := FirstLine(text);
      [text[..n]] + SplitLines(text[n..])
  }

  function Joined(lines: seq<string>): string {
    if lines == [] then [] else lines[0] + Joined(lines[1..])
  }

  predicate Ends(line: string) {
    line != [] && line[|line| - 1] == '\n'
  }

  /** A line that ends in a newline and holds no other line break. */
  predicate Clean(line: string) {
    Ends(line) && forall i | 0 <= i < |line| - 1 :: !IsBreak(line[i])
  }

  /** Nothing but visible characters: what names and numbers are made of. */
  predicate Plain(s: string) {
    forall i | 0 <= i < |s| :: ' ' < s[i] <= '~'
  }

  /** Upper-case letters, digits and underscores: what most keys are made of. */
  predicate IsUpper(c: char) {
    'A' <= c <= 'Z' || '0' <= c <= '9' || c == '_'
  }

  predicate Upper(s: string) {
    forall i | 0 <= i < |s| :: IsUpper(s[i])
  }

  function Line(key: string, value: string): string {
    key + "=" + value + "\n"
  }

  function Decimal(n: nat): (s: string)
    ensures s != [] && Plain(s)
  {
    var digit := ['0' + (n % 10) as char];
    if n < 10 then digit else Decimal(n / 10) + digit
  }

  lemma {:induction false} DecimalInjective(a: nat, b: nat)
    requires Decimal(a) == Decimal(b)
    ensures a == b
  {
    var s, t := Decimal(a), Decimal(b);
    assert s[|s| - 1] == '0' + (a % 10) as char && t[|t| - 1] == '0' + (b % 10) as char;
    assert a % 10 == b % 10;
    if a >= 10 && b >= 10 {
      assert Decimal(a / 10) == s[..|s| - 1] == t[..|t| - 1] == Decimal(b / 10);
      DecimalInjective(a / 10, b / 10);
    }
  }

  /** A key fixes the value of its line. */
  lemma LineInjective(key: string, a: string, b: string)
    requires Line(key, a) == Line(key, b)
    ensures a == b
  {
    assert Line(key, a)[|key| + 1..|Line(key, a)| - 1] == a;
    assert Line(key, b)[|key| + 1..|Line(key, b)| - 1] == b;
  }

  lemma PlainLineIsClean(key: string, value: string)
    requires Plain(key) && Plain(value)
    ensures Clean(Line(key, value))
  {
  }

  lemma {:induction false} FirstLineClean(line: string, rest: string)
    requires Clean(line)
    ensures FirstLine(line + rest) == |line|
  {
    if |line| > 1 {
      assert (line + rest)[1..] == line[1..] + rest;
      FirstLineClean(line[1..], rest);
    }
  }

  lemma SplitCons(line: string, rest: string)
    requires Clean(line)
    ensures SplitLines(line + rest) == [line] + SplitLines(rest)
  {
    FirstLineClean(line, rest);
    assert (line + rest)[..|line|] == line && (line + rest)[|line|..] == rest;
  }

  /** Clean lines are the lines of their concatenation, whatever text comes after them. */
  lemma {:induction false} SplitJoined(lines: seq<string>, rest: string)
    requires forall i | 0 <= i < |lines| :: Clean(lines[i])
    ensures SplitLines(Joined(lines) + rest) == lines + SplitLines(rest)
  {
    hide SplitLines, FirstLine, Clean, IsBreak;
    if lines == [] {
      assert Joined(lines) + rest == rest;
    } else {
      var tail := Joined(lines[1..]) + rest;
      assert Joined(lines) + rest == lines[0] + tail;
      SplitJoined(lines[1..], rest);
      SplitCons(lines[0], tail);
      assert [lines[0]] + (lines[1..] + SplitLines(rest)) == lines + SplitLines(rest);
    }
  }

  /** The lines of a text put together are the text. */
  lemma {:induction false} JoinedSplit(text: string)
    ensures Joined(SplitLines(text)) == text
    decreases |text|
  {
    if text != [] {
      var n := FirstLine(text);
      JoinedSplit(text[n..]);
      assert SplitLines(text)[1..] == SplitLines(text[n..]);
    }
  }

  /** Inside the first line, no break stands before its end, save the `\r` of an ending `\r\n`. */
  lemma {:induction false} CutFirstLine(text: string, k: nat)
    requires text != [] && 0 < k < FirstLine(text)
    ensures FirstLine(text[..k]) == k
    ensures !Ends(text[..k])
    decreases |text|
  {
    if k > 1 {
      assert text[..k][1..] == text[1..][..k - 1];
      CutFirstLine(text[1..], k - 1);
    }
  }

  /** Cutting behind the first line leaves the first line as it was, when it ends in `\n`. */
  lemma {:induction false} KeepFirstLine(text: string, k: nat)
    requires text != [] && FirstLine(text) <= k <= |text|
    requires Ends(text[..FirstLine(text)])
    ensures FirstLine(text[..k]) == FirstLine(text)
    decreases |text|
  {
    var n := FirstLine(text);
    if !(text[0] == '\r' && |text| > 1 && text[1] == '\n') && !IsBreak(text[0]) && |text| > 1 {
      assert text[..k][1..] == text[1..][..k - 1];
      assert text[1..][..n - 1] == text[..n][1..];
      KeepFirstLine(text[1..], k - 1);
    }
  }

  /** The lines of a text cut anywhere: whole lines, then perhaps one that does not end. */
  predicate CutOf(lines: seq<string>, cut: seq<string>) {
    || (|cut| < |lines| && cut == lines[..|cut|])
    || (0 < |cut| <= |lines| && cut[..|cut| - 1] == lines[..|cut| - 1] && !Ends(cut[|cut| - 1]))
  }

  lemma WholeLine(text: string)
    requires text != [] && FirstLine(text) == |text|
    ensures SplitLines(text) == [text]
  {
    assert text[..|text|] == text && text[|text|..] == [];
  }

  lemma SliceShift(text: string, n: nat, k: nat)
    requires n <= k <= |text|
    ensures text[..k][..n] == text[..n]
    ensures text[..k][n..] == text[n..][..k - n]
  {
  }

  lemma {:induction false} CutLines(text: string, k: nat)
    requires k < |text|
    requires forall i | 0 <= i < |SplitLines(text)| :: Ends(SplitLines(text)[i])
    ensures CutOf(SplitLines(text), SplitLines(text[..k]))
    decreases |text|
  {
    var lines := SplitLines(text);
    var n := FirstLine(text);
    if k == 0 {
    } else if k < n {
      CutFirstLine(text, k);
      WholeLine(text[..k]);
    } else {
      assert lines[0] == text[..n];
      KeepFirstLine(text, k);
      SliceShift(text, n, k);
      assert lines[1..] == SplitLines(text[n..]);
      if k > n {
        CutLines(text[n..], k - n);
        CutCons(lines, SplitLines(text[n..][..k - n]));
      }
    }
  }

  lemma CutCons(lines: seq<string>, cut: seq<string>)
    requires lines != [] && CutOf(lines[1..], cut)
    ensures CutOf(lines, [lines[0]] + cut)
  {
    var longer := [lines[0]] + cut;
    if |cut| < |lines[1..]| && cut == lines[1..][..|cut|] {
      assert longer == lines[..|longer|];
    } else {
      assert longer[..|longer| - 1] == [lines[0]] + cut[..|cut| - 1] == lines[..|longer| - 1];
    }
  }

  // ----- lines without their breaks -----

  predicate Broken(line: string) {
    line != [] && IsBreak(line[|line| - 1])
  }

  predicate Breakless(line: string) {
    forall i | 0 <= i < |line| :: !IsBreak(line[i])
  }

  /** A line without its line break. */
  function Bare(line: string): string {
    if |line| > 1 && line[|line| - 2] == '\r' && line[|line| - 1] == '\n' then line[..|line| - 2]
    else if Broken(line) then line[..|line| - 1]
    else line
  }

  /** The lines of a text, without their line breaks. */
  function BareLines(text: string): seq<string> {
    var lines := SplitLines(text);
    seq(|lines|, i requires 0 <= i < |lines| => Bare(lines[i]))
  }

  function Terminated(lines: seq<string>): seq<string> {
    seq(|lines|, i requires 0 <= i < |lines| => lines[i] + "\n")
  }

  /** The text printed for some lines. */
  function Printed(lines: seq<string>): string {
    Joined(Terminated(lines))
  }

  lemma BareTerminated(line: string)
    requires Breakless(line)
    ensures Clean(line + "\n") && Bare(line + "\n") == line
  {
    var whole := line + "\n";
    assert whole[..|whole| - 1] == line;
    assert |line| > 0 ==> whole[|whole| - 2] == line[|line| - 1] && IsBreak('\r');
  }

  lemma NoLines()
    ensures SplitLines([]) == [] && Joined([]) == []
  {
  }

  /** Printed lines are read back as they were. */
  lemma PrintedAreLines(lines: seq<string>)
    requires forall i | 0 <= i < |lines| :: Breakless(lines[i])
    ensures BareLines(Printed(lines)) == lines
  {
    hide Clean, Breakless, SplitLines, Joined, Bare;
    var whole := Terminated(lines);
    forall i | 0 <= i < |lines| ensures Clean(whole[i]) && Bare(whole[i]) == lines[i] {
      BareTerminated(lines[i]);
    }
    SplitJoined(whole, []);
    assert Joined(whole) + [] == Joined(whole);
    NoLines();
    assert whole + [] == whole;
  }

  // ----- one line between others -----

  predicate EndsCarriage(s: string) {
    s != [] && s[|s| - 1] == '\r'
  }

  function DropCarriage(s: string): string {
    if EndsCarriage(s) then s[..|s| - 1] else s
  }

  /** Text behind a newline does not change the lines before it. */
  lemma {:induction false} FirstLineKept(text: string, rest: string)
    requires Ends(text)
    ensures FirstLine(text + rest) == FirstLine(text)
    decreases |text|
  {
    if !IsBreak(text[0]) {
      assert (text + rest)[1..] == text[1..] + rest;
      FirstLineKept(text[1..], rest);
    }
  }

  lemma {:induction false} SplitEnds(text: string, rest: string)
    requires Ends(text)
    ensures SplitLines(text + rest) == SplitLines(text) + SplitLines(rest)
    decreases |text|
  {
    hide FirstLine, IsBreak;
    FirstLineKept(text, rest);
    var n := FirstLine(text);
    assert (text + rest)[..n] == text[..n] && (text + rest)[n..] == text[n..] + rest;
    if n == |text| {
      assert text[n..] + rest == rest;
      NoLines();
    } else {
      SplitEnds(text[n..], rest);
    }
  }

  lemma {:induction false} FirstLineWhole(line: string)
    requires Ends(line) && Breakless(DropCarriage(line[..|line| - 1]))
    ensures FirstLine(line) == |line|
    decreases |line|
  {
    var body := line[..|line| - 1];
    if |line| > 2 || (|line| == 2 && line[0] != '\r') {
      assert line[1..][..|line| - 2] == body[1..];
      assert DropCarriage(body)[0] == line[0];
      forall i | 0 <= i < |DropCarriage(body[1..])| ensures !IsBreak(DropCarriage(body[1..])[i]) {
        assert DropCarriage(body[1..])[i] == DropCarriage(body)[i + 1];
      }
      FirstLineWhole(line[1..]);
    }
  }

  lemma {:induction false} FirstLineInner(line: string, i: nat)
    requires i + 1 < |line| && IsBreak(line[i]) && (i + 2 < |line| || line[i] != '\r')
    ensures FirstLine(line) < |line|
  {
    if i > 0 {
      FirstLineInner(line[1..], i - 1);
    }
  }

  /** A printed line is read as one line exactly when no break but a final `\r` is in it. */
  lemma PrintedLine(line: string)
    ensures
      var bare := BareLines(line + "\n");
      if Breakless(DropCarriage(line)) then bare == [DropCarriage(line)] else |bare| > 1
  {
    hide FirstLine, SplitLines;
    var whole := line + "\n";
    assert whole[..|line|] == line;
    if Breakless(DropCarriage(line)) {
      FirstLineWhole(whole);
      WholeLine(whole);
      BareCarriage(line);
    } else {
      var kept := DropCarriage(line);
      var i :| 0 <= i < |kept| && IsBreak(kept[i]);
      FirstLineInner(whole, i);
      TwoLines(whole);
    }
  }

  lemma BareCarriage(line: string)
    requires Breakless(DropCarriage(line))
    ensures Bare(line + "\n") == DropCarriage(line)
  {
    var whole := line + "\n";
    if EndsCarriage(line) {
      assert whole[..|whole| - 2] == DropCarriage(line);
    } else {
      BareTerminated(line);
    }
  }

  lemma TwoLines(text: string)
    requires text != [] && FirstLine(text) < |text|
    ensures |SplitLines(text)| > 1
  {
    assert SplitLines(text)[1..] == SplitLines(text[FirstLine(text)..]);
  }

  lemma {:induction false} JoinedConcat(a: seq<string>, b: seq<string>)
    ensures Joined(a + b) == Joined(a) + Joined(b)
  {
    if a == [] {
      assert a + b == b;
    } else {
      assert (a + b)[1..] == a[1..] + b;
      JoinedConcat(a[1..], b);
    }
  }

  /** Any line printed among lines without breaks gives its own lines between theirs. */
  lemma PrintedBetween(a: seq<string>, line: string, b: seq<string>)
    requires forall i | 0 <= i < |a| :: Breakless(a[i])
    requires forall i | 0 <= i < |b| :: Breakless(b[i])
    ensures BareLines(Printed(a + [line] + b)) == a + BareLines(line + "\n") + b
  {
    hide Clean, Breakless, SplitLines, Joined, Bare, FirstLine;
    PrintedParts(a, line, b);
    TerminatedClean(a);
    TerminatedClean(b);
    NoLines();
    var middle := line + "\n";
    var rest := Joined(Terminated(b)) + [];
    SplitJoined(Terminated(b), []);
    SplitEnds(middle, rest);
    SplitJoined(Terminated(a), middle + rest);
    assert SplitLines(Printed(a + [line] + b)) == Terminated(a) + SplitLines(middle) + Terminated(b);
  }

  lemma TerminatedClean(lines: seq<string>)
    requires forall i | 0 <= i < |lines| :: Breakless(lines[i])
    ensures forall i | 0 <= i < |lines| :: Clean(Terminated(lines)[i]) && Bare(Terminated(lines)[i]) == lines[i]
  {
    hide Clean, Breakless, Bare;
    forall i | 0 <= i < |lines| ensures Clean(Terminated(lines)[i]) && Bare(Terminated(lines)[i]) == lines[i] {
      BareTerminated(lines[i]);
    }
  }

  lemma PrintedParts(a: seq<string>, line: string, b: seq<string>)
    ensures Printed(a + [line] + b) == Joined(Terminated(a)) + ((line + "\n") + (Joined(Terminated(b)) + []))
  {
    hide Joined;
    assert Terminated(a + [line] + b) == Terminated(a) + ([line + "\n"] + Terminated(b));
    JoinedConcat(Terminated(a), [line + "\n"] + Terminated(b));
    JoinedConcat([line + "\n"], Terminated(b));
    JoinedOne(line + "\n");
  }

  lemma JoinedOne(line: string)
    ensures Joined([line]) == line
  {
    assert [line][1..] == [];
  }

  // ----- keys and values -----

  /** The position of the first equals sign, or the length. */
  function Equals(s: string): (n: nat)
    ensures n <= |s| && (n < |s| ==> s[n] == '=')
    ensures forall i | 0 <= i < n :: s[i] != '='
  {
    if s == [] || s[0] == '=' then 0 else 1 + Equals(s[1..])
  }

  /** The text before the first equals sign of a line, or the whole line. */
  function KeyOf(line: string): string {
    line[..Equals(line)]
  }

  /** The text after the first equals sign, if there is one. */
  function ValueOf(line: string): Option<string> {
    if Equals(line) < |line| then Some(line[Equals(line) + 1..]) else None
  }

  function Shown(key: string, value: string): string {
    key + "=" + value
  }

  lemma FirstEquals(s: string, n: nat)
    requires n < |s| && s[n] == '=' && forall i | 0 <= i < n :: s[i] != '='
    ensures Equals(s) == n
  {
  }

  lemma ShownParts(key: string, value: string)
    requires '=' !in key
    ensures KeyOf(Shown(key, value)) == key && ValueOf(Shown(key, value)) == Some(value)
  {
    var line := Shown(key, value);
    FirstEquals(line, |key|);
    assert line[..|key|] == key && line[|key| + 1..] == value;
  }

  // ----- whitespace at the ends -----

  function TrimLeft(s: string): string {
    if s == [] || !IsSpace(s[0]) then s else TrimLeft(s[1..])
  }

  function TrimRight(s: string): string {
    if s == [] || !IsSpace(s[|s| - 1]) then s else TrimRight(s[..|s| - 1])
  }

  function Trim(s: string): string {
    TrimRight(TrimLeft(s))
  }

  /** A line that starts and ends with something visible is not trimmed. */
  lemma TrimVisible(s: string)
    requires s != [] && !IsSpace(s[0]) && !IsSpace(s[|s| - 1])
    ensures Trim(s) == s && Trim(s + "\n") == s
  {
    var longer := s + "\n";
    assert longer[..|longer| - 1] == s;
  }
}
