/**
  What a plan means: four lines cleared, nothing else touched, and nothing left to clear.
*/
module BotTheorems {
  import opened Options
  import opened PythonText
  import opened BotPieces
  import opened BotEnvironment

  // ----- one line -----

  lemma BotKeysApart()
    ensures forall i, j | 0 <= i < BOT_KEYS && 0 <= j < BOT_KEYS && BotKey(i) == BotKey(j) :: i == j
    ensures forall i | 0 <= i < BOT_KEYS :: BotKey(i) != [] && BotKey(i)[0] == 'T'
  {
    assert BotKey(0)[9] == 'B' && BotKey(1)[9] == 'B' && BotKey(2)[9] == 'W' && BotKey(3)[9] == 'W';
    assert BotKey(0)[13] == 'T' && BotKey(1)[13] == 'U';
    assert BotKey(2)[17] == 'S' && BotKey(3)[17] == 'U';
  }

  lemma BotKeysNames(i: nat)
    requires i < BOT_KEYS
    ensures IsName(BotKey(i))
    ensures forall j | 0 <= j < |BotKey(i)| :: !IsBreak(BotKey(i)[j]) && BotKey(i)[j] != '='
  {
    assert IsName("TELEGRAM_BOT_TOKEN") && IsName("TELEGRAM_BOT_USERNAME");
    assert IsName("TELEGRAM_WEBHOOK_SECRET") && IsName("TELEGRAM_WEBHOOK_URL");
  }

  /** The name before the equals sign is the same, whatever is cut off at the end of the line. */
  lemma SameAssignment(line: string)
    ensures BotOf(line).Some? ==> KeyOf(line) == BotKey(BotOf(line).value)
    ensures
      var a := Assigns(Bare(line));
      BotOf(line) == if a.None? then None else BotIndex(a.value.name)
  {
    hide BotIndex;
    var body, bare := Body(line), Bare(line);
    assert body == line[..|body|] && bare == line[..|bare|];
    var n := Equals(line);
    if n < |line| {
      assert n < |body| && n < |bare|;
      FirstEquals(body, n);
      FirstEquals(bare, n);
      assert body[..n] == line[..n] == bare[..n];
    } else {
      assert Equals(body) == |body| && Equals(bare) == |bare|;
    }
  }

  /** The parts of a line that ends in an equals sign and a line ending. */
  lemma LineParts(body: string, newline: string)
    requires body != [] && body[|body| - 1] == '='
    requires newline == "" || newline == "\n" || newline == "\r\n"
    ensures Body(body + newline) == body && Bare(body + newline) == body
    ensures Newline(body + newline) == newline && Ending(body + newline) == newline
  {
    var line := body + newline;
    if newline == "" {
      assert line == body;
    } else if newline == "\n" {
      assert line[..|line| - 1] == body;
    } else {
      assert line[..|line| - 1] == body + "\r";
      assert (body + "\r")[..|body|] == body;
      assert line[..|line| - 2] == body;
    }
  }

  lemma {:induction false} SinglePrefix(key: string, newline: string)
    requires forall j | 0 <= j < |key| :: !IsBreak(key[j])
    requires newline == "" || newline == "\n" || newline == "\r\n"
    ensures Single(key + "=" + newline)
  {
    var line := key + "=" + newline;
    if key == [] {
      assert line[0] == '=' && line[1..] == newline;
      if newline == "" {
      } else {
        assert FirstLine(newline) == |newline|;
      }
    } else {
      assert line[1..] == key[1..] + "=" + newline;
      SinglePrefix(key[1..], newline);
    }
  }

  /** Clearing a line keeps its setting, leaves an empty value, and has nothing left to do. */
  lemma Clearing(line: string)
    requires Single(line)
    ensures Single(Cleared(line)) && BotOf(Cleared(line)) == BotOf(line) && Cleared(Cleared(line)) == Cleared(line)
    ensures !Malformed(line) ==> !Malformed(Cleared(line))
    ensures BotOf(line).Some? ==> Assigns(Bare(Cleared(line))) == Some(Assignment(BotKey(BotOf(line).value), ""))
    ensures BotOf(line).Some? ==> Cleared(line)[0] == 'T'
  {
    hide BotKey, FirstLine, IsBreak;
    if BotOf(line).Some? {
      var k := BotOf(line).value;
      BotKeysApart();
      BotKeysNames(k);
      var body := BotKey(k) + "=";
      assert Cleared(line) == body + Newline(line);
      LineParts(body, Newline(line));
      SinglePrefix(BotKey(k), Newline(line));
      FirstEquals(body, |BotKey(k)|);
      assert body[..|BotKey(k)|] == BotKey(k) && body[|BotKey(k)| + 1..] == "";
    }
  }

  // ----- all lines -----

  lemma ClearedSingles(lines: seq<string>)
    requires Singles(lines)
    ensures Singles(ClearedLines(lines))
  {
    hide Single, Cleared;
    forall i | 0 <= i < |lines| ensures Single(ClearedLines(lines)[i]) {
      Clearing(lines[i]);
    }
  }

  lemma {:induction false} SameCounts(lines: seq<string>, n: nat, k: nat)
    requires Singles(lines) && n <= |lines|
    ensures Count(ClearedLines(lines), n, k) == Count(lines, n, k)
  {
    hide Single, Cleared, BotOf;
    if n > 0 {
      Clearing(lines[n - 1]);
      SameCounts(lines, n - 1, k);
    }
  }

  /** Cleared lines are well assigned, and clearing them again changes nothing. */
  lemma ClearedAgain(lines: seq<string>)
    requires Singles(lines) && WellAssigned(lines)
    ensures WellAssigned(ClearedLines(lines)) && ClearedLines(ClearedLines(lines)) == ClearedLines(lines)
  {
    hide Single, Cleared, BotOf, Malformed;
    forall i | 0 <= i < |lines|
      ensures !Malformed(ClearedLines(lines)[i]) && Cleared(Cleared(lines[i])) == Cleared(lines[i])
    {
      Clearing(lines[i]);
    }
    forall k | 0 <= k < BOT_KEYS ensures Count(ClearedLines(lines), |lines|, k) == 1 {
      SameCounts(lines, |lines|, k);
    }
  }

  /** When no two cleared lines run together, clearing is idempotent. */
  lemma IdempotentWhenSeparated(text: string)
    requires Neutralized(text).Some? && Separated(ClearedLines(SplitLines(text)))
    ensures Neutralized(Neutralized(text).value) == Neutralized(text)
    ensures SplitLines(Neutralized(text).value) == ClearedLines(SplitLines(text))
  {
    hide SplitLines, Joined, Cleared, Separated, WellAssigned, Single;
    var lines := SplitLines(text);
    LinesSeparated(text);
    ClearedSingles(lines);
    PiecesForm(ClearedLines(lines));
    ClearedAgain(lines);
  }

  /** Every line but the last ends in LF or CRLF. */
  predicate Ordinary(lines: seq<string>) {
    forall i | 0 <= i < |lines| - 1 :: Ends(lines[i])
  }

  lemma OrdinarySeparated(lines: seq<string>)
    requires Singles(lines) && Separated(lines) && Ordinary(lines)
    ensures Separated(ClearedLines(lines))
  {
    hide Cleared, BotOf, FirstLine, IsBreak;
    forall i | 0 <= i < |lines| - 1 ensures Apart(ClearedLines(lines)[i], ClearedLines(lines)[i + 1]) {
      EndsBroken(lines[i]);
    }
  }

  lemma EndsBroken(line: string)
    requires Ends(line)
    ensures Ends(Cleared(line)) && Broken(Cleared(line))
  {
  }

  /** On texts of LF and CRLF lines clearing is idempotent. */
  lemma IdempotentOnOrdinary(text: string)
    requires Ordinary(SplitLines(text)) && Neutralized(text).Some?
    ensures Neutralized(Neutralized(text).value) == Neutralized(text)
  {
    hide SplitLines, Neutralized;
    LinesSeparated(text);
    OrdinarySeparated(SplitLines(text));
    IdempotentWhenSeparated(text);
  }

  // ----- the plan -----

  /** How many of the first `n` lines assign some Bot setting. */
  function BotLines(lines: seq<string>, n: nat): nat
    requires n <= |lines|
  {
    if n == 0 then 0 else BotLines(lines, n - 1) + (if BotOf(lines[n - 1]).Some? then 1 else 0)
  }

  lemma {:induction false} BotLinesByKey(lines: seq<string>, n: nat)
    requires n <= |lines|
    ensures BotLines(lines, n) == Count(lines, n, 0) + Count(lines, n, 1) + Count(lines, n, 2) + Count(lines, n, 3)
  {
    hide BotOf;
    if n > 0 {
      BotLinesByKey(lines, n - 1);
      BotOfRange(lines[n - 1]);
    }
  }

  lemma BotOfRange(line: string)
    ensures BotOf(line).Some? ==> BotOf(line).value < BOT_KEYS
  {
  }

  /** Only Bot lines change; all of them do exactly when as many lines change as there are. */
  lemma {:induction false} ChangedBotLines(lines: seq<string>, n: nat)
    requires n <= |lines|
    ensures Changed(lines, ClearedLines(lines), n) <= BotLines(lines, n)
    ensures Changed(lines, ClearedLines(lines), n) == BotLines(lines, n) <==>
            forall i | 0 <= i < n && BotOf(lines[i]).Some? :: Cleared(lines[i]) != lines[i]
  {
    hide BotOf, Cleared;
    if n > 0 {
      ChangedBotLines(lines, n - 1);
      NotBotNotChanged(lines[n - 1]);
    }
  }

  lemma NotBotNotChanged(line: string)
    ensures BotOf(line).None? ==> Cleared(line) == line
  {
  }

  /**
    A Bot line can be cleared by a plan: it is not empty already, it does not end in a lone
    carriage return, and unless it is the last line it ends in a line feed.
  */
  predicate Clearable(lines: seq<string>, i: nat)
    requires i < |lines|
  {
    Cleared(lines[i]) != lines[i] && Newline(lines[i]) == Ending(lines[i]) && (Ends(lines[i]) || i == |lines| - 1)
  }

  ghost predicate AllClearable(lines: seq<string>) {
    forall i | 0 <= i < |lines| && BotOf(lines[i]).Some? :: Clearable(lines, i)
  }

  lemma AllowedCleared(line: string)
    requires Single(line)
    ensures Allowed(line, Cleared(line)) <==>
            BotOf(line).None? || Cleared(line) == line || Newline(line) == Ending(line)
  {
    hide FirstLine, IsBreak, BotKey;
    SameAssignment(line);
    if BotOf(line).Some? {
      var key := BotKey(BotOf(line).value);
      assert (key + "=" + Newline(line))[|key| + 1..] == Newline(line);
      assert (key + "=" + Ending(line))[|key| + 1..] == Ending(line);
      BotIndexOf(BotOf(line).value);
    }
  }

  lemma BotIndexOf(k: nat)
    requires k < BOT_KEYS
    ensures BotIndex(BotKey(k)) == Some(k)
  {
    BotKeysApart();
  }

  lemma ClearedApart(line: string, next: string)
    requires Single(line) && Single(next) && Apart(line, next)
    requires BotOf(line).Some? ==> Ends(line)
    ensures Apart(Cleared(line), Cleared(next))
  {
    hide FirstLine, IsBreak, BotOf, Newline, Ending;
    Clearing(next);
    if BotOf(line).Some? {
      EndsBroken(line);
    }
  }

  lemma ClearableSeparated(lines: seq<string>)
    requires Singles(lines) && Separated(lines) && AllClearable(lines)
    ensures Separated(ClearedLines(lines))
  {
    hide Apart, Single, BotOf, Newline, Ending, Cleared, Ends;
    forall i | 0 <= i < |lines| - 1 ensures Apart(ClearedLines(lines)[i], ClearedLines(lines)[i + 1]) {
      assert BotOf(lines[i]).Some? ==> Clearable(lines, i);
      ClearedApart(lines[i], lines[i + 1]);
    }
  }

  lemma SeparatedClearable(lines: seq<string>, i: nat)
    requires Singles(lines) && Separated(ClearedLines(lines)) && i < |lines| - 1
    requires BotOf(lines[i]).Some? && Newline(lines[i]) == Ending(lines[i])
    ensures Ends(lines[i])
  {
    hide FirstLine, BotOf, BotKey;
    var line := Cleared(lines[i]);
    assert Apart(ClearedLines(lines)[i], ClearedLines(lines)[i + 1]);
    assert Newline(lines[i]) == "" ==> line[|line| - 1] == '=';
  }

  /** A plan can be made exactly when each Bot setting is assigned once, on a line that can be cleared. */
  lemma PlanExact(text: string)
    ensures Plan(text).Some? <==> WellAssigned(SplitLines(text)) && AllClearable(SplitLines(text))
    ensures Plan(text).Some? ==> SplitLines(Plan(text).value) == ClearedLines(SplitLines(text))
  {
    hide SplitLines, Joined, Single, Cleared, BotOf, Newline, Ending, Malformed, Allowed, Separated, Ends;
    var lines := SplitLines(text);
    if WellAssigned(lines) {
      var out := ClearedLines(lines);
      LinesSeparated(text);
      ClearedSingles(lines);
      PiecesForm(out);
      BotLinesByKey(lines, |lines|);
      ChangedBotLines(lines, |lines|);
      forall i | 0 <= i < |lines| ensures
          Allowed(lines[i], out[i]) <==>
          BotOf(lines[i]).None? || Cleared(lines[i]) == lines[i] || Newline(lines[i]) == Ending(lines[i])
      {
        AllowedCleared(lines[i]);
      }
      if AllClearable(lines) {
        ClearableSeparated(lines);
        assert forall i | 0 <= i < |lines| && BotOf(lines[i]).Some? :: Clearable(lines, i);
      }
      if Plan(text).Some? {
        forall i | 0 <= i < |lines| && BotOf(lines[i]).Some? ensures Clearable(lines, i) {
          assert Allowed(lines[i], out[i]);
          if i < |lines| - 1 {
            SeparatedClearable(lines, i);
          }
        }
      }
    }
  }

  // ----- what the assignments are -----

  /** Line `i` is the last of the first `n` lines to assign this name. */
  ghost predicate LastAssigns(lines: seq<string>, n: nat, i: nat, a: Assignment)
    requires n <= |lines|
  {
    && i < n && Assigns(Bare(lines[i])) == Some(a)
    && forall j | i < j < n :: Assigns(Bare(lines[j])).None? || Assigns(Bare(lines[j])).value.name != a.name
  }

  /** The last of the first `n` lines to assign this name gives it this value. */
  ghost predicate GivenLast(lines: seq<string>, n: nat, a: Assignment)
    requires n <= |lines|
  {
    exists i: nat :: LastAssigns(lines, n, i, a)
  }

  lemma OneLineMore(lines: seq<string>, n: nat, a: Assignment)
    requires 0 < n <= |lines|
    ensures
      var last := Assigns(Bare(lines[n - 1]));
      GivenLast(lines, n, a) <==>
        if last.Some? && last.value.name == a.name then last.value == a else GivenLast(lines, n - 1, a)
  {
    hide Bare, Assigns;
    var last := Assigns(Bare(lines[n - 1]));
    if last == Some(a) {
      assert LastAssigns(lines, n, n - 1, a);
    }
    if last.None? || last.value.name != a.name {
      if GivenLast(lines, n, a) {
        var i: nat :| LastAssigns(lines, n, i, a);
        assert LastAssigns(lines, n - 1, i, a);
      }
      if GivenLast(lines, n - 1, a) {
        var i: nat :| LastAssigns(lines, n - 1, i, a);
        assert LastAssigns(lines, n, i, a);
      }
    }
  }

  lemma {:induction false} LastOneWins(lines: seq<string>, n: nat, a: Assignment)
    requires n <= |lines|
    ensures a.name in Environment(lines, n) && Environment(lines, n)[a.name] == a.value <==> GivenLast(lines, n, a)
  {
    hide Bare, Assigns;
    if n > 0 {
      LastOneWins(lines, n - 1, a);
      OneLineMore(lines, n, a);
    }
  }

  /** A setting has the value that the last line naming it gives. */
  lemma AssignmentsRead(text: string, name: string, value: string)
    ensures name in Assignments(text) && Assignments(text)[name] == value <==>
            GivenLast(SplitLines(text), |SplitLines(text)|, Assignment(name, value))
  {
    hide SplitLines, GivenLast;
    LastOneWins(SplitLines(text), |SplitLines(text)|, Assignment(name, value));
  }

  /** A name of capital letters, digits and underscores, an equals sign, and any value. */
  lemma AssignmentLine(name: string, value: string)
    requires IsName(name)
    ensures Assigns(name + "=" + value) == Some(Assignment(name, value))
  {
    var body := name + "=" + value;
    NoEqualsIn(name, "=" + value);
    assert body == name + ("=" + value) && body[..|name|] == name && body[|name| + 1..] == value;
  }

  lemma {:induction false} NoEqualsIn(name: string, rest: string)
    requires Upper(name) && rest != [] && rest[0] == '='
    ensures Equals(name + rest) == |name|
  {
    if name != [] {
      assert (name + rest)[1..] == name[1..] + rest;
      NoEqualsIn(name[1..], rest);
    } else {
      assert name + rest == rest;
    }
  }

  // ----- what the plan means -----

  /** The map with every Bot setting emptied. */
  function Emptied(m: map<string, string>): map<string, string> {
    map name | name in m :: if BotIndex(name).Some? then "" else m[name]
  }

  lemma {:induction false} EnvironmentCleared(lines: seq<string>, n: nat)
    requires Singles(lines) && n <= |lines|
    ensures Environment(ClearedLines(lines), n) == Emptied(Environment(lines, n))
  {
    hide Single, Cleared, BotOf, BotIndex, Bare, Assigns, BotKey;
    if n > 0 {
      EnvironmentCleared(lines, n - 1);
      var line := lines[n - 1];
      AssignedCleared(line);
      EmptiedAssigned(Environment(lines, n - 1), line);
    }
  }

  /** What one cleared line assigns. */
  lemma AssignedCleared(line: string)
    requires Single(line)
    ensures
      var a := Assigns(Bare(line));
      Assigns(Bare(Cleared(line))) ==
        if a.Some? && BotIndex(a.value.name).Some? then Some(Assignment(a.value.name, "")) else a
  {
    hide FirstLine, Bare, Assigns, Newline, Body, BotKey;
    SameAssignment(line);
    Clearing(line);
  }

  lemma EmptiedAssigned(m: map<string, string>, line: string)
    ensures
      var a := Assigns(Bare(line));
      Emptied(Assigned(m, line)) ==
        if a.None? then Emptied(m)
        else Emptied(m)[a.value.name := if BotIndex(a.value.name).Some? then "" else a.value.value]
  {
    hide Bare, Assigns, BotIndex;
  }

  lemma {:induction false} CountedIsAssigned(lines: seq<string>, n: nat, k: nat)
    requires n <= |lines| && k < BOT_KEYS && Count(lines, n, k) > 0
    ensures BotKey(k) in Environment(lines, n)
  {
    hide BotKey, Bare, Assigns, BotIndex, BotOf;
    if BotOf(lines[n - 1]) == Some(k) {
      SameAssignment(lines[n - 1]);
      BotIndexIs(Assigns(Bare(lines[n - 1])).value.name, k);
    } else {
      CountedIsAssigned(lines, n - 1, k);
    }
  }

  lemma BotIndexIs(name: string, k: nat)
    requires BotIndex(name) == Some(k)
    ensures name == BotKey(k)
  {
  }

  /** The old assignments with the four Bot settings set to empty. */
  function WithoutBot(m: map<string, string>): map<string, string> {
    m[BotKey(0) := ""][BotKey(1) := ""][BotKey(2) := ""][BotKey(3) := ""]
  }

  lemma EmptiedIsWithoutBot(m: map<string, string>)
    requires forall k | 0 <= k < BOT_KEYS :: BotKey(k) in m
    ensures Emptied(m) == WithoutBot(m)
  {
    hide BotKey, BotIndex;
    forall name ensures BotIndex(name).Some? <==> name in {BotKey(0), BotKey(1), BotKey(2), BotKey(3)} {
      BotIndexCases(name);
    }
  }

  lemma BotIndexCases(name: string)
    ensures BotIndex(name).Some? <==> name in {BotKey(0), BotKey(1), BotKey(2), BotKey(3)}
  {
    hide BotKey;
  }

  /**
    Whenever a plan is made, whatever the line separators: exactly four lines changed, each an
    assignment of a different Bot setting that is now empty; the assignments are the old ones with
    those four emptied; clearing again changes nothing; and there is nothing left to plan.
  */
  lemma PlanMeaning(text: string)
    requires Plan(text).Some?
    ensures
      var planned := Plan(text).value;
      var before, after := SplitLines(text), SplitLines(planned);
      && |after| == |before| && Changed(before, after, |before|) == BOT_KEYS
      && (forall i | 0 <= i < |before| :: after[i] == Cleared(before[i]))
      && (forall k | 0 <= k < BOT_KEYS :: Count(before, |before|, k) == 1)
      && Assignments(planned) == WithoutBot(Assignments(text))
      && Neutralized(planned) == Neutralized(text) == Some(planned)
      && Plan(planned).None?
  {
    hide SplitLines, Joined, Single, Cleared, BotOf, Newline, Ending, Malformed, Allowed, Ends, Apart, BotKey, Emptied,
      WithoutBot, Environment, Clearable;
    var lines := SplitLines(text);
    var planned := Plan(text).value;
    PlanExact(text);
    LinesSeparated(text);
    ClearedSingles(lines);
    PiecesForm(ClearedLines(lines));
    IdempotentWhenSeparated(text);
    EnvironmentCleared(lines, |lines|);
    forall k | 0 <= k < BOT_KEYS ensures BotKey(k) in Assignments(text) {
      CountedIsAssigned(lines, |lines|, k);
    }
    EmptiedIsWithoutBot(Assignments(text));
    NothingLeft(lines, planned);
  }

  lemma NothingLeft(lines: seq<string>, planned: string)
    requires Singles(lines) && WellAssigned(lines) && SplitLines(planned) == ClearedLines(lines)
    ensures Plan(planned).None?
  {
    hide SplitLines, Joined, Single, Cleared, BotOf, Newline, Ending, Malformed, Ends, Apart, BotKey;
    ClearedAgain(lines);
    PlanExact(planned);
    var out := ClearedLines(lines);
    assert Count(out, |out|, 0) > 0;
    var i := CountedLine(out, |out|, 0);
    assert ClearedLines(out)[i] == out[i];
    assert !Clearable(out, i);
  }

  lemma {:induction false} CountedLine(lines: seq<string>, n: nat, k: nat) returns (i: nat)
    requires n <= |lines| && Count(lines, n, k) > 0
    ensures i < n && BotOf(lines[i]) == Some(k)
  {
    hide BotOf;
    if BotOf(lines[n - 1]) == Some(k) {
      i := n - 1;
    } else {
      i := CountedLine(lines, n - 1, k);
    }
  }
}
