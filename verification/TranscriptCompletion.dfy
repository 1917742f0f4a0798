/**
  Transcripts that are judged incomplete can still become those of a run, and no others are judged
  so: a finished line that fits no run makes a transcript invalid at once. Only the counts of a page
  are looked at when all of its lines have been read.
*/
module TranscriptCompletion {
  import opened Options
  import opened PythonText
  import opened TranscriptProtocol
  import opened TranscriptRuns
  import opened TranscriptGrammar
  import opened TranscriptLanguage

  // ----- states from which a transcript can be finished -----

  /** Positions and counts are in their ranges. */
  predicate Ranged(s: State) {
    match s
    case Guard(i) => i < GUARDS
    case Structure(i) => i < STRUCTURE
    case Counting(i, _, _) => i < COUNTERS
    case PageConverted(_, _, seen, _) => seen <= 100
    case PageNone(_, _, seen, converted, _) => seen <= 100 && converted <= 100
    case PageStage(_, seen, converted, none, _) => seen <= 100 && converted <= 100 && none <= 1
    case _ => true
  }

  /** The counts of a page that is being read fit some way for the page to end. */
  predicate Fitting(s: State) {
    match s
    case PageNone(_, passed, seen, converted, _) =>
      (seen == converted && (passed || seen < 100)) || (!passed && converted + 1 == seen)
    case PageStage(_, seen, converted, none, _) =>
      (seen == converted && none == 0 && seen < 100) || converted + 1 == seen
    case _ => true
  }

  function Rank(s: State): nat {
    match s
    case PagePass(_, _) => 5
    case PageSeen(_, _, _) => 4
    case PageConverted(_, _, _, _) => 3
    case PageNone(_, _, _, _, _) => 2
    case _ => 1
  }

  lemma SomeClass()
    ensures IsClass(ClassName(0)) && Classes()[0] == ClassName(0)
  {
    hide ClassName;
    assert Classes()[0] == ClassName(0);
  }

  lemma ChecksFinish(s: State) returns (lines: seq<string>)
    requires Ranged(s) && (s.Guard? || s.Structure?)
    ensures Judge(s, lines, 0).Accepted?
  {
    hide Judge, Decimal, Line, ClassName, IsClass, ClosingLines, GuardKey, GuardStage, StructureKey, StructureStage,
      StructureExpected;
    SomeClass();
    var f := ProbeFailure(if s.Guard? then GuardStage(s.i) else StructureStage(s.i), ClassName(0), 0);
    var v := if s.Guard? || StructureExpected(s.i) then 1 else 0;
    FailureAccepted(f, ZERO);
    Head(s, v, ClosingLines(Some(f), ZERO));
    lines := [Line(Key(s), Values(s)[v])] + ClosingLines(Some(f), ZERO);
  }

  lemma OpeningFinishes(s: State) returns (lines: seq<string>)
    requires s.ChildStarted? || s.Opening? || s.BlockedReason? || s.BlockedEnd?
    ensures Judge(s, lines, 0).Accepted?
  {
    hide Judge, Line, Choice;
    var end := [Line(TerminalKey(), "blocked")];
    BlockedAccepted(0);
    if s.ChildStarted? {
      ChildStartedHead(BlockedLines(0));
      lines := [Line("CHILD_STARTED", Boolean(true))] + BlockedLines(0);
    } else if s.Opening? {
      lines := BlockedLines(0);
    } else {
      assert end == end + [];
      Head(BlockedEnd, 0, []);
      DoneAtEnd(Blocked);
      Head(BlockedReason, 0, end);
      lines := if s.BlockedEnd? then end else [Line("REMOTE_BLOCKED", Reason(0))] + end;
    }
  }

  lemma ClosingFinishes(s: State) returns (lines: seq<string>)
    requires Ranged(s)
    requires s.StageLine? || s.ClassLine? || s.OrdinalLine? || s.Counting? || s.Terminal? || s.Done?
    ensures Judge(s, lines, 0).Accepted?
  {
    hide Judge, Decimal, Line, ClassName, IsClass, ClosingLines, EndLines, CounterLines, CounterKey;
    SomeClass();
    match s {
      case StageLine(stage, ordinal, tally) =>
        FailureAccepted(ProbeFailure(stage, ClassName(0), ordinal), tally);
        lines := ClosingLines(Some(ProbeFailure(stage, ClassName(0), ordinal)), tally);
      case ClassLine(ordinal, tally) =>
        ClassAccepted(ClassName(0), ordinal, tally);
        lines := [Line("RAW_EXCEPTION_CLASS", ClassName(0))] +
                 ([Line("MESSAGE_ORDINAL", Decimal(ordinal))] + EndLines(true, tally));
      case OrdinalLine(ordinal, tally) =>
        EndAccepted(true, tally);
        Head(s, 0, EndLines(true, tally));
        lines := [Line("MESSAGE_ORDINAL", Decimal(ordinal))] + EndLines(true, tally);
      case Counting(i, failed, tally) =>
        CountersAccepted(i, failed, tally);
        lines := CounterLines(i, tally) + [Line(TerminalKey(), Outcome(failed))];
      case Terminal(failed) =>
        CountersAccepted(COUNTERS, failed, ZERO);
        lines := CounterLines(COUNTERS, ZERO) + [Line(TerminalKey(), Outcome(failed))];
      case Done(verdict) =>
        DoneAtEnd(verdict);
        lines := [];
    }
  }

  lemma DecisionFinishes(s: State) returns (lines: seq<string>)
    requires s.AfterFirst? || s.Required?
    ensures Judge(s, lines, 0).Accepted?
  {
    hide Judge, Decimal, Line, ClosingLines;
    var closing := ClosingLines(None, s.tally);
    SuccessLines(s.tally);
    if s.AfterFirst? {
      RequiredAccepted(s.seen, false, s.tally, closing);
    } else {
      Head(s, 1, closing);
    }
    lines := [RequiredLine(false)] + closing;
  }

  lemma FailedPageFinishes(page: PageNumber, seen: nat, converted: nat, none: nat, tally: Tally)
    returns (lines: seq<string>)
    requires seen <= 100 && none <= 1 && Fitting(PageStage(page, seen, converted, none, tally))
    ensures Judge(PageStage(page, seen, converted, none, tally), lines, 0).Accepted?
  {
    hide Judge, Decimal, Line, ClassName, IsClass, ClosingLines, PageNumber.Stage;
    SomeClass();
    var phase := if converted + 1 == seen then CONVERSION else ITERATION;
    var p := Page(seen, converted, none, Some(Stop(phase, ClassName(0))));
    StageAccepted(page, p, tally);
    lines := ClosingLines(p.Cause(page), tally.FailedAt(page.Number(), phase));
  }

  /** From every state whose counts fit there is a way to the end. */
  lemma {:induction false} Finishes(s: State) returns (lines: seq<string>)
    requires Ranged(s) && Fitting(s)
    ensures Judge(s, lines, 0).Accepted?
    decreases Rank(s)
  {
    hide Judge, Decimal, Line, Numbers, PageNumber.PassKey, PageNumber.SeenKey, PageNumber.ConvertedKey,
      PageNumber.NoneKey, PageNumber.Stages, Plain;
    match s {
      case PagePass(page, tally) =>
        var rest := Finishes(PageSeen(page, false, tally));
        Head(s, 1, rest);
        lines := [Line(Key(s), Boolean(false))] + rest;
      case PageSeen(page, passed, tally) =>
        var rest := Finishes(PageConverted(page, passed, 0, tally));
        NumberHead(s, 0, 100, rest);
        lines := [Line(Key(s), Decimal(0))] + rest;
      case PageConverted(page, passed, seen, tally) =>
        var converted := if !passed && seen == 100 then 99 else seen;
        var rest := Finishes(PageNone(page, passed, seen, converted, tally));
        NumberHead(s, converted, 100, rest);
        lines := [Line(Key(s), Decimal(converted))] + rest;
      case PageNone(page, passed, seen, converted, tally) =>
        var rest := AfterCountsFinishes(page, passed, seen, converted, tally);
        NumberHead(s, 0, 1, rest);
        lines := [Line(Key(s), Decimal(0))] + rest;
      case PageStage(page, seen, converted, none, tally) =>
        lines := FailedPageFinishes(page, seen, converted, none, tally);
      case AfterFirst(_, _) => lines := DecisionFinishes(s);
      case Required(_, _) => lines := DecisionFinishes(s);
      case Guard(_) => lines := ChecksFinish(s);
      case Structure(_) => lines := ChecksFinish(s);
      case ChildStarted => lines := OpeningFinishes(s);
      case Opening => lines := OpeningFinishes(s);
      case BlockedReason => lines := OpeningFinishes(s);
      case BlockedEnd => lines := OpeningFinishes(s);
      case _ => lines := ClosingFinishes(s);
    }
  }

  lemma AfterCountsFinishes(page: PageNumber, passed: bool, seen: nat, converted: nat, tally: Tally)
    returns (lines: seq<string>)
    requires seen <= 100 && Fitting(PageNone(page, passed, seen, converted, tally))
    ensures
      var next := AfterPage(page, passed, seen, converted, 0, tally);
      next.Some? && Judge(next.value, lines, 0).Accepted?
  {
    hide Judge;
    var next := AfterPage(page, passed, seen, converted, 0, tally).value;
    if !passed {
      lines := FailedPageFinishes(page, seen, converted, 0, tally.Add(seen, converted));
    } else if page.First? {
      lines := DecisionFinishes(next);
    } else {
      lines := ClosingFinishes(next);
    }
  }

  // ----- finished lines -----

  /** The lines up to the first that does not end in a line feed. */
  function Finished(lines: seq<string>): seq<string> {
    if lines == [] || !Ends(lines[0]) then [] else [lines[0]] + Finished(lines[1..])
  }

  /** A line that counts entries of a page. */
  ghost predicate Counts(line: string) {
    exists page: PageNumber, value :: line == Line(page.ConvertedKey(), value) || line == Line(page.NoneKey(), value)
  }

  ghost predicate EndsInCounts(lines: seq<string>) {
    lines != [] && Counts(lines[|lines| - 1])
  }

  /** One allowed line: positions stay in range, and counts are given by lines that count. */
  lemma StepRanged(s: State, line: string)
    requires Ranged(s) && Step(s, line).Some?
    ensures Ranged(Step(s, line).value)
    ensures Fitting(Step(s, line).value) || Counts(line)
  {
    hide Choice, Line, Decimal, Numbers, StartsWith, GuardKey, GuardStage, StructureKey, StructureStage, CounterKey,
      StructureExpected, PageNumber.PassKey, PageNumber.SeenKey, PageNumber.ConvertedKey, PageNumber.NoneKey,
      PageNumber.Stages, PageOrdinal, Tally.Counter, Page2State;
    var s' := Peek(s, line);
    assert |Numbers(100)| == 101 && |Numbers(1)| == 2;
    var v := Choice(line, Key(s'), Values(s')).value;
    assert line == Line(Key(s'), Values(s')[v]);
  }

  lemma FirstStep(s: State, lines: seq<string>)
    requires !s.Done? && lines != [] && Ends(lines[0])
    ensures Judge(s, lines, 0) == Onward(Step(s, lines[0]), lines[1..], 0)
  {
    hide Step;
    assert lines == [lines[0]] + lines[1..];
    if Step(s, lines[0]).Some? {
      Shift(Step(s, lines[0]).value, [lines[0]], lines[1..], 0);
    }
  }

  /** The state incomplete lines lead to, and that whatever follows the finished ones is left to it. */
  lemma {:induction false} Reaches(s: State, lines: seq<string>) returns (end: State)
    requires Ranged(s) && Judge(s, lines, 0) == Incomplete
    ensures Ranged(end) && !end.Done?
    ensures Fitting(end) || EndsInCounts(Finished(lines)) || (Finished(lines) == [] && end == s)
    ensures forall more: seq<string> :: Judge(s, Finished(lines) + more, 0) == Judge(end, more, 0)
    decreases |lines|
  {
    hide Step, Fitting, Ranged, Counts;
    if lines == [] || !Ends(lines[0]) {
      end := s;
      assert forall more: seq<string> :: [] + more == more;
    } else {
      FirstStep(s, lines);
      var next := Step(s, lines[0]).value;
      StepRanged(s, lines[0]);
      end := Reaches(next, lines[1..]);
      var rest := Finished(lines[1..]);
      forall more: seq<string> ensures Judge(s, Finished(lines) + more, 0) == Judge(end, more, 0) {
        var all := Finished(lines) + more;
        assert all[0] == lines[0] && all[1..] == rest + more;
        FirstStep(s, all);
      }
    }
  }

  /** Where the finished lines could go on, the lines are incomplete. */
  lemma {:induction false} CanGoOn(s: State, lines: seq<string>, more: seq<string>)
    requires Judge(s, Finished(lines) + more, 0).Accepted? && more != []
    ensures Judge(s, lines, 0) == Incomplete
    decreases |lines|
  {
    hide Step;
    if lines != [] && Ends(lines[0]) {
      var all := Finished(lines) + more;
      assert all[0] == lines[0] && all[1..] == Finished(lines[1..]) + more;
      FirstStep(s, all);
      FirstStep(s, lines);
      CanGoOn(Step(s, lines[0]).value, lines[1..], more);
    } else {
      assert Finished(lines) + more == more;
    }
  }

  lemma Continued(s: State, lines: seq<string>) returns (more: seq<string>)
    requires Ranged(s) && Fitting(s) && Judge(s, lines, 0) == Incomplete && !EndsInCounts(Finished(lines))
    ensures more != [] && Judge(s, Finished(lines) + more, 0).Accepted?
  {
    hide Judge, Ranged, Fitting, EndsInCounts, Finished;
    var end := Reaches(s, lines);
    more := Finishes(end);
    if more == [] {
      OnlyDone(end);
    }
  }

  lemma OnlyDone(s: State)
    requires !s.Done?
    ensures Judge(s, [], 0) == Incomplete
  {
  }

  /** The finished lines are the beginning of those of a run, and not all of them. */
  ghost predicate Begins(lines: seq<string>, run: RemoteRun) {
    run.WellFormed() && lines <= run.Lines() && lines != run.Lines()
  }

  ghost predicate ChildBegins(lines: seq<string>, run: ChildRun) {
    run.WellFormed() && lines <= run.Lines() && lines != run.Lines()
  }

  /** Unless it breaks off right behind a count, a transcript is incomplete exactly if a run can begin so. */
  lemma IncompleteBegins(text: string)
    ensures
      var lines := Finished(SplitLines(text));
      !EndsInCounts(lines) ==>
        (JudgeText(text, false) == Incomplete <==> exists run: RemoteRun :: Begins(lines, run))
  {
    hide Judge, SplitLines, Finished, EndsInCounts, RemoteRun.Lines, RemoteRun.WellFormed, RemoteRun.Verdict;
    var all := SplitLines(text);
    var lines := Finished(all);
    if JudgeText(text, false) == Incomplete && !EndsInCounts(lines) {
      var more := Continued(Start(false), all);
      var run := RemoteRead(lines + more);
      assert Begins(lines, run);
    }
    forall run: RemoteRun | Begins(lines, run) ensures JudgeText(text, false) == Incomplete {
      var more := run.Lines()[|lines|..];
      assert lines + more == run.Lines();
      RemoteAccepted(run);
      CanGoOn(Start(false), all, more);
    }
  }

  /** The same for the transcript of the child alone. */
  lemma IncompleteChildBegins(text: string)
    ensures
      var lines := Finished(SplitLines(text));
      !EndsInCounts(lines) ==>
        (JudgeText(text, true) == Incomplete <==> exists run: ChildRun :: ChildBegins(lines, run))
  {
    hide Judge, SplitLines, Finished, EndsInCounts, ChildRun.Lines, ChildRun.WellFormed, ChildRun.Verdict;
    var all := SplitLines(text);
    var lines := Finished(all);
    if JudgeText(text, true) == Incomplete && !EndsInCounts(lines) {
      var more := Continued(Start(true), all);
      var run := ChildRead(lines + more);
      assert ChildBegins(lines, run);
    }
    forall run: ChildRun | ChildBegins(lines, run) ensures JudgeText(text, true) == Incomplete {
      var more := run.Lines()[|lines|..];
      assert lines + more == run.Lines();
      ChildAccepted(run);
      CanGoOn(Start(true), all, more);
    }
  }
}
