/**
  The strict grammar, from above: which lines it accepts, with which verdict.
*/
module TranscriptLanguage {
  import opened Options
  import opened PythonText
  import opened TranscriptProtocol
  import opened TranscriptRuns
  import opened TranscriptGrammar

  // ----- the two places where the protocol looks ahead -----

  lemma PeekHead(s: State, line: string, rest: seq<string>)
    requires s.Opening? || s.AfterFirst?
    ensures Judge(s, [line] + rest, 0) == Judge(Peek(s, line), [line] + rest, 0)
  {
    hide Key, Values, Next, Choice;
    assert ([line] + rest)[0] == line;
  }

  lemma LinesApart(value: string)
    ensures StartsWith(Line("FAILURE_STAGE", value), "FAILURE_STAGE=")
    ensures StartsWith(Line("REMOTE_BLOCKED", value), "REMOTE_BLOCKED=")
    ensures !StartsWith(Line("PAGE2_REQUIRED", value), "FAILURE_STAGE=")
    ensures !StartsWith(Line("IMPORTS_PASS", value), "REMOTE_BLOCKED=")
  {
    assert Line("FAILURE_STAGE", value)[..14] == "FAILURE_STAGE=";
    assert Line("REMOTE_BLOCKED", value)[..15] == "REMOTE_BLOCKED=";
    assert Line("PAGE2_REQUIRED", value)[0] == 'P' && Line("IMPORTS_PASS", value)[0] == 'I';
    assert "FAILURE_STAGE="[0] == 'F' && "REMOTE_BLOCKED="[0] == 'R';
  }

  lemma StateFailureAccepted(seen: nat, f: ProbeFailure, tally: Tally)
    requires IsClass(f.kind) && f.stage == Page2State() && f.ordinal == 0
    ensures Judge(AfterFirst(seen, tally), ClosingLines(Some(f), tally), 0) == Accepted(Failure)
  {
    hide Judge, Decimal, Line, Choice, IsClass, Page2State, StartsWith, EndLines;
    LinesApart(f.stage);
    var lines := ClosingLines(Some(f), tally);
    assert lines == [lines[0]] + lines[1..];
    PeekHead(AfterFirst(seen, tally), lines[0], lines[1..]);
    FailureAccepted(f, tally);
  }

  lemma RequiredAccepted(seen: nat, required: bool, tally: Tally, rest: seq<string>)
    requires required ==> seen == 100
    ensures Judge(AfterFirst(seen, tally), [RequiredLine(required)] + rest, 0) ==
            Judge(if required then PagePass(Second, tally) else Counting(0, false, tally), rest, 0)
  {
    hide Judge, Line, Choice, StartsWith;
    LinesApart(Boolean(required));
    PeekHead(AfterFirst(seen, tally), RequiredLine(required), rest);
    Head(Required(seen, tally), if required then 0 else 1, rest);
  }

  /** Accepted lines after a passed first page: a failed derivation, or a decision on page two. */
  lemma AfterFirstRead(seen: nat, tally: Tally, lines: seq<string>)
    returns (kind: Option<string>, required: bool, rest: seq<string>)
    requires Judge(AfterFirst(seen, tally), lines, 0).Accepted?
    ensures kind.Some? ==>
      && IsClass(kind.value) && lines == ClosingLines(Some(ProbeFailure(Page2State(), kind.value, 0)), tally)
      && Judge(AfterFirst(seen, tally), lines, 0) == Accepted(Failure)
    ensures kind.None? ==>
      && (required ==> seen == 100) && lines == [RequiredLine(required)] + rest
      && Judge(AfterFirst(seen, tally), lines, 0) ==
         Judge(if required then PagePass(Second, tally) else Counting(0, false, tally), rest, 0)
  {
    hide Judge, Line, Choice, StartsWith, IsClass, ClosingLines, Decimal;
    NotEmpty(AfterFirst(seen, tally), lines);
    assert lines == [lines[0]] + lines[1..];
    PeekHead(AfterFirst(seen, tally), lines[0], lines[1..]);
    kind, required, rest := None, false, [];
    if StartsWith(lines[0], "FAILURE_STAGE=") {
      var k := FailureRead(Page2State(), 0, tally, lines);
      kind := Some(k);
    } else {
      var v, tail := Unhead(Required(seen, tally), lines);
      required, rest := v == 0, tail;
    }
  }

  lemma NotEmpty(s: State, lines: seq<string>)
    requires !s.Done? && Judge(s, lines, 0).Accepted?
    ensures lines != []
  {
  }

  // ----- the child -----

  /** The lines from the first page on. */
  function PagesPart(run: ChildRun): seq<string> {
    match run
    case CheckFailed(_, _) => []
    case FirstFailed(page) => PageLines(First, page) + ClosingLines(run.Cause(), run.Counts())
    case StateFailed(seen, _) => PageLines(First, Whole(seen)) + ClosingLines(run.Cause(), run.Counts())
    case OnePage(seen) =>
      PageLines(First, Whole(seen)) + ([RequiredLine(false)] + ClosingLines(None, run.Counts()))
    case SecondFailed(page) =>
      PageLines(First, Whole(100)) + ([RequiredLine(true)] +
      (PageLines(Second, page) + ClosingLines(run.Cause(), run.Counts())))
    case TwoPages(seen) =>
      PageLines(First, Whole(100)) + ([RequiredLine(true)] +
      (PageLines(Second, Whole(seen)) + ClosingLines(None, run.Counts())))
  }

  lemma LinesInParts(run: ChildRun)
    requires !run.CheckFailed?
    ensures run.Lines() == StructureLines(STRUCTURE) + PagesPart(run)
  {
    hide StructureLines, PageLines, RequiredLine, ClosingLines, ChildRun.Counts, Page.Cause, Page2State;
  }

  lemma SuccessLines(tally: Tally)
    ensures Judge(Counting(0, false, tally), ClosingLines(None, tally), 0) == Accepted(Success)
  {
    hide Judge, Decimal, Line, CounterLines;
    CountersAccepted(0, false, tally);
    assert ClosingLines(None, tally) == EndLines(false, tally);
  }

  lemma SuccessRead(tally: Tally, lines: seq<string>)
    requires Judge(Counting(0, false, tally), lines, 0).Accepted?
    ensures lines == ClosingLines(None, tally) && Judge(Counting(0, false, tally), lines, 0) == Accepted(Success)
  {
    hide Judge, Decimal, Line, CounterLines;
    CountersRead(0, false, tally, lines);
    assert ClosingLines(None, tally) == EndLines(false, tally);
  }

  lemma PagesAccepted(run: ChildRun)
    requires run.WellFormed() && !run.CheckFailed?
    ensures Judge(PagePass(First, ZERO), PagesPart(run), 0) == Accepted(run.Verdict())
  {
    hide Judge, Decimal, Line, Choice, IsClass, PageLines, ClosingLines, RequiredLine, PageNumber.Stage;
    var closing := ClosingLines(run.Cause(), run.Counts());
    match run {
      case FirstFailed(page) => FirstPageAccepted(page, closing);
      case StateFailed(seen, kind) => OnePageAccepted(seen, run.Cause(), closing);
      case OnePage(seen) => OnePageAccepted(seen, None, closing);
      case SecondFailed(page) => SecondPageAccepted(page, closing);
      case TwoPages(seen) => SecondPageAccepted(Whole(seen), closing);
    }
  }

  lemma FirstPageAccepted(page: Page, closing: seq<string>)
    requires page.WellFormed() && page.stop.Some?
    requires closing == ClosingLines(page.Cause(First), page.Counts())
    ensures Judge(PagePass(First, ZERO), PageLines(First, page) + closing, 0) == Accepted(Failure)
  {
    hide Judge, Decimal, Line, Choice, IsClass, PageLines, ClosingLines, PageNumber.Stage;
    PageAccepted(First, page, ZERO, closing);
    StageAccepted(First, page, ZERO.Add(page.seen, page.converted));
  }

  lemma OnePageAccepted(seen: nat, cause: Option<ProbeFailure>, closing: seq<string>)
    requires seen <= 100
    requires cause.Some? ==> IsClass(cause.value.kind) && cause.value.stage == Page2State() && cause.value.ordinal == 0
    requires closing == ClosingLines(cause, Whole(seen).Counts())
    ensures Judge(PagePass(First, ZERO),
                  PageLines(First, Whole(seen)) +
                   (if cause.Some? then closing else [RequiredLine(false)] + closing), 0) ==
            Accepted(if cause.Some? then Failure else Success)
  {
    hide Judge, Decimal, Line, Choice, IsClass, PageLines, ClosingLines, RequiredLine, PageNumber.Stage, Page2State;
    var tally := Whole(seen).Counts();
    if cause.Some? {
      PageAccepted(First, Whole(seen), ZERO, closing);
      StateFailureAccepted(seen, cause.value, tally);
    } else {
      PageAccepted(First, Whole(seen), ZERO, [RequiredLine(false)] + closing);
      RequiredAccepted(seen, false, tally, closing);
      SuccessLines(tally);
    }
  }

  /** A whole first page, then a second one that ends either way. */
  lemma SecondPageAccepted(page: Page, closing: seq<string>)
    requires page.WellFormed()
    requires closing == ClosingLines(page.Cause(Second), Sum(Whole(100).Counts(), page.Counts()))
    ensures Judge(PagePass(First, ZERO),
                  PageLines(First, Whole(100)) + ([RequiredLine(true)] + (PageLines(Second, page) + closing)), 0) ==
            Accepted(if page.stop.Some? then Failure else Success)
  {
    hide Judge, Decimal, Line, Choice, IsClass, PageLines, ClosingLines, RequiredLine, PageNumber.Stage;
    var tally := Whole(100).Counts();
    var last := PageLines(Second, page) + closing;
    PageAccepted(First, Whole(100), ZERO, [RequiredLine(true)] + last);
    RequiredAccepted(100, true, tally, last);
    PageAccepted(Second, page, tally, closing);
    if page.stop.Some? {
      StageAccepted(Second, page, tally.Add(page.seen, page.converted));
    } else {
      SuccessLines(Sum(tally, page.Counts()));
    }
  }

  /** The lines of every run of the child are accepted, with the verdict of the run. */
  lemma ChildAccepted(run: ChildRun)
    requires run.WellFormed()
    ensures Judge(Start(true), run.Lines(), 0) == Accepted(run.Verdict())
  {
    hide Judge, Decimal, Line, Choice, IsClass, ClosingLines, StructureLines, StructureKey, StructureStage;
    match run {
      case CheckFailed(i, kind) =>
        var good := StructureExpected(i);
        var closing := ClosingLines(run.Cause(), ZERO);
        var tail := [Line(StructureKey(i), Boolean(!good))] + closing;
        assert run.Lines() == StructureLines(i) + tail;
        StructurePassed(i, tail);
        Head(Structure(i), if good then 1 else 0, closing);
        FailureAccepted(run.Cause().value, ZERO);
      case _ =>
        LinesInParts(run);
        StructurePassed(STRUCTURE, PagesPart(run));
        PagesAccepted(run);
    }
  }

  lemma PagesRead(lines: seq<string>) returns (run: ChildRun)
    requires Judge(PagePass(First, ZERO), lines, 0).Accepted?
    ensures run.WellFormed() && !run.CheckFailed? && lines == PagesPart(run)
    ensures Judge(PagePass(First, ZERO), lines, 0) == Accepted(run.Verdict())
  {
    hide Judge, Decimal, Line, Choice, IsClass, ClosingLines, RequiredLine, PageNumber.Stage;
    var passed, page, rest := PageRead(First, ZERO, lines);
    if !passed {
      var q := StageRead(First, page, ZERO.Add(page.seen, page.converted), rest);
      run := FirstFailed(q);
      return;
    }
    assert lines == PageLines(First, page) + rest;
    var tally := page.Counts();
    var kind, required, tail := AfterFirstRead(page.seen, tally, rest);
    if kind.Some? {
      run := StateFailed(page.seen, kind.value);
    } else if !required {
      SuccessRead(tally, tail);
      run := OnePage(page.seen);
    } else {
      run := SecondPageRead(tail);
      assert lines == PagesPart(run);
    }
  }

  lemma SecondPageRead(lines: seq<string>) returns (run: ChildRun)
    requires Judge(PagePass(Second, Whole(100).Counts()), lines, 0).Accepted?
    ensures run.WellFormed() && (run.SecondFailed? || run.TwoPages?)
    ensures PagesPart(run) == PageLines(First, Whole(100)) + ([RequiredLine(true)] + lines)
    ensures Judge(PagePass(Second, Whole(100).Counts()), lines, 0) == Accepted(run.Verdict())
  {
    hide Judge, Decimal, Line, Choice, IsClass, ClosingLines, RequiredLine, PageNumber.Stage;
    var tally := Whole(100).Counts();
    var passed, page, rest := PageRead(Second, tally, lines);
    if passed {
      SuccessRead(Sum(tally, page.Counts()), rest);
      run := TwoPages(page.seen);
    } else {
      var q := StageRead(Second, page, tally.Add(page.seen, page.converted), rest);
      run := SecondFailed(q);
    }
  }

  /** Whatever the child parser accepts is the transcript of a run. */
  lemma ChildRead(lines: seq<string>) returns (run: ChildRun)
    requires Judge(Start(true), lines, 0).Accepted?
    ensures run.WellFormed() && lines == run.Lines()
    ensures Judge(Start(true), lines, 0) == Accepted(run.Verdict())
  {
    hide Judge, Decimal, Line, Choice, IsClass, ClosingLines, StructureLines, StructureKey, StructureStage;
    var n, kind, rest := StructureRead(lines);
    if n < STRUCTURE {
      run := CheckFailed(n, kind);
    } else {
      run := PagesRead(rest);
      LinesInParts(run);
    }
  }

  // ----- the remote process -----

  lemma ChildStartedHead(rest: seq<string>)
    ensures Judge(ChildStarted, [Line("CHILD_STARTED", Boolean(true))] + rest, 0) == Judge(Opening, rest, 0)
  {
    hide Judge, Line, Choice;
    Head(ChildStarted, 0, rest);
  }

  /** Lines the child parser accepts may stand after the remote opening. */
  lemma OpeningChild(lines: seq<string>)
    requires Judge(Structure(0), lines, 0).Accepted?
    ensures Judge(Opening, lines, 0) == Judge(Structure(0), lines, 0)
  {
    hide Judge, Line, Choice, StartsWith;
    var v, rest := Unhead(Structure(0), lines);
    LinesApart(Booleans()[v]);
    PeekHead(Opening, lines[0], rest);
  }

  lemma BlockedAccepted(reason: nat)
    requires reason < 2
    ensures Judge(Opening, BlockedLines(reason), 0) == Accepted(Blocked)
  {
    hide Judge, Line, Choice, StartsWith;
    var end := [Line(TerminalKey(), "blocked")];
    var line := Line("REMOTE_BLOCKED", Reason(reason));
    LinesApart(Reason(reason));
    assert BlockedLines(reason) == [line] + end;
    PeekHead(Opening, line, end);
    Head(BlockedReason, reason, end);
    assert end == end + [];
    Head(BlockedEnd, 0, []);
    DoneAtEnd(Blocked);
  }

  lemma OpeningRead(lines: seq<string>) returns (run: RemoteRun)
    requires Judge(Opening, lines, 0).Accepted?
    ensures run.WellFormed() && !run.GuardFailed?
    ensures lines == if run.Unfinished? then BlockedLines(run.reason) else run.child.Lines()
    ensures Judge(Opening, lines, 0) == Accepted(run.Verdict())
  {
    hide Judge, Line, Choice, StartsWith, IsClass, ChildRun.Lines, ChildRun.WellFormed, ChildRun.Verdict;
    NotEmpty(Opening, lines);
    assert lines == [lines[0]] + lines[1..];
    PeekHead(Opening, lines[0], lines[1..]);
    if StartsWith(lines[0], "REMOTE_BLOCKED=") {
      var reason, rest := Unhead(BlockedReason, lines);
      var v, tail := Unhead(BlockedEnd, rest);
      DoneOnlyAtEnd(Blocked, tail);
      run := Unfinished(reason);
    } else {
      var child := ChildRead(lines);
      run := Relayed(child);
    }
  }

  lemma OpenedHead(rest: seq<string>)
    ensures Judge(Start(false), Opened() + rest, 0) == Judge(Opening, rest, 0)
  {
    hide Judge, Line, GuardLines;
    var started := [Line("CHILD_STARTED", Boolean(true))] + rest;
    assert Opened() + rest == GuardLines(GUARDS) + started;
    GuardsPassed(GUARDS, started);
    ChildStartedHead(rest);
  }

  /** The lines of every run of the remote process are accepted, with the verdict of the run. */
  lemma RemoteAccepted(run: RemoteRun)
    requires run.WellFormed()
    ensures Judge(Start(false), run.Lines(), 0) == Accepted(run.Verdict())
  {
    hide Judge, Decimal, Line, Choice, IsClass, ClosingLines, GuardLines, GuardKey, GuardStage, Opened,
      BlockedLines, ChildRun.Lines, ChildRun.WellFormed, ChildRun.Verdict;
    match run {
      case GuardFailed(i, kind) =>
        var f := ProbeFailure(GuardStage(i), kind, 0);
        var closing := ClosingLines(Some(f), ZERO);
        var tail := [Line(GuardKey(i), Boolean(false))] + closing;
        assert run.Lines() == GuardLines(i) + tail;
        GuardsPassed(i, tail);
        Head(Guard(i), 1, closing);
        FailureAccepted(f, ZERO);
      case Unfinished(reason) =>
        OpenedHead(BlockedLines(reason));
        BlockedAccepted(reason);
      case Relayed(child) =>
        OpenedHead(child.Lines());
        ChildAccepted(child);
        OpeningChild(child.Lines());
    }
  }

  /** Whatever the parser accepts is the transcript of a run. */
  lemma RemoteRead(lines: seq<string>) returns (run: RemoteRun)
    requires Judge(Start(false), lines, 0).Accepted?
    ensures run.WellFormed() && lines == run.Lines()
    ensures Judge(Start(false), lines, 0) == Accepted(run.Verdict())
  {
    hide Judge, Line, Choice, IsClass, GuardLines, BlockedLines, ChildRun.Lines, ChildRun.WellFormed, ChildRun.Verdict;
    var n, kind, rest := GuardsRead(lines);
    if n < GUARDS {
      run := GuardFailed(n, kind);
    } else {
      var v, tail := Unhead(ChildStarted, rest);
      assert lines == Opened() + tail;
      run := OpeningRead(tail);
    }
  }
}
