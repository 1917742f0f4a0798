/**
  The protocol automaton accepts the lines of every run, and nothing else.
*/
module TranscriptGrammar {
  import opened Options
  import opened PythonText
  import opened TranscriptProtocol
  import opened TranscriptRuns

  // ----- the closing lines -----

  function Outcomes(failed: bool): Judgement {
    Accepted(if failed then Failure else Success)
  }

  lemma CounterCons(i: nat, tally: Tally, end: seq<string>)
    requires i < COUNTERS
    ensures CounterLines(i, tally) + end ==
            [Line(CounterKey(i), Decimal(tally.Counter(i)))] + (CounterLines(i + 1, tally) + end)
  {
    hide CounterKey, Decimal, Tally.Counter, Line;
  }

  lemma {:induction false} CountersAccepted(i: nat, failed: bool, tally: Tally)
    requires i <= COUNTERS
    ensures Judge(AfterCounter(i, failed, tally), CounterLines(i, tally) + [Line(TerminalKey(), Outcome(failed))], 0) ==
            Outcomes(failed)
    decreases COUNTERS - i
  {
    hide Decimal, Judge, CounterKey, Tally.Counter, Outcome, Line, TerminalKey;
    var end := [Line(TerminalKey(), Outcome(failed))];
    if i == COUNTERS {
      assert CounterLines(i, tally) + end == end + [];
      Head(Terminal(failed), 0, []);
      assert Judge(Done(if failed then Failure else Success), [], 0) == Outcomes(failed) by {
        DoneAtEnd(if failed then Failure else Success);
      }
    } else {
      var rest := CounterLines(i + 1, tally) + end;
      CounterCons(i, tally, end);
      Head(Counting(i, failed, tally), 0, rest);
      CountersAccepted(i + 1, failed, tally);
    }
  }

  lemma DoneAtEnd(verdict: Verdict)
    ensures Judge(Done(verdict), [], 0) == Accepted(verdict)
  {
  }

  lemma DoneOnlyAtEnd(verdict: Verdict, lines: seq<string>)
    requires Judge(Done(verdict), lines, 0).Accepted?
    ensures lines == [] && Judge(Done(verdict), lines, 0) == Accepted(verdict)
  {
  }

  lemma {:induction false} CountersRead(i: nat, failed: bool, tally: Tally, lines: seq<string>)
    requires i <= COUNTERS && Judge(AfterCounter(i, failed, tally), lines, 0).Accepted?
    ensures lines == CounterLines(i, tally) + [Line(TerminalKey(), Outcome(failed))]
    ensures Judge(AfterCounter(i, failed, tally), lines, 0) == Outcomes(failed)
    decreases COUNTERS - i
  {
    hide Decimal, Judge, CounterKey, Tally.Counter, Outcome, Line, TerminalKey;
    var v, rest := Unhead(AfterCounter(i, failed, tally), lines);
    if i == COUNTERS {
      DoneOnlyAtEnd(if failed then Failure else Success, rest);
      assert lines == CounterLines(i, tally) + [Line(TerminalKey(), Outcome(failed))];
    } else {
      CountersRead(i + 1, failed, tally, rest);
      CounterCons(i, tally, [Line(TerminalKey(), Outcome(failed))]);
    }
  }

  lemma ClassAccepted(kind: string, ordinal: nat, tally: Tally)
    requires IsClass(kind)
    ensures Judge(ClassLine(ordinal, tally),
                  [Line("RAW_EXCEPTION_CLASS", kind)] +
                  ([Line("MESSAGE_ORDINAL", Decimal(ordinal))] + EndLines(true, tally)), 0) ==
            Accepted(Failure)
  {
    hide Decimal, Judge, ClassName, Line, CounterLines, EndLines, Outcome, TerminalKey, CounterKey, Tally.Counter;
    var end := EndLines(true, tally);
    EndAccepted(true, tally);
    Head(OrdinalLine(ordinal, tally), 0, end);
    var k :| 0 <= k < |Classes()| && Classes()[k] == kind;
    Head(ClassLine(ordinal, tally), k, [Line("MESSAGE_ORDINAL", Decimal(ordinal))] + end);
  }

  lemma EndAccepted(failed: bool, tally: Tally)
    ensures Judge(Counting(0, failed, tally), EndLines(failed, tally), 0) == Outcomes(failed)
  {
    hide Decimal, Judge, Line, CounterLines;
    CountersAccepted(0, failed, tally);
  }

  lemma FailureAccepted(f: ProbeFailure, tally: Tally)
    requires IsClass(f.kind)
    ensures Judge(StageLine(f.stage, f.ordinal, tally), ClosingLines(Some(f), tally), 0) == Accepted(Failure)
  {
    hide Decimal, Judge, IsClass, Line, EndLines;
    var rest := [Line("RAW_EXCEPTION_CLASS", f.kind)] +
                ([Line("MESSAGE_ORDINAL", Decimal(f.ordinal))] + EndLines(true, tally));
    ClassAccepted(f.kind, f.ordinal, tally);
    Head(StageLine(f.stage, f.ordinal, tally), 0, rest);
    assert ClosingLines(Some(f), tally) == [Line("FAILURE_STAGE", f.stage)] + rest;
  }

  lemma FailureRead(stage: string, ordinal: nat, tally: Tally, lines: seq<string>) returns (kind: string)
    requires Judge(StageLine(stage, ordinal, tally), lines, 0).Accepted?
    ensures IsClass(kind)
    ensures lines == ClosingLines(Some(ProbeFailure(stage, kind, ordinal)), tally)
    ensures Judge(StageLine(stage, ordinal, tally), lines, 0) == Accepted(Failure)
  {
    hide Decimal, Judge, ClassName;
    var v, second := Unhead(StageLine(stage, ordinal, tally), lines);
    kind := ClassRead(ordinal, tally, second);
  }

  lemma ClassRead(ordinal: nat, tally: Tally, lines: seq<string>) returns (kind: string)
    requires Judge(ClassLine(ordinal, tally), lines, 0).Accepted?
    ensures IsClass(kind)
    ensures lines == [Line("RAW_EXCEPTION_CLASS", kind), Line("MESSAGE_ORDINAL", Decimal(ordinal))] +
            EndLines(true, tally)
    ensures Judge(ClassLine(ordinal, tally), lines, 0) == Accepted(Failure)
  {
    hide Decimal, Judge, ClassName;
    var k, third := Unhead(ClassLine(ordinal, tally), lines);
    kind := Classes()[k];
    var v, end := Unhead(OrdinalLine(ordinal, tally), third);
    CountersRead(0, true, tally, end);
  }

  // ----- the checks -----

  lemma {:induction false} GuardsPassed(n: nat, rest: seq<string>)
    requires n <= GUARDS
    ensures Judge(Guard(0), GuardLines(n) + rest, 0) == Judge(AfterGuard(n), rest, 0)
  {
    hide Judge, GuardKey;
    if n == 0 {
      assert GuardLines(n) + rest == rest;
    } else {
      var tail := [Line(GuardKey(n - 1), Boolean(true))] + rest;
      assert GuardLines(n) + rest == GuardLines(n - 1) + tail;
      GuardsPassed(n - 1, tail);
      Head(Guard(n - 1), 0, rest);
    }
  }

  lemma {:induction false} StructurePassed(n: nat, rest: seq<string>)
    requires n <= STRUCTURE
    ensures Judge(Structure(0), StructureLines(n) + rest, 0) == Judge(AfterStructure(n), rest, 0)
  {
    hide Judge, StructureKey;
    if n == 0 {
      assert StructureLines(n) + rest == rest;
    } else {
      var good := StructureExpected(n - 1);
      var tail := [Line(StructureKey(n - 1), Boolean(good))] + rest;
      assert StructureLines(n) + rest == StructureLines(n - 1) + tail;
      StructurePassed(n - 1, tail);
      Head(Structure(n - 1), if good then 0 else 1, rest);
    }
  }

  lemma StructureCons(n: nat, tail: seq<string>)
    ensures StructureLines(n) + ([Line(StructureKey(n), Boolean(StructureExpected(n)))] + tail) ==
            StructureLines(n + 1) + tail
  {
    hide StructureKey, Line, Boolean, StructureExpected;
  }

  /** Accepted remote lines: all guards passed, or the first that did not is reported. */
  lemma GuardsRead(lines: seq<string>) returns (n: nat, kind: string, rest: seq<string>)
    requires Judge(Guard(0), lines, 0).Accepted?
    ensures n <= GUARDS
    ensures n == GUARDS ==>
      lines == GuardLines(GUARDS) + rest && Judge(ChildStarted, rest, 0) == Judge(Guard(0), lines, 0)
    ensures n < GUARDS ==>
      && IsClass(kind) && lines == GuardFailed(n, kind).Lines()
      && Judge(Guard(0), lines, 0) == Accepted(Failure)
  {
    hide Judge, GuardKey, IsClass, Decimal, ClosingLines;
    n, rest, kind := 0, lines, "";
    while n < GUARDS
      invariant n <= GUARDS && lines == GuardLines(n) + rest
      invariant Judge(AfterGuard(n), rest, 0) == Judge(Guard(0), lines, 0)
    {
      var v, tail := Unhead(Guard(n), rest);
      if v == 1 {
        kind := FailureRead(GuardStage(n), 0, ZERO, tail);
        assert lines == GuardFailed(n, kind).Lines();
        return;
      }
      assert lines == GuardLines(n + 1) + tail;
      n, rest := n + 1, tail;
    }
  }

  lemma StructureLineRead(n: nat, lines: seq<string>) returns (passed: bool, kind: string, rest: seq<string>)
    requires n < STRUCTURE && Judge(Structure(n), lines, 0).Accepted?
    ensures passed ==>
      && lines == [Line(StructureKey(n), Boolean(StructureExpected(n)))] + rest
      && Judge(AfterStructure(n + 1), rest, 0) == Judge(Structure(n), lines, 0)
    ensures !passed ==>
      && IsClass(kind) && Judge(Structure(n), lines, 0) == Accepted(Failure)
      && lines == [Line(StructureKey(n), Boolean(!StructureExpected(n)))] +
                  ClosingLines(Some(ProbeFailure(StructureStage(n), kind, 0)), ZERO)
  {
    hide Judge, StructureKey, StructureStage, IsClass, Decimal, ClosingLines, Line, AfterStructure;
    var v, tail := Unhead(Structure(n), lines);
    passed, kind, rest := (v == 0) == StructureExpected(n), "", tail;
    if !passed {
      kind := FailureRead(StructureStage(n), 0, ZERO, tail);
    }
  }

  lemma StructureRead(lines: seq<string>) returns (n: nat, kind: string, rest: seq<string>)
    requires Judge(Structure(0), lines, 0).Accepted?
    ensures n <= STRUCTURE
    ensures n == STRUCTURE ==>
      lines == StructureLines(STRUCTURE) + rest &&
      Judge(PagePass(First, ZERO), rest, 0) == Judge(Structure(0), lines, 0)
    ensures n < STRUCTURE ==>
      && IsClass(kind) && lines == CheckFailed(n, kind).Lines()
      && Judge(Structure(0), lines, 0) == Accepted(Failure)
  {
    hide Judge, StructureKey, StructureStage, StructureExpected, IsClass, Decimal, ClosingLines;
    hide Line, Boolean, StructureLines;
    n, rest, kind := 0, lines, "";
    NoStructure();
    assert lines == StructureLines(0) + lines;
    while n < STRUCTURE
      invariant n <= STRUCTURE && lines == StructureLines(n) + rest
      invariant Judge(AfterStructure(n), rest, 0) == Judge(Structure(0), lines, 0)
    {
      var passed, k, tail := StructureLineRead(n, rest);
      if !passed {
        kind := k;
        assert lines == CheckFailed(n, kind).Lines();
        return;
      }
      StructureCons(n, tail);
      n, rest := n + 1, tail;
    }
  }

  lemma NoStructure()
    ensures StructureLines(0) == []
  {
  }

  // ----- the pages -----

  lemma NumberHead(s: State, n: nat, bound: nat, rest: seq<string>)
    requires Direct(s) && n <= bound && Values(s) == Numbers(bound)
    ensures Judge(s, [Line(Key(s), Decimal(n))] + rest, 0) == Onward(Next(s, n), rest, 0)
  {
    hide Judge, Next, Key, Values;
    forall u | 0 <= u < |Values(s)| && Values(s)[u] == Values(s)[n] ensures u == n {
      DecimalInjective(u, n);
    }
    Head(s, n, rest);
  }

  lemma StagesDistinct(page: PageNumber, u: nat, v: nat)
    requires u <= CONVERSION && v <= CONVERSION && page.Stage(u) == page.Stage(v)
    ensures u == v
  {
    assert page.Stage(0)[14] == page.Stage(1)[14] == 'C' && page.Stage(0)[15] == 'L' && page.Stage(1)[15] == 'O';
    assert page.Stage(2)[14] == 'A' && page.Stage(3)[14] == 'I' && page.Stage(4)[14] == 'C';
    assert page.Stage(1)[17] == 'N' && page.Stage(4)[17] == 'V';
  }

  /** The state after the four lines of a page. */
  function AfterPageLines(page: PageNumber, p: Page, tally: Tally): State {
    var total := tally.Add(p.seen, p.converted);
    if p.stop.None? then PagePassed(page, p.seen, total.PassedPage(page.Number()))
    else PageStage(page, p.seen, p.converted, p.none, total)
  }

  lemma PageAccepted(page: PageNumber, p: Page, tally: Tally, rest: seq<string>)
    requires p.WellFormed()
    ensures Judge(PagePass(page, tally), PageLines(page, p) + rest, 0) == Judge(AfterPageLines(page, p, tally), rest, 0)
  {
    hide Judge, Decimal, Numbers, Line, Choice, PageNumber.PassKey, PageNumber.SeenKey, PageNumber.ConvertedKey,
      PageNumber.NoneKey, PageNumber.Stage, PageNumber.Stages, Plain, IsClass;
    var passed := p.stop.None?;
    var fourth := [Line(page.NoneKey(), Decimal(p.none))] + rest;
    NumberHead(PageNone(page, passed, p.seen, p.converted, tally), p.none, 1, rest);
    var third := [Line(page.ConvertedKey(), Decimal(p.converted))] + fourth;
    NumberHead(PageConverted(page, passed, p.seen, tally), p.converted, 100, fourth);
    var second := [Line(page.SeenKey(), Decimal(p.seen))] + third;
    NumberHead(PageSeen(page, passed, tally), p.seen, 100, third);
    Head(PagePass(page, tally), if passed then 0 else 1, second);
    assert PageLines(page, p) + rest == [Line(page.PassKey(), Boolean(passed))] + second;
  }

  lemma StageAccepted(page: PageNumber, p: Page, total: Tally)
    requires p.WellFormed() && p.stop.Some?
    ensures Judge(PageStage(page, p.seen, p.converted, p.none, total),
                  ClosingLines(p.Cause(page), total.FailedAt(page.Number(), p.stop.value.phase)), 0) ==
            Accepted(Failure)
  {
    hide Judge, Decimal, Line, Choice, IsClass, PageNumber.Stage, EndLines;
    var phase := p.stop.value.phase;
    var f := p.Cause(page).value;
    var calls := total.FailedAt(page.Number(), phase);
    var s := PageStage(page, p.seen, p.converted, p.none, total);
    forall u | 0 <= u < |Values(s)| && Values(s)[u] == Values(s)[phase] ensures u == phase {
      StagesDistinct(page, u, phase);
    }
    var rest := ClosingLines(Some(f), calls)[1..];
    assert ClosingLines(Some(f), calls) == [Line("FAILURE_STAGE", f.stage)] + rest;
    Head(s, phase, rest);
    FailureAccepted(f, calls);
    Head(StageLine(f.stage, f.ordinal, calls), 0, rest);
  }

  /** Accepted page lines: the four lines, and counts that agree when the page passed. */
  lemma PageRead(page: PageNumber, tally: Tally, lines: seq<string>)
    returns (passed: bool, p: Page, rest: seq<string>)
    requires Judge(PagePass(page, tally), lines, 0).Accepted?
    ensures p.seen <= 100 && p.none <= 1 && p.stop.None?
    ensures passed ==> p == Whole(p.seen)
    ensures lines == [Line(page.PassKey(), Boolean(passed)), Line(page.SeenKey(), Decimal(p.seen)),
                      Line(page.ConvertedKey(), Decimal(p.converted)), Line(page.NoneKey(), Decimal(p.none))] + rest
    ensures Judge(PagePass(page, tally), lines, 0) ==
            Judge(if passed then AfterPageLines(page, p, tally)
                  else PageStage(page, p.seen, p.converted, p.none, tally.Add(p.seen, p.converted)), rest, 0)
  {
    hide Judge, Decimal, Numbers, Line, Choice, PageNumber.PassKey, PageNumber.SeenKey, PageNumber.ConvertedKey,
      PageNumber.NoneKey, PageNumber.Stage, PageNumber.Stages, Plain, IsClass;
    var v, second := Unhead(PagePass(page, tally), lines);
    passed := v == 0;
    var seen, third := Unhead(PageSeen(page, passed, tally), second);
    var converted, fourth := Unhead(PageConverted(page, passed, seen, tally), third);
    var none, tail := Unhead(PageNone(page, passed, seen, converted, tally), fourth);
    p, rest := Page(seen, converted, none, None), tail;
  }

  lemma StageRead(page: PageNumber, p: Page, total: Tally, lines: seq<string>) returns (q: Page)
    requires p.seen <= 100 && p.none <= 1
    requires Judge(PageStage(page, p.seen, p.converted, p.none, total), lines, 0).Accepted?
    ensures q.WellFormed() && q.stop.Some? && p == q.(stop := p.stop)
    ensures lines == ClosingLines(q.Cause(page), total.FailedAt(page.Number(), q.stop.value.phase))
    ensures Judge(PageStage(page, p.seen, p.converted, p.none, total), lines, 0) == Accepted(Failure)
  {
    hide Judge, Decimal, Line, Choice, IsClass, PageNumber.Stage, EndLines;
    var phase, rest := Unhead(PageStage(page, p.seen, p.converted, p.none, total), lines);
    var ordinal := PageOrdinal(phase, p.seen, p.converted, p.none).value;
    var kind := ClassRead(ordinal, total.FailedAt(page.Number(), phase), rest);
    q := p.(stop := Some(Stop(phase, kind)));
  }
}
