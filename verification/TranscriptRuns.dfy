/**
  The runs of the two-page probe and their transcripts. A run says what happened; its lines are
  what the probe shows of it. The strict grammar accepts exactly the lines of runs.
*/
module TranscriptRuns {
  import opened Options
  import opened PythonText
  import opened TranscriptProtocol

  predicate IsClass(kind: string) {
    kind in Classes()
  }

  /** A page that ended early: in which phase, and the class of the exception. */
  datatype Stop = Stop(phase: nat, kind: string)

  datatype ProbeFailure = ProbeFailure(stage: string, kind: string, ordinal: nat)

  /** One page: messages received, entries converted, messages without an entry. */
  datatype Page = Page(seen: nat, converted: nat, none: nat, stop: Option<Stop>) {
    predicate WellFormed() {
      match stop
      case None => seen == converted <= 100 && none == 0
      case Some(s) =>
        && IsClass(s.kind)
        && s.phase <= CONVERSION
        && (s.phase <= AUTHORIZED ==> seen == converted == none == 0)
        && (s.phase == ITERATION ==> seen == converted < 100 && none == 0)
        && (s.phase == CONVERSION ==> 1 <= seen <= 100 && converted == seen - 1 && none <= 1)
    }

    /** The number of the message the page stopped at; zero before the first is asked for. */
    function Ordinal(): nat {
      if stop.None? || stop.value.phase <= AUTHORIZED then 0
      else if stop.value.phase == ITERATION then seen + 1
      else seen
    }

    /** Calls of one kind: made unless the page stopped in an earlier phase. */
    function Calls(phase: nat): nat {
      if stop.Some? && stop.value.phase < phase then 0 else 1
    }

    function Counts(): Tally {
      Tally(Calls(CONNECT), Calls(AUTHORIZED), Calls(ITERATION), seen, converted)
    }

    function Cause(page: PageNumber): Option<ProbeFailure> {
      if stop.None? then None
      else Some(ProbeFailure(page.Stage(stop.value.phase), stop.value.kind, Ordinal()))
    }
  }

  function Whole(seen: nat): Page {
    Page(seen, seen, 0, None)
  }

  function Sum(a: Tally, b: Tally): Tally {
    Tally(a.connect + b.connect, a.authorize + b.authorize, a.iterate + b.iterate,
          a.seen + b.seen, a.converted + b.converted)
  }

  /** What the child process went through. */
  datatype ChildRun =
    | CheckFailed(i: nat, kind: string)
    | FirstFailed(page: Page)
    | StateFailed(seen: nat, kind: string)
    | OnePage(seen: nat)
    | SecondFailed(page: Page)
    | TwoPages(seen: nat)
  {
    predicate WellFormed() {
      match this
      case CheckFailed(i, kind) => i < STRUCTURE && IsClass(kind)
      case FirstFailed(page) => page.WellFormed() && page.stop.Some?
      case StateFailed(seen, kind) => seen <= 100 && IsClass(kind)
      case OnePage(seen) => seen <= 100
      case SecondFailed(page) => page.WellFormed() && page.stop.Some?
      case TwoPages(seen) => seen <= 100
    }

    /** What the process did to the provider in all. */
    function Counts(): Tally {
      match this
      case CheckFailed(_, _) => ZERO
      case FirstFailed(page) => page.Counts()
      case StateFailed(seen, _) => Whole(seen).Counts()
      case OnePage(seen) => Whole(seen).Counts()
      case SecondFailed(page) => Sum(Whole(100).Counts(), page.Counts())
      case TwoPages(seen) => Sum(Whole(100).Counts(), Whole(seen).Counts())
    }

    function Cause(): Option<ProbeFailure> {
      match this
      case CheckFailed(i, kind) => Some(ProbeFailure(StructureStage(i), kind, 0))
      case FirstFailed(page) => page.Cause(First)
      case StateFailed(_, kind) => Some(ProbeFailure(Page2State(), kind, 0))
      case SecondFailed(page) => page.Cause(Second)
      case _ => None
    }

    function Verdict(): Verdict {
      if Cause().Some? then Failure else Success
    }

    /** The lines before the closing ones. */
    function Body(): seq<string> {
      match this
      case CheckFailed(i, _) =>
        StructureLines(i) + [Line(StructureKey(i), Boolean(!StructureExpected(i)))]
      case FirstFailed(page) => StructureLines(STRUCTURE) + PageLines(First, page)
      case StateFailed(seen, _) => StructureLines(STRUCTURE) + PageLines(First, Whole(seen))
      case OnePage(seen) => StructureLines(STRUCTURE) + PageLines(First, Whole(seen)) + [RequiredLine(false)]
      case SecondFailed(page) =>
        StructureLines(STRUCTURE) + PageLines(First, Whole(100)) + [RequiredLine(true)] + PageLines(Second, page)
      case TwoPages(seen) =>
        StructureLines(STRUCTURE) + PageLines(First, Whole(100)) + [RequiredLine(true)] + PageLines(Second, Whole(seen))
    }

    function Lines(): seq<string> {
      Body() + ClosingLines(Cause(), Counts())
    }
  }

  /** What the remote process went through. */
  datatype RemoteRun =
    | GuardFailed(i: nat, kind: string)
    | Unfinished(reason: nat)
    | Relayed(child: ChildRun)
  {
    predicate WellFormed() {
      match this
      case GuardFailed(i, kind) => i < GUARDS && IsClass(kind)
      case Unfinished(reason) => reason < 2
      case Relayed(child) => child.WellFormed()
    }

    function Verdict(): Verdict {
      match this
      case GuardFailed(_, _) => Failure
      case Unfinished(_) => Blocked
      case Relayed(child) => child.Verdict()
    }

    function Lines(): seq<string> {
      match this
      case GuardFailed(i, kind) =>
        GuardLines(i) + [Line(GuardKey(i), Boolean(false))] +
        ClosingLines(Some(ProbeFailure(GuardStage(i), kind, 0)), ZERO)
      case Unfinished(reason) => Opened() + BlockedLines(reason)
      case Relayed(child) => Opened() + child.Lines()
    }
  }

  function GuardLines(n: nat): seq<string> {
    seq(n, i requires 0 <= i => Line(GuardKey(i), Boolean(true)))
  }

  function StructureLines(n: nat): seq<string> {
    seq(n, i requires 0 <= i => Line(StructureKey(i), Boolean(StructureExpected(i))))
  }

  function PageLines(page: PageNumber, p: Page): seq<string> {
    [Line(page.PassKey(), Boolean(p.stop.None?)), Line(page.SeenKey(), Decimal(p.seen)),
     Line(page.ConvertedKey(), Decimal(p.converted)), Line(page.NoneKey(), Decimal(p.none))]
  }

  function RequiredLine(required: bool): string {
    Line("PAGE2_REQUIRED", Boolean(required))
  }

  function FailureLines(failure: Option<ProbeFailure>): seq<string> {
    match failure
    case None => []
    case Some(f) =>
      [Line("FAILURE_STAGE", f.stage), Line("RAW_EXCEPTION_CLASS", f.kind),
       Line("MESSAGE_ORDINAL", Decimal(f.ordinal))]
  }

  function CounterLines(from: nat, tally: Tally): seq<string>
    requires from <= COUNTERS
  {
    seq(COUNTERS - from, i requires 0 <= i => Line(CounterKey(from + i), Decimal(tally.Counter(from + i))))
  }

  function EndLines(failed: bool, tally: Tally): seq<string> {
    CounterLines(0, tally) + [Line(TerminalKey(), Outcome(failed))]
  }

  function ClosingLines(failure: Option<ProbeFailure>, tally: Tally): seq<string> {
    FailureLines(failure) + EndLines(failure.Some?, tally)
  }

  function BlockedLines(reason: nat): seq<string> {
    [Line("REMOTE_BLOCKED", Reason(reason)), Line(TerminalKey(), "blocked")]
  }

  /** The remote lines up to the start of the child. */
  function Opened(): seq<string> {
    GuardLines(GUARDS) + [Line("CHILD_STARTED", Boolean(true))]
  }

  // ----- one line at a time -----

  lemma {:induction false} Shift(s: State, a: seq<string>, b: seq<string>, k: nat)
    requires k <= |b|
    ensures Judge(s, a + b, |a| + k) == Judge(s, b, k)
    decreases |b| - k
  {
    hide Step;
    if !s.Done? && k < |b| && Ends(b[k]) {
      assert (a + b)[|a| + k] == b[k];
      var next := Step(s, b[k]);
      if next.Some? {
        Shift(next.value, a, b, k + 1);
      }
    }
  }

  /** States that demand a line without looking ahead. */
  predicate Direct(s: State) {
    !s.Done? && !s.Opening? && !s.AfterFirst?
  }

  /** A line with value number `v` moves the judgement on to the rest. */
  lemma Head(s: State, v: nat, rest: seq<string>)
    requires Direct(s) && v < |Values(s)|
    requires forall u | 0 <= u < |Values(s)| && Values(s)[u] == Values(s)[v] :: Next(s, u) == Next(s, v)
    ensures Judge(s, [Line(Key(s), Values(s)[v])] + rest, 0) == Onward(Next(s, v), rest, 0)
  {
    hide Key, Values, Next, Decimal, Plain;
    var line := Line(Key(s), Values(s)[v]);
    var lines := [line] + rest;
    var c := Choice(line, Key(s), Values(s));
    assert c.Some?;
    LineInjective(Key(s), Values(s)[c.value], Values(s)[v]);
    assert Step(s, line) == Next(s, v) by {
      assert Peek(s, line) == s;
    }
    if Next(s, v).Some? {
      Shift(Next(s, v).value, [line], rest, 0);
    }
  }

  /** Conversely, accepted lines begin with a line the state allows. */
  lemma Unhead(s: State, lines: seq<string>) returns (v: nat, rest: seq<string>)
    requires Direct(s) && Judge(s, lines, 0).Accepted?
    ensures v < |Values(s)| && lines == [Line(Key(s), Values(s)[v])] + rest
    ensures Next(s, v).Some? && Judge(Next(s, v).value, rest, 0) == Judge(s, lines, 0)
  {
    hide Key, Values, Next, Decimal, Plain;
    var line := lines[0];
    assert Peek(s, line) == s;
    v := Choice(line, Key(s), Values(s)).value;
    rest := lines[1..];
    assert lines == [line] + rest;
    Shift(Next(s, v).value, [line], rest, 0);
  }
}
