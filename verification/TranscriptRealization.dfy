/**
  Every accepted transcript, up to the exception class it shows, is one the probe can print.
*/
module TranscriptRealization {
  import opened Options
  import opened PythonText
  import opened TranscriptProtocol
  import opened TranscriptRuns
  import opened TranscriptBehaviour
  import opened TranscriptEmitter
  import opened TranscriptNames
  import opened TranscriptTheorems

  /** Lines that show an exception class. */
  predicate ShowsClass(line: string) {
    exists kind | kind in Classes() :: line == Line("RAW_EXCEPTION_CLASS", kind)
  }

  /** The same lines, except that the exception classes shown may differ. */
  predicate AgreeButClass(a: seq<string>, b: seq<string>) {
    |a| == |b| && forall i | 0 <= i < |a| :: a[i] == b[i] || (ShowsClass(a[i]) && ShowsClass(b[i]))
  }

  /** A child that prints what the probe prints, if it runs at all. */
  ghost predicate Honest(child: ChildReply) {
    child.NotRun? || exists b: ChildBehaviour :: b.Valid() && child.stdout == Joined(RunOf(b).Lines())
  }

  // ----- naming the right exception -----

  function NaturalPage(p: Page): Page {
    if p.none > 0 && p.stop.Some? then p.(stop := Some(p.stop.value.(kind := "InvalidHistoryEntry"))) else p
  }

  function Naturalized(run: ChildRun): ChildRun {
    match run
    case FirstFailed(page) => FirstFailed(NaturalPage(page))
    case SecondFailed(page) => SecondFailed(NaturalPage(page))
    case _ => run
  }

  lemma NaturalizedIsNatural(run: ChildRun)
    requires run.WellFormed()
    ensures Naturalized(run).WellFormed() && NaturalRun(Naturalized(run)) && Naturalized(run).Verdict() == run.Verdict()
    ensures NaturalRun(run) ==> Naturalized(run) == run
  {
    hide IsClass;
    KnownClasses();
  }

  /** Runs that differ in the class of one failure. */
  lemma FailuresAgree(a: ProbeFailure, kind: string)
    requires IsClass(a.kind) && IsClass(kind)
    ensures AgreeButClass(FailureLines(Some(a)), FailureLines(Some(a.(kind := kind))))
  {
    hide Classes, Line;
  }

  lemma AgreeAround(front: seq<string>, a: seq<string>, b: seq<string>, back: seq<string>)
    requires AgreeButClass(a, b)
    ensures AgreeButClass(front + a + back, front + b + back)
  {
    hide ShowsClass;
  }

  lemma AgreeBehind(front: seq<string>, a: seq<string>, b: seq<string>)
    requires AgreeButClass(a, b)
    ensures AgreeButClass(front + a, front + b)
  {
    hide ShowsClass;
  }

  lemma SameAgree(a: seq<string>)
    ensures AgreeButClass(a, a)
  {
  }

  lemma PageNaturalized(number: PageNumber, p: Page)
    requires p.WellFormed() && p.stop.Some?
    ensures PageLines(number, NaturalPage(p)) == PageLines(number, p) && NaturalPage(p).Counts() == p.Counts()
    ensures p.Cause(number).Some? && IsClass(p.Cause(number).value.kind)
    ensures NaturalPage(p).Cause(number).Some? && IsClass(NaturalPage(p).Cause(number).value.kind)
    ensures NaturalPage(p).Cause(number).value ==
            p.Cause(number).value.(kind := NaturalPage(p).Cause(number).value.kind)
  {
    hide IsClass, PageNumber.Stage, Line, Decimal;
    KnownClasses();
  }

  lemma NaturalizedAgrees(run: ChildRun)
    requires run.WellFormed()
    ensures AgreeButClass(run.Lines(), Naturalized(run).Lines())
  {
    hide AgreeButClass, IsClass, PageLines, StructureLines, FailureLines, EndLines, NaturalPage;
    if run.FirstFailed? || run.SecondFailed? {
      var number := if run.FirstFailed? then First else Second;
      PageNaturalized(number, run.page);
      var cause, natural := run.Cause(), Naturalized(run).Cause();
      FailuresAgree(cause.value, natural.value.kind);
      AgreeAround(run.Body(), FailureLines(cause), FailureLines(natural), EndLines(true, run.Counts()));
      assert run.Lines() == run.Body() + FailureLines(cause) + EndLines(true, run.Counts());
      assert Naturalized(run).Lines() == run.Body() + FailureLines(natural) + EndLines(true, run.Counts());
    } else {
      SameAgree(run.Lines());
    }
  }

  // ----- behaviours for runs -----

  /** The guards of a run that passes the first `n`, with the reply to the one after them. */
  function GuardsOf(n: nat, reply: Reply): seq<Reply> {
    seq(GUARDS, i requires 0 <= i => if i == n then reply else Answered(true))
  }

  lemma {:induction false} DeniedAt(n: nat, reply: Reply, i: nat)
    requires i <= n <= GUARDS && (n < GUARDS ==> reply != Answered(true))
    ensures FirstDenied(GuardsOf(n, reply), i) == n
    decreases n - i
  {
    if i < n {
      DeniedAt(n, reply, i + 1);
    }
  }

  /** What the world may do for a remote run to happen as it is. */
  function GuardsFor(run: RemoteRun): seq<Reply> {
    match run
    case GuardFailed(i, kind) => GuardsOf(i, Raised(kind))
    case _ => GuardsOf(GUARDS, Answered(true))
  }

  function ChildFor(run: RemoteRun): ChildReply
    requires run.WellFormed()
  {
    match run
    case GuardFailed(_, _) => NotRun
    case Unfinished(reason) =>
      if reason == 0 then NotRun else Finished(Joined(RunOf(ChildBehaviourOf(OnePage(0))).Lines()), 1, "")
    case Relayed(child) => Finished(Joined(RunOf(ChildBehaviourOf(child)).Lines()), 0, "")
  }

  /** A remote run that names the right exception is what the remote process prints in that world. */
  lemma RemoteRealized(run: RemoteRun)
    requires run.WellFormed() && (run.Relayed? ==> NaturalRun(run.child))
    ensures |GuardsFor(run)| == GUARDS && Honest(ChildFor(run))
    ensures RemoteText(GuardsFor(run), ChildFor(run)) == Joined(run.Lines())
    ensures RemoteVerdict(GuardsFor(run), ChildFor(run)) == run.Verdict()
  {
    hide IsClass, FirstDenied, JudgeText, Joined, RunOf, ChildBehaviourOf, ChildRun.Lines, ChildRun.Verdict, GuardsOf;
    hide NaturalRun, ChildRun.WellFormed, GuardLines, ClosingLines, GuardKey, GuardStage, Line;
    match run {
      case GuardFailed(i, kind) =>
        DeniedAt(i, Raised(kind), 0);
        GuardsAre(i, Raised(kind));
      case Unfinished(reason) =>
        DeniedAt(GUARDS, Answered(true), 0);
        GuardsAre(GUARDS, Answered(true));
        EmptyRun();
        RunRealized(OnePage(0));
        ChildRunAccepted(OnePage(0));
      case Relayed(child) =>
        DeniedAt(GUARDS, Answered(true), 0);
        GuardsAre(GUARDS, Answered(true));
        RunRealized(child);
        ProbeTranscript(GuardsOf(GUARDS, Answered(true)), ChildBehaviourOf(child));
        ChildRunAccepted(child);
    }
  }

  lemma GuardsAre(n: nat, reply: Reply)
    ensures |GuardsOf(n, reply)| == GUARDS && (n < GUARDS ==> GuardsOf(n, reply)[n] == reply)
  {
  }

  lemma EmptyRun()
    ensures OnePage(0).WellFormed() && NaturalRun(OnePage(0))
  {
  }

  // ----- accepted transcripts -----

  function NaturalRemote(run: RemoteRun): RemoteRun {
    if run.Relayed? then Relayed(Naturalized(run.child)) else run
  }

  lemma NaturalRemoteAgrees(run: RemoteRun)
    requires run.WellFormed()
    ensures
      var natural := NaturalRemote(run);
      && natural.WellFormed() && natural.Verdict() == run.Verdict() && AgreeButClass(run.Lines(), natural.Lines())
      && (natural.Relayed? ==> NaturalRun(natural.child))
  {
    hide AgreeButClass, ChildRun.Lines, ChildRun.WellFormed, ChildRun.Verdict;
    hide Naturalized, NaturalRun, Opened, ClosingLines;
    if run.Relayed? {
      NaturalizedIsNatural(run.child);
      NaturalizedAgrees(run.child);
      AgreeBehind(Opened(), run.child.Lines(), Naturalized(run.child).Lines());
    } else {
      SameAgree(run.Lines());
    }
  }

  // ----- the class does not matter to the judgement -----

  /** No other key starts like the one of the class line. */
  predicate NotRaw(key: string) {
    |key| >= 2 && (key[0] != 'R' || key[1] != 'A')
  }

  lemma GuardKeyApart(i: nat)
    ensures NotRaw(GuardKey(i))
  {
  }

  lemma StructureKeyApart(i: nat)
    ensures NotRaw(StructureKey(i))
  {
  }

  lemma PageKeysApart(page: PageNumber)
    ensures NotRaw(page.PassKey()) && NotRaw(page.SeenKey()) && NotRaw(page.ConvertedKey()) && NotRaw(page.NoneKey())
  {
  }

  lemma OtherKeysApart(i: nat)
    ensures NotRaw(CounterKey(i)) && NotRaw(TerminalKey()) && NotRaw("CHILD_STARTED") && NotRaw("REMOTE_BLOCKED")
    ensures NotRaw("FAILURE_STAGE") && NotRaw("PAGE2_REQUIRED") && NotRaw("MESSAGE_ORDINAL")
  {
  }

  lemma KeyApart(s: State)
    requires !s.ClassLine?
    ensures NotRaw(Key(s))
  {
    hide NotRaw, GuardKey, StructureKey, CounterKey, TerminalKey;
    hide PageNumber.PassKey, PageNumber.SeenKey, PageNumber.ConvertedKey, PageNumber.NoneKey;
    OtherKeysApart(if s.Counting? then s.i else 0);
    match s {
      case Guard(i) => GuardKeyApart(i);
      case Structure(i) => StructureKeyApart(i);
      case PagePass(page, _) => PageKeysApart(page);
      case PageSeen(page, _, _) => PageKeysApart(page);
      case PageConverted(page, _, _, _) => PageKeysApart(page);
      case PageNone(page, _, _, _, _) => PageKeysApart(page);
      case _ =>
    }
  }

  lemma ClassLineStarts(line: string)
    requires ShowsClass(line)
    ensures |line| > 2 && line[0] == 'R' && line[1] == 'A' && Ends(line)
    ensures Choice(line, "RAW_EXCEPTION_CLASS", Classes()).Some?
  {
    hide Classes, Choice, Line;
    var kind :| kind in Classes() && line == Line("RAW_EXCEPTION_CLASS", kind);
    Chosen("RAW_EXCEPTION_CLASS", kind, Classes());
    RawLine(kind);
  }

  lemma Chosen(key: string, value: string, values: seq<string>)
    requires value in values
    ensures Choice(Line(key, value), key, values).Some?
  {
    hide Choice, Line;
    var i :| 0 <= i < |values| && values[i] == value;
    assert Line(key, value) == Line(key, values[i]);
  }

  lemma RawLine(kind: string)
    ensures
      var line := Line("RAW_EXCEPTION_CLASS", kind);
      |line| > 2 && line[0] == 'R' && line[1] == 'A' && Ends(line)
  {
  }

  lemma NotChosen(line: string, key: string, values: seq<string>)
    requires |line| > 2 && line[0] == 'R' && line[1] == 'A' && NotRaw(key)
    ensures Choice(line, key, values).None?
  {
    forall i | 0 <= i < |values| ensures line != Line(key, values[i]) {
      assert Line(key, values[i])[0] == key[0] && Line(key, values[i])[1] == key[1];
    }
  }

  /** Class lines are not looked at ahead of time. */
  lemma ClassNotPeeked(s: State, line: string)
    requires |line| > 2 && line[0] == 'R' && line[1] == 'A'
    ensures Peek(s, line) ==
            if s.Opening? then Structure(0) else if s.AfterFirst? then Required(s.seen, s.tally) else s
  {
    if |line| >= |"REMOTE_BLOCKED="| {
      assert line[..|"REMOTE_BLOCKED="|][1] == 'A';
    }
    if |line| >= |"FAILURE_STAGE="| {
      assert line[..|"FAILURE_STAGE="|][0] == 'R';
    }
  }

  lemma StepAgrees(s: State, a: string, b: string)
    requires ShowsClass(a) && ShowsClass(b)
    ensures Step(s, a) == Step(s, b)
  {
    hide ShowsClass, Choice, Key, NotRaw, Peek;
    ClassLineStarts(a);
    ClassLineStarts(b);
    ClassNotPeeked(s, a);
    ClassNotPeeked(s, b);
    var next := Peek(s, a);
    if next.ClassLine? {
      ClassKey(next);
    } else {
      KeyApart(next);
      NotChosen(a, Key(next), Values(next));
      NotChosen(b, Key(next), Values(next));
    }
  }

  lemma ClassKey(s: State)
    requires s.ClassLine?
    ensures Key(s) == "RAW_EXCEPTION_CLASS" && Values(s) == Classes()
  {
  }

  lemma {:induction false} JudgeAgrees(s: State, a: seq<string>, b: seq<string>, pos: nat)
    requires AgreeButClass(a, b) && pos <= |a|
    ensures Judge(s, a, pos) == Judge(s, b, pos)
    decreases |a| - pos
  {
    hide Step, ShowsClass;
    if !s.Done? && pos < |a| {
      if a[pos] != b[pos] {
        StepAgrees(s, a[pos], b[pos]);
        ClassLineStarts(a[pos]);
        ClassLineStarts(b[pos]);
      }
      var next := Step(s, a[pos]);
      if next.Some? {
        JudgeAgrees(next.value, a, b, pos + 1);
      }
    }
  }

  /**
    What the parser accepts is what could have happened: a text is accepted with a verdict exactly
    when some guards and some honest child lead to that verdict and to the same transcript, up to the
    exception class it shows.
  */
  lemma AcceptedIsPossible(text: string, verdict: Verdict)
    ensures JudgeText(text, false) == Accepted(verdict) <==>
            exists guards: seq<Reply>, child: ChildReply :: Shows(text, guards, child, verdict)
  {
    hide Shows;
    if JudgeText(text, false) == Accepted(verdict) {
      AcceptedCouldHappen(text, verdict);
    }
    forall guards: seq<Reply>, child: ChildReply | Shows(text, guards, child, verdict)
      ensures JudgeText(text, false) == Accepted(verdict)
    {
      ShownIsAccepted(text, guards, child, verdict);
    }
  }

  /** In this world the verdict is what happens, and the text, up to the class shown, what is printed. */
  ghost predicate Shows(text: string, guards: seq<Reply>, child: ChildReply, verdict: Verdict) {
    && |guards| == GUARDS && Honest(child) && RemoteVerdict(guards, child) == verdict
    && AgreeButClass(SplitLines(text), SplitLines(RemoteText(guards, child)))
  }

  lemma ShownIsAccepted(text: string, guards: seq<Reply>, child: ChildReply, verdict: Verdict)
    requires Shows(text, guards, child, verdict)
    ensures JudgeText(text, false) == Accepted(verdict)
  {
    hide Judge, RemoteText, RemoteVerdict, AgreeButClass, Honest, SplitLines;
    RemoteTranscriptAccepted(guards, child);
    JudgeAgrees(Start(false), SplitLines(text), SplitLines(RemoteText(guards, child)), 0);
  }

  lemma AcceptedCouldHappen(text: string, verdict: Verdict)
    requires JudgeText(text, false) == Accepted(verdict)
    ensures exists guards: seq<Reply>, child: ChildReply :: Shows(text, guards, child, verdict)
  {
    hide JudgeText, Joined, SplitLines, AgreeButClass, Honest, RemoteText, RemoteVerdict;
    hide GuardsFor, ChildFor, NaturalRemote, NaturalRun, AllClean;
    hide RemoteRun.Lines, RemoteRun.WellFormed, RemoteRun.Verdict;
    AcceptedAreRuns(text, verdict);
    var run: RemoteRun :| run.WellFormed() && run.Verdict() == verdict && text == Joined(run.Lines());
    var natural := NaturalRemote(run);
    NaturalRemoteAgrees(run);
    RemoteRealized(natural);
    RemoteLinesClean(run);
    SplitClean(run.Lines());
    RemoteLinesClean(natural);
    SplitClean(natural.Lines());
    assert Shows(text, GuardsFor(natural), ChildFor(natural), verdict);
  }
}
