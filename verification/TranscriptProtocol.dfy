/**
  The two-page probe protocol as an automaton over transcript lines. A state says which lines may
  come next; the counters it carries are the ones the closing lines must report.
*/
module TranscriptProtocol {
  import opened Options
  import opened PythonText

  function TerminalKey(): string {
    "M4AO1_TERMINAL"
  }

  function Boolean(b: bool): string {
    if b then "true" else "false"
  }

  function Outcome(failed: bool): string {
    if failed then "failure" else "success"
  }

  /** The allowed values of a boolean line, the positive one first. */
  function Booleans(): seq<string> {
    [Boolean(true), Boolean(false)]
  }

  const GUARDS: nat := 10
  const STRUCTURE: nat := 13
  const COUNTERS: nat := 6
  const CLASSES: nat := 27

  /** The guards, in order. */
  function GuardKey(i: nat): string {
    match i
    case 0 => "REMOTE_REPO_PASS"
    case 1 => "REMOTE_HEAD_PASS"
    case 2 => "REMOTE_PRODUCTION_REF_PASS"
    case 3 => "REMOTE_WORKTREE_CLEAN"
    case 4 => "COMPOSE_CONFIG_PASS"
    case 5 => "DB_RUNNING_PASS"
    case 6 => "API_RUNNING_PASS"
    case 7 => "WORKER_RUNNING_PASS"
    case 8 => "DB_HEALTH_PASS"
    case _ => "ALEMBIC_0046_PASS"
  }

  /** The failure stage of each guard. */
  function GuardStage(i: nat): string {
    match i
    case 0 => "STAGE_0_REPO"
    case 1 => "STAGE_0_RELEASE_REF"
    case 2 => "STAGE_0_PRODUCTION_REF"
    case 3 => "STAGE_0_WORKTREE"
    case 4 => "STAGE_0_COMPOSE"
    case 5 => "STAGE_0_DB_RUNNING"
    case 6 => "STAGE_0_API_RUNNING"
    case 7 => "STAGE_0_WORKER_RUNNING"
    case 8 => "STAGE_0_DB_HEALTH"
    case _ => "STAGE_0_ALEMBIC"
  }

  /** The structural checks of the child, in order. */
  function StructureKey(i: nat): string {
    match i
    case 0 => "IMPORTS_PASS"
    case 1 => "DB_QUERY_PASS"
    case 2 => "ACCOUNT_EXACTLY_ONE"
    case 3 => "MANUAL_SELECTED_EXACTLY_ONE"
    case 4 => "INITIAL_STATE"
    case 5 => "HISTORY_COMPLETE_BEFORE"
    case 6 => "BACKFILL_CURSOR_PRESENT_BEFORE"
    case 7 => "CUTOFF_READ_PASS"
    case 8 => "SESSION_DECRYPT_PASS"
    case 9 => "STRING_SESSION_PARSE_PASS"
    case 10 => "REFERENCE_DECRYPT_PASS"
    case 11 => "REFERENCE_PARSE_PASS"
    case _ => "REFERENCE_PEER_MATCH_PASS"
  }

  /** The failure stage of each structural check. */
  function StructureStage(i: nat): string {
    match i
    case 0 => "STAGE_1_IMPORTS"
    case 1 => "STAGE_1_DB_SESSION"
    case 2 => "STAGE_1_DB_SESSION"
    case 3 => "STAGE_1_DB_SESSION"
    case 4 => "STAGE_1_STATE"
    case 5 => "STAGE_1_STATE"
    case 6 => "STAGE_1_STATE"
    case 7 => "STAGE_1_STATE"
    case 8 => "STAGE_1_SESSION_DECRYPT"
    case 9 => "STAGE_1_SESSION_PARSE"
    case 10 => "STAGE_1_REFERENCE_DECRYPT"
    case 11 => "STAGE_1_REFERENCE_PARSE"
    case _ => "STAGE_1_REFERENCE_PEER_MATCH"
  }

  /** Two of the structural checks pass on a negative answer. */
  function StructureExpected(i: nat): bool {
    i != 5 && i != 6
  }

  /** The closing counters, in order. */
  function CounterKey(i: nat): string {
    match i
    case 0 => "CONNECT_CALL_COUNT"
    case 1 => "IS_USER_AUTHORIZED_CALL_COUNT"
    case 2 => "ITER_MESSAGES_CALL_COUNT"
    case 3 => "MESSAGES_SEEN_TOTAL"
    case 4 => "ENTRIES_CONVERTED_TOTAL"
    case _ => "TELEGRAM_NETWORK_CALLS"
  }

  /** The exception class names a transcript may show. */
  function ClassName(i: nat): string {
    match i
    case 0 => "RuntimeError"
    case 1 => "ValueError"
    case 2 => "TypeError"
    case 3 => "AttributeError"
    case 4 => "ImportError"
    case 5 => "ModuleNotFoundError"
    case 6 => "OperationalError"
    case 7 => "ProgrammingError"
    case 8 => "InvalidToken"
    case 9 => "TelegramMtprotoProviderReferenceInvalidError"
    case 10 => "InvalidHistoryEntry"
    case 11 => "AuthKeyError"
    case 12 => "AuthKeyNotFound"
    case 13 => "AuthKeyUnregisteredError"
    case 14 => "SessionRevokedError"
    case 15 => "UnauthorizedError"
    case 16 => "UserDeactivatedBanError"
    case 17 => "UserDeactivatedError"
    case 18 => "ChannelInvalidError"
    case 19 => "ChannelPrivateError"
    case 20 => "ChatIdInvalidError"
    case 21 => "PeerIdInvalidError"
    case 22 => "FloodWaitError"
    case 23 => "TimeoutError"
    case 24 => "ConnectionError"
    case 25 => "OSError"
    case _ => "OTHER"
  }

  function Classes(): (s: seq<string>)
    ensures |s| == CLASSES
  {
    seq(CLASSES, i requires 0 <= i => ClassName(i))
  }

  function Reason(i: nat): string {
    if i == 0 then "child_protocol" else "child_execution"
  }

  function Reasons(): seq<string> {
    [Reason(0), Reason(1)]
  }

  function Page2State(): string {
    "STAGE_3_PAGE2_STATE"
  }

  datatype PageNumber = First | Second {
    function Number(): nat {
      if First? then 1 else 2
    }

    function PassKey(): string {
      if First? then "PAGE1_PASS" else "PAGE2_PASS"
    }

    function SeenKey(): string {
      if First? then "PAGE1_MESSAGES_SEEN" else "PAGE2_MESSAGES_SEEN"
    }

    function ConvertedKey(): string {
      if First? then "PAGE1_ENTRIES_CONVERTED" else "PAGE2_ENTRIES_CONVERTED"
    }

    function NoneKey(): string {
      if First? then "PAGE1_ENTRIES_NONE" else "PAGE2_ENTRIES_NONE"
    }

    /** The failure stages of a page, in the order they are reached. */
    function Stage(phase: nat): string {
      match (this, phase)
      case (First, 0) => "STAGE_2_PAGE1_CLIENT"
      case (First, 1) => "STAGE_2_PAGE1_CONNECT"
      case (First, 2) => "STAGE_2_PAGE1_AUTHORIZED"
      case (First, 3) => "STAGE_3_PAGE1_ITERATION"
      case (First, _) => "STAGE_3_PAGE1_CONVERSION"
      case (Second, 0) => "STAGE_4_PAGE2_CLIENT"
      case (Second, 1) => "STAGE_4_PAGE2_CONNECT"
      case (Second, 2) => "STAGE_4_PAGE2_AUTHORIZED"
      case (Second, 3) => "STAGE_5_PAGE2_ITERATION"
      case (Second, _) => "STAGE_5_PAGE2_CONVERSION"
    }

    function Stages(): (s: seq<string>)
      ensures |s| == 5
    {
      seq(5, i requires 0 <= i => Stage(i))
    }
  }

  /** Positions in `Stages`. */
  const CLIENT: nat := 0
  const CONNECT: nat := 1
  const AUTHORIZED: nat := 2
  const ITERATION: nat := 3
  const CONVERSION: nat := 4

  datatype Verdict = Success | Failure | Blocked

  /** How a transcript is judged. */
  datatype Judgement = Accepted(verdict: Verdict) | Incomplete | Invalid

  datatype Tally = Tally(connect: nat, authorize: nat, iterate: nat, seen: nat, converted: nat) {
    /** What the closing counter number `i` must say. */
    function Counter(i: nat): nat {
      match i
      case 0 => connect
      case 1 => authorize
      case 2 => iterate
      case 3 => seen
      case 4 => converted
      case _ => connect + authorize + iterate
    }

    function Add(moreSeen: nat, moreConverted: nat): Tally {
      this.(seen := seen + moreSeen, converted := converted + moreConverted)
    }

    /** Page `number` failed at this stage: the calls made up to there. */
    function FailedAt(number: nat, phase: nat): Tally
      requires number >= 1
    {
      this.(connect := number - (if phase == CLIENT then 1 else 0),
            authorize := number - (if phase <= CONNECT then 1 else 0),
            iterate := number - (if phase <= AUTHORIZED then 1 else 0))
    }

    function PassedPage(number: nat): Tally {
      this.(connect := number, authorize := number, iterate := number)
    }
  }

  const ZERO: Tally := Tally(0, 0, 0, 0, 0)

  datatype State =
    | Guard(i: nat)
    | ChildStarted
    | Opening
    | BlockedReason
    | BlockedEnd
    | Structure(i: nat)
    | PagePass(page: PageNumber, tally: Tally)
    | PageSeen(page: PageNumber, passed: bool, tally: Tally)
    | PageConverted(page: PageNumber, passed: bool, seen: nat, tally: Tally)
    | PageNone(page: PageNumber, passed: bool, seen: nat, converted: nat, tally: Tally)
    | PageStage(page: PageNumber, seen: nat, converted: nat, none: nat, tally: Tally)
    | AfterFirst(seen: nat, tally: Tally)
    | Required(seen: nat, tally: Tally)
    | StageLine(stage: string, ordinal: nat, tally: Tally)
    | ClassLine(ordinal: nat, tally: Tally)
    | OrdinalLine(ordinal: nat, tally: Tally)
    | Counting(i: nat, failed: bool, tally: Tally)
    | Terminal(failed: bool)
    | Done(verdict: Verdict)

  function Numbers(bound: nat): (s: seq<string>)
    ensures |s| == bound + 1
    ensures forall i | 0 <= i <= bound :: s[i] == Decimal(i)
  {
    seq(bound + 1, i requires 0 <= i => Decimal(i))
  }

  /** Which of the allowed values the line gives the key. */
  function Choice(line: string, key: string, values: seq<string>): (c: Option<nat>)
    ensures c.Some? ==> c.value < |values| && line == Line(key, values[c.value])
    ensures c.None? ==> forall i | 0 <= i < |values| :: line != Line(key, values[i])
  {
    if values == [] then None
    else if line == Line(key, values[|values| - 1]) then Some(|values| - 1)
    else Choice(line, key, values[..|values| - 1])
  }

  /** The ordinal a failed page must report, if its counts fit the stage it failed at. */
  function PageOrdinal(phase: nat, seen: nat, converted: nat, none: nat): Option<nat> {
    if phase <= AUTHORIZED then
      if seen == 0 && converted == 0 && none == 0 then Some(0) else None
    else if phase == ITERATION then
      if seen != converted || none != 0 || seen >= 100 then None else Some(seen + 1)
    else
      if seen < 1 || converted != seen - 1 then None else Some(seen)
  }

  function AfterGuard(i: nat): State {
    if i < GUARDS then Guard(i) else ChildStarted
  }

  function AfterStructure(i: nat): State {
    if i < STRUCTURE then Structure(i) else PagePass(First, ZERO)
  }

  function AfterCounter(i: nat, failed: bool, tally: Tally): State {
    if i < COUNTERS then Counting(i, failed, tally) else Terminal(failed)
  }

  /** The state after the four lines of a page; its counts must agree when it passed. */
  function AfterPage(page: PageNumber, passed: bool, seen: nat, converted: nat, none: nat, tally: Tally)
    : Option<State>
  {
    var total := tally.Add(seen, converted);
    if !passed then Some(PageStage(page, seen, converted, none, total))
    else if seen != converted || none != 0 then None
    else Some(PagePassed(page, seen, total.PassedPage(page.Number())))
  }

  function PagePassed(page: PageNumber, seen: nat, tally: Tally): State {
    if page.First? then AfterFirst(seen, tally) else Counting(0, false, tally)
  }

  /** Two states look at the coming line before they decide what must come. */
  function Peek(s: State, line: string): State {
    match s
    case Opening => if StartsWith(line, "REMOTE_BLOCKED=") then BlockedReason else Structure(0)
    case AfterFirst(seen, tally) =>
      if StartsWith(line, "FAILURE_STAGE=") then StageLine(Page2State(), 0, tally) else Required(seen, tally)
    case _ => s
  }

  /** The key a line must have. */
  function Key(s: State): string {
    match s
    case Guard(i) => GuardKey(i)
    case ChildStarted => "CHILD_STARTED"
    case BlockedReason => "REMOTE_BLOCKED"
    case Structure(i) => StructureKey(i)
    case PagePass(page, _) => page.PassKey()
    case PageSeen(page, _, _) => page.SeenKey()
    case PageConverted(page, _, _, _) => page.ConvertedKey()
    case PageNone(page, _, _, _, _) => page.NoneKey()
    case PageStage(_, _, _, _, _) => "FAILURE_STAGE"
    case Required(_, _) => "PAGE2_REQUIRED"
    case StageLine(_, _, _) => "FAILURE_STAGE"
    case ClassLine(_, _) => "RAW_EXCEPTION_CLASS"
    case OrdinalLine(_, _) => "MESSAGE_ORDINAL"
    case Counting(i, _, _) => CounterKey(i)
    case _ => TerminalKey()
  }

  /** The values a line may give its key. */
  function Values(s: State): seq<string> {
    match s
    case Guard(_) => Booleans()
    case ChildStarted => [Boolean(true)]
    case BlockedReason => Reasons()
    case BlockedEnd => ["blocked"]
    case Structure(_) => Booleans()
    case PagePass(_, _) => Booleans()
    case PageSeen(_, _, _) => Numbers(100)
    case PageConverted(_, _, _, _) => Numbers(100)
    case PageNone(_, _, _, _, _) => Numbers(1)
    case PageStage(page, _, _, _, _) => page.Stages()
    case Required(_, _) => Booleans()
    case StageLine(stage, _, _) => [stage]
    case ClassLine(_, _) => Classes()
    case OrdinalLine(ordinal, _) => [Decimal(ordinal)]
    case Counting(i, _, tally) => [Decimal(tally.Counter(i))]
    case Terminal(failed) => [Outcome(failed)]
    case _ => []
  }

  /** The state after a line that gives value number `v`, unless its counts do not fit. */
  function Next(s: State, v: nat): Option<State> {
    match s
    case Guard(i) => Some(if v == 0 then AfterGuard(i + 1) else StageLine(GuardStage(i), 0, ZERO))
    case ChildStarted => Some(Opening)
    case BlockedReason => Some(BlockedEnd)
    case BlockedEnd => Some(Done(Blocked))
    case Structure(i) =>
      Some(if (v == 0) == StructureExpected(i) then AfterStructure(i + 1) else StageLine(StructureStage(i), 0, ZERO))
    case PagePass(page, tally) => Some(PageSeen(page, v == 0, tally))
    case PageSeen(page, passed, tally) => Some(PageConverted(page, passed, v, tally))
    case PageConverted(page, passed, seen, tally) => Some(PageNone(page, passed, seen, v, tally))
    case PageNone(page, passed, seen, converted, tally) => AfterPage(page, passed, seen, converted, v, tally)
    case PageStage(page, seen, converted, none, tally) =>
      var ordinal := PageOrdinal(v, seen, converted, none);
      if ordinal.None? then None else Some(ClassLine(ordinal.value, tally.FailedAt(page.Number(), v)))
    case Required(seen, tally) =>
      if v == 1 then Some(Counting(0, false, tally))
      else if seen != 100 then None
      else Some(PagePass(Second, tally))
    case StageLine(_, ordinal, tally) => Some(ClassLine(ordinal, tally))
    case ClassLine(ordinal, tally) => Some(OrdinalLine(ordinal, tally))
    case OrdinalLine(_, tally) => Some(Counting(0, true, tally))
    case Counting(i, failed, tally) => Some(AfterCounter(i + 1, failed, tally))
    case Terminal(failed) => Some(Done(if failed then Failure else Success))
    case _ => None
  }

  /** The state after a line, or none when the line is not allowed here. */
  function Step(s: State, line: string): Option<State> {
    var s' := Peek(s, line);
    var v := Choice(line, Key(s'), Values(s'));
    if v.None? then None else Next(s', v.value)
  }

  function Onward(next: Option<State>, lines: seq<string>, pos: nat): Judgement
    requires pos <= |lines|
    decreases |lines| - pos, 1
  {
    match next
    case None => Invalid
    case Some(s) => Judge(s, lines, pos)
  }

  /** Judge the lines from position `pos` on, starting in a state. */
  function Judge(s: State, lines: seq<string>, pos: nat): Judgement
    requires pos <= |lines|
    decreases |lines| - pos, 0
  {
    if s.Done? then (if pos == |lines| then Accepted(s.verdict) else Invalid)
    else if pos == |lines| || !Ends(lines[pos]) then Incomplete
    else Onward(Step(s, lines[pos]), lines, pos + 1)
  }

  /** A child transcript starts at the structural checks, a remote one at the guards. */
  function Start(child: bool): State {
    if child then Structure(0) else Guard(0)
  }

  function JudgeText(text: string, child: bool): Judgement {
    Judge(Start(child), SplitLines(text), 0)
  }

  /** A cut of accepted lines runs out before the end is reached. */
  lemma {:induction false} CutIsIncomplete(s: State, lines: seq<string>, cut: seq<string>, pos: nat)
    requires pos <= |lines| && pos <= |cut| && Judge(s, lines, pos).Accepted?
    requires CutOf(lines, cut)
    requires pos < |cut| || |cut| < |lines|
    ensures Judge(s, cut, pos) == Incomplete
    decreases |lines| - pos
  {
    hide Step;
    if pos < |cut| && Ends(cut[pos]) {
      assert cut[pos] == lines[pos] by {
        if |cut| <= |lines| && cut[..|cut| - 1] == lines[..|cut| - 1] && !Ends(cut[|cut| - 1]) {
          assert cut[..|cut| - 1][pos] == lines[..|cut| - 1][pos];
        }
      }
      var next := Step(s, lines[pos]).value;
      CutIsIncomplete(next, lines, cut, pos + 1);
    }
  }

  lemma {:induction false} AcceptedLinesEnd(s: State, lines: seq<string>, pos: nat)
    requires pos <= |lines| && Judge(s, lines, pos).Accepted?
    ensures forall i | pos <= i < |lines| :: Ends(lines[i])
    decreases |lines| - pos
  {
    hide Step;
    if !s.Done? {
      AcceptedLinesEnd(Step(s, lines[pos]).value, lines, pos + 1);
    }
  }

  /**
    Every proper prefix of an accepted transcript, cut at any character, is incomplete: it is
    neither accepted nor taken for an invalid transcript.
  */
  lemma TruncationIsIncomplete(text: string, child: bool, k: nat)
    requires JudgeText(text, child).Accepted? && k < |text|
    ensures JudgeText(text[..k], child) == Incomplete
  {
    hide Step;
    var lines, cut := SplitLines(text), SplitLines(text[..k]);
    AcceptedLinesEnd(Start(child), lines, 0);
    CutLines(text, k);
    if cut == [] {
      assert text != [] && lines != [];
    }
    CutIsIncomplete(Start(child), lines, cut, 0);
  }
}
