/**
  The names of the protocol are plain, so every line of a run is one whole line of the text.
*/
module TranscriptNames {
  import opened Options
  import opened PythonText
  import opened TranscriptProtocol
  import opened TranscriptRuns

  // The names, a few at a time.

  lemma RepositoryWords()
    ensures Plain("REMOTE_REPO_PASS") && Plain("REMOTE_HEAD_PASS") && Plain("REMOTE_PRODUCTION_REF_PASS")
    ensures Plain("REMOTE_WORKTREE_CLEAN")
  {
  }

  lemma ServiceWords()
    ensures Plain("COMPOSE_CONFIG_PASS") && Plain("DB_RUNNING_PASS") && Plain("API_RUNNING_PASS")
    ensures Plain("WORKER_RUNNING_PASS")
  {
  }

  lemma HealthWords()
    ensures Plain("DB_HEALTH_PASS") && Plain("ALEMBIC_0046_PASS")
  {
  }

  lemma RepositoryStageWords()
    ensures Plain("STAGE_0_REPO") && Plain("STAGE_0_RELEASE_REF") && Plain("STAGE_0_PRODUCTION_REF")
    ensures Plain("STAGE_0_WORKTREE")
  {
  }

  lemma ServiceStageWords()
    ensures Plain("STAGE_0_COMPOSE") && Plain("STAGE_0_DB_RUNNING") && Plain("STAGE_0_API_RUNNING")
    ensures Plain("STAGE_0_WORKER_RUNNING")
  {
  }

  lemma HealthStageWords()
    ensures Plain("STAGE_0_DB_HEALTH") && Plain("STAGE_0_ALEMBIC")
  {
  }

  lemma DatabaseWords()
    ensures Plain("IMPORTS_PASS") && Plain("DB_QUERY_PASS") && Plain("ACCOUNT_EXACTLY_ONE")
    ensures Plain("MANUAL_SELECTED_EXACTLY_ONE")
  {
  }

  lemma StateWords()
    ensures Plain("INITIAL_STATE") && Plain("HISTORY_COMPLETE_BEFORE") && Plain("BACKFILL_CURSOR_PRESENT_BEFORE")
  {
  }

  lemma SessionWords()
    ensures Plain("CUTOFF_READ_PASS") && Plain("SESSION_DECRYPT_PASS") && Plain("STRING_SESSION_PARSE_PASS")
  {
  }

  lemma ReferenceWords()
    ensures Plain("REFERENCE_DECRYPT_PASS") && Plain("REFERENCE_PARSE_PASS") && Plain("REFERENCE_PEER_MATCH_PASS")
  {
  }

  lemma DatabaseStageWords()
    ensures Plain("STAGE_1_IMPORTS") && Plain("STAGE_1_DB_SESSION") && Plain("STAGE_1_STATE")
    ensures Plain("STAGE_1_SESSION_DECRYPT")
  {
  }

  lemma ParseStageWords()
    ensures Plain("STAGE_1_SESSION_PARSE") && Plain("STAGE_1_REFERENCE_DECRYPT") && Plain("STAGE_1_REFERENCE_PARSE")
  {
  }

  lemma MatchStageWords()
    ensures Plain("STAGE_1_REFERENCE_PEER_MATCH")
  {
  }

  lemma CallCountWords()
    ensures Plain("CONNECT_CALL_COUNT") && Plain("IS_USER_AUTHORIZED_CALL_COUNT") && Plain("ITER_MESSAGES_CALL_COUNT")
  {
  }

  lemma TotalWords()
    ensures Plain("MESSAGES_SEEN_TOTAL") && Plain("ENTRIES_CONVERTED_TOTAL") && Plain("TELEGRAM_NETWORK_CALLS")
  {
  }

  lemma FirstPageWords()
    ensures Plain("PAGE1_PASS") && Plain("PAGE1_MESSAGES_SEEN") && Plain("PAGE1_ENTRIES_CONVERTED")
    ensures Plain("PAGE1_ENTRIES_NONE")
  {
  }

  lemma SecondPageWords()
    ensures Plain("PAGE2_PASS") && Plain("PAGE2_MESSAGES_SEEN") && Plain("PAGE2_ENTRIES_CONVERTED")
    ensures Plain("PAGE2_ENTRIES_NONE")
  {
  }

  lemma FirstPageStageWords()
    ensures Plain("STAGE_2_PAGE1_CLIENT") && Plain("STAGE_2_PAGE1_CONNECT") && Plain("STAGE_2_PAGE1_AUTHORIZED")
  {
  }

  lemma IterationStageWords()
    ensures Plain("STAGE_3_PAGE1_ITERATION") && Plain("STAGE_3_PAGE1_CONVERSION") && Plain("STAGE_4_PAGE2_CLIENT")
  {
  }

  lemma SecondPageStageWords()
    ensures Plain("STAGE_4_PAGE2_CONNECT") && Plain("STAGE_4_PAGE2_AUTHORIZED") && Plain("STAGE_5_PAGE2_ITERATION")
  {
  }

  lemma ConversionStageWords()
    ensures Plain("STAGE_5_PAGE2_CONVERSION")
  {
  }

  lemma BuiltinErrorWords()
    ensures Plain("RuntimeError") && Plain("ValueError") && Plain("TypeError") && Plain("AttributeError")
  {
  }

  lemma ImportErrorWords()
    ensures Plain("ImportError") && Plain("ModuleNotFoundError") && Plain("OperationalError")
    ensures Plain("ProgrammingError")
  {
  }

  lemma ChannelErrorWords()
    ensures Plain("InvalidToken") && Plain("ChannelInvalidError") && Plain("ChannelPrivateError")
    ensures Plain("ChatIdInvalidError")
  {
  }

  lemma PeerErrorWords()
    ensures Plain("PeerIdInvalidError") && Plain("FloodWaitError") && Plain("TimeoutError") && Plain("ConnectionError")
  {
  }

  lemma OtherErrorWords()
    ensures Plain("OSError") && Plain("OTHER") && Plain("TelegramMtprotoProviderReferenceInvalidError")
    ensures Plain("InvalidHistoryEntry")
  {
  }

  lemma AuthErrorWords()
    ensures Plain("AuthKeyError") && Plain("AuthKeyNotFound") && Plain("AuthKeyUnregisteredError")
    ensures Plain("SessionRevokedError")
  {
  }

  lemma UserErrorWords()
    ensures Plain("UnauthorizedError") && Plain("UserDeactivatedBanError") && Plain("UserDeactivatedError")
  {
  }

  lemma OpeningWords()
    ensures Plain("CHILD_STARTED") && Plain("REMOTE_BLOCKED") && Plain("PAGE2_REQUIRED") && Plain("FAILURE_STAGE")
  {
  }

  lemma FailureWords()
    ensures Plain("RAW_EXCEPTION_CLASS") && Plain("MESSAGE_ORDINAL") && Plain("M4AO1_TERMINAL")
    ensures Plain("STAGE_3_PAGE2_STATE")
  {
  }

  lemma OutcomeWords()
    ensures Plain("true") && Plain("false") && Plain("success") && Plain("failure")
  {
  }

  lemma BlockedWords()
    ensures Plain("child_protocol") && Plain("child_execution") && Plain("blocked")
  {
  }

  lemma GuardKeysPlain(i: nat)
    ensures Plain(GuardKey(i))
  {
    hide Plain;
    RepositoryWords(); ServiceWords(); HealthWords();
  }

  lemma GuardStagesPlain(i: nat)
    ensures Plain(GuardStage(i))
  {
    hide Plain;
    RepositoryStageWords(); ServiceStageWords(); HealthStageWords();
  }

  lemma StructureKeysPlain(i: nat)
    ensures Plain(StructureKey(i))
  {
    hide Plain;
    DatabaseWords(); StateWords(); SessionWords(); ReferenceWords();
  }

  lemma StructureStagesPlain(i: nat)
    ensures Plain(StructureStage(i))
  {
    hide Plain;
    DatabaseStageWords(); ParseStageWords(); MatchStageWords();
  }

  lemma CounterKeysPlain(i: nat)
    ensures Plain(CounterKey(i))
  {
    hide Plain;
    CallCountWords(); TotalWords();
  }

  lemma PageKeysPlain(page: PageNumber)
    ensures Plain(page.PassKey()) && Plain(page.SeenKey()) && Plain(page.ConvertedKey()) && Plain(page.NoneKey())
  {
    hide Plain;
    FirstPageWords(); SecondPageWords();
  }

  lemma PageStagesPlain(page: PageNumber, phase: nat)
    ensures Plain(page.Stage(phase))
  {
    hide Plain;
    FirstPageStageWords(); IterationStageWords(); SecondPageStageWords(); ConversionStageWords();
  }

  lemma ClassNamesPlain(i: nat)
    ensures Plain(ClassName(i))
  {
    hide Plain;
    BuiltinErrorWords(); ImportErrorWords(); ChannelErrorWords(); PeerErrorWords(); OtherErrorWords();
    AuthErrorWords(); UserErrorWords();
  }

  lemma OtherNamesPlain()
    ensures Plain("CHILD_STARTED") && Plain("REMOTE_BLOCKED") && Plain("PAGE2_REQUIRED")
    ensures Plain("FAILURE_STAGE") && Plain("RAW_EXCEPTION_CLASS") && Plain("MESSAGE_ORDINAL")
    ensures Plain(TerminalKey()) && Plain(Page2State())
  {
    hide Plain;
    OpeningWords(); FailureWords();
  }

  lemma ValuesPlain(b: bool, reason: nat)
    ensures Plain(Boolean(b)) && Plain(Outcome(b)) && Plain(Reason(reason)) && Plain("blocked")
  {
    hide Plain;
    OutcomeWords(); BlockedWords();
  }

  lemma KindPlain(kind: string)
    requires IsClass(kind)
    ensures Plain(kind)
  {
    hide ClassName, Plain;
    var i :| 0 <= i < |Classes()| && Classes()[i] == kind;
    ClassNamesPlain(i);
  }

  // ----- lines -----

  predicate AllClean(lines: seq<string>) {
    forall i | 0 <= i < |lines| :: Clean(lines[i])
  }

  lemma GuardLinesClean(n: nat)
    ensures AllClean(GuardLines(n))
  {
    hide GuardKey, Line, Plain, Clean;
    forall i | 0 <= i < n ensures Clean(GuardLines(n)[i]) {
      GuardKeysPlain(i);
      ValuesPlain(true, 0);
      PlainLineIsClean(GuardKey(i), Boolean(true));
    }
  }

  lemma StructureLinesClean(n: nat)
    ensures AllClean(StructureLines(n))
  {
    hide StructureKey, StructureExpected, Line, Plain, Clean;
    forall i | 0 <= i < n ensures Clean(StructureLines(n)[i]) {
      StructureKeysPlain(i);
      ValuesPlain(StructureExpected(i), 0);
      PlainLineIsClean(StructureKey(i), Boolean(StructureExpected(i)));
    }
  }

  lemma PageLinesClean(page: PageNumber, p: Page)
    ensures AllClean(PageLines(page, p))
  {
    hide PageNumber.PassKey, PageNumber.SeenKey, PageNumber.ConvertedKey, PageNumber.NoneKey;
    hide Line, Plain, Clean, Decimal;
    PageKeysPlain(page);
    ValuesPlain(p.stop.None?, 0);
    PlainLineIsClean(page.PassKey(), Boolean(p.stop.None?));
    PlainLineIsClean(page.SeenKey(), Decimal(p.seen));
    PlainLineIsClean(page.ConvertedKey(), Decimal(p.converted));
    PlainLineIsClean(page.NoneKey(), Decimal(p.none));
  }

  lemma EndLinesClean(failed: bool, tally: Tally)
    ensures AllClean(EndLines(failed, tally))
  {
    hide CounterKey, Tally.Counter, TerminalKey, Outcome, Line, Plain, Clean, Decimal;
    forall i | 0 <= i < COUNTERS ensures Clean(CounterLines(0, tally)[i]) {
      CounterKeysPlain(i);
      PlainLineIsClean(CounterKey(i), Decimal(tally.Counter(i)));
    }
    OtherNamesPlain();
    ValuesPlain(failed, 0);
    PlainLineIsClean(TerminalKey(), Outcome(failed));
  }

  lemma ClosingLinesClean(failure: Option<ProbeFailure>, tally: Tally)
    requires failure.Some? ==> Plain(failure.value.stage) && IsClass(failure.value.kind)
    ensures AllClean(ClosingLines(failure, tally))
  {
    hide Line, Plain, Clean, Decimal, EndLines, IsClass;
    EndLinesClean(failure.Some?, tally);
    if failure.Some? {
      var f := failure.value;
      OtherNamesPlain();
      KindPlain(f.kind);
      PlainLineIsClean("FAILURE_STAGE", f.stage);
      PlainLineIsClean("RAW_EXCEPTION_CLASS", f.kind);
      PlainLineIsClean("MESSAGE_ORDINAL", Decimal(f.ordinal));
    }
  }

  lemma CauseClean(run: ChildRun)
    requires run.WellFormed() && run.Cause().Some?
    ensures Plain(run.Cause().value.stage) && IsClass(run.Cause().value.kind)
  {
    hide Plain, IsClass, PageNumber.Stage, StructureStage, Page2State;
    match run {
      case CheckFailed(i, _) => StructureStagesPlain(i);
      case FirstFailed(page) => PageStagesPlain(First, page.stop.value.phase);
      case StateFailed(_, _) => OtherNamesPlain();
      case SecondFailed(page) => PageStagesPlain(Second, page.stop.value.phase);
      case _ =>
    }
  }

  lemma BodyClean(run: ChildRun)
    requires run.WellFormed()
    ensures AllClean(run.Body())
  {
    hide Plain, Clean, Line, IsClass, StructureLines, PageLines, StructureKey, StructureExpected;
    StructureLinesClean(if run.CheckFailed? then run.i else STRUCTURE);
    OtherNamesPlain();
    ValuesPlain(true, 0);
    ValuesPlain(false, 0);
    PlainLineIsClean("PAGE2_REQUIRED", Boolean(false));
    PlainLineIsClean("PAGE2_REQUIRED", Boolean(true));
    match run {
      case CheckFailed(i, _) =>
        StructureKeysPlain(i);
        PlainLineIsClean(StructureKey(i), Boolean(!StructureExpected(i)));
      case FirstFailed(page) => PageLinesClean(First, page);
      case StateFailed(seen, _) => PageLinesClean(First, Whole(seen));
      case OnePage(seen) => PageLinesClean(First, Whole(seen));
      case SecondFailed(page) =>
        PageLinesClean(First, Whole(100));
        PageLinesClean(Second, page);
      case TwoPages(seen) =>
        PageLinesClean(First, Whole(100));
        PageLinesClean(Second, Whole(seen));
    }
  }

  lemma ChildLinesClean(run: ChildRun)
    requires run.WellFormed()
    ensures AllClean(run.Lines())
  {
    hide Plain, Clean, IsClass, ChildRun.Body, ChildRun.Cause, ChildRun.Counts, ChildRun.WellFormed, ClosingLines;
    BodyClean(run);
    if run.Cause().Some? {
      CauseClean(run);
    }
    ClosingLinesClean(run.Cause(), run.Counts());
  }

  lemma OpenedClean()
    ensures AllClean(Opened())
  {
    hide Plain, Clean, Line, GuardLines;
    GuardLinesClean(GUARDS);
    OtherNamesPlain();
    ValuesPlain(true, 0);
    PlainLineIsClean("CHILD_STARTED", Boolean(true));
  }

  lemma RemoteLinesClean(run: RemoteRun)
    requires run.WellFormed()
    ensures AllClean(run.Lines())
  {
    hide Plain, Clean, Line, IsClass, GuardLines, Opened, ChildRun.Lines, ChildRun.WellFormed;
    hide ClosingLines, GuardKey, GuardStage;
    match run {
      case GuardFailed(i, kind) =>
        GuardLinesClean(i);
        GuardKeysPlain(i);
        ValuesPlain(false, 0);
        PlainLineIsClean(GuardKey(i), Boolean(false));
        GuardStagesPlain(i);
        ClosingLinesClean(Some(ProbeFailure(GuardStage(i), kind, 0)), ZERO);
      case Unfinished(reason) =>
        OpenedClean();
        OtherNamesPlain();
        ValuesPlain(false, reason);
        PlainLineIsClean("REMOTE_BLOCKED", Reason(reason));
        PlainLineIsClean(TerminalKey(), "blocked");
      case Relayed(child) =>
        OpenedClean();
        ChildLinesClean(child);
    }
  }
}
