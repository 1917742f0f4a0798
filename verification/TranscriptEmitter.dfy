/**
  The probe that writes the transcript: a report that counts calls and messages as they happen.
*/
module TranscriptEmitter {
  import opened Options
  import opened PythonText
  import opened TranscriptProtocol
  import opened TranscriptRuns
  import opened TranscriptBehaviour
  import opened TranscriptTheorems
  import TranscriptParser

  /** How a check ends: the probe goes on, or it fails. */
  datatype Checked = Passed | Refused(failure: ProbeFailure) {
    predicate IsFailure() {
      Refused?
    }

    function PropagateFailure(): Option<ProbeFailure>
      requires Refused?
    {
      Some(failure)
    }
  }

  class Report {
    /** What was printed, print by print. */
    var output: seq<string>
    var connect: nat
    var authorize: nat
    var iterate: nat
    var seen: nat
    var converted: nat

    constructor ()
      ensures output == [] && Counts() == ZERO
    {
      output := [];
      connect, authorize, iterate, seen, converted := 0, 0, 0, 0, 0;
    }

    function Counts(): Tally
      reads this
    {
      Tally(connect, authorize, iterate, seen, converted)
    }

    method Emit(key: string, value: string)
      modifies this`output
      ensures output == old(output) + [Line(key, value)]
    {
      output := output + [key + "=" + value + "\n"];
    }

    /** Show whether an operation answers as expected. */
    method Check(key: string, stage: string, operation: Reply, expected: bool) returns (c: Checked)
      modifies this`output
      ensures c.Passed? <==> operation == Answered(expected)
      ensures operation.Raised? ==> c == Refused(ProbeFailure(stage, Kind(operation.name), 0))
      ensures operation == Answered(!expected) ==> c == Refused(ProbeFailure(stage, "RuntimeError", 0))
      ensures output == old(output) +
              [key + "=" +
               (if (if operation.Raised? then !expected else operation.good) then "true" else "false") + "\n"]
      ensures c.Refused? ==> c.failure == ProbeFailure(stage, Refusal(operation), 0)
      ensures output == old(output) + [Line(key, Boolean(if c.Passed? then expected else !expected))]
    {
      match operation
      case Raised(name) =>
        Emit(key, Boolean(!expected));
        c := Refused(ProbeFailure(stage, Kind(name), 0));
      case Answered(result) =>
        Emit(key, Boolean(result));
        c := if result != expected then Refused(ProbeFailure(stage, "RuntimeError", 0)) else Passed;
    }

    /** A check of the child, which is number `i` of the structural checks. */
    method CheckStructure(key: string, stage: string, operation: Reply, expected: bool, ghost i: nat)
      returns (c: Checked)
      requires i < STRUCTURE && output == StructureLines(i)
      requires key == StructureKey(i) && stage == StructureStage(i) && expected == StructureExpected(i)
      modifies this`output
      ensures c.Passed? <==> operation == Answered(StructureExpected(i))
      ensures c.Passed? ==> output == StructureLines(i + 1)
      ensures c.Refused? ==>
        && output == CheckFailed(i, Refusal(operation)).Body()
        && Some(c.failure) == CheckFailed(i, Refusal(operation)).Cause()
    {
      hide StructureKey, StructureStage, StructureExpected, Line, Refusal;
      c := Check(key, stage, operation, expected);
    }

    method Finish(failure: Option<ProbeFailure>)
      modifies this`output
      ensures output == old(output) + ClosingLines(failure, Counts())
      ensures output == old(output) + FailureLines(failure) +
              [Line("CONNECT_CALL_COUNT", Decimal(connect)), Line("IS_USER_AUTHORIZED_CALL_COUNT", Decimal(authorize)),
               Line("ITER_MESSAGES_CALL_COUNT", Decimal(iterate)), Line("MESSAGES_SEEN_TOTAL", Decimal(seen)),
               Line("ENTRIES_CONVERTED_TOTAL", Decimal(converted)),
               Line("TELEGRAM_NETWORK_CALLS", Decimal(connect + authorize + iterate)),
               Line("M4AO1_TERMINAL", if failure.Some? then "failure" else "success")]
    {
      CountersNamed(Counts(), failure.Some?);
      hide Line, Decimal, CounterKey, Tally.Counter, TerminalKey, Outcome;
      if failure.Some? {
        Emit("FAILURE_STAGE", failure.value.stage);
        Emit("RAW_EXCEPTION_CLASS", failure.value.kind);
        Emit("MESSAGE_ORDINAL", Decimal(failure.value.ordinal));
      }
      label Counters:
      for i := 0 to COUNTERS
        invariant output == old@Counters(output) + CounterLines(0, Counts())[..i]
      {
        Emit(CounterKey(i), Decimal(Counts().Counter(i)));
      }
      Emit(TerminalKey(), Outcome(failure.Some?));
    }
  }

  /** The counters of a report under their names. */
  lemma CountersNamed(t: Tally, failed: bool)
    ensures EndLines(failed, t) ==
            [Line("CONNECT_CALL_COUNT", Decimal(t.connect)),
             Line("IS_USER_AUTHORIZED_CALL_COUNT", Decimal(t.authorize)),
             Line("ITER_MESSAGES_CALL_COUNT", Decimal(t.iterate)), Line("MESSAGES_SEEN_TOTAL", Decimal(t.seen)),
             Line("ENTRIES_CONVERTED_TOTAL", Decimal(t.converted)),
             Line("TELEGRAM_NETWORK_CALLS", Decimal(t.connect + t.authorize + t.iterate)),
             Line("M4AO1_TERMINAL", if failed then "failure" else "success")]
  {
    hide Line, Decimal;
  }

  /** Go through one page, phase by phase; counts are kept while the provider answers. */
  method RunPage(report: Report, page: PageNumber, b: PageBehaviour)
    returns (failure: Option<ProbeFailure>, entries: nat)
    modifies report
    ensures failure == PageOf(b).Cause(page) && entries == PageOf(b).converted
    ensures report.output == old(report.output) + PageLines(page, PageOf(b))
    ensures report.Counts() == Sum(old(report.Counts()), PageOf(b).Counts())
  {
    hide Line, Decimal, IsClass, Kind, Refusal, Boolean, PageNumber.Stage, PageNumber.PassKey, PageNumber.SeenKey,
      PageNumber.ConvertedKey, PageNumber.NoneKey;
    var phase, ordinal, seen, none := CLIENT, 0, 0, 0;
    entries := 0;
    var raised := if b.client.Some? then Some(Kind(b.client.value)) else None;
    if raised.None? {
      phase := CONNECT;
      report.connect := report.connect + 1;
      raised := if b.connect.Some? then Some(Kind(b.connect.value)) else None;
    }
    if raised.None? {
      phase := AUTHORIZED;
      report.authorize := report.authorize + 1;
      raised := if b.authorized != Answered(true) then Some(Refusal(b.authorized)) else None;
    }
    if raised.None? {
      phase, ordinal := ITERATION, 1;
      report.iterate := report.iterate + 1;
      raised := if b.iteration.Some? then Some(Kind(b.iteration.value)) else None;
    }
    if raised.None? {
      phase, ordinal, seen, entries, none, raised := ReadMessages(report, b.items);
    }
    failure := if raised.Some? then Some(ProbeFailure(page.Stage(phase), raised.value, ordinal)) else None;
    report.Emit(page.PassKey(), Boolean(failure.None?));
    report.Emit(page.SeenKey(), Decimal(seen));
    report.Emit(page.ConvertedKey(), Decimal(entries));
    report.Emit(page.NoneKey(), Decimal(none));
  }

  /**
    Probe one page: what was called, shown and found, phase by phase. A failing reply stops the page in
    its phase, with its own class.
  */
  method ProbePage(report: Report, page: PageNumber, b: PageBehaviour)
    returns (failure: Option<ProbeFailure>, entries: nat)
    modifies report
    ensures failure == PageOf(b).Cause(page) && entries == PageOf(b).converted
    ensures report.output == old(report.output) + PageLines(page, PageOf(b))
    ensures report.Counts() == Sum(old(report.Counts()), PageOf(b).Counts())
    ensures report.connect == old(report.connect) + if b.client.None? then 1 else 0
    ensures report.authorize == old(report.authorize) + if b.client.None? && b.connect.None? then 1 else 0
    ensures report.iterate == old(report.iterate) +
            if b.client.None? && b.connect.None? && b.authorized == Answered(true) then 1 else 0
    ensures b.client.Some? ==> failure == Some(ProbeFailure(page.Stage(CLIENT), Kind(b.client.value), 0))
    ensures b.client.None? && b.connect.Some? ==>
      failure == Some(ProbeFailure(page.Stage(CONNECT), Kind(b.connect.value), 0))
    ensures b.client.None? && b.connect.None? && b.authorized.Raised? ==>
      failure == Some(ProbeFailure(page.Stage(AUTHORIZED), Kind(b.authorized.name), 0))
    ensures b.client.None? && b.connect.None? && b.authorized == Answered(false) ==>
      failure == Some(ProbeFailure(page.Stage(AUTHORIZED), "RuntimeError", 0))
    ensures b.client.None? && b.connect.None? && b.authorized == Answered(true) && b.iteration.Some? ==>
      failure == Some(ProbeFailure(page.Stage(ITERATION), Kind(b.iteration.value), 1))
    ensures !Opens(b) ==> entries == 0 && report.seen == old(report.seen)
    ensures Opens(b) ==>
      && entries <= 100 && Converts(b.items, entries)
      && (entries == 100 || entries == |b.items| ==> failure.None? && report.seen == old(report.seen) + entries)
      && (entries < 100 && entries < |b.items| ==>
        match b.items[entries]
        case Broken(name) =>
          && failure == Some(ProbeFailure(page.Stage(ITERATION), Kind(name), entries + 1))
          && report.seen == old(report.seen) + entries
        case Message(NoEntry) =>
          && failure == Some(ProbeFailure(page.Stage(CONVERSION), "InvalidHistoryEntry", entries + 1))
          && report.seen == old(report.seen) + entries + 1
        case Message(Unconvertible(name)) =>
          && failure == Some(ProbeFailure(page.Stage(CONVERSION), Kind(name), entries + 1))
          && report.seen == old(report.seen) + entries + 1
        case Message(Converted) => false)
    ensures report.converted == old(report.converted) + entries && report.seen >= old(report.seen)
    ensures report.output == old(report.output) +
            [Line(if page.First? then "PAGE1_PASS" else "PAGE2_PASS", if failure.None? then "true" else "false"),
             Line(if page.First? then "PAGE1_MESSAGES_SEEN" else "PAGE2_MESSAGES_SEEN",
                  Decimal(report.seen - old(report.seen))),
             Line(if page.First? then "PAGE1_ENTRIES_CONVERTED" else "PAGE2_ENTRIES_CONVERTED", Decimal(entries)),
             Line(if page.First? then "PAGE1_ENTRIES_NONE" else "PAGE2_ENTRIES_NONE", Decimal(Missing(b, entries)))]
  {
    hide PageOf, Opens, Converts, Missing, Kind, PageNumber.Stage, Line, Decimal, PageLines, Page.Cause, Page.Calls;
    PageCalls(b);
    PageFailure(page, b);
    if Opens(b) {
      PageConverts(page, b);
    }
    PageTexts(page, b);
    failure, entries := RunPage(report, page, b);
  }

  /** How often a page calls the provider. */
  lemma PageCalls(b: PageBehaviour)
    ensures
      var p := PageOf(b);
      && p.Calls(CONNECT) == (if b.client.None? then 1 else 0)
      && p.Calls(AUTHORIZED) == (if b.client.None? && b.connect.None? then 1 else 0)
      && p.Calls(ITERATION) == (if b.client.None? && b.connect.None? && b.authorized == Answered(true) then 1 else 0)
      && (!Opens(b) ==> p.seen == p.converted == 0)
  {
    hide PageOf, Scan, Kind;
    PageMeaning(b);
    ScanMeaning(b.items, 0);
  }

  /** Where a page that does not open stops. */
  lemma PageFailure(page: PageNumber, b: PageBehaviour)
    ensures
      var failure := PageOf(b).Cause(page);
      && (b.client.Some? ==> failure == Some(ProbeFailure(page.Stage(CLIENT), Kind(b.client.value), 0)))
      && (b.client.None? && b.connect.Some? ==>
        failure == Some(ProbeFailure(page.Stage(CONNECT), Kind(b.connect.value), 0)))
      && (b.client.None? && b.connect.None? && b.authorized.Raised? ==>
        failure == Some(ProbeFailure(page.Stage(AUTHORIZED), Kind(b.authorized.name), 0)))
      && (b.client.None? && b.connect.None? && b.authorized == Answered(false) ==>
        failure == Some(ProbeFailure(page.Stage(AUTHORIZED), "RuntimeError", 0)))
      && (b.client.None? && b.connect.None? && b.authorized == Answered(true) && b.iteration.Some? ==>
        failure == Some(ProbeFailure(page.Stage(ITERATION), Kind(b.iteration.value), 1)))
  {
    hide PageOf, Scan, Kind, PageNumber.Stage;
    PageMeaning(b);
  }

  /** What a page that opens makes of its messages. */
  lemma PageConverts(page: PageNumber, b: PageBehaviour)
    requires Opens(b)
    ensures
      var p, failure := PageOf(b), PageOf(b).Cause(page);
      && p.converted <= 100 && Converts(b.items, p.converted)
      && (p.converted == 100 || p.converted == |b.items| ==> failure.None? && p.seen == p.converted)
      && (p.converted < 100 && p.converted < |b.items| ==>
        match b.items[p.converted]
        case Broken(name) =>
          && failure == Some(ProbeFailure(page.Stage(ITERATION), Kind(name), p.converted + 1))
          && p.seen == p.converted
        case Message(NoEntry) =>
          && failure == Some(ProbeFailure(page.Stage(CONVERSION), "InvalidHistoryEntry", p.converted + 1))
          && p.seen == p.converted + 1
        case Message(Unconvertible(name)) =>
          && failure == Some(ProbeFailure(page.Stage(CONVERSION), Kind(name), p.converted + 1))
          && p.seen == p.converted + 1
        case Message(Converted) => false)
  {
    hide PageOf, Scan, Kind, PageNumber.Stage;
    PageMeaning(b);
    ScanMeaning(b.items, 0);
  }

  /** The lines of a page under their names. */
  lemma PageTexts(page: PageNumber, b: PageBehaviour)
    ensures
      var p := PageOf(b);
      PageLines(page, p) ==
      [Line(if page.First? then "PAGE1_PASS" else "PAGE2_PASS", if p.Cause(page).None? then "true" else "false"),
       Line(if page.First? then "PAGE1_MESSAGES_SEEN" else "PAGE2_MESSAGES_SEEN", Decimal(p.seen)),
       Line(if page.First? then "PAGE1_ENTRIES_CONVERTED" else "PAGE2_ENTRIES_CONVERTED", Decimal(p.converted)),
       Line(if page.First? then "PAGE1_ENTRIES_NONE" else "PAGE2_ENTRIES_NONE", Decimal(Missing(b, p.converted)))]
  {
    hide PageOf, Scan, Kind, PageNumber.Stage, Line, Decimal;
    PageMeaning(b);
    ScanMeaning(b.items, 0);
  }

  /** At most a hundred messages; a hundred and first is never requested. */
  method ReadMessages(report: Report, items: seq<Item>)
    returns (phase: nat, ordinal: nat, seen: nat, entries: nat, none: nat, raised: Option<string>)
    modifies report`seen, report`converted
    ensures
      var p := Scan(items, 0);
      && seen == p.seen && entries == p.converted && none == p.none
      && report.seen == old(report.seen) + p.seen && report.converted == old(report.converted) + p.converted
      && (raised.Some? <==> p.stop.Some?)
      && (raised.Some? ==> p.stop == Some(Stop(phase, raised.value)) && ordinal == p.Ordinal())
      && (raised.Some? ==> phase >= ITERATION)
  {
    hide IsClass, Kind;
    phase, ordinal, seen, entries, none, raised := ITERATION, 1, 0, 0, 0, None;
    for k := 1 to 101
      invariant seen == entries == k - 1 <= |items| && none == 0 && raised.None?
      invariant report.seen == old(report.seen) + seen && report.converted == old(report.converted) + entries
      invariant Scan(items, 0) == Scan(items, seen)
    {
      ordinal, phase := k, ITERATION;
      if seen == |items| {
        break;
      }
      if items[seen].Broken? {
        raised := Some(Kind(items[seen].name));
        break;
      }
      var conversion := items[seen].conversion;
      seen := seen + 1;
      report.seen := report.seen + 1;
      phase := CONVERSION;
      if conversion.Unconvertible? {
        raised := Some(Kind(conversion.name));
        break;
      }
      if conversion.NoEntry? {
        none := none + 1;
        raised := Some(Kind("InvalidHistoryEntry"));
        break;
      }
      entries := entries + 1;
      report.converted := report.converted + 1;
    }
  }

  /** The checks the child makes are the ones the parser expects. */
  lemma StructureKeys()
    ensures StructureKey(1) == "DB_QUERY_PASS" && StructureKey(2) == "ACCOUNT_EXACTLY_ONE"
    ensures StructureKey(3) == "MANUAL_SELECTED_EXACTLY_ONE" && StructureKey(4) == "INITIAL_STATE"
    ensures StructureKey(5) == "HISTORY_COMPLETE_BEFORE" && StructureKey(6) == "BACKFILL_CURSOR_PRESENT_BEFORE"
    ensures StructureKey(7) == "CUTOFF_READ_PASS" && StructureKey(8) == "SESSION_DECRYPT_PASS"
    ensures StructureKey(9) == "STRING_SESSION_PARSE_PASS" && StructureKey(10) == "REFERENCE_DECRYPT_PASS"
    ensures StructureKey(11) == "REFERENCE_PARSE_PASS" && StructureKey(12) == "REFERENCE_PEER_MATCH_PASS"
  {
  }

  lemma StructureStages()
    ensures StructureStage(1) == "STAGE_1_DB_SESSION" && StructureStage(2) == "STAGE_1_DB_SESSION"
    ensures StructureStage(3) == "STAGE_1_DB_SESSION" && StructureStage(4) == "STAGE_1_STATE"
    ensures StructureStage(5) == "STAGE_1_STATE" && StructureStage(6) == "STAGE_1_STATE"
    ensures StructureStage(7) == "STAGE_1_STATE" && StructureStage(8) == "STAGE_1_SESSION_DECRYPT"
    ensures StructureStage(9) == "STAGE_1_SESSION_PARSE" && StructureStage(10) == "STAGE_1_REFERENCE_DECRYPT"
    ensures StructureStage(11) == "STAGE_1_REFERENCE_PARSE" && StructureStage(12) == "STAGE_1_REFERENCE_PEER_MATCH"
  {
  }

  /** The first check that is refused ends the run; if none is, the output shows them all. */
  ghost predicate Decided(checks: seq<Reply>, n: nat, output: seq<string>, failure: Option<ProbeFailure>)
    requires n <= |checks| == STRUCTURE
  {
    var k := FirstRefused(checks, 0);
    if failure.None? then k >= n && output == StructureLines(n)
    else
      && k < n
      && failure == CheckFailed(k, Refusal(checks[k])).Cause()
      && output == CheckFailed(k, Refusal(checks[k])).Body()
  }

  /** The checks on the database. */
  method ProbeState(report: Report, checks: seq<Reply>) returns (failure: Option<ProbeFailure>)
    requires |checks| == STRUCTURE && FirstRefused(checks, 0) >= 1 && report.output == StructureLines(1)
    modifies report`output
    ensures Decided(checks, 8, report.output, failure)
  {
    hide FirstRefused, Refusal, StructureLines, Line, StructureKey, StructureStage, Boolean;
    StructureKeys();
    StructureStages();
    FirstIs(checks, 1);
    :- report.CheckStructure("DB_QUERY_PASS", "STAGE_1_DB_SESSION", checks[1], true, 1);
    FirstIs(checks, 2);
    :- report.CheckStructure("ACCOUNT_EXACTLY_ONE", "STAGE_1_DB_SESSION", checks[2], true, 2);
    FirstIs(checks, 3);
    :- report.CheckStructure("MANUAL_SELECTED_EXACTLY_ONE", "STAGE_1_DB_SESSION", checks[3], true, 3);
    FirstIs(checks, 4);
    :- report.CheckStructure("INITIAL_STATE", "STAGE_1_STATE", checks[4], true, 4);
    FirstIs(checks, 5);
    :- report.CheckStructure("HISTORY_COMPLETE_BEFORE", "STAGE_1_STATE", checks[5], false, 5);
    FirstIs(checks, 6);
    :- report.CheckStructure("BACKFILL_CURSOR_PRESENT_BEFORE", "STAGE_1_STATE", checks[6], false, 6);
    FirstIs(checks, 7);
    :- report.CheckStructure("CUTOFF_READ_PASS", "STAGE_1_STATE", checks[7], true, 7);
    FirstIs(checks, 8);
    failure := None;
  }

  /** The checks on the stored credentials. */
  method ProbeCredentials(report: Report, checks: seq<Reply>) returns (failure: Option<ProbeFailure>)
    requires |checks| == STRUCTURE && FirstRefused(checks, 0) >= 8 && report.output == StructureLines(8)
    modifies report`output
    ensures Decided(checks, STRUCTURE, report.output, failure)
  {
    hide FirstRefused, Refusal, StructureLines, Line, StructureKey, StructureStage, Boolean;
    StructureKeys();
    StructureStages();
    FirstIs(checks, 8);
    :- report.CheckStructure("SESSION_DECRYPT_PASS", "STAGE_1_SESSION_DECRYPT", checks[8], true, 8);
    FirstIs(checks, 9);
    :- report.CheckStructure("STRING_SESSION_PARSE_PASS", "STAGE_1_SESSION_PARSE", checks[9], true, 9);
    FirstIs(checks, 10);
    :- report.CheckStructure("REFERENCE_DECRYPT_PASS", "STAGE_1_REFERENCE_DECRYPT", checks[10], true, 10);
    FirstIs(checks, 11);
    :- report.CheckStructure("REFERENCE_PARSE_PASS", "STAGE_1_REFERENCE_PARSE", checks[11], true, 11);
    FirstIs(checks, 12);
    :- report.CheckStructure("REFERENCE_PEER_MATCH_PASS", "STAGE_1_REFERENCE_PEER_MATCH", checks[12], true, 12);
    FirstIs(checks, 13);
    failure := None;
  }

  /** With the first `n` checks satisfied, the next one decides. */
  lemma FirstIs(checks: seq<Reply>, n: nat)
    requires 1 <= n <= |checks| == STRUCTURE
    requires FirstRefused(checks, 0) >= n - 1 && checks[n - 1] == Answered(StructureExpected(n - 1))
    ensures FirstRefused(checks, 0) >= n
    ensures n < STRUCTURE && checks[n] != Answered(StructureExpected(n)) ==> FirstRefused(checks, 0) == n
  {
    var k := FirstRefused(checks, 0);
  }

  method ChildProbe(report: Report, b: ChildBehaviour) returns (failure: Option<ProbeFailure>)
    requires b.Valid() && b.checks[0] == Answered(true)
    requires report.output == StructureLines(1) && report.Counts() == ZERO
    modifies report
    ensures failure == RunOf(b).Cause() && report.output == RunOf(b).Body() && report.Counts() == RunOf(b).Counts()
  {
    hide FirstRefused, Refusal, StructureLines, Line, PageOf, Kind, PageLines, StructureStage, StructureKey, Page2State;
    FirstIs(b.checks, 1);
    failure := ProbeState(report, b.checks);
    if failure.None? {
      failure := ProbeCredentials(report, b.checks);
    }
    if failure.None? {
      failure := ProbePages(report, b);
    }
  }

  lemma WholePageOf(b: PageBehaviour)
    requires PageOf(b).stop.None?
    ensures PageOf(b) == Whole(PageOf(b).seen)
  {
    hide PageOf;
    PageOfWellFormed(b);
    WholePage(PageOf(b));
  }

  /** The run of a child that passes its checks, case by case. */
  lemma RunCases(b: ChildBehaviour)
    requires b.Valid() && FirstRefused(b.checks, 0) == STRUCTURE
    ensures
      var first, second, d := PageOf(b.first), PageOf(b.second), b.derivation;
      && (first.stop.Some? ==> RunOf(b) == FirstFailed(first))
      && (first.stop.None? ==>
        && (d.DerivationRaised? ==> RunOf(b) == StateFailed(first.seen, Kind(d.name)))
        && (d.Derived? && !Wanted(d) ==> RunOf(b) == OnePage(first.seen))
        && (Wanted(d) && !Usable(d, first.seen) ==> RunOf(b) == StateFailed(first.seen, Kind("ValueError")))
        && (Wanted(d) && Usable(d, first.seen) ==>
          first.seen == 100 && RunOf(b) == if second.stop.Some? then SecondFailed(second) else TwoPages(second.seen)))
  {
    hide FirstRefused, PageOf, Kind;
  }

  /** A first page that stops ends the run; one that does not is whole. */
  lemma FirstPageEnds(b: ChildBehaviour)
    requires b.Valid() && FirstRefused(b.checks, 0) == STRUCTURE
    ensures
      var first := PageOf(b.first);
      && Sum(ZERO, first.Counts()) == first.Counts()
      && (first.Cause(First).None? ==> first == Whole(first.converted))
      && (first.Cause(First).Some? ==>
        && RunOf(b).Cause() == first.Cause(First) && RunOf(b).Counts() == first.Counts()
        && RunOf(b).Body() == StructureLines(STRUCTURE) + PageLines(First, first))
  {
    hide FirstRefused, PageOf, Kind, StructureLines, PageLines, PageNumber.Stage, RunOf;
    RunCases(b);
    if PageOf(b.first).stop.None? {
      WholePageOf(b.first);
    }
  }

  /** The first page, and what follows a whole one. */
  method ProbePages(report: Report, b: ChildBehaviour) returns (failure: Option<ProbeFailure>)
    requires b.Valid() && FirstRefused(b.checks, 0) == STRUCTURE
    requires report.output == StructureLines(STRUCTURE) && report.Counts() == ZERO
    modifies report
    ensures failure == RunOf(b).Cause() && report.output == RunOf(b).Body() && report.Counts() == RunOf(b).Counts()
  {
    hide *;
    FirstPageEnds(b);
    var entries: nat;
    failure, entries := ProbePage(report, First, b.first);
    if failure.None? {
      failure := ProbeSecond(report, b, entries);
    }
  }

  /** The derivation of the next state, and the second page when it asks for one. */
  method ProbeSecond(report: Report, b: ChildBehaviour, first: nat) returns (failure: Option<ProbeFailure>)
    requires b.Valid() && FirstRefused(b.checks, 0) == STRUCTURE
    requires PageOf(b.first) == Whole(first)
    requires report.output == StructureLines(STRUCTURE) + PageLines(First, Whole(first))
    requires report.Counts() == Whole(first).Counts()
    modifies report
    ensures failure == RunOf(b).Cause() && report.output == RunOf(b).Body() && report.Counts() == RunOf(b).Counts()
  {
    hide FirstRefused, Refusal, StructureLines, Line, PageOf, Kind, PageLines, StructureStage, StructureKey, RunOf,
      Page.WellFormed, Boolean, PageNumber.Stage;
    hide Opens, Converts, Missing, Decimal;
    RunCases(b);
    if b.derivation.DerivationRaised? {
      return Some(ProbeFailure("STAGE_3_PAGE2_STATE", Kind(b.derivation.name), 0));
    }
    var cursor, complete := b.derivation.cursor, b.derivation.complete;
    var required := !complete && !cursor.NoCursor?;
    if required && (!cursor.At? || cursor.id <= 0 || first != 100) {
      return Some(ProbeFailure("STAGE_3_PAGE2_STATE", Kind("ValueError"), 0));
    }
    report.Emit("PAGE2_REQUIRED", Boolean(required));
    if required {
      var entries;
      failure, entries := ProbePage(report, Second, b.second);
      if failure.None? {
        WholePageOf(b.second);
      }
    } else {
      failure := None;
    }
  }

  /** The output shows a failure at this stage, by an exception of this class. */
  predicate ShowsFailure(output: seq<string>, stage: string, kind: string) {
    Line("FAILURE_STAGE", stage) in output && Line("RAW_EXCEPTION_CLASS", kind) in output
  }

  lemma RunShown(run: ChildRun)
    ensures run.Lines() != [] &&
            run.Lines()[|run.Lines()| - 1] ==
            Line("M4AO1_TERMINAL", if run.Cause().None? then "success" else "failure")
    ensures run.Cause().Some? ==> ShowsFailure(run.Lines(), run.Cause().value.stage, run.Cause().value.kind)
  {
    hide Line, Decimal, ChildRun.Body, ChildRun.Cause, ChildRun.Counts;
    CountersNamed(run.Counts(), run.Cause().Some?);
    var lines, n := run.Lines(), |run.Body()|;
    if run.Cause().Some? {
      assert lines[n] == Line("FAILURE_STAGE", run.Cause().value.stage);
      assert lines[n + 1] == Line("RAW_EXCEPTION_CLASS", run.Cause().value.kind);
    }
  }

  /** The child goes through its run and prints it. */
  method RunChild(b: ChildBehaviour) returns (report: Report)
    requires b.Valid()
    ensures report.output == RunOf(b).Lines() && report.Counts() == RunOf(b).Counts()
  {
    hide Refusal, Line, PageOf, Kind, PageLines, Decimal;
    report := new Report();
    var c := report.CheckStructure("IMPORTS_PASS", "STAGE_1_IMPORTS", b.checks[0], true, 0);
    var failure: Option<ProbeFailure>;
    if c.Refused? {
      failure := Some(c.failure);
    } else {
      failure := ChildProbe(report, b);
    }
    report.Finish(failure);
  }

  /**
    The child prints the transcript of the run it went through: of the first check that does not answer
    as it should, of a first page that fails, or of what came after a first page that passed.
  */
  method ChildMain(b: ChildBehaviour) returns (report: Report)
    requires b.Valid()
    ensures report.output == RunOf(b).Lines()
    ensures report.connect ==
            (if ChecksPass(b) && b.first.client.None? then 1 else 0) +
            (if AsksAgain(b) && b.second.client.None? then 1 else 0)
    ensures report.output != [] &&
            report.output[|report.output| - 1] == Line("M4AO1_TERMINAL", if Succeeds(b) then "success" else "failure")
    ensures ChecksPass(b) && Passes(b.first) && b.derivation.DerivationRaised? ==>
      ShowsFailure(report.output, "STAGE_3_PAGE2_STATE", Kind(b.derivation.name))
    ensures ChecksPass(b) && Passes(b.first) && b.derivation.Derived? && !Succeeds(b) && !AsksAgain(b) ==>
      ShowsFailure(report.output, "STAGE_3_PAGE2_STATE", "ValueError")
    ensures forall k | 0 <= k < STRUCTURE && b.checks[k] != Answered(k != 5 && k != 6) &&
                       (forall j | 0 <= j < k :: b.checks[j] == Answered(j != 5 && j != 6)) ::
              ShowsFailure(report.output, StructureStage(k),
                           if b.checks[k].Raised? then Kind(b.checks[k].name) else "RuntimeError")
  {
    hide RunOf, ChildRun.Lines, ChildRun.Counts, ChildRun.Cause, Kind, ChecksPass, AsksAgain, Succeeds, Passes;
    hide ShowsFailure, Line, StructureStage;
    RunMeaning(b);
    RunShown(RunOf(b));
    report := RunChild(b);
  }

  // ----- the remote process -----

  /** What became of the child process. */
  datatype ChildReply = NotRun | Finished(stdout: string, returncode: int, stderr: string)

  function FirstDenied(guards: seq<Reply>, i: nat): (k: nat)
    requires i <= |guards|
    ensures i <= k <= |guards|
    ensures forall j | i <= j < k :: guards[j] == Answered(true)
    ensures k < |guards| ==> guards[k] != Answered(true)
    decreases |guards| - i
  {
    if i == |guards| || guards[i] != Answered(true) then i else FirstDenied(guards, i + 1)
  }

  /** What happened, as far as the remote process can tell. */
  function RemoteVerdict(guards: seq<Reply>, child: ChildReply): Verdict {
    if FirstDenied(guards, 0) < |guards| then Failure
    else if child.NotRun? || child.returncode != 0 || child.stderr != "" then Blocked
    else
      match JudgeText(child.stdout, true)
      case Accepted(verdict) => verdict
      case _ => Blocked
  }

  /** The whole remote transcript. */
  function RemoteText(guards: seq<Reply>, child: ChildReply): string {
    var i := FirstDenied(guards, 0);
    if i < |guards| then Joined(GuardFailed(i, Refusal(guards[i])).Lines())
    else if child.NotRun? || !JudgeText(child.stdout, true).Accepted? then Joined(Unfinished(0).Lines())
    else if child.returncode != 0 || child.stderr != "" then Joined(Unfinished(1).Lines())
    else Joined(Opened()) + child.stdout
  }

  method RemoteMain(guards: seq<Reply>, child: ChildReply) returns (report: Report)
    requires |guards| == GUARDS
    ensures Joined(report.output) == RemoteText(guards, child)
  {
    hide Line, Refusal, FirstDenied, JudgeText, Joined, GuardKey, GuardStage, ClosingLines, TerminalKey;
    report := new Report();
    for i := 0 to GUARDS
      invariant report.output == GuardLines(i) && report.Counts() == ZERO
      invariant FirstDenied(guards, 0) >= i
    {
      var k := FirstDenied(guards, 0);
      var c := report.Check(GuardKey(i), GuardStage(i), guards[i], true);
      if c.Refused? {
        report.Finish(Some(c.failure));
        assert report.output == GuardFailed(i, Refusal(guards[i])).Lines();
        return;
      }
    }
    report.Emit("CHILD_STARTED", Boolean(true));
    if child.Finished? {
      var judgement := TranscriptParser.ParseOutput(child.stdout, true);
      if judgement.Accepted? {
        if child.returncode != 0 || child.stderr != "" {
          report.Emit("REMOTE_BLOCKED", "child_execution");
          report.Emit(TerminalKey(), "blocked");
          assert report.output == Unfinished(1).Lines();
          return;
        }
        report.output := report.output + [child.stdout];
        JoinedConcat(Opened(), [child.stdout]);
        JoinedOne(child.stdout);
        return;
      }
    }
    report.Emit("REMOTE_BLOCKED", "child_protocol");
    report.Emit(TerminalKey(), "blocked");
    assert report.output == Unfinished(0).Lines();
  }

  /** Whatever the world does, the transcript is accepted, and its verdict is what happened. */
  lemma RemoteTranscriptAccepted(guards: seq<Reply>, child: ChildReply)
    requires |guards| == GUARDS
    ensures JudgeText(RemoteText(guards, child), false) == Accepted(RemoteVerdict(guards, child))
  {
    hide Line, FirstDenied, JudgeText, Joined, GuardLines, ClosingLines, TerminalKey, Opened, IsClass, RemoteRun.Lines;
    var i := FirstDenied(guards, 0);
    if i < |guards| {
      KnownClasses();
      RunAccepted(GuardFailed(i, Refusal(guards[i])));
    } else if child.NotRun? || !JudgeText(child.stdout, true).Accepted? {
      RunAccepted(Unfinished(0));
    } else if child.returncode != 0 || child.stderr != "" {
      RunAccepted(Unfinished(1));
    } else {
      RelayedTextAccepted(child.stdout);
    }
  }

  /** With a child that ran the probe and was heard out, the verdict is the one of the probe. */
  lemma ProbeTranscript(guards: seq<Reply>, b: ChildBehaviour)
    requires |guards| == GUARDS && FirstDenied(guards, 0) == GUARDS && b.Valid()
    ensures
      var text := RemoteText(guards, Finished(Joined(RunOf(b).Lines()), 0, ""));
      && text == Joined(Relayed(RunOf(b)).Lines())
      && JudgeText(text, false) == Accepted(RunOf(b).Verdict())
  {
    hide Line, FirstDenied, JudgeText, Joined, Opened, RunOf, ChildRun.Lines, ChildRun.WellFormed, ChildRun.Verdict;
    var run := RunOf(b);
    RunOfWellFormed(b);
    ChildRunAccepted(run);
    JoinedConcat(Opened(), run.Lines());
    RunAccepted(Relayed(run));
  }
}
