/**
  What the outside world does to the probe, reply by reply, and the run each behaviour leads to.
*/
module TranscriptBehaviour {
  import opened Options
  import opened PythonText
  import opened TranscriptProtocol
  import opened TranscriptRuns

  /** What an operation does: it raises an exception of the named class, or it answers. */
  datatype Reply = Raised(name: string) | Answered(good: bool)

  /** The class name the probe shows. */
  function Kind(name: string): (kind: string)
    ensures IsClass(kind)
    ensures kind == if IsClass(name) then name else "OTHER"
  {
    assert Classes()[CLASSES - 1] == "OTHER";
    if IsClass(name) then name else "OTHER"
  }

  datatype Conversion = Converted | NoEntry | Unconvertible(name: string)

  datatype Item = Message(conversion: Conversion) | Broken(name: string)

  /** The provider during one page; the items run out where the iterator stops. */
  datatype PageBehaviour = PageBehaviour(
    client: Option<string>, connect: Option<string>, authorized: Reply, iteration: Option<string>, items: seq<Item>)

  datatype Cursor = NoCursor | NotAnInteger | At(id: int)

  /** What the derivation of the next state does after page one. */
  datatype Derivation = DerivationRaised(name: string) | Derived(cursor: Cursor, complete: bool)

  datatype ChildBehaviour = ChildBehaviour(
    checks: seq<Reply>, first: PageBehaviour, derivation: Derivation, second: PageBehaviour)
  {
    predicate Valid() {
      |checks| == STRUCTURE
    }
  }

  /** The class an unsatisfied check reports. */
  function Refusal(reply: Reply): string {
    if reply.Raised? then Kind(reply.name) else "RuntimeError"
  }

  /** The first check from `i` on that does not give its expected answer. */
  function FirstRefused(checks: seq<Reply>, i: nat): (k: nat)
    requires i <= |checks|
    ensures i <= k <= |checks|
    ensures forall j | i <= j < k :: checks[j] == Answered(StructureExpected(j))
    ensures k < |checks| ==> checks[k] != Answered(StructureExpected(k))
    decreases |checks| - i
  {
    if i == |checks| || checks[i] != Answered(StructureExpected(i)) then i else FirstRefused(checks, i + 1)
  }

  /** The page after `n` converted messages. */
  function Scan(items: seq<Item>, n: nat): Page
    requires n <= 100 && n <= |items|
    decreases 100 - n
  {
    if n == 100 || n == |items| then Whole(n)
    else
      match items[n]
      case Broken(name) => Page(n, n, 0, Some(Stop(ITERATION, Kind(name))))
      case Message(Converted) => Scan(items, n + 1)
      case Message(NoEntry) => Page(n + 1, n, 1, Some(Stop(CONVERSION, Kind("InvalidHistoryEntry"))))
      case Message(Unconvertible(name)) => Page(n + 1, n, 0, Some(Stop(CONVERSION, Kind(name))))
  }

  function PageOf(b: PageBehaviour): Page {
    if b.client.Some? then Page(0, 0, 0, Some(Stop(CLIENT, Kind(b.client.value))))
    else if b.connect.Some? then Page(0, 0, 0, Some(Stop(CONNECT, Kind(b.connect.value))))
    else if b.authorized != Answered(true) then Page(0, 0, 0, Some(Stop(AUTHORIZED, Refusal(b.authorized))))
    else if b.iteration.Some? then Page(0, 0, 0, Some(Stop(ITERATION, Kind(b.iteration.value))))
    else Scan(b.items, 0)
  }

  /** A second page is asked for unless the history is complete or there is no cursor. */
  predicate Wanted(d: Derivation) {
    d.Derived? && !d.complete && !d.cursor.NoCursor?
  }

  predicate Usable(d: Derivation, seen: nat) {
    d.Derived? && d.cursor.At? && d.cursor.id > 0 && seen == 100
  }

  function RunOf(b: ChildBehaviour): ChildRun
    requires b.Valid()
  {
    var i := FirstRefused(b.checks, 0);
    var first := PageOf(b.first);
    var second := PageOf(b.second);
    if i < STRUCTURE then CheckFailed(i, Refusal(b.checks[i]))
    else if first.stop.Some? then FirstFailed(first)
    else if b.derivation.DerivationRaised? then StateFailed(first.seen, Kind(b.derivation.name))
    else if !Wanted(b.derivation) then OnePage(first.seen)
    else if !Usable(b.derivation, first.seen) then StateFailed(first.seen, Kind("ValueError"))
    else if second.stop.Some? then SecondFailed(second)
    else TwoPages(second.seen)
  }

  // ----- what the runs say of the behaviours -----

  /** The provider comes as far as handing out messages. */
  predicate Opens(b: PageBehaviour) {
    b.client.None? && b.connect.None? && b.authorized == Answered(true) && b.iteration.None?
  }

  /** The first `n` items are messages that become entries. */
  predicate Converts(items: seq<Item>, n: nat) {
    n <= |items| && forall i | 0 <= i < n :: items[i] == Message(Converted)
  }

  /** A page passes when it opens and all of its messages, or a hundred of them, become entries. */
  predicate Passes(b: PageBehaviour) {
    Opens(b) && Converts(b.items, if |b.items| < 100 then |b.items| else 100)
  }

  /** How many messages without an entry are met behind `n` entries: one, if the next item is such a message. */
  function Missing(b: PageBehaviour, n: nat): nat {
    if Opens(b) && n < 100 && n < |b.items| && b.items[n] == Message(NoEntry) then 1 else 0
  }

  /** The scan goes as far as messages become entries, and stops at the item that does not. */
  lemma {:induction false} ScanMeaning(items: seq<Item>, n: nat)
    requires n <= 100 && Converts(items, n)
    ensures
      var p := Scan(items, n);
      var c := p.converted;
      && n <= c <= 100 && Converts(items, c)
      && p.none == (if c < 100 && c < |items| && items[c] == Message(NoEntry) then 1 else 0)
      && (c == 100 || c == |items| ==> p.stop.None? && p.seen == c)
      && (c < 100 && c < |items| ==>
        match items[c]
        case Broken(name) => p.seen == c && p.stop == Some(Stop(ITERATION, Kind(name)))
        case Message(NoEntry) => p.seen == c + 1 && p.stop == Some(Stop(CONVERSION, "InvalidHistoryEntry"))
        case Message(Unconvertible(name)) => p.seen == c + 1 && p.stop == Some(Stop(CONVERSION, Kind(name)))
        case Message(Converted) => false)
    decreases 100 - n
  {
    hide IsClass;
    KnownClasses();
    if n < 100 && n < |items| && items[n] == Message(Converted) {
      ScanMeaning(items, n + 1);
    }
  }

  /** Each step of a page that fails stops it there, with its own class. */
  lemma PageMeaning(b: PageBehaviour)
    ensures b.client.Some? ==> PageOf(b) == Page(0, 0, 0, Some(Stop(CLIENT, Kind(b.client.value))))
    ensures b.client.None? && b.connect.Some? ==> PageOf(b) == Page(0, 0, 0, Some(Stop(CONNECT, Kind(b.connect.value))))
    ensures b.client.None? && b.connect.None? && b.authorized.Raised? ==>
      PageOf(b) == Page(0, 0, 0, Some(Stop(AUTHORIZED, Kind(b.authorized.name))))
    ensures b.client.None? && b.connect.None? && b.authorized == Answered(false) ==>
      PageOf(b) == Page(0, 0, 0, Some(Stop(AUTHORIZED, "RuntimeError")))
    ensures b.client.None? && b.connect.None? && b.authorized == Answered(true) && b.iteration.Some? ==>
      PageOf(b) == Page(0, 0, 0, Some(Stop(ITERATION, Kind(b.iteration.value))))
    ensures Opens(b) ==> PageOf(b) == Scan(b.items, 0)
    ensures PageOf(b).stop.None? <==> Passes(b)
    ensures Passes(b) ==> PageOf(b) == Whole(if |b.items| < 100 then |b.items| else 100)
  {
    hide IsClass, Kind;
    ScanMeaning(b.items, 0);
  }

  /** Every check answers as it should: all positively but the two on what must not be there yet. */
  predicate ChecksPass(b: ChildBehaviour)
    requires b.Valid()
  {
    forall j | 0 <= j < STRUCTURE :: b.checks[j] == Answered(j != 5 && j != 6)
  }

  /** A second page follows a full first one when there is more history and a cursor to go on from. */
  predicate AsksAgain(b: ChildBehaviour)
    requires b.Valid()
  {
    && ChecksPass(b) && Passes(b.first) && |b.first.items| >= 100
    && b.derivation.Derived? && !b.derivation.complete && b.derivation.cursor.At? && b.derivation.cursor.id > 0
  }

  /** Whether the whole probe succeeds. */
  predicate Succeeds(b: ChildBehaviour)
    requires b.Valid()
  {
    && ChecksPass(b) && Passes(b.first) && b.derivation.Derived?
    && (b.derivation.complete || b.derivation.cursor.NoCursor? || (AsksAgain(b) && Passes(b.second)))
  }

  lemma ChecksMeaning(b: ChildBehaviour)
    requires b.Valid()
    ensures FirstRefused(b.checks, 0) == STRUCTURE <==> ChecksPass(b)
    ensures forall k | 0 <= k < STRUCTURE && b.checks[k] != Answered(k != 5 && k != 6) &&
                       (forall j | 0 <= j < k :: b.checks[j] == Answered(j != 5 && j != 6)) ::
              FirstRefused(b.checks, 0) == k
  {
    var i := FirstRefused(b.checks, 0);
  }

  /** How many pages were begun, and how the run ended. */
  lemma RunMeaning(b: ChildBehaviour)
    requires b.Valid()
    ensures RunOf(b).Counts().connect ==
            (if ChecksPass(b) && b.first.client.None? then 1 else 0) +
            (if AsksAgain(b) && b.second.client.None? then 1 else 0)
    ensures RunOf(b).Cause().None? <==> Succeeds(b)
    ensures ChecksPass(b) && Passes(b.first) && b.derivation.DerivationRaised? ==>
      RunOf(b).Cause() == Some(ProbeFailure("STAGE_3_PAGE2_STATE", Kind(b.derivation.name), 0))
    ensures ChecksPass(b) && Passes(b.first) && b.derivation.Derived? && !Succeeds(b) && !AsksAgain(b) ==>
      RunOf(b).Cause() == Some(ProbeFailure("STAGE_3_PAGE2_STATE", "ValueError", 0))
    ensures forall k | 0 <= k < STRUCTURE && b.checks[k] != Answered(k != 5 && k != 6) &&
                       (forall j | 0 <= j < k :: b.checks[j] == Answered(j != 5 && j != 6)) ::
              RunOf(b).Cause() ==
              Some(ProbeFailure(StructureStage(k),
                                if b.checks[k].Raised? then Kind(b.checks[k].name) else "RuntimeError", 0))
  {
    hide PageOf, Kind, FirstRefused, Passes, StructureStage, PageNumber.Stage;
    KnownClasses();
    ChecksMeaning(b);
    PageMeaning(b.first);
    PageMeaning(b.second);
    PageBegun(b.first);
    PageBegun(b.second);
    KindOfKnown();
  }

  lemma KindOfKnown()
    ensures Kind("ValueError") == "ValueError"
  {
    KnownClasses();
  }

  lemma PageBegun(b: PageBehaviour)
    ensures PageOf(b).Calls(CONNECT) == if b.client.None? then 1 else 0
  {
    hide Kind, Scan;
    PageMeaning(b);
    ScanMeaning(b.items, 0);
  }

  // ----- every behaviour leads to a well-formed run -----

  lemma {:induction false} ScanWellFormed(items: seq<Item>, n: nat)
    requires n <= 100 && n <= |items|
    ensures Scan(items, n).WellFormed() && Natural(Scan(items, n))
    decreases 100 - n
  {
    hide IsClass;
    KnownClasses();
    if n < 100 && n < |items| && items[n] == Message(Converted) {
      ScanWellFormed(items, n + 1);
    }
  }

  lemma KnownClasses()
    ensures IsClass("RuntimeError") && IsClass("ValueError") && IsClass("InvalidHistoryEntry")
  {
    assert Classes()[0] == "RuntimeError" && Classes()[1] == "ValueError" && Classes()[10] == "InvalidHistoryEntry";
  }

  lemma PageOfWellFormed(b: PageBehaviour)
    ensures PageOf(b).WellFormed() && Natural(PageOf(b))
  {
    hide IsClass;
    KnownClasses();
    ScanWellFormed(b.items, 0);
  }

  lemma RunOfWellFormed(b: ChildBehaviour)
    requires b.Valid()
    ensures RunOf(b).WellFormed() && NaturalRun(RunOf(b))
  {
    hide IsClass, PageOf, Page.WellFormed, Kind;
    KnownClasses();
    PageOfWellFormed(b.first);
    PageOfWellFormed(b.second);
    if PageOf(b.first).stop.None? {
      WholePage(PageOf(b.first));
    }
    if PageOf(b.second).stop.None? {
      WholePage(PageOf(b.second));
    }
  }

  lemma WholePage(p: Page)
    requires p.WellFormed() && p.stop.None?
    ensures p == Whole(p.seen) && p.seen <= 100
  {
  }

  // ----- and every run that names the right exception comes from a behaviour -----

  /** A message without an entry is reported as an invalid history entry. */
  predicate Natural(p: Page) {
    p.none > 0 ==> p.stop.Some? && p.stop.value.kind == "InvalidHistoryEntry"
  }

  predicate NaturalRun(run: ChildRun) {
    run.FirstFailed? || run.SecondFailed? ==> Natural(run.page)
  }

  /** `n` converted messages, then the rest. */
  function Messages(n: nat, rest: seq<Item>): seq<Item> {
    seq(n, i => Message(Converted)) + rest
  }

  function PageBehaviourOf(p: Page): PageBehaviour
    requires p.WellFormed()
  {
    var smooth := PageBehaviour(None, None, Answered(true), None, Messages(p.converted, []));
    if p.stop.None? then smooth
    else
      var kind := p.stop.value.kind;
      if p.stop.value.phase == CLIENT then smooth.(client := Some(kind))
      else if p.stop.value.phase == CONNECT then smooth.(connect := Some(kind))
      else if p.stop.value.phase == AUTHORIZED then smooth.(authorized := Raised(kind))
      else if p.stop.value.phase == ITERATION then smooth.(items := Messages(p.converted, [Broken(kind)]))
      else smooth.(items := Messages(p.converted, [Message(if p.none == 1 then NoEntry else Unconvertible(kind))]))
  }

  lemma {:induction false} ScanMessages(n: nat, rest: seq<Item>, i: nat)
    requires i <= n <= 100
    ensures Scan(Messages(n, rest), i) == Scan(Messages(n, rest), n)
    decreases n - i
  {
    hide Kind;
    if i < n {
      assert Messages(n, rest)[i] == Message(Converted);
      ScanMessages(n, rest, i + 1);
    }
  }

  lemma PageRealized(p: Page)
    requires p.WellFormed() && Natural(p)
    ensures PageOf(PageBehaviourOf(p)) == p
  {
    hide IsClass;
    KnownClasses();
    var b := PageBehaviourOf(p);
    var rest := b.items[p.converted..];
    assert b.items == Messages(p.converted, rest);
    ScanMessages(p.converted, rest, 0);
  }

  /** The checks of a run that passes the first `n`, with the reply to the one after them. */
  function ChecksOf(n: nat, reply: Reply): seq<Reply> {
    seq(STRUCTURE, i requires 0 <= i => if i == n then reply else Answered(StructureExpected(i)))
  }

  function ChildBehaviourOf(run: ChildRun): ChildBehaviour
    requires run.WellFormed()
  {
    var passed := ChecksOf(STRUCTURE, Answered(true));
    var none := PageBehaviourOf(Whole(0));
    var full := PageBehaviourOf(Whole(100));
    var finished := Derived(NoCursor, true);
    var more := Derived(At(1), false);
    match run
    case CheckFailed(i, kind) => ChildBehaviour(ChecksOf(i, Raised(kind)), none, finished, none)
    case FirstFailed(page) => ChildBehaviour(passed, PageBehaviourOf(page), finished, none)
    case StateFailed(seen, kind) => ChildBehaviour(passed, PageBehaviourOf(Whole(seen)), DerivationRaised(kind), none)
    case OnePage(seen) => ChildBehaviour(passed, PageBehaviourOf(Whole(seen)), finished, none)
    case SecondFailed(page) => ChildBehaviour(passed, full, more, PageBehaviourOf(page))
    case TwoPages(seen) => ChildBehaviour(passed, full, more, PageBehaviourOf(Whole(seen)))
  }

  lemma {:induction false} RefusedAt(n: nat, reply: Reply, i: nat)
    requires i <= n <= STRUCTURE
    requires n < STRUCTURE ==> reply != Answered(StructureExpected(n))
    ensures FirstRefused(ChecksOf(n, reply), i) == n
    decreases n - i
  {
    if i < n {
      RefusedAt(n, reply, i + 1);
    }
  }

  lemma RunRealized(run: ChildRun)
    requires run.WellFormed() && NaturalRun(run)
    ensures ChildBehaviourOf(run).Valid() && RunOf(ChildBehaviourOf(run)) == run
  {
    hide IsClass, PageOf, PageBehaviourOf, FirstRefused, StructureExpected;
    var b := ChildBehaviourOf(run);
    if run.CheckFailed? {
      RefusedAt(run.i, Raised(run.kind), 0);
      assert b.checks[run.i] == Raised(run.kind);
    } else {
      RefusedAt(STRUCTURE, Answered(true), 0);
      PageRealized(Whole(100));
      if run.FirstFailed? || run.SecondFailed? {
        PageRealized(run.page);
      } else {
        PageRealized(Whole(run.seen));
      }
    }
  }

  /** Exactly the well-formed runs that name the right exception are runs of some behaviour. */
  lemma Realizable(run: ChildRun)
    ensures (exists b: ChildBehaviour :: b.Valid() && RunOf(b) == run) <==> run.WellFormed() && NaturalRun(run)
  {
    hide RunOf, NaturalRun;
    if run.WellFormed() && NaturalRun(run) {
      RunRealized(run);
    }
    forall b: ChildBehaviour | b.Valid() && RunOf(b) == run ensures run.WellFormed() && NaturalRun(run) {
      RunOfWellFormed(b);
    }
  }
}
