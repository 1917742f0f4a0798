/**
  The strict transcript parser: a reader that moves over the lines, peeks and rewinds, and
  counters that are checked against the closing lines.
*/
module TranscriptParser {
  import opened Options
  import opened PythonText
  import opened TranscriptProtocol

  /** What taking a line yields: the position of its value among the allowed ones, or an error. */
  datatype Taken = Value(index: nat) | Short | Wrong {
    predicate IsFailure() {
      !Value?
    }

    function PropagateFailure(): Judgement
      requires !Value?
    {
      if Short? then Incomplete else Invalid
    }

    function Extract(): nat
      requires Value?
    {
      index
    }
  }

  class Reader {
    const lines: seq<string>
    var pos: nat

    constructor (text: string)
      ensures lines == SplitLines(text) && pos == 0
    {
      lines := SplitLines(text);
      pos := 0;
    }

    /** Take one line with this key and one of these values, as state `s` of the protocol demands. */
    method Take(key: string, values: seq<string>, ghost s: State) returns (t: Taken)
      requires pos <= |lines|
      requires !s.Done? && !s.Opening? && !s.AfterFirst? && key == Key(s) && values == Values(s)
      modifies this`pos
      ensures pos == (if t.Value? then old(pos) + 1 else old(pos)) <= |lines|
      ensures t.Value? ==> t.index < |values| && lines[old(pos)] == Line(key, values[t.index])
      ensures Judge(s, lines, old(pos)) ==
              match t
              case Short => Incomplete
              case Wrong => Invalid
              case Value(v) => Onward(Next(s, v), lines, pos)
    {
      if pos == |lines| {
        return Short;
      }
      var line := lines[pos];
      if !Ends(line) {
        return Short;
      }
      match Choice(line, key, values) {
        case None => return Wrong;
        case Some(index) =>
          pos := pos + 1;
          return Value(index);
      }
    }
  }

  /** Nothing may come after the last line. */
  lemma AtTheEnd(verdict: Verdict, lines: seq<string>, pos: nat)
    requires pos <= |lines|
    ensures Judge(Done(verdict), lines, pos) == if pos == |lines| then Accepted(verdict) else Invalid
  {
  }

  /** Peeking at a coming line leaves the judgement to the state it leads to. */
  lemma Peeked(s: State, lines: seq<string>, pos: nat)
    requires pos <= |lines| && (s.Opening? || s.AfterFirst?)
    ensures pos < |lines| ==> Judge(s, lines, pos) == Judge(Peek(s, lines[pos]), lines, pos)
    ensures pos == |lines| ==> forall s': State | !s'.Done? :: Judge(s', lines, pos) == Judge(s, lines, pos)
  {
    hide Next, Key, Values;
  }

  /** After the rewind the failure line is taken once more, and nothing new is demanded of it. */
  lemma Retaken(stage: string, ordinal: nat, tally: Tally, lines: seq<string>, pos: nat)
    requires pos < |lines| && lines[pos] == Line("FAILURE_STAGE", stage)
    ensures Judge(StageLine(stage, ordinal, tally), lines, pos) == Judge(ClassLine(ordinal, tally), lines, pos + 1)
  {
    assert Choice(lines[pos], "FAILURE_STAGE", [stage]) == Some(0);
  }

  /** The closing lines of a run, with the failure they report, if any. */
  method Finish(r: Reader, stage: Option<string>, ordinal: nat, tally: Tally) returns (j: Judgement)
    requires r.pos <= |r.lines|
    modifies r`pos
    ensures j == Judge(if stage.Some? then StageLine(stage.value, ordinal, tally) else Counting(0, false, tally),
                       r.lines, old(r.pos))
  {
    hide Judge, Choice;
    if stage.Some? {
      var _ :- r.Take("FAILURE_STAGE", [stage.value], StageLine(stage.value, ordinal, tally));
      var _ :- r.Take("RAW_EXCEPTION_CLASS", Classes(), ClassLine(ordinal, tally));
      var _ :- r.Take("MESSAGE_ORDINAL", [Decimal(ordinal)], OrdinalLine(ordinal, tally));
    }
    j := FinishCounters(r, stage.Some?, tally);
  }

  method FinishCounters(r: Reader, failed: bool, tally: Tally) returns (j: Judgement)
    requires r.pos <= |r.lines|
    modifies r`pos
    ensures j == Judge(Counting(0, failed, tally), r.lines, old(r.pos))
  {
    hide Judge, Choice;
    for i := 0 to COUNTERS
      invariant r.pos <= |r.lines|
      invariant Judge(AfterCounter(i, failed, tally), r.lines, r.pos) ==
                Judge(Counting(0, failed, tally), r.lines, old(r.pos))
    {
      var _ :- r.Take(CounterKey(i), [Decimal(tally.Counter(i))], Counting(i, failed, tally));
    }
    var _ :- r.Take(TerminalKey(), [Outcome(failed)], Terminal(failed));
    AtTheEnd(if failed then Failure else Success, r.lines, r.pos);
    if r.pos != |r.lines| {
      return Invalid;
    }
    j := Accepted(if failed then Failure else Success);
  }

  method ParseOutput(text: string, child: bool) returns (j: Judgement)
    ensures j == JudgeText(text, child)
  {
    hide Judge, Choice;
    var r := new Reader(text);
    if !child {
      for i := 0 to GUARDS
        invariant r.pos <= |r.lines|
        invariant Judge(AfterGuard(i), r.lines, r.pos) == JudgeText(text, child)
      {
        var v :- r.Take(GuardKey(i), Booleans(), Guard(i));
        if v != 0 {
          j := Finish(r, Some(GuardStage(i)), 0, ZERO);
          return;
        }
      }
      var _ :- r.Take("CHILD_STARTED", [Boolean(true)], ChildStarted);
      Peeked(Opening, r.lines, r.pos);
      if r.pos < |r.lines| && StartsWith(r.lines[r.pos], "REMOTE_BLOCKED=") {
        var _ :- r.Take("REMOTE_BLOCKED", Reasons(), BlockedReason);
        var _ :- r.Take(TerminalKey(), ["blocked"], BlockedEnd);
        AtTheEnd(Blocked, r.lines, r.pos);
        if r.pos != |r.lines| {
          return Invalid;
        }
        return Accepted(Blocked);
      }
    }
    j := ParseChild(r);
  }

  method ParseChild(r: Reader) returns (j: Judgement)
    requires r.pos <= |r.lines|
    modifies r`pos
    ensures j == Judge(Structure(0), r.lines, old(r.pos))
  {
    hide Judge, Choice;
    for i := 0 to STRUCTURE
      invariant r.pos <= |r.lines|
      invariant Judge(AfterStructure(i), r.lines, r.pos) == Judge(Structure(0), r.lines, old(r.pos))
    {
      var v :- r.Take(StructureKey(i), Booleans(), Structure(i));
      if (v == 0) != StructureExpected(i) {
        j := Finish(r, Some(StructureStage(i)), 0, ZERO);
        return;
      }
    }
    j := ParsePages(r);
  }

  /** How reading a page ends: with its count of messages, or with the judgement on the transcript. */
  datatype PageRead = Read(seen: nat, tally: Tally) | Judged(j: Judgement)

  method ParsePages(r: Reader) returns (j: Judgement)
    requires r.pos <= |r.lines|
    modifies r`pos
    ensures j == Judge(PagePass(First, ZERO), r.lines, old(r.pos))
  {
    hide Judge, Choice;
    var tally := ZERO;
    for number := 1 to 3
      invariant r.pos <= |r.lines|
      invariant number <= 2 ==>
          Judge(PagePass(if number == 1 then First else Second, tally), r.lines, r.pos) ==
          Judge(PagePass(First, ZERO), r.lines, old(r.pos))
      invariant number == 3 ==>
          Judge(Counting(0, false, tally), r.lines, r.pos) == Judge(PagePass(First, ZERO), r.lines, old(r.pos))
    {
      var page := if number == 1 then First else Second;
      var read := ParsePage(r, page, tally);
      if read.Judged? {
        return read.j;
      }
      var seen := read.seen;
      tally := read.tally;
      if number == 1 {
        Peeked(AfterFirst(seen, tally), r.lines, r.pos);
        if r.pos < |r.lines| && StartsWith(r.lines[r.pos], "FAILURE_STAGE=") {
          j := Finish(r, Some(Page2State()), 0, tally);
          return;
        }
        var required :- r.Take("PAGE2_REQUIRED", Booleans(), Required(seen, tally));
        if required != 0 {
          break;
        }
        if seen != 100 {
          return Invalid;
        }
      }
    }
    j := Finish(r, None, 0, tally);
  }

  /** The lines of one page. */
  method ParsePage(r: Reader, page: PageNumber, tally: Tally) returns (p: PageRead)
    requires r.pos <= |r.lines|
    modifies r`pos
    ensures p.Read? ==> r.pos <= |r.lines|
    ensures Judge(PagePass(page, tally), r.lines, old(r.pos)) ==
            match p
            case Judged(j) => j
            case Read(seen, counted) => Judge(PagePassed(page, seen, counted), r.lines, r.pos)
  {
    hide Judge, Choice, Decimal, Plain, Line, Boolean, PageNumber.PassKey, PageNumber.SeenKey, PageNumber.ConvertedKey,
      PageNumber.NoneKey, PageNumber.Stages;
    var taken := r.Take(page.PassKey(), Booleans(), PagePass(page, tally));
    if !taken.Value? {
      return Judged(taken.PropagateFailure());
    }
    var passed := taken.index == 0;
    taken := r.Take(page.SeenKey(), Numbers(100), PageSeen(page, passed, tally));
    if !taken.Value? {
      return Judged(taken.PropagateFailure());
    }
    var seen := taken.index;
    taken := r.Take(page.ConvertedKey(), Numbers(100), PageConverted(page, passed, seen, tally));
    if !taken.Value? {
      return Judged(taken.PropagateFailure());
    }
    var converted := taken.index;
    taken := r.Take(page.NoneKey(), Numbers(1), PageNone(page, passed, seen, converted, tally));
    if !taken.Value? {
      return Judged(taken.PropagateFailure());
    }
    var none := taken.index;
    var total := tally.Add(seen, converted);
    if !passed {
      var j := FinishFailedPage(r, page, seen, converted, none, total);
      return Judged(j);
    }
    if seen != converted || none != 0 {
      return Judged(Invalid);
    }
    p := Read(seen, total.PassedPage(page.Number()));
  }

  /** A failed page: peek at its stage, rewind, and demand the counts that go with it. */
  method FinishFailedPage(r: Reader, page: PageNumber, seen: nat, converted: nat, none: nat, tally: Tally)
    returns (j: Judgement)
    requires r.pos <= |r.lines|
    modifies r`pos
    ensures j == Judge(PageStage(page, seen, converted, none, tally), r.lines, old(r.pos))
  {
    hide Judge, Choice;
    var phase :- r.Take("FAILURE_STAGE", page.Stages(), PageStage(page, seen, converted, none, tally));
    r.pos := r.pos - 1;
    var calls := tally.FailedAt(page.Number(), phase);
    var ordinal := 0;
    if phase <= AUTHORIZED {
      if (seen, converted, none) != (0, 0, 0) {
        return Invalid;
      }
    } else if phase == ITERATION {
      if seen != converted || none != 0 || seen >= 100 {
        return Invalid;
      }
      ordinal := seen + 1;
    } else {
      if seen < 1 || converted != seen - 1 {
        return Invalid;
      }
      ordinal := seen;
    }
    Retaken(page.Stage(phase), ordinal, calls, r.lines, r.pos);
    j := Finish(r, Some(page.Stage(phase)), ordinal, calls);
  }
}
