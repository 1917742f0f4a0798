/**
  Every census survives its three hops: the facts the client accepts are the facts that were built.
*/
module TopologyTheorems {
  import opened Options
  import opened PythonText
  import opened TopologyNumbers
  import opened TopologyKeys
  import opened TopologyFacts
  import opened TopologyOutput
  import TopologyCensus
  import TopologyMeaning

  // ----- keys -----

  lemma UpperHasNoEquals(s: string)
    requires Upper(s)
    ensures '=' !in s
  {
  }

  lemma FamilyApproved(index: nat)
    ensures Approved(KeyText(TaskWindow(index))) && Approved(KeyText(RelevantTo(index)))
  {
    hide Decimal;
    DecimalNumber(index);
    var d := Decimal(index);
    var a, b := "TASK_WINDOW_", "PEOPLE_RELEVANT_TO_WINDOW_";
    var s, t := KeyText(TaskWindow(index)), KeyText(RelevantTo(index));
    assert s[..12] == a && s[|s| - 11..] == "_TASK_COUNT";
    assert forall i | 12 <= i < |s| - 11 :: s[i] == d[i - 12];
    assert t[..26] == b && t[|t|..] == "";
    assert forall i | 26 <= i < |t| :: t[i] == d[i - 26];
  }

  lemma KeyApproved(k: Key)
    ensures Approved(KeyText(k))
  {
    hide KeyText, InFamily;
    if k.TaskWindow? || k.RelevantTo? {
      FamilyApproved(k.index);
    } else {
      FixedListed(k);
    }
  }

  lemma FixedListed(k: Key)
    requires !k.TaskWindow? && !k.RelevantTo?
    ensures k in FixedKeys()
  {
    KeyInOrder(0, k);
    assert Order(0) == FixedKeys();
  }

  /** The facts of a census have distinct, approved keys. */
  lemma CensusReadable(facts: Facts, t: TopologyCensus.Totals)
    requires TopologyCensus.Shows(facts, t)
    ensures Readable(TextFacts(facts), true)
  {
    hide KeyText, Approved, Order, TopologyCensus.Totals.Value;
    var table := TextFacts(facts);
    forall i | 0 <= i < |table| ensures '=' !in table[i].0 && Approved(table[i].0) {
      KeyKind(facts[i].0);
      UpperHasNoEquals(table[i].0);
      KeyApproved(facts[i].0);
    }
    TopologyCensus.TextsDistinct(facts, t);
  }

  lemma CensusKeys(facts: Facts, t: TopologyCensus.Totals)
    requires TopologyCensus.Shows(facts, t)
    ensures KeysOf(TextFacts(facts)) == OrderTexts(t.Windows())
  {
    hide KeyText, Order, TopologyCensus.Totals.Value;
  }

  // ----- lines -----

  predicate TameChar(c: char) {
    IsUpper(c) || c == '=' || 'a' <= c <= 'z'
  }

  /** A nonempty line of letters, digits, underscores and equals signs. */
  predicate Tame(line: string) {
    line != [] && forall i | 0 <= i < |line| :: TameChar(line[i])
  }

  lemma TameLine(line: string)
    requires Tame(line)
    ensures Breakless(line) && !IsSpace(line[0]) && !IsSpace(line[|line| - 1]) && !Identifies(line)
  {
    forall at: nat | at < |line| ensures !UuidAt(line, at) {
      if at + 36 <= |line| {
        var i := at + 8;
        assert line[i] != '-' && !UuidChar(line[i], i - at);
      }
    }
  }

  lemma FactLineTame(fact: (string, nat))
    requires Upper(fact.0)
    ensures Tame(FactLine(fact))
  {
    DecimalDigits(fact.1);
  }

  ghost predicate AllTame(lines: seq<string>) {
    forall i | 0 <= i < |lines| :: Tame(lines[i])
  }

  lemma {:induction false} TrimmedTame(lines: seq<string>)
    requires AllTame(lines)
    ensures TrimmedLines(lines) == lines
  {
    hide Tame, Trim;
    if lines != [] {
      var n := |lines| - 1;
      TrimmedTame(lines[..n]);
      TameLine(lines[n]);
      NotEmpty(lines[n]);
      TrimVisible(lines[n]);
    }
  }

  lemma NotEmpty(line: string)
    requires Tame(line)
    ensures line != []
  {
  }

  /** Taking the whitespace off a printed text costs only the last line feed. */
  lemma TrimPrinted(lines: seq<string>)
    requires lines != [] && AllTame(lines)
    ensures
      var n := |lines| - 1;
      Trim(Printed(lines)) == Printed(lines[..n]) + lines[n]
  {
    hide Tame, Trim, Joined, IsSpace;
    var n := |lines| - 1;
    var front, last := Printed(lines[..n]), lines[n];
    TameLine(last);
    NotEmpty(last);
    assert Terminated(lines) == Terminated(lines[..n]) + [last + "\n"];
    JoinedConcat(Terminated(lines[..n]), [last + "\n"]);
    JoinedOne(last + "\n");
    assert Printed(lines) == front + last + "\n";
    var text := front + last;
    if n > 0 {
      TameLine(lines[0]);
      NotEmpty(lines[0]);
      FirstChar(lines[..n]);
      assert text[0] == lines[0][0];
    } else {
      NoLines();
      assert Terminated(lines[..n]) == [] && text == last;
    }
    assert text[|text| - 1] == last[|last| - 1];
    TrimVisible(text);
  }

  lemma FirstChar(lines: seq<string>)
    requires lines != [] && lines[0] != []
    ensures Printed(lines) != [] && Printed(lines)[0] == lines[0][0]
  {
    assert Terminated(lines)[0] == lines[0] + "\n";
  }

  lemma LastLine(line: string)
    requires Breakless(line) && line != []
    ensures SplitLines(line) == [line] && Bare(line) == line
  {
    NoBreakFirst(line);
    assert line[..|line|] == line && line[|line|..] == [];
  }

  lemma {:induction false} NoBreakFirst(line: string)
    requires Breakless(line) && line != []
    ensures FirstLine(line) == |line|
  {
    if |line| > 1 {
      NoBreakFirst(line[1..]);
    }
  }

  /** The lines of a printed text, trimmed, are the lines printed. */
  lemma TrimmedAreLines(lines: seq<string>)
    requires lines != [] && AllTame(lines)
    ensures BareLines(Trim(Printed(lines))) == lines
  {
    hide Tame, Clean, Bare, SplitLines, Joined, Trim, IsSpace, Breakless;
    var n := |lines| - 1;
    var front, last := lines[..n], lines[n];
    TrimPrinted(lines);
    forall i | 0 <= i < n ensures Breakless(front[i]) {
      TameLine(front[i]);
    }
    TerminatedClean(front);
    TameLine(last);
    NotEmpty(last);
    LastLine(last);
    SplitJoined(Terminated(front), last);
    assert SplitLines(Trim(Printed(lines))) == Terminated(front) + [last];
  }

  lemma PrintedTame(lines: seq<string>)
    requires AllTame(lines)
    ensures BareLines(Printed(lines)) == lines
  {
    hide Tame;
    forall i | 0 <= i < |lines| ensures Breakless(lines[i]) {
      TameLine(lines[i]);
    }
    PrintedAreLines(lines);
  }

  lemma FactLinesTame(facts: Facts)
    ensures AllTame(FactLines(TextFacts(facts)))
  {
    hide KeyText, Tame, FactLine, Upper;
    forall i | 0 <= i < |facts| ensures Tame(FactLines(TextFacts(facts))[i]) {
      KeyKind(facts[i].0);
      FactLineTame(TextFacts(facts)[i]);
    }
  }

  lemma FrameTame()
    ensures Tame("CHILD_READ_ONLY=on") && AllTame(SuccessPrefix()) && AllTame(SuccessSuffix())
  {
    hide Tame;
    FrameWords();
    MoreFrameWords();
  }

  lemma FrameWords()
    ensures Tame("CHILD_READ_ONLY=on") && Tame("AUDIT_MARKER=started") && Tame("AUDIT_PREFLIGHT=pass")
    ensures Tame("AUDIT_READ_ONLY=on")
  {
  }

  lemma MoreFrameWords()
    ensures Tame("PRODUCTION_SHA_OK=true") && Tame("ALEMBIC_0054_OK=true")
    ensures Tame("PROVIDER_NETWORK_CALLS=0") && Tame("AUDIT_TERMINAL=success")
  {
  }

  // ----- the hops -----

  /** The remote process reads back what the child printed. */
  lemma ChildHop(facts: Facts, t: TopologyCensus.Totals)
    requires TopologyCensus.Shows(facts, t) && t.Windows() >= 1
    ensures ParseChildOutput(Printed(ChildLines(TextFacts(facts)))) == Parsed(TextFacts(facts))
  {
    hide Tame, FactLine, KeyText, Trim, BareLines, Printed, ReadAll, Lookup, TrimmedLines;
    hide TopologyCensus.Totals.Value, Order;
    var table := TextFacts(facts);
    var lines := ChildLines(table);
    FrameTame();
    FactLinesTame(facts);
    TrimmedAreLines(lines);
    TrimmedTame(lines);
    ChildHead();
    CensusReadable(facts, t);
    FactsRead(table, true);
    ReadAllLoose(FactLines(table), table);
    assert lines[1..] == FactLines(table);
    WindowCountValue(facts, t);
    CensusKeys(facts, t);
  }

  lemma ChildHead()
    ensures !StartsWith("CHILD_READ_ONLY=on", "CHILD_BLOCKED=")
  {
    assert "CHILD_READ_ONLY=on"[6] == 'R' && "CHILD_BLOCKED="[6] == 'B';
    assert "CHILD_READ_ONLY=on"[..14][6] == 'R';
  }

  lemma {:induction false} ReadAllLoose(lines: seq<string>, facts: Table)
    requires ReadAll(lines, true) == Some(facts)
    ensures ReadAll(lines, false) == Some(facts)
  {
    hide ReadFact, Approved;
    if lines != [] {
      var n := |lines| - 1;
      ReadAllLoose(lines[..n], ReadAll(lines[..n], true).value);
    }
  }

  lemma WindowCountValue(facts: Facts, t: TopologyCensus.Totals)
    requires TopologyCensus.Shows(facts, t)
    ensures Lookup(TextFacts(facts), KeyText(WindowCount)) == Some(t.Windows())
  {
    hide KeyText, Lookup;
    TopologyCensus.ShownUnder(facts, t, WindowCount);
  }

  /** The totals of a census pass every cross-check of the client. */
  lemma CensusConsistent(facts: Facts, t: TopologyCensus.Totals, windows: seq<seq<string>>,
                         pages: seq<seq<TopologyMeaning.Person>>)
    requires TopologyCensus.Shows(facts, t) && TopologyCensus.Meaning(t, windows, pages)
    ensures Consistent(TextFacts(facts))
  {
    hide KeyText, Lookup, TopologyMeaning.Describes, TopologyMeaning.Balanced, TopologyCensus.Shows;
    TopologyMeaning.CategoriesPartition(t.counts, TopologyMeaning.Visits(pages, |pages|), windows);
    TopologyCensus.ShownUnder(facts, t, Unanchored);
    TopologyCensus.ShownUnder(facts, t, SingleWindow);
    TopologyCensus.ShownUnder(facts, t, MultiWindow);
    TopologyCensus.ShownUnder(facts, t, IncompleteAnchors);
    TopologyCensus.ShownUnder(facts, t, UnmappedAnchors);
    TopologyCensus.ShownUnder(facts, t, ActiveTotal);
    TopologyCensus.ShownUnder(facts, t, PeopleUnique);
    TopologyCensus.ShownUnder(facts, t, DuplicatedPeople);
    TopologyCensus.ShownUnder(facts, t, DuplicatedTasks);
    TopologyCensus.ShownUnder(facts, t, Aligned);
    TopologyCensus.ShownUnder(facts, t, Mismatched);
  }

  lemma NotBlocked(rest: seq<string>)
    ensures ParseBlocked(SuccessPrefix() + rest).None?
  {
    var lines := SuccessPrefix() + rest;
    assert lines[1..][0] == "AUDIT_PREFLIGHT=pass";
    assert "AUDIT_PREFLIGHT=pass"[6] == 'P' && "AUDIT_BLOCKED="[6] == 'B';
    assert "AUDIT_PREFLIGHT=pass"[..14][6] == 'P';
  }

  /** The client accepts what the remote process printed, unchanged. */
  lemma RemoteHop(facts: Facts, t: TopologyCensus.Totals, windows: seq<seq<string>>,
                  pages: seq<seq<TopologyMeaning.Person>>)
    requires TopologyCensus.Shows(facts, t) && TopologyCensus.Meaning(t, windows, pages) && t.Windows() >= 1
    ensures ParseRemoteOutput(Printed(RemoteLines(TextFacts(facts)))) == Accepted(TextFacts(facts))
  {
    hide Tame, FactLine, KeyText, BareLines, Printed, ReadAll, Lookup, Consistent, ParseBlocked, Identifies,
      TopologyCensus.Totals.Value, Order, TopologyCensus.Meaning;
    var table := TextFacts(facts);
    var lines := RemoteLines(table);
    FrameTame();
    FactLinesTame(facts);
    assert AllTame(lines);
    PrintedTame(lines);
    forall i | 0 <= i < |lines| ensures !Identifies(lines[i]) {
      TameLine(lines[i]);
    }
    NotEmpty(lines[|lines| - 1]);
    assert lines == SuccessPrefix() + (FactLines(table) + SuccessSuffix());
    NotBlocked(FactLines(table) + SuccessSuffix());
    assert lines[..5] == SuccessPrefix() && lines[|lines| - 2..] == SuccessSuffix();
    assert lines[5..|lines| - 2] == FactLines(table);
    CensusReadable(facts, t);
    FactsRead(table, true);
    WindowCountValue(facts, t);
    CensusKeys(facts, t);
    CensusConsistent(facts, t, windows, pages);
  }

  /** What the census counts, in numbers. */
  lemma CensusInequalities(t: TopologyCensus.Totals, windows: seq<seq<string>>, pages: seq<seq<TopologyMeaning.Person>>)
    requires TopologyCensus.Meaning(t, windows, pages)
    ensures
      var c := t.counts;
      && c.unanchored + c.single + c.multi + c.incomplete + c.unmapped == t.people
      && c.aligned + c.mismatched == c.single
      && c.single + 2 * c.multi <= TopologyMeaning.Sum(c.relevance) <= c.maxSpan * (t.people - c.incomplete)
  {
    hide TopologyMeaning.Describes, TopologyMeaning.Sum;
    TopologyMeaning.CategoriesPartition(t.counts, TopologyMeaning.Visits(pages, |pages|), windows);
  }

  /** Whatever the census returns, the client ends up with the facts that were built. */
  lemma CensusSurvives(facts: Facts, windows: seq<seq<string>>, pages: seq<seq<TopologyMeaning.Person>>)
    requires |windows| >= 1
    requires exists t: TopologyCensus.Totals ::
             TopologyCensus.Shows(facts, t) && TopologyCensus.Meaning(t, windows, pages)
    ensures
      var read := ParseChildOutput(Printed(ChildLines(TextFacts(facts))));
      && read == Parsed(TextFacts(facts))
      && ParseRemoteOutput(Printed(RemoteLines(read.facts))) == Accepted(TextFacts(facts))
  {
    hide *;
    var t: TopologyCensus.Totals :| TopologyCensus.Shows(facts, t) && TopologyCensus.Meaning(t, windows, pages);
    WindowsCounted(t, windows, pages);
    ChildHop(facts, t);
    RemoteHop(facts, t, windows, pages);
  }

  lemma WindowsCounted(t: TopologyCensus.Totals, windows: seq<seq<string>>, pages: seq<seq<TopologyMeaning.Person>>)
    requires TopologyCensus.Meaning(t, windows, pages)
    ensures t.Windows() == |windows|
  {
  }
}
