/**
  The transcript as text: what the parser accepts, what it proves about the run.
*/
module TranscriptTheorems {
  import opened PythonText
  import opened TranscriptProtocol
  import opened TranscriptRuns
  import opened TranscriptLanguage
  import opened TranscriptNames

  lemma SplitClean(lines: seq<string>)
    requires AllClean(lines)
    ensures SplitLines(Joined(lines)) == lines
  {
    hide Joined, Clean;
    SplitJoined(lines, []);
    assert Joined(lines) + [] == Joined(lines) && lines + SplitLines([]) == lines;
  }

  lemma RunAccepted(run: RemoteRun)
    requires run.WellFormed()
    ensures JudgeText(Joined(run.Lines()), false) == Accepted(run.Verdict())
  {
    hide Judge, Joined, AllClean, RemoteRun.Lines, RemoteRun.WellFormed, RemoteRun.Verdict;
    RemoteLinesClean(run);
    SplitClean(run.Lines());
    RemoteAccepted(run);
  }

  lemma ChildRunAccepted(run: ChildRun)
    requires run.WellFormed()
    ensures JudgeText(Joined(run.Lines()), true) == Accepted(run.Verdict())
  {
    hide Judge, Joined, AllClean, ChildRun.Lines, ChildRun.WellFormed, ChildRun.Verdict;
    ChildLinesClean(run);
    SplitClean(run.Lines());
    ChildAccepted(run);
  }

  /** An accepted child transcript, printed behind the remote opening, keeps its verdict. */
  lemma RelayedTextAccepted(stdout: string)
    requires JudgeText(stdout, true).Accepted?
    ensures JudgeText(Joined(Opened()) + stdout, false) == JudgeText(stdout, true)
  {
    hide Judge, Joined, Clean, Opened;
    OpenedClean();
    SplitJoined(Opened(), stdout);
    OpenedHead(SplitLines(stdout));
    OpeningChild(SplitLines(stdout));
  }

  /** The parser accepts exactly the transcripts of well-formed runs, with their verdict. */
  lemma AcceptedAreRuns(text: string, verdict: Verdict)
    ensures JudgeText(text, false) == Accepted(verdict) <==>
            exists run: RemoteRun :: run.WellFormed() && run.Verdict() == verdict && text == Joined(run.Lines())
  {
    hide Judge, Joined, RemoteRun.Lines, RemoteRun.WellFormed, RemoteRun.Verdict;
    if JudgeText(text, false) == Accepted(verdict) {
      var run := RemoteRead(SplitLines(text));
      JoinedSplit(text);
      assert run.WellFormed() && run.Verdict() == verdict && text == Joined(run.Lines());
    }
    forall run: RemoteRun | run.WellFormed() && run.Verdict() == verdict && text == Joined(run.Lines())
      ensures JudgeText(text, false) == Accepted(verdict)
    {
      RunAccepted(run);
    }
  }

  /** The same for the transcript of the child alone. */
  lemma AcceptedAreChildRuns(text: string, verdict: Verdict)
    ensures JudgeText(text, true) == Accepted(verdict) <==>
            exists run: ChildRun :: run.WellFormed() && run.Verdict() == verdict && text == Joined(run.Lines())
  {
    hide Judge, Joined, ChildRun.Lines, ChildRun.WellFormed, ChildRun.Verdict;
    if JudgeText(text, true) == Accepted(verdict) {
      var run := ChildRead(SplitLines(text));
      JoinedSplit(text);
      assert run.WellFormed() && run.Verdict() == verdict && text == Joined(run.Lines());
    }
    forall run: ChildRun | run.WellFormed() && run.Verdict() == verdict && text == Joined(run.Lines())
      ensures JudgeText(text, true) == Accepted(verdict)
    {
      ChildRunAccepted(run);
    }
  }

  /** The counters a run reports: never more than six calls, and none out of order. */
  lemma CountsBounded(run: ChildRun)
    requires run.WellFormed()
    ensures
      var t := run.Counts();
      && t.iterate <= t.authorize <= t.connect <= 2
      && t.connect <= t.iterate + 1
      && t.Counter(5) == t.connect + t.authorize + t.iterate <= 6
      && t.converted <= t.seen <= t.converted + 1
      && t.seen <= 100 * t.iterate
      && (run.Verdict() == Success ==> t.seen == t.converted && 1 <= t.connect == t.authorize == t.iterate)
  {
    hide IsClass;
  }
}
