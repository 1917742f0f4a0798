/**
  A retirement that fails and whose transcript its own parser rejects: the first step raises an
  exception of a class that is not named by a word.
*/
module BotExample {
  import opened Options
  import opened PythonText
  import opened BotProtocol
  import opened BotSteps
  import opened BotRetirement

  const NO_WORD: string := "No-Word"

  function Raising(k: nat): Answer {
    Answer(Some(NO_WORD), true, None)
  }

  function ReadDigit(s: string): Option<int> {
    if s == "0" then Some(0) else if s == "1" then Some(1) else if s == "2" then Some(2) else None
  }

  lemma DigitsRead()
    ensures ReadsDecimals(ReadDigit)
  {
    assert Decimal(0) == "0" && Decimal(1) == "1" && Decimal(2) == "2";
  }

  lemma ShownIsNoWord()
    ensures SafeClass(NO_WORD) == DropCarriage(NO_WORD) == NO_WORD && !IsWord(NO_WORD)
  {
    assert NO_WORD[2] == '-';
  }

  lemma AlwaysRaised()
    ensures AllRaise(Raising, NO_WORD)
  {
  }

  method RejectedRun() returns (m: Machine, code: int)
    ensures code == 2 && ParseLines(BareLines(Printed(m.output)), ReadDigit) == Rejected
    ensures exists n, stage :: 1 <= n && IsStage(stage) && m.output == FailureLines(n, stage, NO_WORD, m.calls)
  {
    hide IsStage, FailureLines, ParseLines, BareLines, Printed, IsWord, DropCarriage, ReadsDecimals, AllRaise;
    hide Orderly, Prefix, SuccessLines, Raising, ReadDigit;
    m := new Machine("", Raising, ReadDigit);
    NothingShown();
    DigitsRead();
    ShownIsNoWord();
    AlwaysRaised();
    ghost var met;
    code, met := m.RemoteMain();
  }

  lemma NothingShown()
    ensures Prefix(0) == [] && Orderly([])
  {
  }

  /** Everything is as it should be, but for the revision the work tree is at. */
  function OtherHead(k: nat): Answer {
    Answer(None, k != 2, None)
  }

  lemma OtherHeadStops(m: Machine)
    requires m.answers == OtherHead
    ensures Quiet(m.answers) && m.Passed(0, 2) && !m.Passes(2) && StepAt(2).shown == 3
    ensures m.StageAt(2) == "STAGE_0_REMOTE_HEAD" && m.ClassAt(2) == "ValueError"
  {
    hide StepAt;
    RepositorySteps();
  }

  /** A release that is not checked out is left as it is, and the stage is named. */
  method OtherHeadRun(env: string) returns (m: Machine, code: int)
    ensures code == 2 && m.env == env && m.trace == [] && m.calls == 0
    ensures m.output == FailureLines(3, "STAGE_0_REMOTE_HEAD", SafeClass("ValueError"), 0)
  {
    hide IsStage, FailureLines, ParseLines, BareLines, Printed, IsWord, DropCarriage, ReadsDecimals, AllRaise;
    hide Orderly, Prefix, SuccessLines, OtherHead, ReadDigit, StepAt, SafeClass, Quiet;
    hide Machine.Passed, Machine.Passes, Machine.StageAt, Machine.ClassAt;
    m := new Machine(env, OtherHead, ReadDigit);
    NothingShown();
    OtherHeadStops(m);
    ghost var met;
    code, met := m.RemoteMain();
  }
}
