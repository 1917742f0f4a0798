/**
  The transcripts of the retirement, judged by its parser.
*/
module BotTranscript {
  import opened Options
  import opened PythonText
  import opened BotProtocol
  import opened BotNames

  // ----- one line -----

  lemma UpperParts(key: string, value: string)
    requires Upper(key)
    ensures KeyOf(Shown(key, value)) == key && ValueOf(Shown(key, value)) == Some(value)
  {
    ShownParts(key, value);
  }

  lemma PrefixOfShown(key: string, value: string)
    ensures StartsWith(Shown(key, value), key + "=") && Shown(key, value)[|key| + 1..] == value
  {
    assert Shown(key, value)[..|key| + 1] == key + "=";
  }

  /** A line that starts with a key has that key. */
  lemma StartsWithKey(line: string, key: string)
    requires Upper(key) && StartsWith(line, key + "=")
    ensures KeyOf(line) == key
  {
    assert line[..|key| + 1][|key|] == '=' && forall i | 0 <= i < |key| :: line[i] == line[..|key| + 1][i] == key[i];
    FirstEquals(line, |key|);
    assert line[..|key|] == key;
  }

  lemma {:induction false} FirstValueAt(lines: seq<string>, prefix: string, k: nat)
    requires k < |lines| && StartsWith(lines[k], prefix)
    requires forall j | 0 <= j < k :: !StartsWith(lines[j], prefix)
    ensures FirstValue(lines, prefix) == Some(lines[k][|prefix|..])
  {
    hide StartsWith;
    if k > 0 {
      FirstValueAt(lines[1..], prefix, k - 1);
    }
  }

  lemma PrefixLine(i: nat)
    requires i < FIELDS
    ensures KeyOf(Shown(Field(i), "true")) == Field(i) && ValueOf(Shown(Field(i), "true")) == Some("true")
    ensures Rank(Field(i)) == i && Breakless(Shown(Field(i), "true"))
  {
    hide Field, Rank, KeyOf, ValueOf;
    FieldNamed(i);
    UpperParts(Field(i), "true");
    UpperBreakless(Field(i), "true");
  }

  lemma UpperBreakless(key: string, value: string)
    requires Upper(key) && Breakless(value)
    ensures Breakless(Shown(key, value))
  {
  }

  // ----- success -----

  lemma TerminalLines()
    ensures Shown("M4BJ1_TERMINAL", "success") == "M4BJ1_TERMINAL=success"
    ensures Shown("M4BJ1_TERMINAL", "failure") == "M4BJ1_TERMINAL=failure"
    ensures Shown("M4BJ1_BEGIN", "true") == "M4BJ1_BEGIN=true" && Shown("M4BJ1_END", "true") == "M4BJ1_END=true"
    ensures "M4BJ1_TERMINAL=failure" != "M4BJ1_END=true"
  {
    assert |"M4BJ1_TERMINAL=failure"| != |"M4BJ1_END=true"|;
  }

  lemma FieldLiterals()
    ensures Field(0) == "M4BJ1_BEGIN" && Field(29) == "TELEGRAM_NETWORK_CALLS"
    ensures Field(30) == "M4BJ1_TERMINAL" && Field(31) == "M4BJ1_END"
  {
  }

  /** The transcript of a complete run is accepted as a success exactly when it shows two calls. */
  lemma SuccessJudged(calls: nat, toInt: string -> Option<int>)
    requires toInt(Decimal(calls)) == Some(calls)
    ensures ParseLines(SuccessLines(calls), toInt) == if calls == 2 then Success else Rejected
  {
    hide Field, Rank, KeyOf, ValueOf, Shown, Decimal, EndsWith;
    var lines := SuccessLines(calls);
    TerminalLines();
    FieldLiterals();
    forall i | 0 <= i < CHECKS ensures KeyOf(lines[i]) == Field(i) && ValueOf(lines[i]) == Some("true") {
      PrefixLine(i);
    }
    FieldNamed(29);
    FieldNamed(30);
    FieldNamed(31);
    UpperParts(Field(29), Decimal(calls));
    UpperParts(Field(30), "success");
    UpperParts(Field(31), "true");
  }

  // ----- failure -----

  lemma ClosingKeys(n: nat, stage: string, shown: string, calls: nat)
    ensures
      var lines := FailureLines(n, stage, shown, calls);
      && KeyOf(lines[n]) == "FAILURE_STAGE" && KeyOf(lines[n + 1]) == "RAW_EXCEPTION_CLASS"
      && KeyOf(lines[n + 2]) == Field(29) && KeyOf(lines[n + 3]) == Field(30)
      && Rank("FAILURE_STAGE") == 32 && Rank("RAW_EXCEPTION_CLASS") == 33
      && Rank(Field(29)) == 29 && Rank(Field(30)) == 30
  {
    hide Field, Rank, KeyOf, ValueOf, Shown, Decimal, Upper;
    RequiredNamed();
    FieldNamed(29);
    FieldNamed(30);
    UpperParts("FAILURE_STAGE", stage);
    UpperParts("RAW_EXCEPTION_CLASS", shown);
    UpperParts(Field(29), Decimal(calls));
    UpperParts(Field(30), "failure");
  }

  /** The rank of the key of line `i`, when `n` fields are shown. */
  function RankAt(n: nat, i: nat): nat {
    if i < n then i else if i == n then 32 else if i == n + 1 then 33 else if i == n + 2 then 29 else 30
  }

  lemma FailureKeys(n: nat, stage: string, shown: string, calls: nat, i: nat)
    requires n <= CHECKS && i < n + 4
    ensures
      var lines := FailureLines(n, stage, shown, calls);
      && Rank(KeyOf(lines[i])) == RankAt(n, i)
      && (i < n ==> KeyOf(lines[i]) == Field(i))
      && (IsRequired(KeyOf(lines[i])) || IsField(KeyOf(lines[i])))
  {
    hide Field, Rank, KeyOf, ValueOf, Shown, Decimal, Upper;
    ClosingKeys(n, stage, shown, calls);
    if i < n {
      PrefixLine(i);
    }
  }

  /** No line before number `k` starts with a key whose rank only line `k` has. */
  lemma ValueFound(lines: seq<string>, key: string, value: string, k: nat)
    requires Upper(key) && k < |lines| && lines[k] == Shown(key, value)
    requires forall j | 0 <= j < k :: KeyOf(lines[j]) != key
    ensures FirstValue(lines, key + "=") == Some(value)
  {
    hide KeyOf, Shown, StartsWith, Upper;
    PrefixOfShown(key, value);
    forall j | 0 <= j < k ensures !StartsWith(lines[j], key + "=") {
      if StartsWith(lines[j], key + "=") {
        StartsWithKey(lines[j], key);
        assert false;
      }
    }
    FirstValueAt(lines, key + "=", k);
  }

  lemma FailureValues(n: nat, stage: string, shown: string, calls: nat)
    requires n <= CHECKS
    ensures
      var lines := FailureLines(n, stage, shown, calls);
      && FirstValue(lines, "FAILURE_STAGE=") == Some(stage)
      && FirstValue(lines, "RAW_EXCEPTION_CLASS=") == Some(shown)
      && FirstValue(lines, "TELEGRAM_NETWORK_CALLS=") == Some(Decimal(calls))
  {
    hide Field, Rank, KeyOf, ValueOf, Shown, Decimal, Upper, FirstValue, IsRequired, IsField;
    var lines := FailureLines(n, stage, shown, calls);
    forall i | 0 <= i < n + 4 ensures
      Rank(KeyOf(lines[i])) == RankAt(n, i)
    {
      FailureKeys(n, stage, shown, calls, i);
    }
    ClosingKeys(n, stage, shown, calls);
    RequiredNamed();
    FieldNamed(29);
    FieldLiterals();
    assert "FAILURE_STAGE" + "=" == "FAILURE_STAGE=";
    assert "RAW_EXCEPTION_CLASS" + "=" == "RAW_EXCEPTION_CLASS=";
    assert "TELEGRAM_NETWORK_CALLS" + "=" == "TELEGRAM_NETWORK_CALLS=";
    ValueFound(lines, "FAILURE_STAGE", stage, n);
    ValueFound(lines, "RAW_EXCEPTION_CLASS", shown, n + 1);
    ValueFound(lines, "TELEGRAM_NETWORK_CALLS", Decimal(calls), n + 2);
  }

  /** The keys of a failure transcript are known, all different, and hold the required ones. */
  lemma FailureShape(n: nat, stage: string, shown: string, calls: nat)
    requires 1 <= n <= CHECKS
    ensures
      var lines := FailureLines(n, stage, shown, calls);
      && (forall key | IsRequired(key) :: exists i | 0 <= i < |lines| :: KeyOf(lines[i]) == key)
      && InOrder(lines[..|lines| - 4])
      && (forall i | 0 <= i < |lines| :: IsRequired(KeyOf(lines[i])) || IsField(KeyOf(lines[i])))
      && (forall i, j | 0 <= i < j < |lines| :: KeyOf(lines[i]) != KeyOf(lines[j]))
  {
    hide Field, Rank, KeyOf, ValueOf, Shown, Decimal, Upper, IsField;
    var lines := FailureLines(n, stage, shown, calls);
    forall i | 0 <= i < |lines| ensures
      && Rank(KeyOf(lines[i])) == RankAt(n, i)
      && (i < n ==> KeyOf(lines[i]) == Field(i))
      && (IsRequired(KeyOf(lines[i])) || IsField(KeyOf(lines[i])))
    {
      FailureKeys(n, stage, shown, calls, i);
    }
    ClosingKeys(n, stage, shown, calls);
    FieldLiterals();
    forall key | IsRequired(key) ensures exists i | 0 <= i < |lines| :: KeyOf(lines[i]) == key {
      assert KeyOf(lines[n]) == key || KeyOf(lines[n + 1]) == key ||
             KeyOf(lines[n + 2]) == key || KeyOf(lines[n + 3]) == key;
    }
  }

  /**
    The transcript of a run that failed is accepted as a failure exactly when the exception class
    it shows is a word of ASCII letters, digits and underscores.
  */
  lemma FailureJudged(n: nat, stage: string, shown: string, calls: nat, toInt: string -> Option<int>)
    requires 1 <= n <= CHECKS && IsStage(stage) && calls <= 2
    requires ReadsDecimals(toInt)
    ensures ParseLines(FailureLines(n, stage, shown, calls), toInt) ==
            if IsWord(shown) then Failure else Rejected
  {
    hide Field, Rank, KeyOf, ValueOf, Shown, Decimal, Upper, FirstValue, IsRequired, IsField, InOrder, IsStage, IsWord;
    var lines := FailureLines(n, stage, shown, calls);
    FailureShape(n, stage, shown, calls);
    FailureValues(n, stage, shown, calls);
    TerminalLines();
    FieldLiterals();
    assert lines[0] == Shown(Field(0), "true");
  }

  // ----- as text -----

  lemma DecimalBreakless(n: nat)
    ensures Breakless(Decimal(n))
  {
  }

  lemma StageBreakless(stage: string)
    requires IsStage(stage)
    ensures Breakless(stage)
  {
    forall i | 0 <= i < |stage| ensures !IsBreak(stage[i]) {
      if i < 6 {
        assert stage[i] == stage[..6][i];
      }
    }
  }

  lemma SuccessText(calls: nat)
    ensures BareLines(Printed(SuccessLines(calls))) == SuccessLines(calls)
  {
    hide Field, Rank, KeyOf, ValueOf, Shown, Decimal, Upper, Breakless;
    var lines := SuccessLines(calls);
    WordsBreakless();
    DecimalBreakless(calls);
    FieldNamed(29);
    FieldNamed(30);
    FieldNamed(31);
    UpperBreakless(Field(29), Decimal(calls));
    UpperBreakless(Field(30), "success");
    UpperBreakless(Field(31), "true");
    forall i | 0 <= i < |lines| ensures Breakless(lines[i]) {
      if i < CHECKS {
        PrefixLine(i);
      }
    }
    PrintedAreLines(lines);
  }

  lemma WordsBreakless()
    ensures Breakless("success") && Breakless("failure") && Breakless("true")
  {
  }

  /** The lines around the exception class print and read back as they are. */
  lemma LinesAround(n: nat, stage: string, calls: nat)
    requires n <= CHECKS && IsStage(stage)
    ensures
      && (forall i | 0 <= i <= n :: Breakless(Before(n, stage)[i]))
      && (forall i | 0 <= i < 2 :: Breakless(After(calls)[i]))
  {
    hide Field, Rank, KeyOf, ValueOf, Shown, Decimal, Upper, Breakless, IsStage;
    WordsBreakless();
    DecimalBreakless(calls);
    StageBreakless(stage);
    RequiredNamed();
    FieldNamed(29);
    FieldNamed(30);
    UpperBreakless("FAILURE_STAGE", stage);
    UpperBreakless(Field(29), Decimal(calls));
    UpperBreakless(Field(30), "failure");
    forall i | 0 <= i <= n ensures Breakless(Before(n, stage)[i]) {
      if i < n {
        PrefixLine(i);
      }
    }
  }

  function Before(n: nat, stage: string): seq<string> {
    Prefix(n) + [Shown("FAILURE_STAGE", stage)]
  }

  function After(calls: nat): seq<string> {
    [Shown(Field(29), Decimal(calls)), Shown(Field(30), "failure")]
  }

  /** The lines of a printed failure, whatever the exception class shown. */
  lemma FailureText(n: nat, stage: string, shown: string, calls: nat)
    requires n <= CHECKS && IsStage(stage)
    ensures BareLines(Printed(FailureLines(n, stage, shown, calls))) ==
            Before(n, stage) + BareLines(Shown("RAW_EXCEPTION_CLASS", shown) + "\n") + After(calls)
  {
    hide *;
    LinesAround(n, stage, calls);
    FailureSplit(n, stage, shown, calls);
    PrintedBetween(Before(n, stage), Shown("RAW_EXCEPTION_CLASS", shown), After(calls));
  }

  lemma FailureSplit(n: nat, stage: string, shown: string, calls: nat)
    ensures FailureLines(n, stage, shown, calls) ==
            Before(n, stage) + [Shown("RAW_EXCEPTION_CLASS", shown)] + After(calls)
    ensures |Before(n, stage)| == n + 1 && |After(calls)| == 2
  {
    hide Shown, Field, Decimal;
  }

  /** A class that breaks its line puts the stage among the fields, where it does not belong. */
  lemma BrokenClassRejected(n: nat, stage: string, kind: seq<string>, calls: nat, toInt: string -> Option<int>)
    requires 1 <= n <= CHECKS && |kind| > 1
    ensures ParseLines(Before(n, stage) + kind + After(calls), toInt) == Rejected
  {
    hide Field, Rank, KeyOf, ValueOf, Shown, Decimal, Upper, FirstValue, IsRequired, IsField, IsStage, IsWord;
    var lines := Before(n, stage) + kind + After(calls);
    TerminalLines();
    FieldLiterals();
    RequiredNamed();
    FieldNamed(n);
    UpperParts("FAILURE_STAGE", stage);
    assert lines[..|lines| - 4][n] == lines[n] == Shown("FAILURE_STAGE", stage);
    assert lines[|lines| - 1] == Shown(Field(30), "failure");
  }

  /** The printed transcript of a complete run with both calls is read as a success. */
  lemma SuccessTranscript(toInt: string -> Option<int>)
    requires ReadsDecimals(toInt)
    ensures ParseLines(BareLines(Printed(SuccessLines(2))), toInt) == Success
  {
    hide *;
    SuccessText(2);
    ReadsTwo(toInt);
    SuccessJudged(2, toInt);
  }

  lemma ReadsTwo(toInt: string -> Option<int>)
    requires ReadsDecimals(toInt)
    ensures toInt(Decimal(2)) == Some(2)
  {
  }

  /**
    The printed transcript of a failed run is read as a failure exactly when the class it shows,
    a carriage return at its end aside, is a word; it is never read as a success.
  */
  lemma FailureTranscript(n: nat, stage: string, shown: string, calls: nat, toInt: string -> Option<int>)
    requires 1 <= n <= CHECKS && IsStage(stage) && calls <= 2 && ReadsDecimals(toInt)
    ensures ParseLines(BareLines(Printed(FailureLines(n, stage, shown, calls))), toInt) ==
            if IsWord(DropCarriage(shown)) then Failure else Rejected
  {
    hide *;
    RequiredNamed();
    FailureText(n, stage, shown, calls);
    var kept := DropCarriage(shown);
    if Breakless(kept) {
      ClassLine("RAW_EXCEPTION_CLASS", shown);
      FailureSplit(n, stage, kept, calls);
      FailureJudged(n, stage, kept, calls, toInt);
    } else {
      ClassLine("RAW_EXCEPTION_CLASS", shown);
      if IsWord(kept) {
        WordBreakless(kept);
      }
      BrokenClassRejected(n, stage, BareLines(Shown("RAW_EXCEPTION_CLASS", shown) + "\n"), calls, toInt);
    }
  }

  lemma WordBreakless(s: string)
    requires IsWord(s)
    ensures Breakless(s) && DropCarriage(s) == s
  {
  }

  /** The printed class is one line exactly when nothing but its last character is a break, a `\r`. */
  lemma ClassLine(key: string, shown: string)
    requires Upper(key)
    ensures
      var bare := BareLines(Shown(key, shown) + "\n");
      if Breakless(DropCarriage(shown)) then bare == [Shown(key, DropCarriage(shown))] else |bare| > 1
  {
    var line := Shown(key, shown);
    PrintedLine(line);
    assert DropCarriage(line) == Shown(key, DropCarriage(shown));
    forall i | 0 <= i < |DropCarriage(shown)|
      ensures DropCarriage(line)[|key| + 1 + i] == DropCarriage(shown)[i]
    {
    }
  }
}
