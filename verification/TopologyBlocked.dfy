/**
  An audit that is blocked: its stage, printed by the child or by the remote process, is read back
  as the same stage by either reader.
*/
module TopologyBlocked {
  import opened Options
  import opened PythonText
  import opened TopologyNumbers
  import opened Sequences
  import opened TopologyMeaning
  import opened TopologyCensus
  import opened TopologyOutput
  import opened TopologyTheorems

  /** What the child prints when its census is blocked. */
  function BlockedChild(stage: string, name: string): seq<string> {
    ["CHILD_BLOCKED=" + stage, "CHILD_ERROR_CLASS=" + name]
  }

  /** What the remote process prints when it is blocked, with or without the child started. */
  function BlockedRemote(stage: string, name: string, started: bool): seq<string> {
    (if started then ["AUDIT_MARKER=started"] else []) +
    ["AUDIT_BLOCKED=" + stage, "AUDIT_ERROR_CLASS=" + name, "PROVIDER_NETWORK_CALLS=0"]
  }

  lemma StartsWithPrefix(prefix: string, rest: string)
    ensures StartsWith(prefix + rest, prefix) && (prefix + rest)[|prefix|..] == rest
  {
    assert (prefix + rest)[..|prefix|] == prefix;
  }

  lemma TameParts(prefix: string, rest: string)
    requires Tame(prefix) && Tame(rest)
    ensures Tame(prefix + rest)
  {
  }

  lemma ClassTame(name: string)
    requires IsClassName(name)
    ensures Tame(name)
  {
  }

  lemma ChildWords()
    ensures Tame("CHILD_BLOCKED=") && Tame("CHILD_ERROR_CLASS=")
  {
  }

  lemma RemoteWords()
    ensures Tame("AUDIT_BLOCKED=") && Tame("AUDIT_ERROR_CLASS=")
    ensures "AUDIT_MARKER=started"[6] == 'M' && "AUDIT_BLOCKED="[6] == 'B'
  {
  }

  lemma EarlyStages()
    ensures Tame("arguments") && Tame("cwd") && Tame("origin") && Tame("worktree") && Tame("head")
    ensures Tame("production_ref") && Tame("db_running")
  {
  }

  lemma RunningStages()
    ensures Tame("api_running") && Tame("worker_running") && Tame("db_health") && Tame("api_health")
    ensures Tame("alembic") && Tame("command")
  {
  }

  lemma CensusStages()
    ensures Tame("read_only") && Tame("census_output") && Tame("user_count") && Tame("people_union")
    ensures Tame("window_count")
  {
  }

  lemma DuplicateStages()
    ensures Tame("duplicate_task_window") && Tame("duplicate_person_page")
  {
  }

  lemma StagesTame(stage: string)
    requires stage in BlockedStages()
    ensures Tame(stage)
  {
    hide Tame;
    EarlyStages();
    RunningStages();
    CensusStages();
    DuplicateStages();
  }

  /** The remote process reads the stage the child printed. */
  lemma BlockedChildHop(stage: string, name: string)
    requires stage in BlockedStages() && IsClassName(name)
    ensures ParseChildOutput(Printed(BlockedChild(stage, name))) == Refused(stage)
  {
    hide Tame, Trim, BareLines, Printed, ReadAll, TrimmedLines, BlockedStages;
    var lines := BlockedChild(stage, name);
    ChildWords();
    StagesTame(stage);
    ClassTame(name);
    TameParts("CHILD_BLOCKED=", stage);
    TameParts("CHILD_ERROR_CLASS=", name);
    TrimmedAreLines(lines);
    TrimmedTame(lines);
    StartsWithPrefix("CHILD_BLOCKED=", stage);
    StartsWithPrefix("CHILD_ERROR_CLASS=", name);
  }

  lemma BlockedRead(stage: string, name: string, started: bool)
    requires stage in BlockedStages() && IsClassName(name)
    ensures ParseBlocked(BlockedRemote(stage, name, started)) == Some(stage)
  {
    hide BlockedStages, IsClassName;
    var lines := BlockedRemote(stage, name, started);
    RemoteWords();
    StartsWithPrefix("AUDIT_BLOCKED=", stage);
    StartsWithPrefix("AUDIT_ERROR_CLASS=", name);
    assert ("AUDIT_BLOCKED=" + stage)[6] == 'B';
    assert started ==> lines[1..] == BlockedRemote(stage, name, false);
  }

  lemma RemoteTame(stage: string, name: string, started: bool)
    requires stage in BlockedStages() && IsClassName(name)
    ensures AllTame(BlockedRemote(stage, name, started))
  {
    hide Tame, IsClassName, BlockedStages;
    RemoteWords();
    FrameWords();
    MoreFrameWords();
    StagesTame(stage);
    ClassTame(name);
    TameParts("AUDIT_BLOCKED=", stage);
    TameParts("AUDIT_ERROR_CLASS=", name);
  }

  /** The client rejects a blocked audit with the stage the remote process printed. */
  lemma BlockedRemoteHop(stage: string, name: string, started: bool)
    requires stage in BlockedStages() && IsClassName(name)
    ensures ParseRemoteOutput(Printed(BlockedRemote(stage, name, started))) == Rejected(stage)
  {
    hide Tame, BareLines, Printed, ParseBlocked, Identifies, ParseFactLines, BlockedStages, IsClassName;
    var lines := BlockedRemote(stage, name, started);
    RemoteTame(stage, name, started);
    PrintedTame(lines);
    forall i | 0 <= i < |lines| ensures !Identifies(lines[i]) {
      TameLine(lines[i]);
    }
    NotEmpty(lines[|lines| - 1]);
    BlockedRead(stage, name, started);
  }

  /** Whatever blocks the census is a stage that both readers know. */
  lemma CensusBlockRead(userCount: int, windows: seq<seq<string>>, pages: seq<seq<Person>>, active: int,
                              windowCount: Option<int>, pageCount: Option<int>, child: string, remote: string)
    requires Verdict(userCount, windows, pages, active, windowCount, pageCount).Some?
    requires IsClassName(child) && IsClassName(remote)
    ensures
      var stage := Verdict(userCount, windows, pages, active, windowCount, pageCount).value;
      && ParseChildOutput(Printed(BlockedChild(stage, child))) == Refused(stage)
      && ParseRemoteOutput(Printed(BlockedRemote(stage, remote, true))) == Rejected(stage)
  {
    hide IsClassName, ParseChildOutput, ParseRemoteOutput, Printed, BlockedChild, BlockedRemote, CountsMatch, Distinct;
    var stage := Verdict(userCount, windows, pages, active, windowCount, pageCount).value;
    assert stage in BlockedStages();
    BlockedChildHop(stage, child);
    BlockedRemoteHop(stage, remote, true);
  }
}
