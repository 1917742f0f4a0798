/**
  The retirement, stage by stage: look at everything first, ask the provider twice, and only then
  write the planned environment and recreate the application containers.
*/
module BotRetirement {
  import opened Options
  import opened PythonText
  import opened BotEnvironment
  import opened BotProtocol
  import opened BotNames
  import opened BotSteps
  import opened BotTranscript
  import BotTheorems

  /**
    What a step meets: someone may edit the environment file first, then the step raises an
    exception of the named class, or it sees what it wants, or it does not.
  */
  datatype Answer = Answer(raised: Option<string>, good: bool, edit: Option<string>)

  /** What leaves a mark outside. */
  datatype Event =
    | Deleted(confirmed: bool)
    | Verified(confirmed: bool)
    /** The plan made of `before` is written over a file that holds `over`. */
    | Written(before: string, over: string, content: string)

  /** How a stage ends. */
  datatype Outcome = Fine | Failed(stage: string, cause: string) {
    predicate IsFailure() {
      Failed?
    }

    function PropagateFailure(): Outcome
      requires Failed?
    {
      this
    }
  }

  /** Nothing goes wrong and nobody interferes. */
  ghost predicate Calm(answers: nat -> Answer) {
    forall k: nat :: answers(k) == Answer(None, true, None)
  }

  /** Nobody else edits the environment file. */
  ghost predicate Quiet(answers: nat -> Answer) {
    forall k: nat :: answers(k).edit.None?
  }

  /** Whatever is raised is named by a word, as exception classes of programs are. */
  ghost predicate NamedByWords(answers: nat -> Answer) {
    forall k: nat :: answers(k).raised.Some? ==> IsWord(answers(k).raised.value)
  }

  /** Every step raises an exception of this class. */
  ghost predicate AllRaise(answers: nat -> Answer, name: string) {
    forall k: nat :: answers(k).raised == Some(name)
  }

  /** The calls and writes so far are a beginning of: delete, verify, write the plan. */
  ghost predicate Orderly(trace: seq<Event>) {
    && |trace| <= 3
    && (|trace| > 0 ==> trace[0].Deleted?)
    && (|trace| > 1 ==> trace[0].confirmed && trace[1].Verified?)
    && (|trace| > 2 ==> trace[1].confirmed && trace[2].Written? && Plan(trace[2].before) == Some(trace[2].content))
  }

  /** What the first `k` steps have done, and the next one if it fails. */
  ghost function Marks(k: nat, before: string): seq<Event> {
    (if k < 10 then [] else [Deleted(k > 10)]) +
    (if k < 11 then [] else [Verified(k > 11)]) +
    (if k < 14 || Plan(before).None? then [] else [Written(before, before, Plan(before).value)])
  }

  lemma MarksAre(before: string)
    ensures forall k: nat | k < 10 :: Marks(k, before) == []
    ensures Marks(10, before) == [Deleted(false)] && Marks(11, before) == [Deleted(true), Verified(false)]
    ensures forall k: nat | 12 <= k < 14 :: Marks(k, before) == [Deleted(true), Verified(true)]
    ensures Plan(before).Some? ==>
      var written := Written(before, before, Plan(before).value);
      forall k: nat | 14 <= k :: Marks(k, before) == [Deleted(true), Verified(true), written]
  {
    hide Plan;
  }

  lemma MarksMade(k: nat, before: string)
    ensures k < 10 ==> Marks(k, before) == []
    ensures k < 14 && Plan(before).Some? ==> |Marks(k, before)| == (if k < 10 then 0 else if k == 10 then 1 else 2)
    ensures k >= 14 && Plan(before).Some? ==> |Marks(k, before)| == 3
  {
  }

  class Machine {
    var env: string
    /** The lines printed. */
    var output: seq<string>
    var calls: nat
    var asked: nat
    var trace: seq<Event>
    const answers: nat -> Answer
    /** How a number is read. */
    const toInt: string -> Option<int>

    constructor (env: string, answers: nat -> Answer, toInt: string -> Option<int>)
      ensures this.env == env && this.answers == answers && this.toInt == toInt
      ensures output == [] && trace == [] && calls == 0 && asked == 0
    {
      this.env, this.answers, this.toInt := env, answers, toInt;
      output, trace, calls, asked := [], [], 0, 0;
    }

    /** What a stage may rely on: `n` lines are shown, the calls counted, and nothing out of order done. */
    ghost predicate At(n: nat)
      reads this`output, this`trace, this`calls
    {
      n <= CHECKS && output == Prefix(n) && Orderly(trace) && calls == (if |trace| > 2 then 2 else |trace|)
    }

    /** The last step did not raise anything. */
    ghost predicate Undisturbed()
      reads this`asked
    {
      asked > 0 && answers(asked - 1).raised.None?
    }

    /** The cause is what the last step raised, or else one of the classes the program raises itself. */
    ghost predicate IsMet(cause: string)
      reads this`asked
    {
      asked > 0 && if answers(asked - 1).raised.Some? then Some(cause) == answers(asked - 1).raised else IsOwn(cause)
    }

    /** A stage that fails has shown at least the first line, and names its failure and its cause. */
    ghost predicate Stopped(o: Outcome)
      reads this`output, this`trace, this`calls, this`asked
    {
      o.Failed? && IsStage(o.stage) && IsMet(o.cause) && exists n :: 1 <= n && At(n)
    }

    /** The file has a plan, and the settings a run needs. */
    ghost predicate Prepared(text: string) {
      Plan(text).Some? && Usable(Assignments(text), toInt)
    }

    /** What step `k` meets lets it succeed. */
    ghost predicate Passes(k: nat) {
      answers(k).raised.None? && (answers(k).good || StepAt(k).Touch?)
    }

    ghost predicate Passed(first: nat, end: nat) {
      forall k | first <= k < end :: Passes(k)
    }

    /** Nobody else edits the file from step `k` on. */
    ghost predicate LeftAlone(k: nat) {
      forall j: nat | k <= j :: answers(j).edit.None?
    }

    /** The stage step `k` fails with. */
    ghost function StageAt(k: nat): string
      requires !Passes(k)
    {
      if answers(k).raised.Some? then StepAt(k).raised else StepAt(k).wrong
    }

    /** The class of what ends a run at step `k`. */
    ghost function ClassAt(k: nat): string
      requires !Passes(k)
    {
      if answers(k).raised.Some? then answers(k).raised.value else StepAt(k).cause
    }

    /** The last step failed, in its own way and after its own number of lines. */
    ghost predicate Halted(o: Outcome)
      reads this`output, this`asked
    {
      && 0 < asked <= STEPS && !Passes(asked - 1) && output == Prefix(StepAt(asked - 1).shown)
      && o == Failed(StageAt(asked - 1), ClassAt(asked - 1))
    }

    /** The steps from `first` to `end` pass, or the last one made is the first that does not. */
    ghost predicate Through(o: Outcome, first: nat, end: nat)
      reads this`output, this`asked
    {
      if o.Fine? then asked == end && Passed(first, end)
      else first < asked <= end && Passed(first, asked - 1) && !Passes(asked - 1) && Halted(o)
    }

    /** The file cannot be planned or used: a step up to its reading fails, or else the preflight does. */
    ghost predicate Unprepared(o: Outcome, first: nat)
      reads this`output, this`trace, this`calls, this`asked
    {
      || (first < asked <= 9 && Passed(first, asked - 1) && !Passes(asked - 1) && Halted(o))
      || (Passed(first, 9) && o.Failed? && o.stage == "STAGE_1_ENV_PREFLIGHT" && At(13))
    }

    lemma StepPasses()
      requires 0 < asked <= STEPS && answers(asked - 1).raised.None?
      requires answers(asked - 1).good || StepAt(asked - 1).Touch?
      ensures Passes(asked - 1)
    {
    }

    lemma StepRaises(o: Outcome, n: nat)
      requires At(n) && 0 < asked <= STEPS && StepAt(asked - 1).shown == n && answers(asked - 1).raised.Some?
      requires o == Failed(StepAt(asked - 1).raised, answers(asked - 1).raised.value)
      ensures !Passes(asked - 1) && Halted(o)
    {
      hide Prefix, StepAt;
    }

    lemma StepUnwanted(o: Outcome, n: nat)
      requires At(n) && 0 < asked <= STEPS && StepAt(asked - 1).shown == n && answers(asked - 1).raised.None?
      requires !answers(asked - 1).good && StepAt(asked - 1).Look?
      requires o == Failed(StepAt(asked - 1).wrong, StepAt(asked - 1).cause)
      ensures !Passes(asked - 1) && Halted(o)
    {
      hide Prefix, StepAt;
    }

    /** Someone else writes this text to the environment file. */
    ghost predicate Edited(text: string) {
      exists k: nat :: answers(k).edit == Some(text)
    }

    /** Show the next line. */
    method Emit(key: string, ghost n: nat)
      requires n < CHECKS && At(n) && key == Field(n)
      modifies this`output
      ensures At(n + 1)
    {
      hide Field, Orderly;
      output := output + [Shown(key, "true")];
    }

    /** Let a step meet its answer. */
    method Ask() returns (a: Answer)
      modifies this`asked, this`env
      ensures Quiet(answers) ==> env == old(env)
      ensures asked == old(asked) + 1 && a == answers(asked - 1)
      ensures a.edit.None? ==> env == old(env)
      ensures env == old(env) || Edited(env)
    {
      a := answers(asked);
      asked := asked + 1;
      if a.edit.Some? {
        env := a.edit.value;
      }
    }

    /** Give up at a stage, with the exception met. */
    method Stop(stage: string, cause: string, ghost n: nat) returns (o: Outcome)
      requires 1 <= n && At(n) && IsStage(stage) && IsMet(cause)
      ensures o == Failed(stage, cause) && Stopped(o)
    {
      hide At, IsStage, IsMet;
      o := Failed(stage, cause);
    }

    /** A command: an exception means one failure stage, an unwanted answer another. */
    method Run(raised: string, wrong: string, cause: string, ghost n: nat) returns (o: Outcome)
      requires At(n) && n >= 1 && IsStage(raised) && IsStage(wrong) && IsOwn(cause)
      requires asked < STEPS && StepAt(asked) == Look(n, raised, wrong, cause)
      modifies this`asked, this`env
      ensures if o.Fine? then Undisturbed() else Stopped(o)
      ensures asked == old(asked) + 1 && if o.Fine? then Passes(old(asked)) else !Passes(old(asked)) && Halted(o)
      ensures answers(old(asked)).edit.None? ==> env == old(env)
      ensures Quiet(answers) ==> env == old(env)
    {
      hide Field, Prefix, Orderly, IsStage, IsOwn, Stopped, StepAt;
      var a := Ask();
      if a.raised.Some? {
        o := Stop(raised, a.raised.value, n);
        return;
      }
      if !a.good {
        o := Stop(wrong, cause, n);
        return;
      }
      o := Fine;
    }

    // ----- stages -----

    /** Repository, references and work tree. */
    method CheckRepository() returns (o: Outcome)
      requires asked == 0 && At(0)
      modifies this`output, this`asked, this`env
      ensures if o.Fine? then At(6) else Stopped(o)
      ensures Quiet(answers) ==> env == old(env)
      ensures Through(o, 0, 5)
    {
      hide Passes, Halted, StepAt, Field, Prefix, Orderly, IsStage, At, Quiet, IsUpper, IsOwn, Edited, Stopped, Plan;
      OwnCauses(); RepositorySteps(); RepositoryTable(); HealthStages(); ReferenceStages(); ClosingStages();
      Emit("M4BJ1_BEGIN", 0);
      :- Run("STAGE_UNKNOWN", "STAGE_0_CANONICAL_REPO", "ValueError", 1);
      Emit("CANONICAL_REPO_PASS", 1);
      Emit("TARGET_PIN_PASS", 2);
      :- Run("STAGE_0_PRODUCTION_REF_FETCH", "STAGE_0_PRODUCTION_REF_FETCH", "RuntimeError", 3);
      o := CheckReferences();
    }

    method CheckReferences() returns (o: Outcome)
      requires asked == 2 && At(3)
      modifies this`output, this`asked, this`env
      ensures if o.Fine? then At(6) else Stopped(o)
      ensures Quiet(answers) ==> env == old(env)
      ensures Through(o, 2, 5)
    {
      hide Passes, Halted, StepAt, Field, Prefix, Orderly, IsStage, At, Quiet, IsUpper, IsOwn, Edited, Stopped, Plan;
      OwnCauses(); RepositorySteps(); RepositoryTable(); ReferenceStages(); PreflightStages(); ClosingStages();
      :- Run("STAGE_UNKNOWN", "STAGE_0_REMOTE_HEAD", "ValueError", 3);
      Emit("REMOTE_HEAD_PASS", 3);
      :- Run("STAGE_UNKNOWN", "STAGE_0_PRODUCTION_REF", "ValueError", 4);
      Emit("REMOTE_PRODUCTION_REF_PASS", 4);
      :- Run("STAGE_UNKNOWN", "STAGE_0_WORKTREE", "ValueError", 5);
      Emit("REMOTE_WORKTREE_CLEAN", 5);
      o := Fine;
    }

    /** The environment file as it is now, and services, health and schema. */
    method CheckServices() returns (o: Outcome, before: string)
      requires asked == 5 && At(6)
      modifies this`output, this`asked, this`env
      ensures if o.Fine? then At(13) else Stopped(o)
      ensures Quiet(answers) ==> env == old(env) == before
      ensures Through(o, 5, 8)
    {
      hide Passes, Halted, StepAt, Field, Prefix, Orderly, IsStage, At, Quiet, IsUpper, IsOwn, Edited, Stopped, Plan;
      OwnCauses(); ServiceSteps(); RepositoryTable(); ServiceTable(); HealthStages();
      before := env;
      :- Run("STAGE_0_DB_HEALTH", "STAGE_0_DB_HEALTH", "RuntimeError", 6);
      Emit("COMPOSE_CONFIG_PASS", 6);
      Emit("DB_RUNNING_PASS", 7);
      Emit("API_RUNNING_PASS", 8);
      Emit("WORKER_RUNNING_PASS", 9);
      Emit("DB_HEALTH_PASS", 10);
      :- Run("STAGE_0_APP_HEALTH", "STAGE_0_APP_HEALTH", "RuntimeError", 11);
      Emit("APP_HEALTH_PASS", 11);
      :- Run("STAGE_0_ALEMBIC", "STAGE_0_ALEMBIC", "RuntimeError", 12);
      Emit("ALEMBIC_0046_PASS", 12);
      o := Fine;
    }

    /** The plan for the environment file, made from the text the snapshot saw. */
    method PlanEnvironment(before: string) returns (o: Outcome, planned: string)
      requires asked == 8 && At(13)
      modifies this`output, this`asked, this`env
      ensures if o.Fine? then At(15) && Plan(before) == Some(planned) else Stopped(o)
      ensures o.Fine? ==> Usable(Assignments(before), toInt)
      ensures Quiet(answers) ==> env == old(env)
      ensures o.Fine? ==> asked == 10 && Passed(8, 10)
      ensures Quiet(answers) && old(env) == before && Prepared(before) ==> Through(o, 8, 10)
      ensures Quiet(answers) && old(env) == before && !Prepared(before) ==> o.Failed? && Unprepared(o, 8)
    {
      hide Passes, Halted, StepAt, Field, Prefix, Orderly, IsStage, At, Quiet, IsUpper, IsOwn, Edited, Stopped, Plan;
      hide Usable, Assignments, Marks, Retired;
      OwnCauses(); PlanSteps(); ServiceTable(); PreflightStages();
      planned := "";
      :- Run("STAGE_1_ENV_PREFLIGHT", "STAGE_1_ENV_PREFLIGHT", "OSError", 13);
      var plannedBefore := env;
      var plan := PlanBotEnvironment(plannedBefore);
      if plan.None? {
        o := Stop("STAGE_1_ENV_PREFLIGHT", "ValueError", 13);
        planned := "";
        return;
      }
      if plannedBefore != before {
        o := Stop("STAGE_1_ENV_PREFLIGHT", "RuntimeError", 13);
        planned := "";
        return;
      }
      planned := plan.value;
      var a := Ask();
      if a.raised.Some? {
        o := Stop("STAGE_1_ENV_PREFLIGHT", a.raised.value, 13);
        StepRaises(o, 13);
        planned := "";
        return;
      }
      var values := EnvAssignments(before);
      if !Usable(values, toInt) || !a.good {
        o := Stop("STAGE_1_ENV_PREFLIGHT", "ValueError", 13);
        if !a.good {
          StepUnwanted(o, 13);
        }
        planned := "";
        return;
      }
      StepPasses();
      Emit("BOT_CREDENTIALS_AVAILABLE_PASS", 13);
      Emit("MTPROTO_CREDENTIALS_AVAILABLE_PASS", 14);
      o := Fine;
    }

    /** Two calls to the provider, each made once; the second only after the first is confirmed. */
    method AskProvider() returns (o: Outcome)
      requires asked == 10 && At(15) && trace == []
      modifies this`output, this`asked, this`env, this`trace, this`calls
      ensures if o.Fine? then At(17) && trace == [Deleted(true), Verified(true)] else Stopped(o) && |trace| <= 2
      ensures Quiet(answers) ==> env == old(env)
      ensures Through(o, 10, 12)
      ensures o.Failed? ==> trace == if asked == 11 then [Deleted(false)] else [Deleted(true), Verified(false)]
    {
      hide Passes, Halted, StepAt, Field, Prefix, Orderly, IsStage, At, Quiet, IsUpper, IsOwn, Edited, Stopped, Plan;
      :- DeleteWebhook();
      o := VerifyWebhook();
    }

    /** Ask for the webhook to be deleted. */
    method DeleteWebhook() returns (o: Outcome)
      requires asked == 10 && At(15) && trace == []
      modifies this`output, this`asked, this`env, this`trace, this`calls
      ensures if o.Fine? then At(16) else Stopped(o)
      ensures trace == [Deleted(o.Fine?)]
      ensures Quiet(answers) ==> env == old(env)
      ensures Through(o, 10, 11)
    {
      hide Passes, Halted, StepAt, Field, Prefix, IsStage, Quiet, IsUpper, IsOwn, Edited, Stopped, Plan, Upper;
      OwnCauses(); ProviderSteps(); ChangeTable(); PreflightStages(); WriteStages();
      calls := calls + 1;
      var a := Ask();
      trace := trace + [Deleted(a.raised.None? && a.good)];
      assert At(15);
      if a.raised.Some? {
        o := Stop("STAGE_3_DELETE_WEBHOOK", a.raised.value, 15);
        StepRaises(o, 15);
        return;
      }
      if !a.good {
        o := Stop("STAGE_3_DELETE_WEBHOOK", "RuntimeError", 15);
        StepUnwanted(o, 15);
        return;
      }
      StepPasses();
      Emit("DELETE_WEBHOOK_PASS", 15);
      o := Fine;
    }

    /** Ask whether there is no webhook any more. */
    method VerifyWebhook() returns (o: Outcome)
      requires asked == 11 && At(16) && trace == [Deleted(true)]
      modifies this`output, this`asked, this`env, this`trace, this`calls
      ensures if o.Fine? then At(17) else Stopped(o)
      ensures trace == [Deleted(true), Verified(o.Fine?)]
      ensures Quiet(answers) ==> env == old(env)
      ensures Through(o, 11, 12)
    {
      hide Passes, Halted, StepAt, Field, Prefix, IsStage, Quiet, IsUpper, IsOwn, Edited, Stopped, Plan, Upper;
      OwnCauses(); ProviderSteps(); ChangeTable(); PreflightStages(); WriteStages();
      calls := calls + 1;
      var a := Ask();
      trace := trace + [Verified(a.raised.None? && a.good)];
      assert At(16);
      if a.raised.Some? {
        o := Stop("STAGE_3_VERIFY_WEBHOOK", a.raised.value, 16);
        StepRaises(o, 16);
        return;
      }
      if !a.good {
        o := Stop("STAGE_3_VERIFY_WEBHOOK", "RuntimeError", 16);
        StepUnwanted(o, 16);
        return;
      }
      StepPasses();
      Emit("WEBHOOK_EMPTY_PASS", 16);
      o := Fine;
    }

    /**
      Write the plan, if the file is still the one it was made from. Reading and replacing the file
      are two steps: only an edit that falls between them is overwritten.
    */
    method WritePlanned(before: string, planned: string) returns (o: Outcome)
      requires asked == 12 && trace == [Deleted(true), Verified(true)] && At(17) && Plan(before) == Some(planned)
      modifies this`asked, this`env, this`trace
      ensures if o.Fine? then env == planned else Stopped(o)
      ensures |trace| == (if o.Fine? then 3 else 2) && asked <= 14
      ensures trace[..2] == old(trace)
      ensures o.Fine? ==> trace[2].Written? && trace[2].before == before && trace[2].content == planned
      ensures o.Fine? ==> trace[2].over == before || Edited(trace[2].over)
      ensures Quiet(answers) && o.Fine? ==> old(env) == before == trace[2].over
      ensures Quiet(answers) && !o.Fine? ==> env == old(env)
      ensures At(17)
      ensures o.Fine? ==> asked == 14 && Passed(12, 14)
      ensures Quiet(answers) && old(env) == before ==> Through(o, 12, 14)
    {
      hide Passes, Halted, StepAt, Field, Prefix, IsStage, Quiet, IsUpper, IsOwn, Edited, Stopped, Plan;
      OwnCauses(); WriteSteps(); WriteStages();
      var a := Ask();
      assert At(17);
      if a.raised.Some? {
        o := Stop("STAGE_4_ENV_MUTATION", a.raised.value, 17);
        StepRaises(o, 17);
        return;
      }
      StepPasses();
      if env != before {
        o := Stop("STAGE_4_ENV_MUTATION", "RuntimeError", 17);
        return;
      }
      a := Ask();
      assert At(17);
      if a.raised.Some? {
        o := Stop("STAGE_4_ENV_MUTATION", a.raised.value, 17);
        StepRaises(o, 17);
        return;
      }
      StepPasses();
      trace := trace + [Written(before, env, planned)];
      env := planned;
      o := Fine;
    }

    /** Write the plan and look at the result. */
    method WriteEnvironment(before: string, planned: string) returns (o: Outcome)
      requires asked == 12 && At(17) && trace == [Deleted(true), Verified(true)] && Plan(before) == Some(planned)
      modifies this`output, this`asked, this`env, this`trace
      ensures if o.Fine? then At(18) && |trace| == 3 else Stopped(o)
      ensures |trace| == 3 ==>
        trace[2] == Written(before, trace[2].over, planned) && (trace[2].over == before || Edited(trace[2].over))
      ensures Quiet(answers) && |trace| == 3 ==> old(env) == before == trace[2].over
      ensures |trace| == if asked == 15 then 3 else 2
      ensures trace[..2] == [Deleted(true), Verified(true)]
      ensures o.Fine? ==> Neutralized(env) == Neutralized(before)
      ensures Quiet(answers) ==> env == if |trace| == 3 then planned else old(env)
      ensures o.Fine? ==> asked == 15 && Passed(12, 15)
      ensures Quiet(answers) && old(env) == before ==> Through(o, 12, 15)
    {
      hide Passes, Halted, StepAt, Field, Prefix, Orderly, IsStage, At, Quiet, IsUpper, IsOwn, Edited, Stopped, Plan;
      hide Neutralized;
      OwnCauses(); WriteSteps(); ChangeTable(); WriteStages(); ClosingStages();
      Planned(before);
      :- WritePlanned(before, planned);
      var a := Ask();
      if a.raised.Some? {
        o := Stop("STAGE_4_ENV_MUTATION", a.raised.value, 17);
        StepRaises(o, 17);
        return;
      }
      StepPasses();
      var one := NeutralizeBotEnv(before);
      var two := NeutralizeBotEnv(env);
      if two.None? {
        o := Stop("STAGE_UNKNOWN", "ValueError", 17);
        return;
      }
      if one != two {
        o := Stop("STAGE_4_ENV_MUTATION", "ValueError", 17);
        return;
      }
      Emit("ENV_MUTATION_PASS", 17);
      o := Fine;
    }

    /** New application containers, the same database. */
    method Recreate() returns (o: Outcome)
      requires asked == 15 && At(18)
      modifies this`output, this`asked, this`env
      ensures if o.Fine? then At(21) else Stopped(o)
      ensures Quiet(answers) ==> env == old(env)
      ensures Through(o, 15, 18)
    {
      hide Passes, Halted, StepAt, Field, Prefix, Orderly, IsStage, At, Quiet, IsUpper, IsOwn, Edited, Stopped, Plan;
      OwnCauses(); RecreateSteps(); ChangeTable(); EnvironmentStages(); RecreateStages();
      :- Run("STAGE_5_RECREATE_API_WORKER", "STAGE_5_RECREATE_API_WORKER", "RuntimeError", 18);
      Emit("API_WORKER_RECREATED_PASS", 18);
      :- Run("STAGE_5_RECREATE_API_WORKER", "STAGE_5_RECREATE_API_WORKER", "RuntimeError", 19);
      :- Run("STAGE_5_DB_PRESERVATION", "STAGE_5_DB_PRESERVATION", "RuntimeError", 19);
      Emit("DB_CONTAINER_UNCHANGED_PASS", 19);
      Emit("DB_VOLUME_UNCHANGED_PASS", 20);
      o := Fine;
    }

    /** Nothing but the Bot settings changed, they are empty, and the protected ones are kept. */
    method CheckEnvironment(before: string) returns (o: Outcome)
      requires asked == 18 && At(21) && Plan(before).Some?
      modifies this`output, this`asked, this`env
      ensures if o.Fine? then At(27) else Stopped(o)
      ensures Quiet(answers) ==> env == old(env)
      ensures o.Fine? ==> asked == 22 && Passed(18, 22)
      ensures Quiet(answers) && Some(old(env)) == Plan(before) && FlagOff(Assignments(before)) ==> Through(o, 18, 22)
      ensures o.Fine? && LeftAlone(19) ==> Retired(before, env)
    {
      hide Passes, Halted, StepAt, Field, Prefix, Orderly, IsStage, At, Quiet, IsUpper, IsOwn, Edited, Stopped, Plan;
      hide Neutralized, Assignments, BotKey;
      Planned(before);
      var post: map<string, string>;
      o, post := CheckFile(before);
      if o.Failed? {
        return;
      }
      o := CheckContainers(before, post);
    }

    /** Two looks at the file: nothing but the Bot settings changed, and they are empty. */
    method CheckFile(before: string) returns (o: Outcome, post: map<string, string>)
      requires asked == 18 && At(21) && Plan(before).Some?
      modifies this`output, this`asked, this`env
      ensures if o.Fine? then At(23) && post == Assignments(env) else Stopped(o)
      ensures Quiet(answers) ==> env == old(env)
      ensures o.Fine? ==> asked == 20 && Passed(18, 20)
      ensures Quiet(answers) && Some(old(env)) == Plan(before) ==> Through(o, 18, 20)
      ensures o.Fine? && LeftAlone(19) ==> Neutralized(env) == Neutralized(before)
      ensures o.Fine? ==> forall k | 0 <= k < BOT_KEYS && BotKey(k) in post :: post[BotKey(k)] == ""
    {
      hide Passes, Halted, StepAt, Field, Prefix, Orderly, IsStage, At, Quiet, IsUpper, IsOwn, Edited, Stopped, Plan;
      hide Neutralized, Assignments, BotKey;
      OwnCauses(); EnvironmentSteps(); ChangeTable(); ClosingTable(); WriteStages(); RecreateStages();
      Planned(before);
      post := map[];
      :- Run("STAGE_5_NON_BOT_ENV", "STAGE_5_NON_BOT_ENV", "OSError", 21);
      var one := NeutralizeBotEnv(before);
      var two := NeutralizeBotEnv(env);
      if two.None? {
        o := Stop("STAGE_5_NON_BOT_ENV", "ValueError", 21);
        return;
      }
      if one != two {
        o := Stop("STAGE_5_NON_BOT_ENV", "RuntimeError", 21);
        return;
      }
      Emit("NON_BOT_ENV_UNCHANGED_PASS", 21);
      :- Run("STAGE_5_BOT_SETTINGS", "STAGE_5_BOT_SETTINGS", "OSError", 22);
      post := EnvAssignments(env);
      for k := 0 to BOT_KEYS
        invariant At(22)
        invariant forall i | 0 <= i < k && BotKey(i) in post :: post[BotKey(i)] == ""
      {
        if BotKey(k) in post && post[BotKey(k)] != "" {
          o := Stop("STAGE_5_BOT_SETTINGS", "RuntimeError", 22);
          return;
        }
      }
      Emit("BOT_SETTINGS_EMPTY_PASS", 22);
      o := Fine;
    }

    /** The settings of services and containers, and the protected ones of the file. */
    method CheckContainers(before: string, post: map<string, string>) returns (o: Outcome)
      requires asked == 20 && At(23)
      modifies this`output, this`asked, this`env
      ensures if o.Fine? then At(27) else Stopped(o)
      ensures Quiet(answers) || LeftAlone(19) ==> env == old(env)
      ensures o.Fine? ==> asked == 22 && Passed(20, 22) && Kept(Assignments(before), post)
      ensures Kept(Assignments(before), post) && FlagOff(Assignments(before)) ==> Through(o, 20, 22)
    {
      hide Passes, Halted, StepAt, Field, Prefix, Orderly, IsStage, At, Quiet, IsUpper, IsOwn, Edited, Stopped, Plan;
      hide Assignments;
      OwnCauses(); EnvironmentSteps(); ClosingTable(); WriteStages(); EnvironmentStages(); RecreateStages();
      :- Run("STAGE_5_COMPOSE_ENV", "STAGE_5_COMPOSE_ENV", "RuntimeError", 23);
      :- Run("STAGE_5_CONTAINER_ENV", "STAGE_5_CONTAINER_ENV", "RuntimeError", 23);
      var values := EnvAssignments(before);
      if exists k | 0 <= k < PROTECTED_KEYS :: Lookup(post, ProtectedKey(k)) != Lookup(values, ProtectedKey(k)) {
        o := Stop("STAGE_5_PROTECTED_ENV", "RuntimeError", 23);
        return;
      }
      if !FlagOff(values) {
        o := Stop("STAGE_5_PROTECTED_ENV", "RuntimeError", 23);
        return;
      }
      Emit("MTPROTO_CREDENTIALS_PRESERVED_PASS", 23);
      Emit("CREDENTIAL_KEY_PRESERVED_PASS", 24);
      Emit("DB_CREDENTIAL_PRESERVED_PASS", 25);
      Emit("TELEGRAM_MTPROTO_AI_DISABLED_PASS", 26);
      o := Fine;
    }

    method CheckAgain() returns (o: Outcome)
      requires asked == 22 && At(27)
      modifies this`output, this`asked, this`env
      ensures if o.Fine? then At(29) && Undisturbed() else Stopped(o)
      ensures Quiet(answers) ==> env == old(env)
      ensures LeftAlone(19) ==> env == old(env)
      ensures Through(o, 22, 24)
    {
      hide Passes, Halted, StepAt, Field, Prefix, Orderly, IsStage, At, Quiet, IsUpper, IsOwn, Edited, Stopped, Plan;
      OwnCauses(); ClosingSteps(); ClosingTable(); ClosingStages();
      :- Run("STAGE_6_APP_HEALTH", "STAGE_6_APP_HEALTH", "RuntimeError", 27);
      Emit("HEALTH_PASS", 27);
      :- Run("STAGE_6_ALEMBIC_POST", "STAGE_6_ALEMBIC_POST", "RuntimeError", 28);
      Emit("ALEMBIC_POST_0046_PASS", 28);
      o := Fine;
    }

    /** All stages in order. */
    method Stages() returns (o: Outcome)
      requires asked == 0 && At(0) && trace == []
      modifies this`output, this`asked, this`env, this`trace, this`calls
      ensures if o.Fine? then At(29) && |trace| == 3 && Undisturbed() else Stopped(o)
      ensures |trace| == 3 ==> trace[2].Written? && (trace[2].over == trace[2].before || Edited(trace[2].over))
      ensures |trace| == 3 ==> Usable(Assignments(trace[2].before), toInt)
      ensures Quiet(answers) && |trace| == 3 ==> trace[2].over == trace[2].before == old(env)
      ensures Quiet(answers) ==>
        if |trace| == 3 then Plan(old(env)) == Some(env) else env == old(env)
      ensures o.Fine? ==> asked == 24 && Passed(0, 24)
      ensures Quiet(answers) && Prepared(old(env)) ==>
        Through(o, 0, 24) && trace == Marks(if o.Fine? then STEPS else asked - 1, old(env))
      ensures Quiet(answers) && Prepared(old(env)) ==> Plan(old(env)).Some?
      ensures Quiet(answers) && !Prepared(old(env)) ==> o.Failed? && Unprepared(o, 0) && trace == []
      ensures o.Fine? && LeftAlone(19) ==> Retired(trace[2].before, env)
    {
      hide Passes, Halted, StepAt, Field, Prefix, Orderly, IsStage, At, Quiet, IsUpper, IsOwn, Edited, Stopped, Plan;
      hide Usable, Assignments, Marks, Retired;
      MarksAre(env);
      :- CheckRepository();
      var before, planned;
      o, before := CheckServices();
      if o.Failed? {
        return;
      }
      o, planned := PlanEnvironment(before);
      if o.Failed? {
        return;
      }
      UsableFlag(before, toInt);
      :- AskProvider();
      :- WriteEnvironment(before, planned);
      :- Recreate();
      :- CheckEnvironment(before);
      o := CheckAgain();
    }

    /**
      The whole run, with its exit code and its transcript; `met` is the class of the exception that
      ended it, if one did.
    */
    method RemoteMain() returns (code: int, ghost met: string)
      requires asked == 0 && At(0) && trace == []
      modifies this
      ensures Orderly(trace) && calls == (if |trace| > 2 then 2 else |trace|)
      ensures |trace| == 3 ==> Usable(Assignments(trace[2].before), toInt)
      ensures |trace| == 3 ==> trace[2].over == trace[2].before || Edited(trace[2].over)
      ensures code == 0 || code == 2
      ensures code == 0 ==> output == SuccessLines(2) && |trace| == 3
      ensures if code == 0 then Undisturbed() else IsMet(met)
      ensures forall name | AllRaise(answers, name) :: code == 2 && met == name
      ensures code == 2 ==>
        exists n, stage :: 1 <= n <= CHECKS && IsStage(stage) && output == FailureLines(n, stage, SafeClass(met), calls)
      ensures ReadsDecimals(toInt) ==>
        ParseLines(BareLines(Printed(output)), toInt) ==
        if code == 0 then Success else if IsWord(DropCarriage(SafeClass(met))) then Failure else Rejected
      ensures ReadsDecimals(toInt) && NamedByWords(answers) ==>
        ParseLines(BareLines(Printed(output)), toInt) == if code == 0 then Success else Failure
      ensures code == 0 ==> Passed(0, STEPS)
      ensures Quiet(answers) ==> (code == 0 <==> Prepared(old(env)) && Passed(0, STEPS))
      ensures Quiet(answers) ==>
        forall k: nat | k < STEPS && Passed(0, k) && !Passes(k) && (Prepared(old(env)) || k < 9) ::
          && code == 2 && met == ClassAt(k)
          && output == FailureLines(StepAt(k).shown, StageAt(k), SafeClass(met), calls)
          && trace == Marks(k, old(env)) && calls == (if k < 10 then 0 else if k == 10 then 1 else 2)
          && env == (if k < 14 then old(env) else Plan(old(env)).value)
      ensures Quiet(answers) && !Prepared(old(env)) && Passed(0, 9) ==>
        && output == FailureLines(13, "STAGE_1_ENV_PREFLIGHT", SafeClass(met), 0)
        && code == 2 && trace == [] && env == old(env)
      ensures Quiet(answers) ==>
        if |trace| == 3 then Plan(old(env)) == Some(env) else env == old(env)
      ensures Calm(answers) ==> (code == 0 <==> Prepared(old(env)))
      ensures code == 0 && LeftAlone(19) ==> Retired(trace[2].before, env)
    {
      hide Prefix, FailureLines, SuccessLines, IsStage, Calm, Quiet, IsOwn, Edited, Stopped, Plan, Orderly, SafeClass;
      hide IsWord, ParseLines, BareLines, Printed, DropCarriage, ReadsDecimals, NamedByWords, Usable, Assignments;
      hide Passes, Halted, StepAt, StageAt, ClassAt, Prepared, Marks;
      CalmPasses();
      var o := Stages();
      if o.Failed? {
        StoppedAt(o);
        FirstFailing(o, old(env));
        MarksMade(asked - 1, old(env));
      }
      code, met := Conclude(o);
    }

    /** The closing lines of a run. */
    method Conclude(o: Outcome) returns (code: int, ghost met: string)
      requires if o.Fine? then At(CHECKS) && |trace| == 3 else Stopped(o)
      modifies this`output
      ensures code == (if o.Fine? then 0 else 2) && (o.Failed? ==> met == o.cause)
      ensures o.Fine? ==> output == SuccessLines(2)
      ensures o.Failed? ==>
        forall m | old(output) == Prefix(m) :: output == FailureLines(m, o.stage, SafeClass(met), calls)
      ensures ReadsDecimals(toInt) ==>
        ParseLines(BareLines(Printed(output)), toInt) ==
        if code == 0 then Success else if IsWord(DropCarriage(SafeClass(met))) then Failure else Rejected
      ensures ReadsDecimals(toInt) && NamedByWords(answers) ==>
        ParseLines(BareLines(Printed(output)), toInt) == if code == 0 then Success else Failure
    {
      hide Field, Prefix, IsStage, IsUpper, IsOwn, Stopped, Plan, Orderly, Decimal, SafeClass, Shown;
      hide IsWord, ParseLines, BareLines, Printed, DropCarriage, ReadsDecimals, NamedByWords;
      met := "";
      FieldLiterals();
      if o.Fine? {
        output := output + [Shown("TELEGRAM_NETWORK_CALLS", Decimal(calls)), Shown("M4BJ1_TERMINAL", "success"),
                            Shown("M4BJ1_END", "true")];
        assert output == SuccessLines(2);
        if ReadsDecimals(toInt) {
          SuccessTranscript(toInt);
        }
        return 0, met;
      }
      StoppedAt(o);
      met := o.cause;
      ghost var n :| 1 <= n && At(n);
      output := output + [Shown("FAILURE_STAGE", o.stage), Shown("RAW_EXCEPTION_CLASS", SafeClass(o.cause)),
                          Shown("TELEGRAM_NETWORK_CALLS", Decimal(calls)), Shown("M4BJ1_TERMINAL", "failure")];
      assert output == FailureLines(n, o.stage, SafeClass(o.cause), calls);
      if ReadsDecimals(toInt) {
        FailureTranscript(n, o.stage, SafeClass(o.cause), calls, toInt);
        MetWord(o.cause);
      }
      code := 2;
    }

    /** The step a failed run ends with is the only one that is the first to fail. */
    lemma FirstFailing(o: Outcome, before: string)
      requires o.Failed?
      ensures (if Prepared(before) then Through(o, 0, STEPS) else Unprepared(o, 0)) ==>
        forall k: nat | k < STEPS && Passed(0, k) && !Passes(k) && (Prepared(before) || k < 9) ::
          asked == k + 1 && output == Prefix(StepAt(k).shown) && o == Failed(StageAt(k), ClassAt(k))
    {
      hide Passes, Prefix, StepAt, StageAt, ClassAt, Prepared;
    }

    lemma CalmPasses()
      ensures Calm(answers) ==> Quiet(answers) && Passed(0, STEPS)
    {
      hide StepAt;
    }

    lemma OwnCauses()
      ensures IsOwn("ValueError") && IsOwn("RuntimeError") && IsOwn("OSError")
    {
    }

    lemma StoppedAt(o: Outcome)
      requires Stopped(o)
      ensures o.Failed? && IsStage(o.stage) && IsMet(o.cause) && exists n :: 1 <= n && At(n)
    {
    }

    /** When whatever is raised is named by a word, so is every cause as it is shown. */
    lemma MetWord(cause: string)
      requires IsMet(cause)
      ensures NamedByWords(answers) ==> IsWord(DropCarriage(SafeClass(cause)))
    {
      hide IsWord, IsOwn, SafeClass;
      if NamedByWords(answers) {
        if IsOwn(cause) {
          OwnWords(cause);
        }
        ShownWord(cause);
      }
    }
  }

  /** The classes the program raises itself, or gives for a check that fails. */
  predicate IsOwn(cause: string) {
    cause == "ValueError" || cause == "RuntimeError" || cause == "OSError"
  }

  lemma OwnWords(cause: string)
    requires IsOwn(cause)
    ensures IsWord(cause)
  {
  }

  lemma ShownWord(cause: string)
    requires IsWord(cause)
    ensures IsWord(DropCarriage(SafeClass(cause)))
  {
  }

  const PROTECTED_KEYS: nat := 4

  /** The settings that must survive. */
  function ProtectedKey(k: nat): string {
    match k
    case 0 => "TELEGRAM_API_ID"
    case 1 => "TELEGRAM_API_HASH"
    case 2 => "SECRETARY_CREDENTIAL_KEY"
    case _ => "POSTGRES_PASSWORD"
  }

  function Lookup(m: map<string, string>, key: string): Option<string> {
    if key in m then Some(m[key]) else None
  }

  predicate Filled(values: map<string, string>, key: string) {
    key in values && Trim(values[key]) != ""
  }

  /** The protected settings are the same in both, present or not. */
  ghost predicate Kept(before: map<string, string>, now: map<string, string>) {
    forall k | 0 <= k < PROTECTED_KEYS :: Lookup(now, ProtectedKey(k)) == Lookup(before, ProtectedKey(k))
  }

  /** A file differs from the one before in nothing but Bot settings, which are empty or gone. */
  ghost predicate Retired(before: string, now: string) {
    && Neutralized(now) == Neutralized(before) && Kept(Assignments(before), Assignments(now))
    && forall k | 0 <= k < BOT_KEYS && BotKey(k) in Assignments(now) :: Assignments(now)[BotKey(k)] == ""
  }

  /** Lower-cased, this is "false". */
  predicate IsFalse(s: string) {
    && |s| == 5
    && s[0] in {'f', 'F'} && s[1] in {'a', 'A'} && s[2] in {'l', 'L'} && s[3] in {'s', 'S'} && s[4] in {'e', 'E'}
  }

  predicate FlagOff(values: map<string, string>) {
    "TELEGRAM_MTPROTO_AI_ENABLED" in values ==> IsFalse(values["TELEGRAM_MTPROTO_AI_ENABLED"])
  }

  /** The settings a run needs: all filled in, the API number positive, the AI flag off. */
  predicate Usable(values: map<string, string>, toInt: string -> Option<int>) {
    && (forall k | 0 <= k < BOT_KEYS :: Filled(values, BotKey(k)))
    && (forall k | 0 <= k < PROTECTED_KEYS :: Filled(values, ProtectedKey(k)))
    && FlagOff(values)
    && var id := toInt(values[ProtectedKey(0)]);
       id.Some? && id.value > 0
  }

  lemma UsableFlag(before: string, toInt: string -> Option<int>)
    ensures Usable(Assignments(before), toInt) ==> FlagOff(Assignments(before))
  {
  }

  /** What the checks after the write see when the file holds the plan. */
  lemma Planned(before: string)
    requires Plan(before).Some?
    ensures Neutralized(Plan(before).value) == Neutralized(before) == Plan(before)
    ensures
      var m, w := Assignments(before), Assignments(Plan(before).value);
      && (forall k | 0 <= k < BOT_KEYS :: BotKey(k) in w && w[BotKey(k)] == "")
      && (forall k | 0 <= k < PROTECTED_KEYS :: Lookup(w, ProtectedKey(k)) == Lookup(m, ProtectedKey(k)))
  {
    hide Plan, Neutralized, Assignments, BotKey, ProtectedKey;
    BotTheorems.PlanMeaning(before);
    BotTheorems.BotKeysApart();
    forall i, k | 0 <= i < PROTECTED_KEYS && 0 <= k < BOT_KEYS ensures ProtectedKey(i) != BotKey(k) {
      ProtectedIsNotBot(i, k);
    }
  }

  lemma ProtectedIsNotBot(i: nat, k: nat)
    requires i < PROTECTED_KEYS && k < BOT_KEYS
    ensures ProtectedKey(i) != BotKey(k)
  {
    assert |ProtectedKey(i)| in {15, 17, 24} && |BotKey(k)| in {18, 21, 23, 20};
  }

  lemma RepositoryTable()
    ensures Field(0) == "M4BJ1_BEGIN" && Field(1) == "CANONICAL_REPO_PASS"
    ensures Field(2) == "TARGET_PIN_PASS" && Field(3) == "REMOTE_HEAD_PASS"
    ensures Field(4) == "REMOTE_PRODUCTION_REF_PASS" && Field(5) == "REMOTE_WORKTREE_CLEAN"
    ensures Field(6) == "COMPOSE_CONFIG_PASS" && Field(7) == "DB_RUNNING_PASS"
  {
  }

  lemma ServiceTable()
    ensures Field(8) == "API_RUNNING_PASS" && Field(9) == "WORKER_RUNNING_PASS"
    ensures Field(10) == "DB_HEALTH_PASS" && Field(11) == "APP_HEALTH_PASS"
    ensures Field(12) == "ALEMBIC_0046_PASS" && Field(13) == "BOT_CREDENTIALS_AVAILABLE_PASS"
    ensures Field(14) == "MTPROTO_CREDENTIALS_AVAILABLE_PASS"
  {
  }

  lemma ChangeTable()
    ensures Field(15) == "DELETE_WEBHOOK_PASS" && Field(16) == "WEBHOOK_EMPTY_PASS"
    ensures Field(17) == "ENV_MUTATION_PASS" && Field(18) == "API_WORKER_RECREATED_PASS"
    ensures Field(19) == "DB_CONTAINER_UNCHANGED_PASS" && Field(20) == "DB_VOLUME_UNCHANGED_PASS"
    ensures Field(21) == "NON_BOT_ENV_UNCHANGED_PASS"
  {
  }

  lemma ClosingTable()
    ensures Field(22) == "BOT_SETTINGS_EMPTY_PASS" && Field(23) == "MTPROTO_CREDENTIALS_PRESERVED_PASS"
    ensures Field(24) == "CREDENTIAL_KEY_PRESERVED_PASS" && Field(25) == "DB_CREDENTIAL_PRESERVED_PASS"
    ensures Field(26) == "TELEGRAM_MTPROTO_AI_DISABLED_PASS" && Field(27) == "HEALTH_PASS"
    ensures Field(28) == "ALEMBIC_POST_0046_PASS"
  {
  }
}
