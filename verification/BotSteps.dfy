/**
  The steps of a retirement in their order: what each shows when it fails, and after how many lines.
*/
module BotSteps {

  /**
    A step that looks at something fails in one way when the look raises an exception and in
    another when it does not see what it wants; a step that touches the file only raises.
  */
  datatype Step =
    | Look(shown: nat, raised: string, wrong: string, cause: string)
    | Touch(shown: nat, raised: string)

  const STEPS: nat := 24

  function StepAt(k: nat): Step {
    if k < 5 then RepositoryStep(k)
    else if k < 10 then ServiceStep(k)
    else if k < 15 then ChangeStep(k)
    else if k < 20 then RecreateStep(k)
    else ClosingStep(k)
  }

  function RepositoryStep(k: nat): Step {
    match k
    case 0 => Look(1, "STAGE_UNKNOWN", "STAGE_0_CANONICAL_REPO", "ValueError")
    case 1 => Same(3, "STAGE_0_PRODUCTION_REF_FETCH", "RuntimeError")
    case 2 => Look(3, "STAGE_UNKNOWN", "STAGE_0_REMOTE_HEAD", "ValueError")
    case 3 => Look(4, "STAGE_UNKNOWN", "STAGE_0_PRODUCTION_REF", "ValueError")
    case _ => Look(5, "STAGE_UNKNOWN", "STAGE_0_WORKTREE", "ValueError")
  }

  function ServiceStep(k: nat): Step {
    match k
    case 5 => Same(6, "STAGE_0_DB_HEALTH", "RuntimeError")
    case 6 => Same(11, "STAGE_0_APP_HEALTH", "RuntimeError")
    case 7 => Same(12, "STAGE_0_ALEMBIC", "RuntimeError")
    case 8 => Same(13, "STAGE_1_ENV_PREFLIGHT", "OSError")
    case _ => Same(13, "STAGE_1_ENV_PREFLIGHT", "ValueError")
  }

  function ChangeStep(k: nat): Step {
    match k
    case 10 => Same(15, "STAGE_3_DELETE_WEBHOOK", "RuntimeError")
    case 11 => Same(16, "STAGE_3_VERIFY_WEBHOOK", "RuntimeError")
    case _ => Touch(17, "STAGE_4_ENV_MUTATION")
  }

  function RecreateStep(k: nat): Step {
    match k
    case 15 => Same(18, "STAGE_5_RECREATE_API_WORKER", "RuntimeError")
    case 16 => Same(19, "STAGE_5_RECREATE_API_WORKER", "RuntimeError")
    case 17 => Same(19, "STAGE_5_DB_PRESERVATION", "RuntimeError")
    case 18 => Same(21, "STAGE_5_NON_BOT_ENV", "OSError")
    case _ => Same(22, "STAGE_5_BOT_SETTINGS", "OSError")
  }

  function ClosingStep(k: nat): Step {
    match k
    case 20 => Same(23, "STAGE_5_COMPOSE_ENV", "RuntimeError")
    case 21 => Same(23, "STAGE_5_CONTAINER_ENV", "RuntimeError")
    case 22 => Same(27, "STAGE_6_APP_HEALTH", "RuntimeError")
    case _ => Same(28, "STAGE_6_ALEMBIC_POST", "RuntimeError")
  }

  /** One stage for both ways to fail. */
  function Same(shown: nat, stage: string, cause: string): Step {
    Look(shown, stage, stage, cause)
  }

  lemma RepositorySteps()
    ensures StepAt(0) == Look(1, "STAGE_UNKNOWN", "STAGE_0_CANONICAL_REPO", "ValueError")
    ensures StepAt(1) == Same(3, "STAGE_0_PRODUCTION_REF_FETCH", "RuntimeError")
    ensures StepAt(2) == Look(3, "STAGE_UNKNOWN", "STAGE_0_REMOTE_HEAD", "ValueError")
    ensures StepAt(3) == Look(4, "STAGE_UNKNOWN", "STAGE_0_PRODUCTION_REF", "ValueError")
    ensures StepAt(4) == Look(5, "STAGE_UNKNOWN", "STAGE_0_WORKTREE", "ValueError")
  {
  }

  lemma ServiceSteps()
    ensures StepAt(5) == Same(6, "STAGE_0_DB_HEALTH", "RuntimeError")
    ensures StepAt(6) == Same(11, "STAGE_0_APP_HEALTH", "RuntimeError")
    ensures StepAt(7) == Same(12, "STAGE_0_ALEMBIC", "RuntimeError")
  {
  }

  lemma PlanSteps()
    ensures StepAt(8) == Same(13, "STAGE_1_ENV_PREFLIGHT", "OSError")
    ensures StepAt(9) == Same(13, "STAGE_1_ENV_PREFLIGHT", "ValueError")
  {
  }

  lemma ProviderSteps()
    ensures StepAt(10) == Same(15, "STAGE_3_DELETE_WEBHOOK", "RuntimeError")
    ensures StepAt(11) == Same(16, "STAGE_3_VERIFY_WEBHOOK", "RuntimeError")
  {
  }

  lemma WriteSteps()
    ensures StepAt(12) == StepAt(13) == StepAt(14) == Touch(17, "STAGE_4_ENV_MUTATION")
  {
  }

  lemma RecreateSteps()
    ensures StepAt(15) == Same(18, "STAGE_5_RECREATE_API_WORKER", "RuntimeError")
    ensures StepAt(16) == Same(19, "STAGE_5_RECREATE_API_WORKER", "RuntimeError")
    ensures StepAt(17) == Same(19, "STAGE_5_DB_PRESERVATION", "RuntimeError")
  {
  }

  lemma EnvironmentSteps()
    ensures StepAt(18) == Same(21, "STAGE_5_NON_BOT_ENV", "OSError")
    ensures StepAt(19) == Same(22, "STAGE_5_BOT_SETTINGS", "OSError")
    ensures StepAt(20) == Same(23, "STAGE_5_COMPOSE_ENV", "RuntimeError")
    ensures StepAt(21) == Same(23, "STAGE_5_CONTAINER_ENV", "RuntimeError")
  {
  }

  lemma ClosingSteps()
    ensures StepAt(22) == Same(27, "STAGE_6_APP_HEALTH", "RuntimeError")
    ensures StepAt(23) == Same(28, "STAGE_6_ALEMBIC_POST", "RuntimeError")
  {
  }
}
