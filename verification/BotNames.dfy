/**
  The names of the retirement protocol: upper-case words, all different.
*/
module BotNames {
  import opened PythonText
  import opened BotProtocol

  /** The number of a field, read off its length and at most two of its letters. */
  function Rank(s: string): nat {
    if |s| == 9 then 31
    else if |s| == 11 then (if s[0] == 'M' then 0 else 27)
    else if |s| == 13 then 32
    else if |s| == 14 then (if s[0] == 'D' then 10 else 30)
    else if |s| == 15 then (if s[0] == 'T' then 2 else if s[0] == 'D' then 7 else 11)
    else if |s| == 16 then (if s[0] == 'R' then 3 else 8)
    else if |s| == 17 then (if s[0] == 'A' then 12 else 17)
    else if |s| == 18 then 16
    else if |s| == 19 then
      (if s[0] == 'C' then (if s[1] == 'A' then 1 else 6)
       else if s[0] == 'W' then 9 else if s[0] == 'D' then 15 else 33)
    else if |s| == 21 then 5
    else if |s| == 22 then (if s[0] == 'A' then 28 else 29)
    else if |s| == 23 then 22
    else if |s| == 24 then 20
    else if |s| == 25 then 18
    else if |s| == 26 then (if s[0] == 'R' then 4 else 21)
    else if |s| == 27 then 19
    else if |s| == 28 then 25
    else if |s| == 29 then 24
    else if |s| == 30 then 13
    else if |s| == 33 then 26
    else if |s| == 34 then (if s[20] == 'A' then 14 else 23)
    else 34
  }

  lemma RepositoryFields()
    ensures Upper("M4BJ1_BEGIN") && Rank("M4BJ1_BEGIN") == 0
    ensures Upper("CANONICAL_REPO_PASS") && Rank("CANONICAL_REPO_PASS") == 1
    ensures Upper("TARGET_PIN_PASS") && Rank("TARGET_PIN_PASS") == 2
    ensures Upper("REMOTE_HEAD_PASS") && Rank("REMOTE_HEAD_PASS") == 3
  {
  }

  lemma ReferenceFields()
    ensures Upper("REMOTE_PRODUCTION_REF_PASS") && Rank("REMOTE_PRODUCTION_REF_PASS") == 4
    ensures Upper("REMOTE_WORKTREE_CLEAN") && Rank("REMOTE_WORKTREE_CLEAN") == 5
    ensures Upper("COMPOSE_CONFIG_PASS") && Rank("COMPOSE_CONFIG_PASS") == 6
  {
  }

  lemma RunningFields()
    ensures Upper("DB_RUNNING_PASS") && Rank("DB_RUNNING_PASS") == 7
    ensures Upper("API_RUNNING_PASS") && Rank("API_RUNNING_PASS") == 8
    ensures Upper("WORKER_RUNNING_PASS") && Rank("WORKER_RUNNING_PASS") == 9
    ensures Upper("DB_HEALTH_PASS") && Rank("DB_HEALTH_PASS") == 10
  {
  }

  lemma HealthFields()
    ensures Upper("APP_HEALTH_PASS") && Rank("APP_HEALTH_PASS") == 11
    ensures Upper("ALEMBIC_0046_PASS") && Rank("ALEMBIC_0046_PASS") == 12
    ensures Upper("BOT_CREDENTIALS_AVAILABLE_PASS") && Rank("BOT_CREDENTIALS_AVAILABLE_PASS") == 13
  {
  }

  lemma WebhookFields()
    ensures Upper("MTPROTO_CREDENTIALS_AVAILABLE_PASS") && Rank("MTPROTO_CREDENTIALS_AVAILABLE_PASS") == 14
    ensures Upper("DELETE_WEBHOOK_PASS") && Rank("DELETE_WEBHOOK_PASS") == 15
    ensures Upper("WEBHOOK_EMPTY_PASS") && Rank("WEBHOOK_EMPTY_PASS") == 16
  {
  }

  lemma MutationFields()
    ensures Upper("ENV_MUTATION_PASS") && Rank("ENV_MUTATION_PASS") == 17
    ensures Upper("API_WORKER_RECREATED_PASS") && Rank("API_WORKER_RECREATED_PASS") == 18
    ensures Upper("DB_CONTAINER_UNCHANGED_PASS") && Rank("DB_CONTAINER_UNCHANGED_PASS") == 19
  {
  }

  lemma UnchangedFields()
    ensures Upper("DB_VOLUME_UNCHANGED_PASS") && Rank("DB_VOLUME_UNCHANGED_PASS") == 20
    ensures Upper("NON_BOT_ENV_UNCHANGED_PASS") && Rank("NON_BOT_ENV_UNCHANGED_PASS") == 21
    ensures Upper("BOT_SETTINGS_EMPTY_PASS") && Rank("BOT_SETTINGS_EMPTY_PASS") == 22
  {
  }

  lemma PreservedFields()
    ensures Upper("MTPROTO_CREDENTIALS_PRESERVED_PASS") && Rank("MTPROTO_CREDENTIALS_PRESERVED_PASS") == 23
    ensures Upper("CREDENTIAL_KEY_PRESERVED_PASS") && Rank("CREDENTIAL_KEY_PRESERVED_PASS") == 24
  {
  }

  lemma ProtectedFields()
    ensures Upper("DB_CREDENTIAL_PRESERVED_PASS") && Rank("DB_CREDENTIAL_PRESERVED_PASS") == 25
    ensures Upper("TELEGRAM_MTPROTO_AI_DISABLED_PASS") && Rank("TELEGRAM_MTPROTO_AI_DISABLED_PASS") == 26
    ensures Upper("HEALTH_PASS") && Rank("HEALTH_PASS") == 27
  {
  }

  lemma ClosingFields()
    ensures Upper("ALEMBIC_POST_0046_PASS") && Rank("ALEMBIC_POST_0046_PASS") == 28
    ensures Upper("TELEGRAM_NETWORK_CALLS") && Rank("TELEGRAM_NETWORK_CALLS") == 29
    ensures Upper("M4BJ1_TERMINAL") && Rank("M4BJ1_TERMINAL") == 30
    ensures Upper("M4BJ1_END") && Rank("M4BJ1_END") == 31
  {
  }

  lemma FieldNamed(i: nat)
    requires i < FIELDS
    ensures Upper(Field(i)) && Rank(Field(i)) == i
  {
    hide Upper, Rank;
    RepositoryFields(); ReferenceFields(); RunningFields(); HealthFields(); WebhookFields();
    MutationFields(); UnchangedFields(); PreservedFields(); ProtectedFields();
    ClosingFields();
  }

  lemma RequiredNamed()
    ensures Upper("FAILURE_STAGE") && Rank("FAILURE_STAGE") == 32
    ensures Upper("RAW_EXCEPTION_CLASS") && Rank("RAW_EXCEPTION_CLASS") == 33
  {
  }

  lemma HealthStages()
    ensures IsStage("STAGE_0_ALEMBIC")
    ensures IsStage("STAGE_0_APP_HEALTH")
    ensures IsStage("STAGE_0_CANONICAL_REPO")
    ensures IsStage("STAGE_0_DB_HEALTH")
  {
  }

  lemma ReferenceStages()
    ensures IsStage("STAGE_0_PRODUCTION_REF")
    ensures IsStage("STAGE_0_PRODUCTION_REF_FETCH")
    ensures IsStage("STAGE_0_REMOTE_HEAD")
  {
  }

  lemma PreflightStages()
    ensures IsStage("STAGE_0_WORKTREE")
    ensures IsStage("STAGE_1_ENV_PREFLIGHT")
    ensures IsStage("STAGE_3_DELETE_WEBHOOK")
  {
  }

  lemma WriteStages()
    ensures IsStage("STAGE_3_VERIFY_WEBHOOK")
    ensures IsStage("STAGE_4_ENV_MUTATION")
    ensures IsStage("STAGE_5_BOT_SETTINGS")
  {
  }

  lemma EnvironmentStages()
    ensures IsStage("STAGE_5_COMPOSE_ENV")
    ensures IsStage("STAGE_5_CONTAINER_ENV")
    ensures IsStage("STAGE_5_DB_PRESERVATION")
  {
  }

  lemma RecreateStages()
    ensures IsStage("STAGE_5_NON_BOT_ENV")
    ensures IsStage("STAGE_5_PROTECTED_ENV")
    ensures IsStage("STAGE_5_RECREATE_API_WORKER")
  {
  }

  lemma ClosingStages()
    ensures IsStage("STAGE_6_ALEMBIC_POST")
    ensures IsStage("STAGE_6_APP_HEALTH")
    ensures IsStage("STAGE_UNKNOWN")
  {
  }
}
