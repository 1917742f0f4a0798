/**
  The retirement transcript: the lines the remote process shows, and the parser that judges them.
*/
module BotProtocol {
  import opened Options
  import opened PythonText

  const FIELDS: nat := 32
  /** The last field of a run that is followed by its closing lines. */
  const CHECKS: nat := 29

  /** The fields of a successful run, in order. */
  function Field(i: nat): string {
    if i < 8 then RepositoryField(i)
    else if i < 15 then ServiceField(i)
    else if i < 22 then ChangeField(i)
    else ClosingField(i)
  }

  function RepositoryField(i: nat): string {
    match i
    case 0 => "M4BJ1_BEGIN"
    case 1 => "CANONICAL_REPO_PASS"
    case 2 => "TARGET_PIN_PASS"
    case 3 => "REMOTE_HEAD_PASS"
    case 4 => "REMOTE_PRODUCTION_REF_PASS"
    case 5 => "REMOTE_WORKTREE_CLEAN"
    case 6 => "COMPOSE_CONFIG_PASS"
    case _ => "DB_RUNNING_PASS"
  }

  function ServiceField(i: nat): string {
    match i
    case 8 => "API_RUNNING_PASS"
    case 9 => "WORKER_RUNNING_PASS"
    case 10 => "DB_HEALTH_PASS"
    case 11 => "APP_HEALTH_PASS"
    case 12 => "ALEMBIC_0046_PASS"
    case 13 => "BOT_CREDENTIALS_AVAILABLE_PASS"
    case _ => "MTPROTO_CREDENTIALS_AVAILABLE_PASS"
  }

  function ChangeField(i: nat): string {
    match i
    case 15 => "DELETE_WEBHOOK_PASS"
    case 16 => "WEBHOOK_EMPTY_PASS"
    case 17 => "ENV_MUTATION_PASS"
    case 18 => "API_WORKER_RECREATED_PASS"
    case 19 => "DB_CONTAINER_UNCHANGED_PASS"
    case 20 => "DB_VOLUME_UNCHANGED_PASS"
    case _ => "NON_BOT_ENV_UNCHANGED_PASS"
  }

  function ClosingField(i: nat): string {
    match i
    case 22 => "BOT_SETTINGS_EMPTY_PASS"
    case 23 => "MTPROTO_CREDENTIALS_PRESERVED_PASS"
    case 24 => "CREDENTIAL_KEY_PRESERVED_PASS"
    case 25 => "DB_CREDENTIAL_PRESERVED_PASS"
    case 26 => "TELEGRAM_MTPROTO_AI_DISABLED_PASS"
    case 27 => "HEALTH_PASS"
    case 28 => "ALEMBIC_POST_0046_PASS"
    case 29 => "TELEGRAM_NETWORK_CALLS"
    case 30 => "M4BJ1_TERMINAL"
    case _ => "M4BJ1_END"
  }

  /** The lines of the first `n` fields. */
  function Prefix(n: nat): seq<string> {
    seq(n, i requires 0 <= i => Shown(Field(i), "true"))
  }

  function SuccessLines(calls: nat): seq<string> {
    Prefix(CHECKS) +
    [Shown(Field(29), Decimal(calls)), Shown(Field(30), "success"), Shown(Field(31), "true")]
  }

  /** What is shown of an exception class. */
  function SafeClass(name: string): string {
    if name == "" then "RuntimeError" else if |name| > 80 then name[..80] else name
  }

  function FailureLines(n: nat, stage: string, shown: string, calls: nat): seq<string> {
    Prefix(n) +
    [Shown("FAILURE_STAGE", stage), Shown("RAW_EXCEPTION_CLASS", shown),
     Shown(Field(29), Decimal(calls)), Shown(Field(30), "failure")]
  }

  // ----- the parser -----

  /** The numbers of calls that occur are read back as they are printed. */
  ghost predicate ReadsDecimals(toInt: string -> Option<int>) {
    forall m: nat | m <= 2 :: toInt(Decimal(m)) == Some(m)
  }

  predicate IsStage(s: string) {
    |s| > 6 && s[..6] == "STAGE_" && forall i | 6 <= i < |s| :: IsUpper(s[i])
  }

  predicate IsWord(s: string) {
    s != [] && forall i | 0 <= i < |s| :: IsUpper(s[i]) || 'a' <= s[i] <= 'z'
  }

  predicate EndsWith(s: string, suffix: string) {
    |suffix| <= |s| && s[|s| - |suffix|..] == suffix
  }

  /** The value of the first line with this prefix. */
  function FirstValue(lines: seq<string>, prefix: string): Option<string> {
    if lines == [] then None
    else if StartsWith(lines[0], prefix) then Some(lines[0][|prefix|..])
    else FirstValue(lines[1..], prefix)
  }

  ghost predicate IsField(key: string) {
    exists i | 0 <= i < FIELDS :: key == Field(i)
  }

  predicate IsRequired(key: string) {
    key in ["FAILURE_STAGE", "RAW_EXCEPTION_CLASS", "TELEGRAM_NETWORK_CALLS", "M4BJ1_TERMINAL"]
  }

  /** Lines whose keys are the fields in order, as far as both go. */
  ghost predicate InOrder(lines: seq<string>) {
    forall i | 0 <= i < |lines| && i < FIELDS :: KeyOf(lines[i]) == Field(i)
  }

  datatype Parsed = Success | Failure | Rejected

  ghost predicate SuccessProtocol(lines: seq<string>, toInt: string -> Option<int>) {
    && |lines| == FIELDS && InOrder(lines)
    && lines[FIELDS - 2] == "M4BJ1_TERMINAL=success"
    && (forall i | 1 <= i < FIELDS - 3 ::
         ValueOf(lines[i]).Some? && (EndsWith(KeyOf(lines[i]), "PASS") ==> ValueOf(lines[i]).value == "true"))
    && var calls := ValueOf(lines[FIELDS - 3]);
       calls.Some? && toInt(calls.value) == Some(2)
  }

  ghost predicate FailureProtocol(lines: seq<string>, toInt: string -> Option<int>) {
    && (forall key | IsRequired(key) :: exists i | 0 <= i < |lines| :: KeyOf(lines[i]) == key)
    && |lines| >= 4 && lines[|lines| - 1] == "M4BJ1_TERMINAL=failure"
    && InOrder(lines[..|lines| - 4]) && |lines| - 4 <= FIELDS
    && (forall i | 0 <= i < |lines| :: IsRequired(KeyOf(lines[i])) || IsField(KeyOf(lines[i])))
    && (forall i, j | 0 <= i < j < |lines| :: KeyOf(lines[i]) != KeyOf(lines[j]))
    && var calls := FirstValue(lines, "TELEGRAM_NETWORK_CALLS=");
       var stage := FirstValue(lines, "FAILURE_STAGE=");
       var cause := FirstValue(lines, "RAW_EXCEPTION_CLASS=");
       && calls.Some? && toInt(calls.value).Some? && 0 <= toInt(calls.value).value <= 2
       && stage.Some? && IsStage(stage.value)
       && cause.Some? && IsWord(cause.value)
  }

  /** The judgement on the lines of a transcript; `toInt` is how numbers are read. */
  ghost function ParseLines(lines: seq<string>, toInt: string -> Option<int>): Parsed {
    if lines == [] || lines[0] != "M4BJ1_BEGIN=true" then Rejected
    else if lines[|lines| - 1] == "M4BJ1_END=true" then
      if SuccessProtocol(lines, toInt) then Success else Rejected
    else if FailureProtocol(lines, toInt) then Failure else Rejected
  }
}
