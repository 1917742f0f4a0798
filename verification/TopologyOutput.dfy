/**
  The facts on their way: printed by the child, read and printed again by the remote process, and
  read by the client, which checks them against each other.
*/
module TopologyOutput {
  import opened Options
  import opened PythonText
  import opened TopologyNumbers
  import opened TopologyKeys
  import opened TopologyFacts

  function FactLine(fact: (string, nat)): string {
    Shown(fact.0, Decimal(fact.1))
  }

  function FactLines(facts: Table): seq<string> {
    seq(|facts|, i requires 0 <= i < |facts| => FactLine(facts[i]))
  }

  function ReadFact(line: string): Option<(string, nat)> {
    match ValueOf(line)
    case None => None
    case Some(value) =>
      match ParseNumber(value)
      case None => None
      case Some(n) => Some((KeyOf(line), n))
  }

  predicate HasKey(facts: Table, key: string) {
    exists i | 0 <= i < |facts| :: facts[i].0 == key
  }

  function FixedKeys(): seq<Key> {
    FirstKeys() + MiddleKeys() + LastKeys()
  }

  /** Text, then digits, then more text. */
  predicate InFamily(key: string, prefix: string, suffix: string) {
    && |prefix| + |suffix| < |key|
    && key[..|prefix|] == prefix && key[|key| - |suffix|..] == suffix
    && forall i | |prefix| <= i < |key| - |suffix| :: IsDigit(key[i])
  }

  /** The keys the client approves of. */
  predicate Approved(key: string) {
    || InFamily(key, "TASK_WINDOW_", "_TASK_COUNT")
    || InFamily(key, "PEOPLE_RELEVANT_TO_WINDOW_", "")
    || exists k | k in FixedKeys() :: KeyText(k) == key
  }

  /** The facts of some lines, if each is a number under a new key that is allowed. */
  function ReadAll(lines: seq<string>, strict: bool): Option<Table> {
    if lines == [] then Some([])
    else
      match ReadAll(lines[..|lines| - 1], strict)
      case None => None
      case Some(facts) =>
        match ReadFact(lines[|lines| - 1])
        case None => None
        case Some(fact) =>
          if HasKey(facts, fact.0) || (strict && !Approved(fact.0)) then None else Some(facts + [fact])
  }

  lemma {:induction false} ReadNone(lines: seq<string>, n: nat, strict: bool)
    requires n <= |lines| && ReadAll(lines[..n], strict).None?
    ensures ReadAll(lines, strict).None?
    decreases |lines| - n
  {
    if n == |lines| {
      assert lines[..n] == lines;
    } else {
      assert lines[..n + 1][..n] == lines[..n];
      ReadNone(lines, n + 1, strict);
    }
  }

  /** Read fact lines one by one into a dictionary. */
  method ReadFacts(lines: seq<string>, strict: bool) returns (facts: Option<Table>)
    ensures facts == ReadAll(lines, strict)
  {
    hide ReadFact, HasKey, Approved;
    var table: Table := [];
    for i := 0 to |lines|
      invariant ReadAll(lines[..i], strict) == Some(table)
    {
      assert lines[..i + 1][..i] == lines[..i];
      var fact := ReadFact(lines[i]);
      if fact.None? || HasKey(table, fact.value.0) || (strict && !Approved(fact.value.0)) {
        ReadNone(lines, i + 1, strict);
        return None;
      }
      table := table + [fact.value];
    }
    assert lines[..|lines|] == lines;
    facts := Some(table);
  }

  // ----- what is read back -----

  ghost predicate Readable(facts: Table, strict: bool) {
    && DistinctKeys(facts)
    && forall i | 0 <= i < |facts| :: '=' !in facts[i].0 && (strict ==> Approved(facts[i].0))
  }

  lemma FactRead(fact: (string, nat))
    requires '=' !in fact.0
    ensures ReadFact(FactLine(fact)) == Some(fact)
  {
    hide Decimal, ParseNumber, KeyOf, ValueOf, Shown;
    ShownParts(fact.0, Decimal(fact.1));
    ParseExactly(Decimal(fact.1), fact.1);
  }

  /** Facts under distinct keys are read back as they were printed. */
  lemma {:induction false} FactsRead(facts: Table, strict: bool)
    requires Readable(facts, strict)
    ensures ReadAll(FactLines(facts), strict) == Some(facts)
  {
    hide ReadFact, FactLine, Approved;
    if facts != [] {
      var n := |facts| - 1;
      var lines := FactLines(facts);
      assert lines[..n] == FactLines(facts[..n]);
      FactsRead(facts[..n], strict);
      FactRead(facts[n]);
      assert facts == facts[..n] + [facts[n]];
    }
  }

  // ----- the child and the remote process -----

  function BlockedStages(): seq<string> {
    ["arguments", "cwd", "origin", "worktree", "head", "production_ref", "db_running", "api_running", "worker_running",
     "db_health", "api_health", "alembic", "command", "read_only", "census_output", "user_count",
     "duplicate_task_window", "duplicate_person_page", "people_union", "window_count"]
  }

  /** How reading the child's output ends; `Crashed` is an error that nobody catches. */
  datatype ChildParse = Parsed(facts: Table) | Refused(stage: string) | Crashed

  /** The trimmed lines of a text that are not empty. */
  function TrimmedLines(lines: seq<string>): seq<string> {
    if lines == [] then []
    else
      var rest := TrimmedLines(lines[..|lines| - 1]);
      var line := Trim(lines[|lines| - 1]);
      if line == [] then rest else rest + [line]
  }

  function OrderTexts(n: nat): seq<string> {
    seq(|Order(n)|, i requires 0 <= i < |Order(n)| => KeyText(Order(n)[i]))
  }

  function KeysOf(facts: Table): seq<string> {
    seq(|facts|, i requires 0 <= i < |facts| => facts[i].0)
  }

  function ParseChildLines(lines: seq<string>): ChildParse {
    if lines == [] then Refused("census_output")
    else if StartsWith(lines[0], "CHILD_BLOCKED=") then
      var stage := lines[0][14..];
      if stage !in BlockedStages() || |lines| != 2 || !StartsWith(lines[1], "CHILD_ERROR_CLASS=")
      then Refused("census_output")
      else Refused(stage)
    else if lines[0] != "CHILD_READ_ONLY=on" then Refused("read_only")
    else
      match ReadAll(lines[1..], false)
      case None => Refused("census_output")
      case Some(facts) =>
        match Lookup(facts, KeyText(WindowCount))
        case None => Refused("census_output")
        case Some(n) =>
          if n < 1 then Crashed
          else if KeysOf(facts) != OrderTexts(n) then Refused("census_output")
          else Parsed(facts)
  }

  /** The output of the child, with the whitespace around it taken off. */
  function ParseChildOutput(output: string): ChildParse {
    ParseChildLines(TrimmedLines(BareLines(Trim(output))))
  }

  function ChildLines(facts: Table): seq<string> {
    ["CHILD_READ_ONLY=on"] + FactLines(facts)
  }

  function RemoteLines(facts: Table): seq<string> {
    SuccessPrefix() + FactLines(facts) + SuccessSuffix()
  }

  function SuccessPrefix(): seq<string> {
    ["AUDIT_MARKER=started", "AUDIT_PREFLIGHT=pass", "AUDIT_READ_ONLY=on", "PRODUCTION_SHA_OK=true",
     "ALEMBIC_0054_OK=true"]
  }

  function SuccessSuffix(): seq<string> {
    ["PROVIDER_NETWORK_CALLS=0", "AUDIT_TERMINAL=success"]
  }

  // ----- the client -----

  datatype ClientParse = Accepted(facts: Table) | Rejected(code: string)

  predicate IsHex(c: char) {
    IsDigit(c) || 'a' <= c <= 'f' || 'A' <= c <= 'F'
  }

  /** Eight, four, four, four and twelve hexadecimal digits with dashes between. */
  predicate UuidAt(line: string, at: nat) {
    at + 36 <= |line| && forall i | at <= i < at + 36 :: UuidChar(line[i], i - at)
  }

  predicate UuidChar(c: char, i: nat) {
    if i == 8 || i == 13 || i == 18 || i == 23 then c == '-' else IsHex(c)
  }

  /** A line that may name somebody. */
  predicate Identifies(line: string) {
    '@' in line || exists at | 0 <= at < |line| :: UuidAt(line, at)
  }

  predicate IsClassName(s: string) {
    && 1 <= |s| <= 41 && IsLetter(s[0])
    && forall i | 0 <= i < |s| :: IsLetter(s[i]) || IsDigit(s[i])
  }

  predicate IsLetter(c: char) {
    'a' <= c <= 'z' || 'A' <= c <= 'Z'
  }

  /** The code of a blocked audit, when the lines report one. */
  function ParseBlocked(lines: seq<string>): Option<string> {
    var body := if lines != [] && lines[0] == "AUDIT_MARKER=started" then lines[1..] else lines;
    if body == [] || !StartsWith(body[0], "AUDIT_BLOCKED=") then None
    else if |body| != 3 || body[0][14..] !in BlockedStages() || !StartsWith(body[1], "AUDIT_ERROR_CLASS=") ||
      !IsClassName(body[1][18..]) || body[2] != "PROVIDER_NETWORK_CALLS=0" then Some("malformed")
    else Some(body[0][14..])
  }

  function At(facts: Table, k: Key): nat {
    match Lookup(facts, KeyText(k))
    case Some(n) => n
    case None => 0
  }

  /** The client's cross-checks. */
  predicate Consistent(facts: Table) {
    && At(facts, Unanchored) + At(facts, SingleWindow) + At(facts, MultiWindow) + At(facts, IncompleteAnchors) +
       At(facts, UnmappedAnchors) == At(facts, ActiveTotal)
    && At(facts, PeopleUnique) == At(facts, ActiveTotal)
    && At(facts, DuplicatedPeople) == 0 && At(facts, DuplicatedTasks) == 0
    && At(facts, Aligned) + At(facts, Mismatched) == At(facts, SingleWindow)
  }

  function ParseFactLines(lines: seq<string>): ClientParse {
    match ReadAll(lines, true)
    case None => Rejected("malformed")
    case Some(facts) =>
      match Lookup(facts, KeyText(WindowCount))
      case None => Rejected("malformed")
      case Some(n) =>
        if n < 1 || KeysOf(facts) != OrderTexts(n) || !Consistent(facts) then Rejected("malformed") else Accepted(facts)
  }

  function ParseRemoteLines(lines: seq<string>): ClientParse {
    if exists i | 0 <= i < |lines| :: Identifies(lines[i]) then Rejected("malformed")
    else
      match ParseBlocked(lines)
      case Some(code) => Rejected(code)
      case None =>
        if |lines| < 7 || lines[..5] != SuccessPrefix() || lines[|lines| - 2..] != SuccessSuffix()
        then Rejected("malformed")
        else ParseFactLines(lines[5..|lines| - 2])
  }

  function ParseRemoteOutput(output: string): ClientParse {
    var lines := BareLines(output);
    ParseRemoteLines(if lines != [] && lines[|lines| - 1] == "" then lines[..|lines| - 1] else lines)
  }
}
