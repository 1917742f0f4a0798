/**
  Clearing the four Bot assignments of an environment file, line by line, and the independent
  validation of the planned text.
*/
module BotEnvironment {
  import opened Options
  import opened PythonText
  import opened BotPieces

  /** The Bot settings. */
  function BotKey(k: nat): string {
    match k
    case 0 => "TELEGRAM_BOT_TOKEN"
    case 1 => "TELEGRAM_BOT_USERNAME"
    case 2 => "TELEGRAM_WEBHOOK_SECRET"
    case _ => "TELEGRAM_WEBHOOK_URL"
  }

  const BOT_KEYS: nat := 4

  /** Which of the Bot settings a name is. */
  function BotIndex(name: string): (k: Option<nat>)
    ensures k.Some? ==> k.value < BOT_KEYS && name == BotKey(k.value)
    ensures k.None? ==> forall i | 0 <= i < BOT_KEYS :: name != BotKey(i)
  {
    if name == BotKey(0) then Some(0)
    else if name == BotKey(1) then Some(1)
    else if name == BotKey(2) then Some(2)
    else if name == BotKey(3) then Some(3)
    else None
  }

  predicate IsName(s: string) {
    s != [] && 'A' <= s[0] <= 'Z' && Upper(s)
  }

  datatype Assignment = Assignment(name: string, value: string)

  /** The assignment on a line without its line feed, if it is one. */
  function Assigns(body: string): Option<Assignment> {
    var n := Equals(body);
    if n < |body| && IsName(body[..n]) then Some(Assignment(body[..n], body[n + 1..])) else None
  }

  /** A line without its line feed and the carriage return before it. */
  function Body(line: string): string {
    var body := if Ends(line) then line[..|line| - 1] else line;
    DropCarriage(body)
  }

  /** The line ending a cleared line gets. */
  function Newline(line: string): string {
    var body := if Ends(line) then line[..|line| - 1] else line;
    if EndsCarriage(body) then "\r\n" else if Ends(line) then "\n" else ""
  }

  /** Which Bot setting a line assigns. */
  function BotOf(line: string): (k: Option<nat>)
    ensures k.Some? ==> k.value < BOT_KEYS
  {
    var a := Assigns(Body(line));
    if a.None? then None else BotIndex(a.value.name)
  }

  predicate StartsWithKey(body: string, key: string) {
    |body| > |key| && body[..|key|] == key && (IsSpace(body[|key|]) || body[|key|] == ':')
  }

  predicate Malformed(line: string) {
    BotOf(line).None? && exists k | 0 <= k < BOT_KEYS :: StartsWithKey(Body(line), BotKey(k))
  }

  /** A line after clearing. */
  function Cleared(line: string): string {
    var k := BotOf(line);
    if k.None? then line else BotKey(k.value) + "=" + Newline(line)
  }

  function ClearedLines(lines: seq<string>): (r: seq<string>)
    ensures |r| == |lines|
  {
    seq(|lines|, i requires 0 <= i < |lines| => Cleared(lines[i]))
  }

  /** How many of the first `n` lines assign Bot setting `k`. */
  function Count(lines: seq<string>, n: nat, k: nat): nat
    requires n <= |lines|
  {
    if n == 0 then 0 else Count(lines, n - 1, k) + (if BotOf(lines[n - 1]) == Some(k) then 1 else 0)
  }

  /** No line is malformed, and each Bot setting is assigned on exactly one line. */
  ghost predicate WellAssigned(lines: seq<string>) {
    && (forall i | 0 <= i < |lines| :: !Malformed(lines[i]))
    && (forall k | 0 <= k < BOT_KEYS :: Count(lines, |lines|, k) == 1)
  }

  ghost function Neutralized(text: string): Option<string> {
    var lines := SplitLines(text);
    if WellAssigned(lines) then Some(Joined(ClearedLines(lines))) else None
  }

  /** Clear exactly the four Bot assignments, preserving every other line. */
  method NeutralizeBotEnv(text: string) returns (r: Option<string>)
    ensures r == Neutralized(text)
  {
    hide SplitLines, Joined, BotOf, Malformed, Cleared, BotKey;
    var lines := SplitLines(text);
    var counts := [0, 0, 0, 0];
    var out: seq<string> := [];
    for i := 0 to |lines|
      invariant |counts| == BOT_KEYS && forall k | 0 <= k < BOT_KEYS :: counts[k] == Count(lines, i, k)
      invariant out == ClearedLines(lines)[..i]
      invariant forall j | 0 <= j < i :: !Malformed(lines[j])
    {
      var bot := BotOf(lines[i]);
      if bot.None? && Malformed(lines[i]) {
        return None;
      }
      MalformedIsNoBot(lines[i]);
      if bot.Some? {
        counts := counts[bot.value := counts[bot.value] + 1];
      }
      out := out + [Cleared(lines[i])];
    }
    if exists k | 0 <= k < BOT_KEYS :: counts[k] != 1 {
      return None;
    }
    assert out == ClearedLines(lines);
    r := Some(Joined(out));
  }

  lemma MalformedIsNoBot(line: string)
    ensures Malformed(line) ==> BotOf(line).None?
    ensures BotOf(line).Some? ==> BotOf(line).value < BOT_KEYS
  {
  }

  // ----- the validator -----

  /** The line ending the validator expects of a cleared line. */
  function Ending(line: string): string {
    if |line| > 1 && line[|line| - 2] == '\r' && line[|line| - 1] == '\n' then "\r\n"
    else if Ends(line) then "\n"
    else ""
  }

  predicate Allowed(before: string, planned: string) {
    before == planned || (BotIndex(KeyOf(before)).Some? && planned == KeyOf(before) + "=" + Ending(before))
  }

  /** How many of the first `n` lines differ. */
  function Changed(before: seq<string>, planned: seq<string>, n: nat): nat
    requires n <= |before| && n <= |planned|
  {
    if n == 0 then 0 else Changed(before, planned, n - 1) + (if before[n - 1] != planned[n - 1] then 1 else 0)
  }

  ghost predicate Validated(before: seq<string>, planned: seq<string>) {
    && |before| == |planned|
    && (forall i | 0 <= i < |before| :: Allowed(before[i], planned[i]))
    && Changed(before, planned, |before|) == BOT_KEYS
  }

  method ValidatePlannedTransform(before: string, planned: string) returns (ok: bool)
    ensures ok <==> Validated(SplitLines(before), SplitLines(planned))
  {
    hide SplitLines, KeyOf, BotIndex, Ending;
    var beforeLines, plannedLines := SplitLines(before), SplitLines(planned);
    if |beforeLines| != |plannedLines| {
      return false;
    }
    var changed := 0;
    for i := 0 to |beforeLines|
      invariant changed == Changed(beforeLines, plannedLines, i)
      invariant forall j | 0 <= j < i :: Allowed(beforeLines[j], plannedLines[j])
    {
      var line, planned := beforeLines[i], plannedLines[i];
      if line != planned {
        var key := KeyOf(line);
        if BotIndex(key).None? || planned != key + "=" + Ending(line) {
          return false;
        }
        changed := changed + 1;
      }
    }
    ok := changed == BOT_KEYS;
  }

  /** The text to write, when one can be planned. */
  ghost function Plan(text: string): Option<string> {
    var planned := Neutralized(text);
    if planned.Some? && Validated(SplitLines(text), SplitLines(planned.value)) then planned else None
  }

  method PlanBotEnvironment(before: string) returns (planned: Option<string>)
    ensures planned == Plan(before)
  {
    hide *;
    planned := NeutralizeBotEnv(before);
    if planned.Some? {
      var ok := ValidatePlannedTransform(before, planned.value);
      PlanIs(before, planned.value);
      if !ok {
        planned := None;
      }
    } else {
      NoPlan(before);
    }
  }

  lemma PlanIs(text: string, planned: string)
    requires Neutralized(text) == Some(planned)
    ensures Plan(text) == if Validated(SplitLines(text), SplitLines(planned)) then Some(planned) else None
  {
  }

  lemma NoPlan(text: string)
    requires Neutralized(text).None?
    ensures Plan(text).None?
  {
  }

  // ----- the assignments of a file -----

  function Assigned(m: map<string, string>, line: string): map<string, string> {
    match Assigns(Bare(line))
    case Some(a) => m[a.name := a.value]
    case None => m
  }

  /** The assignments of the first `n` lines; later ones win. */
  function Environment(lines: seq<string>, n: nat): map<string, string>
    requires n <= |lines|
  {
    if n == 0 then map[] else Assigned(Environment(lines, n - 1), lines[n - 1])
  }

  function Assignments(text: string): map<string, string> {
    var lines := SplitLines(text);
    Environment(lines, |lines|)
  }

  method EnvAssignments(text: string) returns (values: map<string, string>)
    ensures values == Assignments(text)
  {
    hide SplitLines, Bare;
    var lines := SplitLines(text);
    values := map[];
    for i := 0 to |lines|
      invariant values == Environment(lines, i)
    {
      var line := Bare(lines[i]);
      if line == [] || line[0] == '#' {
        continue;
      }
      var a := Assigns(line);
      if a.Some? {
        values := values[a.value.name := a.value.value];
      }
    }
  }
}
