/**
  The running budget of an active trace, and the same number recomputed from the stored events.
*/
module AuditBudget {
  import opened AuditSanitizer

  type Metadata = map<string, Value>

  /** An event as it is stored. */
  datatype Event = Event(traceId: string, sequence: nat, kind: string, metadata: Value)

  predicate IsModelEvent(kind: string) {
    kind == "model_round" || kind == "model_round_failed"
  }

  /** The tokens a field reports to the budget: integers, and floats that are whole numbers. */
  function NumericToken(v: Value): (token: Value)
    ensures token.Null? || token.Int?
  {
    match v
    case Int(i) => v
    case Float(x) => if x == x.Floor as real then Int(x.Floor) else Null
    case _ => Null
  }

  function Field(metadata: Metadata, key: string): Value {
    if key in metadata then metadata[key] else Null
  }

  /** The tokens a field adds to a recomputed total: integers, and booleans as zero or one. */
  function StoredToken(v: Value): int {
    match v
    case Int(i) => i
    case Bool(b) => if b then 1 else 0
    case _ => 0
  }

  function TokenFields(): seq<string> {
    ["input_tokens", "output_tokens"]
  }

  function Charged(v: Value): int {
    var token := NumericToken(v);
    if token.Int? then token.i else 0
  }

  function BudgetTokens(kind: string, metadata: Metadata): int {
    if IsModelEvent(kind) then Charged(Field(metadata, "input_tokens")) + Charged(Field(metadata, "output_tokens"))
    else 0
  }

  method BudgetTokensFromMetadata(kind: string, metadata: Metadata) returns (tokens: int)
    ensures tokens == BudgetTokens(kind, metadata)
    ensures kind !in {"model_round", "model_round_failed"} ==> tokens == 0
    ensures kind in {"model_round", "model_round_failed"} ==>
      forall input, output |
        Field(metadata, "input_tokens") == Int(input) && Field(metadata, "output_tokens") == Int(output) ::
        tokens == input + output
  {
    if !IsModelEvent(kind) {
      return 0;
    }
    var charged, sawUsage := 0, false;
    var fields := TokenFields();
    for i := 0 to |fields|
      invariant charged == (if i > 0 then Charged(Field(metadata, fields[0])) else 0) +
                           (if i > 1 then Charged(Field(metadata, fields[1])) else 0)
      invariant !sawUsage ==> charged == 0
    {
      var token := NumericToken(Field(metadata, fields[i]));
      if token.Null? {
        continue;
      }
      charged := charged + token.i;
      sawUsage := true;
    }
    tokens := if sawUsage then charged else 0;
  }

  // ----- recomputing from stored events -----

  function EntriesOf(v: Value): Metadata {
    if v.Dict? then v.entries else map[]
  }

  /** What a stored event of a model call adds to the input and output tokens of its trace. */
  function StoredTokens(e: Event): int {
    var m := EntriesOf(e.metadata);
    if IsModelEvent(e.kind) then StoredToken(Field(m, "input_tokens")) + StoredToken(Field(m, "output_tokens")) else 0
  }

  /** The input and output tokens of a trace, from its stored events. */
  function Recomputed(events: seq<Event>): int {
    if events == [] then 0 else Recomputed(events[..|events| - 1]) + StoredTokens(events[|events| - 1])
  }

  /** One recorded event: its kind and its metadata as given. */
  datatype Recorded = Recorded(kind: string, metadata: Metadata) {
    function Input(): Value {
      Field(metadata, "input_tokens")
    }

    function Output(): Value {
      Field(metadata, "output_tokens")
    }
  }

  /** What an event adds to the running budget. */
  function ChargedFor(r: Recorded): int {
    BudgetTokens(r.kind, r.metadata)
  }

  /** What the same event adds when the budget is recomputed from what is stored. */
  function TalliedFor(r: Recorded): int {
    if IsModelEvent(r.kind) then StoredToken(r.Input()) + StoredToken(r.Output()) else 0
  }

  function ChargedTotal(recorded: seq<Recorded>): int {
    if recorded == [] then 0
    else ChargedTotal(recorded[..|recorded| - 1]) + ChargedFor(recorded[|recorded| - 1])
  }

  function TalliedTotal(recorded: seq<Recorded>): int {
    if recorded == [] then 0
    else TalliedTotal(recorded[..|recorded| - 1]) + TalliedFor(recorded[|recorded| - 1])
  }

  // ----- where the two differ -----

  /** The number a float stands for that the running budget counts: that of a whole one. */
  function WholeFloat(v: Value): int {
    if v.Float? && v.x == v.x.Floor as real then v.x.Floor else 0
  }

  /** A boolean that the recomputed budget counts. */
  function Truth(v: Value): int {
    if v == Bool(true) then 1 else 0
  }

  /** Neither a true boolean nor a whole float other than zero. */
  predicate Clean(v: Value) {
    v != Bool(true) && WholeFloat(v) == 0
  }

  function FloatsOf(r: Recorded): int {
    if IsModelEvent(r.kind) then WholeFloat(r.Input()) + WholeFloat(r.Output()) else 0
  }

  function TruthsOf(r: Recorded): int {
    if IsModelEvent(r.kind) then Truth(r.Input()) + Truth(r.Output()) else 0
  }

  function FloatTotal(recorded: seq<Recorded>): int {
    if recorded == [] then 0 else FloatTotal(recorded[..|recorded| - 1]) + FloatsOf(recorded[|recorded| - 1])
  }

  function TruthTotal(recorded: seq<Recorded>): int {
    if recorded == [] then 0 else TruthTotal(recorded[..|recorded| - 1]) + TruthsOf(recorded[|recorded| - 1])
  }

  /** The whole floats of an event add up to the number of its true booleans. */
  predicate Balanced(r: Recorded) {
    FloatsOf(r) == TruthsOf(r)
  }

  /** A field is counted alike by both exactly when it is neither true nor a whole float but zero. */
  lemma FieldDifference(v: Value)
    ensures Charged(v) - StoredToken(v) == WholeFloat(v) - Truth(v)
    ensures Charged(v) == StoredToken(v) <==> Clean(v)
  {
  }

  lemma EventDifference(r: Recorded)
    ensures ChargedFor(r) - TalliedFor(r) == FloatsOf(r) - TruthsOf(r)
    ensures Clean(r.Input()) && Clean(r.Output()) ==> Balanced(r)
    ensures IsModelEvent(r.kind) && Clean(r.Input()) && Balanced(r) ==> Clean(r.Output())
    ensures IsModelEvent(r.kind) && Clean(r.Output()) && Balanced(r) ==> Clean(r.Input())
  {
    FieldDifference(r.Input());
    FieldDifference(r.Output());
  }

  /** The running and the recomputed budget differ by the whole floats less the true booleans. */
  lemma {:induction false} TotalDifference(recorded: seq<Recorded>)
    ensures ChargedTotal(recorded) - TalliedTotal(recorded) == FloatTotal(recorded) - TruthTotal(recorded)
  {
    hide ChargedFor, TalliedFor, FloatsOf, TruthsOf;
    if recorded != [] {
      TotalDifference(recorded[..|recorded| - 1]);
      EventDifference(recorded[|recorded| - 1]);
    }
  }

  /** The two agree after every event exactly when every event is balanced. */
  lemma {:induction false} AgreeThroughout(recorded: seq<Recorded>)
    ensures (forall n | 0 <= n <= |recorded| :: ChargedTotal(recorded[..n]) == TalliedTotal(recorded[..n])) <==>
            (forall k | 0 <= k < |recorded| :: Balanced(recorded[k]))
  {
    hide ChargedTotal, TalliedTotal, Balanced;
    if forall n | 0 <= n <= |recorded| :: ChargedTotal(recorded[..n]) == TalliedTotal(recorded[..n]) {
      forall k | 0 <= k < |recorded| ensures Balanced(recorded[k]) {
        OneMoreEvent(recorded, k);
      }
    } else {
      var n :| 0 <= n <= |recorded| && ChargedTotal(recorded[..n]) != TalliedTotal(recorded[..n]);
      var k := FirstOdd(recorded, n);
    }
  }

  lemma OneMoreEvent(recorded: seq<Recorded>, k: nat)
    requires k < |recorded| && ChargedTotal(recorded[..k]) == TalliedTotal(recorded[..k])
    ensures ChargedTotal(recorded[..k + 1]) == TalliedTotal(recorded[..k + 1]) <==> Balanced(recorded[k])
  {
    hide ChargedFor, TalliedFor, FloatsOf, TruthsOf;
    assert recorded[..k + 1][..k] == recorded[..k];
    EventDifference(recorded[k]);
  }

  /** Where the two differ, an odd event lies before, and they part at the first one. */
  lemma {:induction false} FirstOdd(recorded: seq<Recorded>, n: nat) returns (k: nat)
    requires n <= |recorded| && ChargedTotal(recorded[..n]) != TalliedTotal(recorded[..n])
    ensures k < n && !Balanced(recorded[k]) && forall j | 0 <= j < k :: Balanced(recorded[j])
    ensures ChargedTotal(recorded[..k + 1]) != TalliedTotal(recorded[..k + 1])
  {
    hide Balanced;
    k := 0;
    while k < n && Balanced(recorded[k])
      invariant k <= n && forall j | 0 <= j < k :: Balanced(recorded[j])
      invariant ChargedTotal(recorded[..k]) == TalliedTotal(recorded[..k])
    {
      OneMoreEvent(recorded, k);
      k := k + 1;
    }
    OneMoreEvent(recorded, k);
  }

  /** Sanitizing metadata keeps what its token fields report. */
  lemma TokensSurvive(r: Recorded, metadata: Metadata, rules: Rules)
    requires forall key | key in TokenFields() :: Field(metadata, key) == Field(r.metadata, key) && !rules.secret(key)
    ensures BudgetTokens(r.kind, metadata) == ChargedFor(r)
    ensures StoredTokens(Event("", 0, r.kind, Sanitize(Dict(metadata), 0, rules))) == TalliedFor(r)
  {
    hide SanitizeText;
    var e := Event("", 0, r.kind, Sanitize(Dict(metadata), 0, rules));
    forall key | key in TokenFields()
      ensures StoredToken(Field(EntriesOf(e.metadata), key)) == StoredToken(Field(r.metadata, key))
    {
      if key in metadata {
        SanitizedToken(metadata[key], rules);
      }
    }
    assert "input_tokens" in TokenFields() && "output_tokens" in TokenFields();
  }

  lemma SanitizedToken(v: Value, rules: Rules)
    ensures StoredToken(Sanitize(v, 1, rules)) == StoredToken(v)
  {
    hide SanitizeText;
  }

  lemma RecomputedSnoc(events: seq<Event>, e: Event)
    ensures Recomputed(events + [e]) == Recomputed(events) + StoredTokens(e)
  {
    hide StoredTokens;
    assert (events + [e])[..|events|] == events;
  }

  lemma ChargedSnoc(recorded: seq<Recorded>, r: Recorded)
    ensures ChargedTotal(recorded + [r]) == ChargedTotal(recorded) + ChargedFor(r)
  {
    hide ChargedFor;
    assert (recorded + [r])[..|recorded|] == recorded;
  }

  /** The metadata handed over for storage: captured payloads are sanitized, null ones dropped. */
  function Kept(metadata: Metadata, capturePayloads: bool, rules: Rules): Metadata {
    if !capturePayloads then metadata
    else if Field(metadata, "payloads").Null? then metadata - {"payloads"}
    else metadata["payloads" := Sanitize(metadata["payloads"], 0, rules)]
  }

  class ActiveTrace {
    const id: string
    const rules: Rules
    const capturePayloads: bool
    var sequence: nat
    var inFlightBudgetTokens: int
    /** The stored events of this trace. */
    var stored: seq<Event>
    ghost var recorded: seq<Recorded>

    constructor (id: string, rules: Rules, capturePayloads: bool)
      ensures Valid() && stored == [] && recorded == []
      ensures this.id == id && this.rules == rules && this.capturePayloads == capturePayloads
    {
      this.id, this.rules, this.capturePayloads := id, rules, capturePayloads;
      sequence, inFlightBudgetTokens, stored, recorded := 0, 0, [], [];
    }

    /**
      Sequence numbers run from one, each stored event keeps the tokens of the recorded one, and the
      budget is what was charged for all of them.
    */
    ghost predicate Valid()
      reads this
    {
      && sequence == |stored| == |recorded|
      && (forall i | 0 <= i < |stored| :: Stores(stored[i], i + 1, recorded[i]))
      && inFlightBudgetTokens == ChargedTotal(recorded)
    }

    ghost predicate Stores(e: Event, sequence: nat, r: Recorded) {
      e.sequence == sequence && e.traceId == id && e.kind == r.kind && StoredTokens(e) == TalliedFor(r)
    }

    method RecordEvent(kind: string, metadata: Metadata)
      requires Valid() && (forall key | key in TokenFields() :: !rules.secret(key))
      modifies this
      ensures Valid()
      ensures recorded == old(recorded) + [Recorded(kind, metadata)]
      ensures stored == old(stored) +
              [Event(id, |old(stored)| + 1, kind, Sanitize(Dict(Kept(metadata, capturePayloads, rules)), 0, rules))]
      ensures EntriesOf(stored[|stored| - 1].metadata).Keys ==
              if capturePayloads && Field(metadata, "payloads").Null? then metadata.Keys - {"payloads"}
              else metadata.Keys
    {
      hide Sanitize, BudgetTokens, StoredTokens, ChargedFor, TalliedFor, ChargedTotal, EntriesOf, TokenFields;
      sequence := sequence + 1;
      var meta := metadata;
      if capturePayloads {
        var payloads := Field(meta, "payloads");
        meta := meta - {"payloads"};
        if !payloads.Null? {
          meta := meta["payloads" := Sanitize(payloads, 0, rules)];
        }
      }
      assert meta == Kept(metadata, capturePayloads, rules);
      ghost var r := Recorded(kind, metadata);
      PayloadsAside();
      TokensSurvive(r, meta, rules);
      var tokens := BudgetTokensFromMetadata(kind, meta);
      inFlightBudgetTokens := inFlightBudgetTokens + tokens;
      var event := Event(id, sequence, kind, Sanitize(Dict(meta), 0, rules));
      SameTokens(event, kind, Sanitize(Dict(meta), 0, rules));
      SanitizedKeys(meta, rules);
      ChargedSnoc(recorded, r);
      stored := stored + [event];
      recorded := recorded + [r];
    }

    /** The stored events add up to what was tallied for the recorded ones. */
    lemma {:induction false} StoredAddUp(n: nat)
      requires Valid() && n <= |stored|
      ensures Recomputed(stored[..n]) == TalliedTotal(recorded[..n])
    {
      hide StoredTokens, TalliedFor;
      if n > 0 {
        StoredAddUp(n - 1);
        assert stored[..n][..n - 1] == stored[..n - 1] && recorded[..n][..n - 1] == recorded[..n - 1];
        assert Stores(stored[n - 1], n, recorded[n - 1]);
      }
    }
  }

  lemma PayloadsAside()
    ensures forall key | key in TokenFields() :: key != "payloads"
  {
    assert |"payloads"| == 8 && |"input_tokens"| == 12 && |"output_tokens"| == 13;
  }

  lemma SameTokens(e: Event, kind: string, metadata: Value)
    requires e.kind == kind && e.metadata == metadata
    ensures StoredTokens(e) == StoredTokens(Event("", 0, kind, metadata))
  {
  }

  lemma SanitizedKeys(metadata: Metadata, rules: Rules)
    ensures EntriesOf(Sanitize(Dict(metadata), 0, rules)).Keys == metadata.Keys
  {
    hide SanitizeText;
  }

  // ----- two odd events -----

  lemma OneEvent(t: ActiveTrace)
    requires t.Valid() && |t.recorded| == 1
    ensures t.inFlightBudgetTokens == ChargedFor(t.recorded[0]) && Recomputed(t.stored) == TalliedFor(t.recorded[0])
  {
    hide ChargedFor, TalliedFor;
    t.StoredAddUp(1);
    assert t.stored[..1] == t.stored && t.recorded[..1] == t.recorded;
    assert t.recorded == [] + [t.recorded[0]];
    ChargedSnoc([], t.recorded[0]);
    assert t.recorded[..|t.recorded| - 1] == [];
  }

  /** A true boolean is not charged, yet counts one when the budget is recomputed. */
  lemma BooleanTokens(t: ActiveTrace)
    requires t.Valid() && t.recorded == [Recorded("model_round", map["input_tokens" := Bool(true)])]
    ensures t.inFlightBudgetTokens == 0 && Recomputed(t.stored) == 1
  {
    OneEvent(t);
    FieldsApart();
  }

  /** A whole float is charged, yet counts nothing when the budget is recomputed. */
  lemma FloatTokens(t: ActiveTrace)
    requires t.Valid() && t.recorded == [Recorded("model_round", map["input_tokens" := Float(5.0)])]
    ensures t.inFlightBudgetTokens == 5 && Recomputed(t.stored) == 0
  {
    OneEvent(t);
    FieldsApart();
  }

  lemma FieldsApart()
    ensures "input_tokens" != "output_tokens"
  {
    assert |"input_tokens"| != |"output_tokens"|;
  }
}
