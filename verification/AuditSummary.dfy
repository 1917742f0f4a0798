/**
  The list of traces with their usage, and the summary of a window: two ways to add the same events.
*/
module AuditSummary {
  import opened AuditSanitizer
  import opened AuditBudget
  import opened Options
  import opened PythonText

  datatype Trace = Trace(id: string, workload: string, success: bool)

  const TOKEN_FIELDS: nat := 5
  const MAX_TRACE_LIST: int := 100

  function TokenKey(k: nat): string {
    match k
    case 0 => "input_tokens"
    case 1 => "cached_input_tokens"
    case 2 => "output_tokens"
    case 3 => "reasoning_tokens"
    case _ => "cache_write_tokens"
  }

  /** A number for each token field. */
  type Usage = u: seq<int> | |u| == TOKEN_FIELDS witness [0, 0, 0, 0, 0]

  function NoUsage(): Usage {
    seq(TOKEN_FIELDS, k => 0)
  }

  function Plus(a: Usage, b: Usage): Usage {
    seq(TOKEN_FIELDS, k requires 0 <= k < TOKEN_FIELDS => a[k] + b[k])
  }

  /** What one event adds. */
  function UsageOf(e: Event): Usage {
    if IsModelEvent(e.kind) then
      seq(TOKEN_FIELDS, k requires 0 <= k => StoredToken(Field(EntriesOf(e.metadata), TokenKey(k))))
    else NoUsage()
  }

  /** Usage and model calls of the events of some traces. */
  function UsageIn(events: seq<Event>, ids: set<string>): Usage {
    if events == [] then NoUsage()
    else
      var last := events[|events| - 1];
      var before := UsageIn(events[..|events| - 1], ids);
      if last.traceId in ids then Plus(before, UsageOf(last)) else before
  }

  function CallsIn(events: seq<Event>, ids: set<string>): nat {
    if events == [] then 0
    else
      var last := events[|events| - 1];
      CallsIn(events[..|events| - 1], ids) + (if last.traceId in ids && IsModelEvent(last.kind) then 1 else 0)
  }

  datatype Row = Row(trace: Trace, calls: nat, usage: Usage)

  /** The rows of some traces: each with the calls and the usage of its own events. */
  ghost predicate AreRows(rows: seq<Row>, traces: seq<Trace>, events: seq<Event>) {
    && |rows| == |traces|
    && forall i | 0 <= i < |rows| ::
         && rows[i].trace == traces[i]
         && rows[i].calls == CallsIn(events, {traces[i].id}) && rows[i].usage == UsageIn(events, {traces[i].id})
  }

  /** Add the token fields of one stored event. */
  method AddTokens(usage: Usage, metadata: Metadata) returns (r: Usage)
    ensures forall k | 0 <= k < TOKEN_FIELDS :: r[k] == usage[k] + StoredToken(Field(metadata, TokenKey(k)))
  {
    hide TokenKey;
    r := usage;
    for k := 0 to TOKEN_FIELDS
      invariant forall j | 0 <= j < k :: r[j] == usage[j] + StoredToken(Field(metadata, TokenKey(j)))
      invariant forall j | k <= j < TOKEN_FIELDS :: r[j] == usage[j]
    {
      r := r[k := r[k] + StoredToken(Field(metadata, TokenKey(k)))];
    }
  }

  lemma AddedTokens(usage: Usage, e: Event, r: Usage)
    requires IsModelEvent(e.kind)
    requires forall k | 0 <= k < TOKEN_FIELDS ::
               r[k] == usage[k] + StoredToken(Field(EntriesOf(e.metadata), TokenKey(k)))
    ensures r == Plus(usage, UsageOf(e))
  {
  }

  lemma NothingAdded(usage: Usage, e: Event)
    requires !IsModelEvent(e.kind)
    ensures Plus(usage, UsageOf(e)) == usage
  {
  }

  function UsageFor(usage: map<string, Usage>, key: string): Usage {
    if key in usage then usage[key] else NoUsage()
  }

  function CallsFor(calls: map<string, nat>, key: string): nat {
    if key in calls then calls[key] else 0
  }

  /** One row for each listed trace. */
  method ListTraces(traces: seq<Trace>, events: seq<Event>) returns (rows: seq<Row>)
    ensures AreRows(rows, traces, events)
  {
    hide UsageOf, Plus, IsModelEvent, NoUsage;
    var calls: map<string, nat> := map[];
    var usage: map<string, Usage> := map[];
    for i := 0 to |events|
      invariant forall id :: UsageFor(usage, id) == UsageIn(events[..i], {id})
      invariant forall id :: CallsFor(calls, id) == CallsIn(events[..i], {id})
    {
      var e := events[i];
      assert events[..i + 1][..i] == events[..i];
      if IsModelEvent(e.kind) {
        calls := calls[e.traceId := CallsFor(calls, e.traceId) + 1];
        var added := AddTokens(UsageFor(usage, e.traceId), EntriesOf(e.metadata));
        AddedTokens(UsageFor(usage, e.traceId), e, added);
        usage := usage[e.traceId := added];
      } else {
        NothingAdded(UsageFor(usage, e.traceId), e);
      }
    }
    assert events[..|events|] == events;
    rows := [];
    for i := 0 to |traces|
      invariant AreRows(rows, traces[..i], events)
    {
      rows := rows + [Row(traces[i], CallsFor(calls, traces[i].id), UsageFor(usage, traces[i].id))];
    }
    assert traces[..|traces|] == traces;
  }

  // ----- the summary -----

  ghost function IdsOf(traces: seq<Trace>): set<string> {
    set i | 0 <= i < |traces| :: traces[i].id
  }

  ghost function IdsWith(traces: seq<Trace>, workload: string): set<string> {
    set i | 0 <= i < |traces| && traces[i].workload == workload :: traces[i].id
  }

  ghost predicate DistinctIds(traces: seq<Trace>) {
    forall i, j | 0 <= i < j < |traces| :: traces[i].id != traces[j].id
  }

  const ASSISTANT: string := "assistant_interactive"

  predicate IsBackground(workload: string) {
    StartsWith(workload, "background_") || workload == "embedding"
  }

  /** How many of the traces have some workload. */
  function TracesWith(traces: seq<Trace>, workload: string): nat {
    if traces == [] then 0
    else TracesWith(traces[..|traces| - 1], workload) + (if traces[|traces| - 1].workload == workload then 1 else 0)
  }

  function Failures(traces: seq<Trace>): nat {
    if traces == [] then 0
    else Failures(traces[..|traces| - 1]) + (if traces[|traces| - 1].success then 0 else 1)
  }

  predicate IsToolCall(kind: string) {
    kind == "tool_call"
  }

  /** Tool calls of the events of some traces. */
  function ToolsIn(events: seq<Event>, ids: set<string>): nat {
    if events == [] then 0
    else
      var last := events[|events| - 1];
      ToolsIn(events[..|events| - 1], ids) + (if last.traceId in ids && IsToolCall(last.kind) then 1 else 0)
  }

  /** What counts as given. */
  predicate Truthy(v: Value) {
    match v
    case Null => false
    case Bool(b) => b
    case Int(i) => i != 0
    case Float(x) => x != 0.0
    case Str(s) => s != []
    case Bytes(size) => size > 0
    case Dict(entries) => entries != map[]
    case List(items) => items != []
    case Other(_) => true
  }

  /** The model an event names, as text. */
  function ModelOf(e: Event, text: Value -> string): Option<string> {
    var model := Field(EntriesOf(e.metadata), "model");
    if IsModelEvent(e.kind) && Truthy(model) then Some(text(model)) else None
  }

  /** Calls of one model among the events of some traces. */
  function ModelIn(events: seq<Event>, ids: set<string>, model: string, text: Value -> string): nat {
    if events == [] then 0
    else
      var last := events[|events| - 1];
      ModelIn(events[..|events| - 1], ids, model, text) +
      (if last.traceId in ids && ModelOf(last, text) == Some(model) then 1 else 0)
  }

  /** The mean and the largest of some counts, when there are any. */
  datatype Figures = Figures(average: Option<real>, maximum: Option<nat>)

  datatype TraceTally = TraceTally(
    byWorkload: map<string, nat>, background: map<string, nat>, assistantTurns: nat, failures: nat)

  datatype EventTally = EventTally(
    modelCalls: nat, toolCalls: nat, callsByWorkload: map<string, nat>, callsByModel: map<string, nat>,
    totals: Usage, totalsByWorkload: map<string, Usage>, rounds: map<string, nat>, tools: map<string, nat>)

  datatype Summary = Summary(traceCount: nat, traces: TraceTally, events: EventTally, rounds: Figures, tools: Figures)

  /** The tally of the traces, workload by workload. */
  ghost predicate TalliesTraces(t: TraceTally, traces: seq<Trace>) {
    && (forall w :: CallsFor(t.byWorkload, w) == TracesWith(traces, w))
    && (forall w :: CallsFor(t.background, w) == if IsBackground(w) then TracesWith(traces, w) else 0)
    && t.assistantTurns == TracesWith(traces, ASSISTANT) && t.failures == Failures(traces)
  }

  /** The tally of the events: in all, and for each workload, model and assistant trace. */
  ghost predicate TalliesEvents(t: EventTally, traces: seq<Trace>, events: seq<Event>, text: Value -> string) {
    && t.totals == UsageIn(events, IdsOf(traces)) && t.modelCalls == CallsIn(events, IdsOf(traces))
    && t.toolCalls == ToolsIn(events, IdsOf(traces))
    && (forall w :: UsageFor(t.totalsByWorkload, w) == UsageIn(events, IdsWith(traces, w)))
    && (forall w :: CallsFor(t.callsByWorkload, w) == CallsIn(events, IdsWith(traces, w)))
    && (forall m :: CallsFor(t.callsByModel, m) == ModelIn(events, IdsOf(traces), m, text))
    && (forall id | id in IdsWith(traces, ASSISTANT) ::
         CallsFor(t.rounds, id) == CallsIn(events, {id}) && CallsFor(t.tools, id) == ToolsIn(events, {id}))
  }

  /** The mean of some counts is their total over their number, and the largest is one of them. */
  ghost predicate AreFigures(f: Figures, counts: map<string, nat>, ids: set<string>, total: nat) {
    if ids == {} then f == Figures(None, None)
    else
      && f.average == Some(total as real / |ids| as real) && f.maximum.Some?
      && (forall id | id in ids :: CallsFor(counts, id) <= f.maximum.value)
      && (exists id | id in ids :: CallsFor(counts, id) == f.maximum.value)
  }

  /** The summary says what the traces and their events add up to. */
  ghost predicate Summarizes(s: Summary, traces: seq<Trace>, events: seq<Event>, text: Value -> string) {
    && s.traceCount == |traces| && TalliesTraces(s.traces, traces) && TalliesEvents(s.events, traces, events, text)
    && var assistant := IdsWith(traces, ASSISTANT);
       && AreFigures(s.rounds, s.events.rounds, assistant, CallsIn(events, assistant))
       && AreFigures(s.tools, s.events.tools, assistant, ToolsIn(events, assistant))
       && |assistant| == s.traces.assistantTurns
  }

  /** The map from ids to traces knows each trace. */
  ghost predicate MapsIds(byId: map<string, Trace>, traces: seq<Trace>) {
    && byId.Keys == IdsOf(traces)
    && forall i | 0 <= i < |traces| :: traces[i].id in byId && byId[traces[i].id] == traces[i]
  }

  lemma WorkloadOf(byId: map<string, Trace>, traces: seq<Trace>, id: string, w: string)
    requires MapsIds(byId, traces)
    ensures id in IdsOf(traces) <==> id in byId
    ensures id in IdsWith(traces, w) <==> id in byId && byId[id].workload == w
  {
  }

  // ----- one more event -----

  lemma UsageSnoc(events: seq<Event>, e: Event, ids: set<string>)
    ensures UsageIn(events + [e], ids) ==
            if e.traceId in ids then Plus(UsageIn(events, ids), UsageOf(e)) else UsageIn(events, ids)
    ensures CallsIn(events + [e], ids) ==
            CallsIn(events, ids) + if e.traceId in ids && IsModelEvent(e.kind) then 1 else 0
    ensures ToolsIn(events + [e], ids) ==
            ToolsIn(events, ids) + if e.traceId in ids && IsToolCall(e.kind) then 1 else 0
  {
    hide Plus, UsageOf, IsModelEvent, IsToolCall;
    assert (events + [e])[..|events|] == events;
  }

  lemma ModelSnoc(events: seq<Event>, e: Event, ids: set<string>, model: string, text: Value -> string)
    ensures ModelIn(events + [e], ids, model, text) ==
            ModelIn(events, ids, model, text) + if e.traceId in ids && ModelOf(e, text) == Some(model) then 1 else 0
  {
    hide ModelOf;
    assert (events + [e])[..|events|] == events;
  }

  function Bumped(counts: map<string, nat>, key: string): map<string, nat> {
    counts[key := CallsFor(counts, key) + 1]
  }

  lemma BumpedCounts(counts: map<string, nat>, key: string)
    ensures forall k :: CallsFor(Bumped(counts, key), k) == CallsFor(counts, k) + if k == key then 1 else 0
  {
  }

  lemma NoneCounted()
    ensures forall k :: CallsFor(map[], k) == 0
  {
  }

  function Raised(usage: map<string, Usage>, key: string, e: Event): map<string, Usage> {
    usage[key := Plus(UsageFor(usage, key), UsageOf(e))]
  }

  /** Count one event of a known trace. */
  method CountEvent(t: EventTally, trace: Trace, e: Event, text: Value -> string) returns (r: EventTally)
    ensures CountsEvent(t, trace, e, text, r)
  {
    hide ModelOf, UsageOf, Plus, IsModelEvent, NoUsage, IsToolCall, UsageFor, CallsFor;
    r := t;
    if IsModelEvent(e.kind) {
      r := r.(modelCalls := r.modelCalls + 1, callsByWorkload := Bumped(r.callsByWorkload, trace.workload));
      var model := ModelOf(e, text);
      if model.Some? {
        r := r.(callsByModel := Bumped(r.callsByModel, model.value));
      }
      var totals := AddTokens(t.totals, EntriesOf(e.metadata));
      AddedTokens(t.totals, e, totals);
      var ofWorkload := AddTokens(UsageFor(t.totalsByWorkload, trace.workload), EntriesOf(e.metadata));
      AddedTokens(UsageFor(t.totalsByWorkload, trace.workload), e, ofWorkload);
      r := r.(totals := totals, totalsByWorkload := r.totalsByWorkload[trace.workload := ofWorkload]);
      if trace.workload == ASSISTANT {
        r := r.(rounds := Bumped(r.rounds, trace.id));
      }
    } else {
      NoModel(e, text);
    }
    if IsToolCall(e.kind) {
      r := r.(toolCalls := r.toolCalls + 1);
      if trace.workload == ASSISTANT {
        r := r.(tools := Bumped(r.tools, trace.id));
      }
    }
  }

  /** What counting one event changes. */
  ghost predicate CountsEvent(t: EventTally, trace: Trace, e: Event, text: Value -> string, r: EventTally) {
    var model, tool := IsModelEvent(e.kind), IsToolCall(e.kind);
    && r.modelCalls == t.modelCalls + (if model then 1 else 0) && r.toolCalls == t.toolCalls + (if tool then 1 else 0)
    && r.callsByWorkload == (if model then Bumped(t.callsByWorkload, trace.workload) else t.callsByWorkload)
    && r.callsByModel ==
       (if ModelOf(e, text).Some? then Bumped(t.callsByModel, ModelOf(e, text).value) else t.callsByModel)
    && r.totals == (if model then Plus(t.totals, UsageOf(e)) else t.totals)
    && r.totalsByWorkload ==
       (if model then Raised(t.totalsByWorkload, trace.workload, e) else t.totalsByWorkload)
    && r.rounds == (if model && trace.workload == ASSISTANT then Bumped(t.rounds, trace.id) else t.rounds)
    && r.tools == (if tool && trace.workload == ASSISTANT then Bumped(t.tools, trace.id) else t.tools)
  }

  lemma NoModel(e: Event, text: Value -> string)
    requires !IsModelEvent(e.kind)
    ensures ModelOf(e, text).None?
  {
  }

  /** Counting an event of a known trace keeps the tally. */
  lemma EventCounted(t: EventTally, traces: seq<Trace>, events: seq<Event>, byId: map<string, Trace>, e: Event,
                     text: Value -> string, r: EventTally)
    requires MapsIds(byId, traces) && e.traceId in byId && TalliesEvents(t, traces, events, text)
    requires CountsEvent(t, byId[e.traceId], e, text, r) && byId[e.traceId].id == e.traceId
    ensures TalliesEvents(r, traces, events + [e], text)
  {
    hide UsageOf, Plus, IsModelEvent, IsToolCall, NoUsage, ModelOf, IdsOf, IdsWith, MapsIds;
    hide UsageIn, CallsIn, ToolsIn, ModelIn;
    WorkloadOf(byId, traces, e.traceId, ASSISTANT);
    UsageSnoc(events, e, IdsOf(traces));
    forall w
      ensures UsageFor(r.totalsByWorkload, w) == UsageIn(events + [e], IdsWith(traces, w))
      ensures CallsFor(r.callsByWorkload, w) == CallsIn(events + [e], IdsWith(traces, w))
    {
      WorkloadOf(byId, traces, e.traceId, w);
      UsageSnoc(events, e, IdsWith(traces, w));
      if !IsModelEvent(e.kind) {
        NothingAdded(UsageIn(events, IdsWith(traces, w)), e);
      }
    }
    if !IsModelEvent(e.kind) {
      NothingAdded(t.totals, e);
    }
    forall m ensures CallsFor(r.callsByModel, m) == ModelIn(events + [e], IdsOf(traces), m, text) {
      ModelSnoc(events, e, IdsOf(traces), m, text);
    }
    forall id | id in IdsWith(traces, ASSISTANT)
      ensures CallsFor(r.rounds, id) == CallsIn(events + [e], {id})
      ensures CallsFor(r.tools, id) == ToolsIn(events + [e], {id})
    {
      UsageSnoc(events, e, {id});
    }
  }

  /** An event of some other trace changes nothing. */
  lemma EventPassedOver(t: EventTally, traces: seq<Trace>, events: seq<Event>, byId: map<string, Trace>, e: Event,
                        text: Value -> string)
    requires MapsIds(byId, traces) && e.traceId !in byId && TalliesEvents(t, traces, events, text)
    ensures TalliesEvents(t, traces, events + [e], text)
  {
    hide UsageOf, Plus, IsModelEvent, IsToolCall, NoUsage, ModelOf, IdsOf, IdsWith, MapsIds;
    hide UsageIn, CallsIn, ToolsIn, ModelIn;
    WorkloadOf(byId, traces, e.traceId, ASSISTANT);
    UsageSnoc(events, e, IdsOf(traces));
    forall w
      ensures UsageIn(events, IdsWith(traces, w)) == UsageIn(events + [e], IdsWith(traces, w))
      ensures CallsIn(events, IdsWith(traces, w)) == CallsIn(events + [e], IdsWith(traces, w))
    {
      WorkloadOf(byId, traces, e.traceId, w);
      UsageSnoc(events, e, IdsWith(traces, w));
    }
    forall m ensures ModelIn(events, IdsOf(traces), m, text) == ModelIn(events + [e], IdsOf(traces), m, text) {
      ModelSnoc(events, e, IdsOf(traces), m, text);
    }
    forall id | id in IdsWith(traces, ASSISTANT)
      ensures CallsIn(events, {id}) == CallsIn(events + [e], {id})
      ensures ToolsIn(events, {id}) == ToolsIn(events + [e], {id})
    {
      UsageSnoc(events, e, {id});
    }
  }

  method TallyEvents(traces: seq<Trace>, byId: map<string, Trace>, events: seq<Event>, text: Value -> string)
    returns (t: EventTally)
    requires MapsIds(byId, traces) && forall id | id in byId :: byId[id].id == id
    ensures TalliesEvents(t, traces, events, text)
  {
    hide MapsIds, TalliesEvents, CountsEvent;
    t := EventTally(0, 0, map[], map[], NoUsage(), map[], map[], map[]);
    NoEvents(t, traces, text);
    assert events[..0] == [];
    for i := 0 to |events|
      invariant TalliesEvents(t, traces, events[..i], text)
    {
      assert events[..i + 1] == events[..i] + [events[i]];
      if events[i].traceId !in byId {
        EventPassedOver(t, traces, events[..i], byId, events[i], text);
        continue;
      }
      var r := CountEvent(t, byId[events[i].traceId], events[i], text);
      EventCounted(t, traces, events[..i], byId, events[i], text, r);
      t := r;
    }
    assert events[..|events|] == events;
  }

  lemma NoEvents(t: EventTally, traces: seq<Trace>, text: Value -> string)
    requires t == EventTally(0, 0, map[], map[], NoUsage(), map[], map[], map[])
    ensures TalliesEvents(t, traces, [], text)
  {
  }

  // ----- the traces -----

  lemma NoTraces()
    ensures MapsIds(map[], [])
  {
  }

  lemma MapsOneMore(byId: map<string, Trace>, traces: seq<Trace>, i: nat)
    requires i < |traces| && DistinctIds(traces) && MapsIds(byId, traces[..i])
    ensures MapsIds(byId[traces[i].id := traces[i]], traces[..i + 1])
  {
    var more := byId[traces[i].id := traces[i]];
    forall id ensures id in more.Keys <==> id in IdsOf(traces[..i + 1]) {
      if id in IdsOf(traces[..i]) {
        var j :| 0 <= j < i && traces[..i][j].id == id;
        assert traces[..i + 1][j].id == id;
      }
      if id in IdsOf(traces[..i + 1]) {
        var j :| 0 <= j < i + 1 && traces[..i + 1][j].id == id;
        assert j < i ==> traces[..i][j].id == id;
      }
      assert traces[..i + 1][i].id == traces[i].id;
    }
    var upto := traces[..i + 1];
    forall j | 0 <= j < |upto| ensures upto[j].id in more && more[upto[j].id] == upto[j] {
      if j < i {
        assert traces[..i][j] == traces[j];
      }
    }
  }

  lemma NoTracesCounted(traces: seq<Trace>)
    ensures (forall w :: TracesWith(traces[..0], w) == 0) && Failures(traces[..0]) == 0
  {
  }

  lemma TraceCounted(traces: seq<Trace>, i: nat)
    requires i < |traces|
    ensures Failures(traces[..i + 1]) == Failures(traces[..i]) + if traces[i].success then 0 else 1
    ensures forall w ::
      TracesWith(traces[..i + 1], w) == TracesWith(traces[..i], w) + if traces[i].workload == w then 1 else 0
  {
    assert traces[..i + 1][..i] == traces[..i];
  }

  method TallyTraces(traces: seq<Trace>) returns (t: TraceTally)
    ensures TalliesTraces(t, traces)
  {
    hide IsBackground, TracesWith, Failures, Bumped, CallsFor;
    NoneCounted();
    t := TraceTally(map[], map[], 0, 0);
    NoTracesCounted(traces);
    for i := 0 to |traces|
      invariant TalliesTraces(t, traces[..i])
    {
      TraceCounted(traces, i);
      var w := traces[i].workload;
      BumpedCounts(t.byWorkload, w);
      BumpedCounts(t.background, w);
      t := t.(byWorkload := Bumped(t.byWorkload, w));
      if w == ASSISTANT {
        t := t.(assistantTurns := t.assistantTurns + 1);
      }
      if IsBackground(w) {
        t := t.(background := Bumped(t.background, w));
      }
      if !traces[i].success {
        t := t.(failures := t.failures + 1);
      }
    }
    assert traces[..|traces|] == traces;
  }

  method ById(traces: seq<Trace>) returns (byId: map<string, Trace>)
    requires DistinctIds(traces)
    ensures MapsIds(byId, traces) && forall id | id in byId :: byId[id].id == id
  {
    hide MapsIds, DistinctIds;
    byId := map[];
    NoTraces();
    assert traces[..0] == [];
    for i := 0 to |traces|
      invariant MapsIds(byId, traces[..i]) && forall id | id in byId :: byId[id].id == id
    {
      MapsOneMore(byId, traces, i);
      byId := byId[traces[i].id := traces[i]];
    }
    assert traces[..|traces|] == traces;
  }

  // ----- the assistant figures -----

  /** The sum of the counts of some traces. */
  function SumOver(counts: map<string, nat>, ids: seq<string>): nat {
    if ids == [] then 0 else SumOver(counts, ids[..|ids| - 1]) + CallsFor(counts, ids[|ids| - 1])
  }

  /** The mean and the largest of the counts of some traces. */
  method FiguresOf(counts: map<string, nat>, ids: seq<string>) returns (f: Figures)
    ensures ids == [] ==> f == Figures(None, None)
    ensures ids != [] ==>
      && f.average == Some(SumOver(counts, ids) as real / |ids| as real) && f.maximum.Some?
      && (forall id | id in ids :: CallsFor(counts, id) <= f.maximum.value)
      && (exists id | id in ids :: CallsFor(counts, id) == f.maximum.value)
  {
    hide CallsFor;
    if ids == [] {
      return Figures(None, None);
    }
    var sum, largest: nat := 0, CallsFor(counts, ids[0]);
    for i := 0 to |ids|
      invariant sum == SumOver(counts, ids[..i])
      invariant forall k | 0 <= k < i :: CallsFor(counts, ids[k]) <= largest
      invariant exists id | id in ids :: CallsFor(counts, id) == largest
    {
      assert ids[..i + 1][..i] == ids[..i];
      var count := CallsFor(counts, ids[i]);
      sum := sum + count;
      if count > largest {
        largest := count;
      }
    }
    assert ids[..|ids|] == ids;
    f := Figures(Some(sum as real / |ids| as real), Some(largest));
  }

  /** The ids of the assistant traces, each once. */
  method AssistantIds(traces: seq<Trace>) returns (ids: seq<string>)
    requires DistinctIds(traces)
    ensures Lists(ids, IdsWith(traces, ASSISTANT)) && |ids| == TracesWith(traces, ASSISTANT)
  {
    hide DistinctIds, IdsWith;
    ids := [];
    NoIdsWith();
    assert traces[..0] == [];
    for i := 0 to |traces|
      invariant Lists(ids, IdsWith(traces[..i], ASSISTANT)) && |ids| == TracesWith(traces[..i], ASSISTANT)
    {
      assert traces[..i + 1][..i] == traces[..i];
      OneMoreId(traces, i, ASSISTANT);
      if traces[i].workload == ASSISTANT {
        ids := ids + [traces[i].id];
      }
    }
    assert traces[..|traces|] == traces;
  }

  /** A sequence holds the elements of a set, each once. */
  ghost predicate Lists(ids: seq<string>, s: set<string>) {
    (forall id :: id in ids <==> id in s) && forall i, j | 0 <= i < j < |ids| :: ids[i] != ids[j]
  }

  lemma NoIdsWith()
    ensures IdsWith([], ASSISTANT) == {}
  {
  }

  lemma OneMoreId(traces: seq<Trace>, i: nat, w: string)
    requires i < |traces| && DistinctIds(traces)
    ensures traces[i].id !in IdsWith(traces[..i], w)
    ensures IdsWith(traces[..i + 1], w) ==
            IdsWith(traces[..i], w) + if traces[i].workload == w then {traces[i].id} else {}
  {
    var before, upto := traces[..i], traces[..i + 1];
    forall id
      ensures id in IdsWith(upto, w) <==> id in IdsWith(before, w) || (traces[i].workload == w && id == traces[i].id)
    {
      if id in IdsWith(before, w) {
        var j :| 0 <= j < i && before[j].workload == w && before[j].id == id;
        assert upto[j].workload == w && upto[j].id == id;
      }
      if id in IdsWith(upto, w) {
        var j :| 0 <= j < i + 1 && upto[j].workload == w && upto[j].id == id;
        assert j < i ==> before[j].workload == w && before[j].id == id;
      }
      assert upto[i] == traces[i];
    }
    forall j | 0 <= j < i ensures before[j].id != traces[i].id {
      assert before[j] == traces[j];
    }
  }

  // ----- sums over sets of traces -----

  lemma PlusLaws(a: Usage, b: Usage, c: Usage)
    ensures Plus(a, NoUsage()) == a && Plus(NoUsage(), a) == a
    ensures Plus(Plus(a, b), c) == Plus(a, Plus(b, c)) == Plus(Plus(a, c), b)
  {
  }

  /** Events of one more trace. */
  lemma {:induction false} OneMoreTrace(events: seq<Event>, ids: set<string>, id: string)
    requires id !in ids
    ensures UsageIn(events, ids + {id}) == Plus(UsageIn(events, ids), UsageIn(events, {id}))
    ensures CallsIn(events, ids + {id}) == CallsIn(events, ids) + CallsIn(events, {id})
    ensures ToolsIn(events, ids + {id}) == ToolsIn(events, ids) + ToolsIn(events, {id})
  {
    hide Plus, UsageOf, NoUsage, IsModelEvent, IsToolCall;
    if events == [] {
      PlusLaws(NoUsage(), NoUsage(), NoUsage());
    } else {
      var before, last := events[..|events| - 1], events[|events| - 1];
      OneMoreTrace(before, ids, id);
      PlusLaws(UsageIn(before, ids), UsageOf(last), UsageIn(before, {id}));
      PlusLaws(UsageIn(before, ids), UsageIn(before, {id}), UsageOf(last));
    }
  }

  lemma {:induction false} NoTracesNoUsage(events: seq<Event>)
    ensures UsageIn(events, {}) == NoUsage() && CallsIn(events, {}) == 0 && ToolsIn(events, {}) == 0
  {
    if events != [] {
      NoTracesNoUsage(events[..|events| - 1]);
    }
  }

  /** Counted trace by trace, calls and tools add up to those of all the traces. */
  lemma {:induction false} SumOfTraces(t: EventTally, events: seq<Event>, ids: seq<string>, all: set<string>)
    requires Lists(ids, all)
    requires forall id | id in all ::
               CallsFor(t.rounds, id) == CallsIn(events, {id}) && CallsFor(t.tools, id) == ToolsIn(events, {id})
    ensures SumOver(t.rounds, ids) == CallsIn(events, all) && SumOver(t.tools, ids) == ToolsIn(events, all)
    ensures |all| == |ids|
    decreases |ids|
  {
    hide CallsFor, CallsIn, ToolsIn;
    if ids == [] {
      assert all == {};
      NoTracesNoUsage(events);
    } else {
      var n := |ids| - 1;
      var rest := all - {ids[n]};
      assert all == rest + {ids[n]};
      assert forall id :: id in ids[..n] <==> id in rest;
      SumOfTraces(t, events, ids[..n], rest);
      OneMoreTrace(events, rest, ids[n]);
    }
  }

  lemma NoneListed(ids: seq<string>, all: set<string>)
    requires Lists(ids, all)
    ensures ids == [] <==> all == {}
  {
    if ids == [] {
      assert forall id :: id !in all;
    } else {
      assert ids[0] in all;
    }
  }

  method BuildSummary(traces: seq<Trace>, events: seq<Event>, text: Value -> string) returns (s: Summary)
    requires DistinctIds(traces)
    ensures Summarizes(s, traces, events, text)
  {
    hide UsageIn, CallsIn, ToolsIn, ModelIn, IdsOf, IdsWith, DistinctIds;
    hide SumOver, TracesWith, CallsFor, UsageFor, Lists;
    var byId := ById(traces);
    var traceTally := TallyTraces(traces);
    var eventTally := TallyEvents(traces, byId, events, text);
    var ids := AssistantIds(traces);
    ghost var assistant := IdsWith(traces, ASSISTANT);
    SumOfTraces(eventTally, events, ids, assistant);
    NoneListed(ids, assistant);
    ListedOnce(ids, assistant);
    var rounds := FiguresOf(eventTally.rounds, ids);
    var tools := FiguresOf(eventTally.tools, ids);
    s := Summary(|traces|, traceTally, eventTally, rounds, tools);
  }

  lemma ListedOnce(ids: seq<string>, all: set<string>)
    requires Lists(ids, all)
    ensures forall id :: id in ids <==> id in all
  {
  }
}
