/**
  The budget, the list and the summary agree.
*/
module AuditTheorems {
  import opened AuditSanitizer
  import opened AuditBudget
  import opened AuditSummary
  import opened Options

  function SumRows(rows: seq<Row>): Usage {
    if rows == [] then NoUsage() else Plus(SumRows(rows[..|rows| - 1]), rows[|rows| - 1].usage)
  }

  function SumCalls(rows: seq<Row>): nat {
    if rows == [] then 0 else SumCalls(rows[..|rows| - 1]) + rows[|rows| - 1].calls
  }

  /** The rows of one workload. */
  function RowsOf(rows: seq<Row>, workload: string): seq<Row> {
    if rows == [] then []
    else
      var before := RowsOf(rows[..|rows| - 1], workload);
      if rows[|rows| - 1].trace.workload == workload then before + [rows[|rows| - 1]] else before
  }

  // ----- rows added up -----

  lemma IdsStep(traces: seq<Trace>, w: string)
    requires traces != [] && DistinctIds(traces)
    ensures
      var front, last := traces[..|traces| - 1], traces[|traces| - 1];
      && DistinctIds(front) && last.id !in IdsOf(front) && last.id !in IdsWith(front, w)
      && IdsOf(traces) == IdsOf(front) + {last.id}
      && IdsWith(traces, w) == (if last.workload == w then IdsWith(front, w) + {last.id} else IdsWith(front, w))
  {
    var n := |traces| - 1;
    var front, last := traces[..n], traces[n];
    forall id ensures id in IdsOf(traces) <==> id in IdsOf(front) + {last.id} {
      if id in IdsOf(front) {
        var j :| 0 <= j < n && front[j].id == id;
        assert traces[j].id == id;
      }
      if id in IdsOf(traces) {
        var j :| 0 <= j <= n && traces[j].id == id;
        assert j < n ==> front[j].id == id;
      }
    }
    forall id ensures id in IdsWith(traces, w) <==> id in IdsWith(front, w) || (last.workload == w && id == last.id) {
      if id in IdsWith(front, w) {
        var j :| 0 <= j < n && front[j].workload == w && front[j].id == id;
        assert traces[j].workload == w && traces[j].id == id;
      }
      if id in IdsWith(traces, w) {
        var j :| 0 <= j <= n && traces[j].workload == w && traces[j].id == id;
        assert j < n ==> front[j].workload == w && front[j].id == id;
      }
    }
  }

  /** The rows add up to the usage of all their traces, and of those of each workload. */
  lemma {:induction false} RowsAddUp(rows: seq<Row>, traces: seq<Trace>, events: seq<Event>, w: string)
    requires AreRows(rows, traces, events) && DistinctIds(traces)
    ensures SumRows(rows) == UsageIn(events, IdsOf(traces)) && SumCalls(rows) == CallsIn(events, IdsOf(traces))
    ensures SumRows(RowsOf(rows, w)) == UsageIn(events, IdsWith(traces, w))
    ensures SumCalls(RowsOf(rows, w)) == CallsIn(events, IdsWith(traces, w))
    ensures |RowsOf(rows, w)| == |IdsWith(traces, w)|
  {
    hide Plus, UsageIn, CallsIn, NoUsage, IdsOf, IdsWith, DistinctIds;
    if traces == [] {
      NoTracesNoUsage(events);
      NoIds(w);
    } else {
      var n := |traces| - 1;
      IdsStep(traces, w);
      RowsAddUp(rows[..n], traces[..n], events, w);
      OneMoreTrace(events, IdsOf(traces[..n]), traces[n].id);
      OneMoreTrace(events, IdsWith(traces[..n], w), traces[n].id);
      if traces[n].workload == w {
        RowsSnoc(RowsOf(rows[..n], w), rows[n]);
      }
    }
  }

  lemma NoIds(w: string)
    ensures IdsOf([]) == {} && IdsWith([], w) == {}
  {
  }

  lemma RowsSnoc(rows: seq<Row>, row: Row)
    ensures SumRows(rows + [row]) == Plus(SumRows(rows), row.usage)
    ensures SumCalls(rows + [row]) == SumCalls(rows) + row.calls
  {
    hide Plus;
    assert (rows + [row])[..|rows|] == rows;
  }

  // ----- the order of events does not matter -----

  lemma {:induction false} WithoutOne(events: seq<Event>, j: nat, ids: set<string>)
    requires j < |events|
    ensures
      var rest := events[..j] + events[j + 1..];
      && UsageIn(events, ids) ==
         (if events[j].traceId in ids then Plus(UsageIn(rest, ids), UsageOf(events[j])) else UsageIn(rest, ids))
      && CallsIn(events, ids) ==
         CallsIn(rest, ids) + (if events[j].traceId in ids && IsModelEvent(events[j].kind) then 1 else 0)
    decreases |events|
  {
    hide Plus, UsageOf, NoUsage, IsModelEvent, UsageIn, CallsIn;
    var n := |events| - 1;
    var front := events[..n];
    var rest := events[..j] + events[j + 1..];
    assert events == front + [events[n]];
    UsageSnoc(front, events[n], ids);
    if j == n {
      assert rest == front;
    } else {
      WithoutOne(front, j, ids);
      var shorter := front[..j] + front[j + 1..];
      assert rest == shorter + [events[n]];
      UsageSnoc(shorter, events[n], ids);
      PlusLaws(UsageIn(shorter, ids), UsageOf(events[j]), UsageOf(events[n]));
    }
  }

  /** The last element of one sequence, found in another with the same elements. */
  lemma SameElement(a: seq<Event>, b: seq<Event>) returns (j: nat)
    requires a != [] && multiset(a) == multiset(b)
    ensures j < |b| && b[j] == a[|a| - 1]
    ensures multiset(a[..|a| - 1]) == multiset(b[..j] + b[j + 1..])
  {
    var front, last := a[..|a| - 1], a[|a| - 1];
    assert a == front + [last];
    assert multiset(a) == multiset(front) + multiset{last};
    assert last in multiset(b);
    j :| 0 <= j < |b| && b[j] == last;
    assert b == b[..j] + [b[j]] + b[j + 1..];
    assert multiset(b) == multiset(b[..j]) + multiset{last} + multiset(b[j + 1..]);
    assert multiset(front) == multiset(a) - multiset{last};
    assert multiset(b[..j] + b[j + 1..]) == multiset(b) - multiset{last};
  }

  lemma {:induction false} AnyOrder(a: seq<Event>, b: seq<Event>, ids: set<string>)
    requires multiset(a) == multiset(b)
    ensures UsageIn(a, ids) == UsageIn(b, ids) && CallsIn(a, ids) == CallsIn(b, ids)
    decreases |a|
  {
    hide Plus, UsageOf, NoUsage, IsModelEvent;
    if a == [] {
      assert |multiset(b)| == 0;
      assert b == [];
    } else {
      var n := |a| - 1;
      var front, last := a[..n], a[n];
      var j := SameElement(a, b);
      var rest := b[..j] + b[j + 1..];
      AnyOrder(front, rest, ids);
      WithoutOne(b, j, ids);
    }
  }

  lemma SameTraces(a: seq<Trace>, b: seq<Trace>, w: string)
    requires multiset(a) == multiset(b)
    ensures IdsOf(a) == IdsOf(b) && IdsWith(a, w) == IdsWith(b, w)
  {
    assert forall t :: t in a <==> t in multiset(a);
    assert forall t :: t in b <==> t in multiset(b);
    IdsWithin(a, b, w);
    IdsWithin(b, a, w);
  }

  lemma IdsWithin(a: seq<Trace>, b: seq<Trace>, w: string)
    requires forall t | t in a :: t in b
    ensures IdsOf(a) <= IdsOf(b) && IdsWith(a, w) <= IdsWith(b, w)
  {
    forall id | id in IdsOf(a) ensures id in IdsOf(b) {
      var i :| 0 <= i < |a| && a[i].id == id;
      assert a[i] in b;
      var j :| 0 <= j < |b| && b[j] == a[i];
    }
    forall id | id in IdsWith(a, w) ensures id in IdsWith(b, w) {
      var i :| 0 <= i < |a| && a[i].workload == w && a[i].id == id;
      assert a[i] in b;
      var j :| 0 <= j < |b| && b[j] == a[i];
    }
  }

  // ----- list against summary -----

  /** What a limited query may answer: that many of the matching traces, or all when there are fewer. */
  ghost predicate Answers(listed: seq<Trace>, matching: seq<Trace>, limit: nat) {
    && multiset(listed) <= multiset(matching)
    && |listed| == (if |matching| < limit then |matching| else limit)
  }

  function EffectiveLimit(limit: int): nat {
    if limit < 1 then 1 else if limit > MAX_TRACE_LIST then MAX_TRACE_LIST else limit
  }

  lemma WithinLimit(listed: seq<Trace>, matching: seq<Trace>, limit: nat)
    requires Answers(listed, matching, limit) && |matching| <= limit
    ensures multiset(listed) == multiset(matching)
  {
    var left := multiset(matching) - multiset(listed);
    assert |multiset(listed)| == |listed| && |multiset(matching)| == |matching|;
    assert multiset(matching) == multiset(listed) + left;
    assert |left| == 0;
  }

  /**
    Within the list limit the rows add up to the totals of the summary, and the rows of each
    workload to the totals of that workload, in whatever order the database answers.
  */
  lemma ListMatchesSummary(listed: seq<Trace>, matching: seq<Trace>, limit: int, a: seq<Event>, b: seq<Event>,
                           rows: seq<Row>, s: Summary, text: Value -> string, w: string)
    requires Answers(listed, matching, EffectiveLimit(limit)) && |matching| <= EffectiveLimit(limit)
    requires DistinctIds(matching) && DistinctIds(listed) && multiset(a) == multiset(b)
    requires AreRows(rows, listed, a) && Summarizes(s, matching, b, text)
    ensures |rows| == s.traceCount && |RowsOf(rows, w)| == CallsFor(s.traces.byWorkload, w)
    ensures SumRows(rows) == s.events.totals && SumCalls(rows) == s.events.modelCalls
    ensures SumRows(RowsOf(rows, w)) == UsageFor(s.events.totalsByWorkload, w)
    ensures SumCalls(RowsOf(rows, w)) == CallsFor(s.events.callsByWorkload, w)
  {
    hide UsageIn, CallsIn, SumRows, SumCalls, RowsOf, IdsOf, IdsWith, DistinctIds, AreRows, AreFigures, TracesWith;
    WithinLimit(listed, matching, EffectiveLimit(limit));
    SameTraces(listed, matching, w);
    RowsAddUp(rows, listed, a, w);
    AnyOrder(a, b, IdsOf(matching));
    AnyOrder(a, b, IdsWith(matching, w));
    TracesAreIds(matching, w);
    SameLength(rows, listed, a, matching);
  }

  lemma SameLength(rows: seq<Row>, listed: seq<Trace>, events: seq<Event>, matching: seq<Trace>)
    requires AreRows(rows, listed, events) && multiset(listed) == multiset(matching)
    ensures |rows| == |matching|
  {
    assert |multiset(listed)| == |listed| && |multiset(matching)| == |matching|;
  }

  /** The rows of the assistant's traces show the mean number of rounds of the summary. */
  lemma RowsShowMean(listed: seq<Trace>, matching: seq<Trace>, limit: int, a: seq<Event>, b: seq<Event>,
                     rows: seq<Row>, s: Summary, text: Value -> string)
    requires Answers(listed, matching, EffectiveLimit(limit)) && |matching| <= EffectiveLimit(limit)
    requires DistinctIds(matching) && DistinctIds(listed) && multiset(a) == multiset(b)
    requires AreRows(rows, listed, a) && Summarizes(s, matching, b, text)
    ensures
      var ofAssistant := RowsOf(rows, ASSISTANT);
      s.rounds.average ==
      if ofAssistant == [] then None else Some(SumCalls(ofAssistant) as real / |ofAssistant| as real)
  {
    hide UsageIn, CallsIn, SumRows, SumCalls, RowsOf, IdsOf, IdsWith, DistinctIds;
    hide AreRows, TracesWith, TalliesEvents, TalliesTraces;
    WithinLimit(listed, matching, EffectiveLimit(limit));
    SameTraces(listed, matching, ASSISTANT);
    RowsAddUp(rows, listed, a, ASSISTANT);
    AnyOrder(a, b, IdsWith(matching, ASSISTANT));
  }

  /** There are as many traces of a workload as ids of such traces. */
  lemma {:induction false} TracesAreIds(traces: seq<Trace>, w: string)
    requires DistinctIds(traces)
    ensures TracesWith(traces, w) == |IdsWith(traces, w)|
  {
    hide IdsOf, IdsWith, DistinctIds;
    if traces == [] {
      NoIds(w);
    } else {
      IdsStep(traces, w);
      TracesAreIds(traces[..|traces| - 1], w);
    }
  }

  // ----- list against budget -----

  /** The stored events of one trace. */
  function EventsOf(events: seq<Event>, id: string): seq<Event> {
    if events == [] then []
    else
      var before := EventsOf(events[..|events| - 1], id);
      if events[|events| - 1].traceId == id then before + [events[|events| - 1]] else before
  }

  lemma InputAndOutput(e: Event)
    ensures UsageOf(e)[0] + UsageOf(e)[2] == StoredTokens(e)
  {
  }

  /** The input and output tokens of a row are what its stored events add up to. */
  lemma {:induction false} RowTokens(events: seq<Event>, id: string)
    ensures UsageIn(events, {id})[0] + UsageIn(events, {id})[2] == Recomputed(EventsOf(events, id))
  {
    hide UsageOf, StoredTokens;
    if events != [] {
      var last := events[|events| - 1];
      RowTokens(events[..|events| - 1], id);
      if last.traceId == id {
        RecomputedSnoc(EventsOf(events[..|events| - 1], id), last);
        InputAndOutput(last);
      }
    }
  }

  lemma {:induction false} OwnEvents(events: seq<Event>, id: string)
    requires forall i | 0 <= i < |events| :: events[i].traceId == id
    ensures EventsOf(events, id) == events
  {
    if events != [] {
      OwnEvents(events[..|events| - 1], id);
    }
  }

  lemma {:induction false} EventsOwn(events: seq<Event>, id: string)
    ensures forall i | 0 <= i < |EventsOf(events, id)| :: EventsOf(events, id)[i].traceId == id
  {
    if events != [] {
      EventsOwn(events[..|events| - 1], id);
    }
  }

  /** However the database orders the events, those of a trace add up to the same. */
  lemma SameRecomputed(events: seq<Event>, id: string, stored: seq<Event>)
    requires multiset(EventsOf(events, id)) == multiset(stored)
    requires forall i | 0 <= i < |stored| :: stored[i].traceId == id
    ensures Recomputed(EventsOf(events, id)) == Recomputed(stored)
  {
    hide UsageIn, CallsIn, Recomputed, EventsOf;
    var own := EventsOf(events, id);
    EventsOwn(events, id);
    OwnEvents(own, id);
    OwnEvents(stored, id);
    AnyOrder(own, stored, {id});
    RowTokens(own, id);
    RowTokens(stored, id);
  }

  /**
    The row of a trace shows the budget its run had counted exactly when the whole floats it
    recorded add up to the number of its true booleans; with clean fields it always does.
  */
  lemma RowIsBudget(t: ActiveTrace, rows: seq<Row>, traces: seq<Trace>, events: seq<Event>, i: nat)
    requires t.Valid() && AreRows(rows, traces, events) && i < |rows| && traces[i].id == t.id
    requires multiset(EventsOf(events, t.id)) == multiset(t.stored)
    ensures
      t.inFlightBudgetTokens == rows[i].usage[0] + rows[i].usage[2] <==>
      FloatTotal(t.recorded) == TruthTotal(t.recorded)
    ensures
      (forall k | 0 <= k < |t.recorded| :: Clean(t.recorded[k].Input()) && Clean(t.recorded[k].Output())) ==>
        t.inFlightBudgetTokens == rows[i].usage[0] + rows[i].usage[2]
  {
    hide UsageIn, CallsIn, EventsOf, Recomputed, FloatTotal, TruthTotal, ChargedTotal, TalliedTotal;
    hide StoredTokens, TalliedFor, Clean, Recorded.Input, Recorded.Output;
    RowTokens(events, t.id);
    assert forall k | 0 <= k < |t.stored| :: t.Stores(t.stored[k], k + 1, t.recorded[k]);
    SameRecomputed(events, t.id, t.stored);
    t.StoredAddUp(|t.stored|);
    assert t.stored[..|t.stored|] == t.stored && t.recorded[..|t.stored|] == t.recorded;
    TotalDifference(t.recorded);
    if forall k | 0 <= k < |t.recorded| :: Clean(t.recorded[k].Input()) && Clean(t.recorded[k].Output()) {
      CleanTotals(t.recorded);
    }
  }

  lemma CleanTotals(recorded: seq<Recorded>)
    requires forall k | 0 <= k < |recorded| :: Clean(recorded[k].Input()) && Clean(recorded[k].Output())
    ensures FloatTotal(recorded) == TruthTotal(recorded)
  {
    hide Clean, Balanced, ChargedTotal, TalliedTotal, FloatTotal, TruthTotal;
    forall k | 0 <= k < |recorded| ensures Balanced(recorded[k]) {
      EventDifference(recorded[k]);
    }
    AgreeThroughout(recorded);
    assert recorded[..|recorded|] == recorded;
    TotalDifference(recorded);
  }
}
