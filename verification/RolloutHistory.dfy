/**
  What every record of permitted commands guarantees, from the world it begins in to the last.
*/
module RolloutHistory {
  import opened RolloutWorld
  import opened RolloutHost
  import opened RolloutCommands

  /** A record of permitted commands that starts on a matched host. */
  ghost predicate History(trace: seq<Entry>, w: World) {
    Chained(trace, w) && Obedient(trace) && Inv(WorldAt(trace, w, 0))
  }

  lemma EntrySteps(e: Entry)
    requires Inv(e.before) && Permitted(e.command, e.Issued())
    ensures Inv(e.Issued()) && Inv(e.After()) && RowsKept(e.before, e.After())
  {
    ActsAreQuiet(e.acts, e.before);
    PermittedCommandIsSafe(e.command, e.fault, e.Issued());
  }

  lemma {:induction false} AlwaysMatched(trace: seq<Entry>, w: World, i: nat)
    requires History(trace, w) && i <= |trace|
    ensures Inv(WorldAt(trace, w, i))
  {
    hide Inv, Permitted, RowsKept;
    if i > 0 {
      AlwaysMatched(trace, w, i - 1);
      EntrySteps(trace[i - 1]);
      assert trace[i - 1].After() == WorldAt(trace, w, i);
    }
  }

  /** No role row that exists at one point of a history is missing at a later point. */
  lemma {:induction false} RowsSurvive(trace: seq<Entry>, w: World, i: nat, j: nat)
    requires History(trace, w) && i <= j <= |trace|
    ensures RowsKept(WorldAt(trace, w, i), WorldAt(trace, w, j))
    decreases j
  {
    hide Inv, Permitted;
    if i < j {
      RowsSurvive(trace, w, i, j - 1);
      AlwaysMatched(trace, w, j - 1);
      EntrySteps(trace[j - 1]);
      assert trace[j - 1].After() == WorldAt(trace, w, j);
    }
  }

  /**
    What one recorded command is allowed to be: it loses no row; Alembic runs beside no application
    and a downgrade meets only empty tables; containers are started only over their revision; and
    started code faces its own schema when the command meets the host and when it leaves it.
  */
  ghost predicate SafeEntry(e: Entry) {
    && Inv(e.Issued()) && Inv(e.After()) && RowsKept(e.before, e.After())
    && (e.command in {Upgrade, Downgrade} ==> NoneLive(e.Issued()) && NoneLive(e.After()))
    && (e.command == Downgrade ==> TablesEmpty(e.Issued()))
    && (e.command == Up ==> Permitted(Up, e.Issued()))
  }

  /** Every command of a history is safe. */
  lemma MigrationsRunAlone(trace: seq<Entry>, w: World, i: nat)
    requires History(trace, w) && i < |trace|
    ensures SafeEntry(trace[i])
  {
    hide Inv, RowsKept;
    AlwaysMatched(trace, w, i);
    EntrySteps(trace[i]);
    assert Permitted(trace[i].command, trace[i].Issued());
  }

  /** At every point, started rollback code faces 0052 and started release code faces 0054. */
  lemma CodeMeetsItsSchema(trace: seq<Entry>, w: World, i: nat, service: Service)
    requires History(trace, w) && i <= |trace|
    ensures var at := WorldAt(trace, w, i);
            var c := Named(service, at);
            Live(c) ==>
              && c.image in {Rollback, Release}
              && (c.image == Rollback ==> at.site.revision == FROM_ALEMBIC)
              && (c.image == Release ==> at.site.revision == TO_ALEMBIC)
  {
    AlwaysMatched(trace, w, i);
  }

  /**
    What was done between two moments of a host: the later record goes on from the earlier one and
    from the world of that moment, no role row was lost, and every new command was safe.
  */
  ghost predicate SafeBetween(was: seq<Entry>, before: World, now: seq<Entry>, after: World) {
    && was <= now && History(now, after)
    && WorldAt(now, after, |was|) == before
    && RowsKept(before, after)
    && forall i | |was| <= i < |now| :: SafeEntry(now[i])
  }

  /** Two moments of one record, with nothing but its entries between them. */
  lemma RecordGoesOn(was: seq<Entry>, before: World, now: seq<Entry>, after: World)
    requires was <= now && Chained(was, before) && History(now, after)
    requires WorldAt(was, before, 0) == WorldAt(now, after, 0)
    ensures SafeBetween(was, before, now, after)
  {
    hide Inv, RowsKept, SafeEntry;
    if was != [] {
      var last := |was| - 1;
      assert was[last] == now[last];
      assert was[last].After() == WorldAt(was, before, last + 1) == before;
      assert now[last].After() == WorldAt(now, after, last + 1);
    }
    RowsSurvive(now, after, |was|, |now|);
    forall i | |was| <= i < |now| ensures SafeEntry(now[i]) {
      MigrationsRunAlone(now, after, i);
    }
  }
}
