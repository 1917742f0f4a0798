/**
  The older recovery shape of the 0051 -> 0052 rollout, stated over the same host, and what the
  newer one can undo beyond it.
*/
module RolloutTheorems {
  import opened RolloutWorld
  import opened RolloutHost
  import opened RolloutCommands
  import opened RolloutProtocol

  /** What the 0052-shaped recovery can undo on a host where every command works. */
  predicate LayoutRecoverable(live: bool, migrationStarted: bool, w: World) {
    if live then w.site.revision == TO_ALEMBIC && BothEmpty(w)
    else if migrationStarted then BothEmpty(w)
    else true
  }

  method PlanLayoutRecovery(host: Host, live: bool, migrationStarted: bool) returns (o: Outcome<bool>)
    requires host.Sound()
    requires live ==> migrationStarted
    requires migrationStarted && !live ==> NoneLive(host.world)
    requires !migrationStarted ==> host.world.site.revision == FROM_ALEMBIC
    modifies host
    ensures host.Advanced(7)
    ensures o.Killed? ==> host.schedule == []
    ensures o == Ok(true) ==> NoneLive(host.world) && TablesEmpty(host.world)
    ensures o == Ok(false) ==> host.world.site.revision == FROM_ALEMBIC
    ensures old(host.Able(7)) ==> (o.Ok? <==> LayoutRecoverable(live, migrationStarted, old(host.world)))
  {
    if live {
      var _ :- ProveRollbackSafe(host);
    } else if migrationStarted {
      var _ :- ProveTablesEmpty(host);
    }
    o := Ok(migrationStarted);
  }

  /** The recovery of the older rollout: no look at the revision, downgrade whenever started. */
  method RecoverFailedLayoutRollout(host: Host, captured: Captured, live: bool, migrationStarted: bool)
    returns (exit: Exit)
    requires host.Sound()
    requires live ==> migrationStarted
    requires migrationStarted && !live ==> NoneLive(host.world)
    requires !migrationStarted ==> host.world.site.revision == FROM_ALEMBIC
    modifies host
    ensures host.Advanced(50)
    ensures exit.Dead? ==> host.schedule == []
    ensures exit == Exited(0) ==> Coherent(host.world, Rollback, FROM_ALEMBIC) && Replaced(captured, host.world)
    ensures old(host.Able(50) && Outdated(captured, host.world)) ==>
              exit == if LayoutRecoverable(live, migrationStarted, old(host.world)) then Exited(0) else Exited(2)
  {
    var plan := PlanLayoutRecovery(host, live, migrationStarted);
    match plan {
      case Killed => return Dead;
      case Failed(_) => return Exited(2); // break glass
      case Ok(_) =>
    }
    if plan.value {
      var downgraded := DowngradeSchema(host, true);
      match downgraded {
        case Killed => return Dead;
        case Failed(_) => return Exited(2);
        case Ok(_) =>
      }
    }
    var restored := RestoreOld(host, captured);
    exit := if restored.Killed? then Dead else if restored == Ok(true) then Exited(0) else Exited(2);
  }

  /** The role tables are there exactly above the starting revision. */
  predicate TablesFollowRevision(w: World) {
    && w.site.revision in {FROM_ALEMBIC, MIDDLE_ALEMBIC, TO_ALEMBIC}
    && (if w.site.revision == FROM_ALEMBIC then BothAbsent(w) else BothPresent(w))
  }

  /**
    Where tables follow the revision, the 0054 recovery undoes what the 0052 shape undoes and,
    besides, exactly the upgrade that changed nothing. Elsewhere the 0052 shape goes further
    exactly on empty tables under a revision no upgrade leaves them at.
  */
  lemma RecoveriesCompared(live: bool, migrationStarted: bool, w: World)
    ensures TablesFollowRevision(w) ==>
              (Recoverable(live, migrationStarted, w) <==>
                LayoutRecoverable(live, migrationStarted, w) || (!live && migrationStarted && UntouchedSchema(w)))
    ensures UntouchedSchema(w) ==> !LayoutRecoverable(live, true, w)
    ensures LayoutRecoverable(live, migrationStarted, w) && !Recoverable(live, migrationStarted, w) <==>
              !live && migrationStarted && BothEmpty(w) && w.site.revision !in {MIDDLE_ALEMBIC, TO_ALEMBIC}
  {
  }

  /**
    Both recoveries on the same failed run of two equal hosts where every command works, by their
    exit statuses: where tables follow the revision, the newer one restores what the older one
    does and, besides, exactly the upgrade that changed nothing, where the older one gives up.
  */
  method CompareRecoveries(newer: Host, older: Host, captured: Captured, live: bool, migrationStarted: bool)
    returns (a: Exit, b: Exit)
    requires newer != older && newer.Sound() && older.Sound() && newer.world == older.world
    requires newer.Able(50) && older.Able(50) && Outdated(captured, newer.world)
    requires live ==> migrationStarted
    requires migrationStarted && !live ==> NoneLive(newer.world)
    requires !migrationStarted ==> newer.world.site.revision == FROM_ALEMBIC
    modifies newer, older
    ensures a in {Exited(0), Exited(2)} && b in {Exited(0), Exited(2)}
    ensures old(TablesFollowRevision(newer.world)) ==>
              (a == Exited(0) <==>
                b == Exited(0) || (!live && migrationStarted && old(UntouchedSchema(newer.world))))
    ensures old(UntouchedSchema(newer.world)) && !live && migrationStarted ==> a == Exited(0) && b == Exited(2)
  {
    hide Host.Valid, Chained, Obedient, WorldAt;
    RecoveriesCompared(live, migrationStarted, newer.world);
    a := RecoverFailedRollout(newer, captured, live, migrationStarted);
    b := RecoverFailedLayoutRollout(older, captured, live, migrationStarted);
  }
}
