/**
  One run over a host that can be migrated, under a schedule in which every command simply works
  but for one, in terms of the schedule and of the record alone.
*/
module RolloutFaults {
  import opened RolloutWorld
  import opened RolloutHost
  import opened RolloutCommands
  import opened RolloutProtocol

  /** Some command of a record stops the applications. */
  ghost predicate Stops(trace: seq<Entry>) {
    exists i | 0 <= i < |trace| :: trace[i].command.Stop?
  }

  lemma SlotAt(trace: seq<Entry>, rest: seq<Slot>, schedule: seq<Slot>, k: nat)
    requires Slots(trace) + rest == schedule && k < |trace|
    ensures k < |schedule| && schedule[k] == Slot(trace[k].acts, trace[k].fault)
  {
    assert (Slots(trace) + rest)[k] == Slots(trace)[k];
  }

  /**
    Command `k` of the run may go in any way that leaves the database container, its volume and the
    environment file alone, and the applications may act before it. If the run never comes to it, it
    goes through. If it fails before it stops the applications, they are left alone under the old
    checkout. If it fails after that, exit status and end depend on the schema command `k` left.
  */
  method RunWithOneFault(w: World, schedule: seq<Slot>, k: nat) returns (host: Host, exit: Exit)
    requires Inv(w) && Migratable(w) && BothAbsent(w)
    requires |schedule| >= COMMANDS && SmoothBut(schedule, 0, k, w.site.identity)
    ensures host.Sound() && host.origin == w && Slots(host.trace) + host.schedule == schedule
    ensures exit in {Exited(0), Exited(1), Exited(2)}
    ensures |host.trace| <= k ==>
      |host.trace| == 49 && exit == Exited(0) && Coherent(host.world, Release, TO_ALEMBIC)
    ensures CommandsUpTo(host.trace, k)
    ensures k == 34 ==> SameSchema(w, host.trace[k].before)
    ensures k < |host.trace| ==> schedule[k] == Slot(host.trace[k].acts, host.trace[k].fault)
    ensures k < |host.trace| && !Stops(host.trace) ==>
      && exit != Exited(0) && Coherent(host.world, Rollback, FROM_ALEMBIC) && BothAbsent(host.world)
      && Ids(w.api.id, w.worker.id, host.world)
      && (schedule[k].acts == [] ==> host.world.api == w.api && host.world.worker == w.worker)
    ensures k < |host.trace| && Stops(host.trace) ==>
      || (exit == Exited(0) && Coherent(host.world, Release, TO_ALEMBIC) &&
          (schedule[k].fault.ok || host.trace[k].command.Read?))
      || (if Undoable(host.trace[k].After())
          then exit == Exited(0) && Coherent(host.world, Rollback, FROM_ALEMBIC) && BothRun(host.world)
          else exit == Exited(2) && NoneLive(host.world) && SameSchema(host.trace[k].After(), host.world))
  {
    hide Chained, Obedient, WorldAt, Inv, StopCount, Slots, SmoothBut, Migratable, BothAbsent, CommandsUpTo, Undoable,
      Coherent, SameSchema;
    host := new Host(w);
    assert host.trace == [];
    StopsCounted([], []);
    StartOf(schedule);
    host.schedule, host.smooth, host.odd := schedule, true, k;
    exit := Drive(host, schedule, k);
  }

  twostate lemma Ordered(host: Host)
    requires InOrder(host, 17) && old(host.trace) == []
    ensures CommandsUpTo(host.trace, host.odd)
    ensures host.odd == 34 ==> 34 < |host.trace| && SameSchema(old(host.world), host.trace[34].before)
  {
  }

  lemma Counted(host: Host)
    requires host.Sound()
    ensures host.stops == StopCount(host.trace) && StopCount([]) == 0
  {
  }

  /** The same on a host that is ready to start. */
  method Drive(host: Host, schedule: seq<Slot>, k: nat) returns (exit: Exit)
    requires host.Sound() && host.trace == [] && host.stops == 0
    requires host.Ready(COMMANDS) && Migratable(host.world) && BothAbsent(host.world)
    requires host.odd == k && host.schedule == schedule == host.Course()
    modifies host
    ensures host.Sound() && Slots(host.trace) + host.schedule == schedule
    ensures exit in {Exited(0), Exited(1), Exited(2)}
    ensures |host.trace| <= k ==>
      |host.trace| == 49 && exit == Exited(0) && Coherent(host.world, Release, TO_ALEMBIC)
    ensures CommandsUpTo(host.trace, k)
    ensures k == 34 ==> SameSchema(old(host.world), host.trace[k].before)
    ensures k < |host.trace| ==> schedule[k] == Slot(host.trace[k].acts, host.trace[k].fault)
    ensures k < |host.trace| && !Stops(host.trace) ==>
      && exit != Exited(0) && Coherent(host.world, Rollback, FROM_ALEMBIC) && BothAbsent(host.world)
      && Ids(old(host.world.api.id), old(host.world.worker.id), host.world)
      && (schedule[k].acts == [] ==>
           host.world.api == old(host.world.api) && host.world.worker == old(host.world.worker))
    ensures k < |host.trace| && Stops(host.trace) ==>
      || (exit == Exited(0) && Coherent(host.world, Release, TO_ALEMBIC) &&
          (schedule[k].fault.ok || host.trace[k].command.Read?))
      || (if Undoable(host.trace[k].After())
          then exit == Exited(0) && Coherent(host.world, Rollback, FROM_ALEMBIC) && BothRun(host.world)
          else exit == Exited(2) && NoneLive(host.world) && SameSchema(host.trace[k].After(), host.world))
  {
    hide Chained, Obedient, WorldAt, Inv, StopCount, Slots, SmoothBut, Coherent, Undoable, Host.Sound, Host.Calm;
    hide InOrder, CommandsUpTo;
    exit := RunRollout(host);
    Ordered(host);
    StopsCounted([], host.trace);
    Counted(host);
    if k < |host.trace| {
      SlotAt(host.trace, host.schedule, schedule, k);
    }
  }

  /** The commands that change something, as far as nothing went wrong before. */
  ghost predicate CommandsUpTo(trace: seq<Entry>, k: nat) {
    && (k >= 17 ==> |trace| > 17 && trace[17].command == Switch(Release))
    && (k >= 23 ==> |trace| > 23 && trace[23].command == Build)
    && (k >= 27 ==> |trace| > 27 && trace[27].command == Stop)
    && (k >= 34 ==> |trace| > 34 && trace[34].command == Upgrade)
    && (k >= 38 ==> |trace| > 38 && trace[38].command == Up)
  }

  /** A failed `alembic upgrade` that changed nothing is undone: the old code runs again. */
  method FailedUpgrade(w: World, schedule: seq<Slot>) returns (host: Host, exit: Exit)
    requires Inv(w) && Migratable(w) && BothAbsent(w)
    requires |schedule| >= COMMANDS && SmoothBut(schedule, 0, 34, w.site.identity)
    requires !schedule[34].fault.ok && !schedule[34].fault.reached
    ensures exit == Exited(0) && Coherent(host.world, Rollback, FROM_ALEMBIC) && BothRun(host.world)
  {
    hide Inv, SmoothBut, Chained, Obedient, WorldAt, Host.Sound, Slots;
    host, exit := RunWithOneFault(w, schedule, 34);
    NothingUpgraded(w, host.trace[34]);
    assert Stops(host.trace) by {
      assert host.trace[27].command.Stop?;
    }
  }

  lemma NothingUpgraded(w: World, e: Entry)
    requires e.command == Upgrade && !e.fault.ok && !e.fault.reached
    requires w.site.revision == FROM_ALEMBIC && BothAbsent(w) && SameSchema(w, e.before)
    ensures Undoable(e.After())
  {
    ActsAreQuiet(e.acts, e.before);
  }

  lemma StartOf(schedule: seq<Slot>)
    ensures Slots([]) + schedule == schedule && StopCount([]) == 0
    ensures Obedient([])
  {
    assert Slots([]) == [];
  }
}
