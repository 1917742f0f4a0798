/**
  The rollout itself: preflight, migration, cut-over, and recovery from any failure, steered by
  the flags `stopped`, `migrationStarted` and `live`. Each contract says what holds under every
  fault schedule, what a healthy host gets when no command fails (`Able`), and what it gets when one
  at most does (`Ready`).
*/
module RolloutProtocol {
  import opened RolloutWorld
  import opened RolloutHost
  import opened RolloutCommands
  import opened RolloutHistory

  datatype Action = Idempotent | Migrate

  /** What the preflight recorded about the host. */
  datatype Captured = Captured(api: nat, worker: nat, identity: Identity)

  /** The process exit status, unless it was killed. */
  datatype Exit = Exited(code: nat) | Dead

  /** The most commands one run can issue. */
  const COMMANDS: nat := 128

  /** Checkout, schema and both started containers agree on one version. */
  predicate Coherent(w: World, ref: Ref, revision: nat) {
    && w.site.head == ref
    && w.site.revision == revision
    && Live(w.api) && w.api.image == ref
    && Live(w.worker) && w.worker.image == ref
  }

  predicate Recorded(captured: Captured, w: World) {
    captured == Captured(w.api.id, w.worker.id, w.site.identity)
  }

  predicate Replaced(captured: Captured, w: World) {
    && w.api.id != captured.api && w.worker.id != captured.worker
    && w.site.identity == captured.identity
  }

  method RolloutAction(head: Ref, revision: nat) returns (o: Outcome<Action>)
    ensures o == Ok(Idempotent) <==> head == Release && revision == TO_ALEMBIC
    ensures o == Ok(Migrate) <==> head == Rollback && revision == FROM_ALEMBIC
    ensures !o.Ok? ==> o == Failed(true)
  {
    if head == Release && revision == TO_ALEMBIC {
      return Ok(Idempotent);
    }
    o := if head == Rollback && revision == FROM_ALEMBIC then Ok(Migrate) else Failed(true);
  }

  /** Origin, worktree and the fetched reference must be as authorized. */
  method RequireRepository(host: Host) returns (o: Outcome<()>)
    requires host.Sound()
    modifies host
    ensures host.Calm(4)
    ensures o.Killed? ==> host.schedule == [] && |old(host.schedule)| < 4
    ensures old(host.Ready(4)) ==> host.Foreseen(4, o)
  {
    hide Host.Sound, Host.Valid, Host.Course, Chained, Obedient, WorldAt;
    var _ :- Look(host); // origin URL
    var _ :- Look(host); // clean worktree
    var _ :- Look(host); // fetch
    o := Look(host); // production ref
  }

  /** The checkout must be clean, fetched and one of the two authorized commits. */
  method RequireCheckout(host: Host) returns (o: Outcome<Ref>)
    requires host.Sound()
    modifies host
    ensures host.Calm(5)
    ensures o.Killed? ==> host.schedule == [] && |old(host.schedule)| < 5
    ensures o.Ok? ==> o.value == host.world.site.head != Other
    ensures old(host.Able(5) && host.world.site.head == Other) ==> o == Failed(true)
    ensures old(host.Ready(5) && host.world.site.head != Other) ==> host.Foreseen(5, o)
  {
    hide Host.Sound, Host.Valid, Host.Course, Chained, Obedient, WorldAt;
    var _ :- RequireRepository(host);
    var head :- Head(host);
    o := if head == Other then Failed(true) else Ok(head);
  }

  method ServiceIds(host: Host) returns (o: Outcome<(nat, nat)>)
    requires host.Sound()
    modifies host
    ensures host.Calm(2)
    ensures o.Killed? ==> host.schedule == [] && |old(host.schedule)| < 2
    ensures o.Ok? ==> Ids(o.value.0, o.value.1, host.world)
    ensures o.Ok? ==> Live(host.world.api) && Live(host.world.worker)
    ensures old(host.Ready(2) && BothRun(host.world)) ==> host.Foreseen(2, o)
  {
    hide Host.Sound, Host.Valid, Host.Course, Chained, Obedient, WorldAt;
    var api :- ServiceId(host, Api);
    var worker :- ServiceId(host, Worker);
    o := Ok((api, worker));
  }

  method RequireHealthy(host: Host, api: nat, worker: nat) returns (o: Outcome<()>)
    requires host.Sound()
    modifies host
    ensures host.Calm(3)
    ensures o.Killed? ==> host.schedule == [] && |old(host.schedule)| < 3
    ensures old(host.Ready(3) && BothRun(host.world) && Ids(api, worker, host.world)) ==> host.Foreseen(3, o)
  {
    hide Host.Sound, Host.Valid, Host.Course, Chained, Obedient, WorldAt;
    var _ :- RequireRunning(host, api, worker);
    o := Health(host, 1);
  }

  method RequireApplications(host: Host) returns (o: Outcome<(nat, nat)>)
    requires host.Sound()
    modifies host
    ensures host.Calm(6)
    ensures o.Killed? ==> host.schedule == [] && |old(host.schedule)| < 6
    ensures o.Ok? ==> Ids(o.value.0, o.value.1, host.world) && Live(host.world.api) && Live(host.world.worker)
    ensures old(host.Ready(6) && BothRun(host.world)) ==> host.Foreseen(6, o)
  {
    hide Host.Sound, Host.Valid, Host.Course, Chained, Obedient, WorldAt;
    var ids :- ServiceIds(host);
    var _ :- Look(host); // database running and healthy
    var _ :- RequireHealthy(host, ids.0, ids.1);
    o := Ok(ids);
  }

  /** The database must be healthy and both applications running and healthy. */
  method RequireServices(host: Host) returns (o: Outcome<Captured>)
    requires host.Sound()
    modifies host
    ensures host.Calm(9)
    ensures o.Killed? ==> host.schedule == [] && |old(host.schedule)| < 9
    ensures o.Ok? ==> Recorded(o.value, host.world) && Live(host.world.api) && Live(host.world.worker)
    ensures old(host.Ready(9) && BothRun(host.world)) ==> host.Foreseen(9, o)
  {
    hide Host.Sound, Host.Valid, Host.Course, Chained, Obedient, WorldAt;
    var container :- DbContainer(host);
    var ids :- RequireApplications(host);
    var volume :- DbVolume(host);
    var environment :- EnvHash(host);
    o := Ok(Captured(ids.0, ids.1, Identity(container, volume, environment)));
  }

  /** The environment the database is reached with, and the revision it answers. */
  method ReadDatabase(host: Host) returns (o: Outcome<nat>)
    requires host.Sound()
    modifies host
    ensures host.Calm(3)
    ensures o.Killed? ==> host.schedule == [] && |old(host.schedule)| < 3
    ensures o.Ok? ==> o.value == host.world.site.revision
    ensures old(host.Ready(3)) ==> host.Foreseen(3, o)
  {
    hide Host.Sound, Host.Valid, Host.Course, Chained, Obedient, WorldAt;
    var _ :- Look(host); // resolved and required environment
    var _ :- Look(host); // database authentication
    o := ReadRevision(host);
  }

  /** Checkout and schema are of one version. */
  predicate Authorized(w: World) {
    || (w.site.head == Rollback && w.site.revision == FROM_ALEMBIC)
    || (w.site.head == Release && w.site.revision == TO_ALEMBIC)
  }

  /** Everything the rollout looks at before it decides; nothing is changed. */
  method Preflight(host: Host) returns (o: Outcome<(Action, Captured)>)
    requires host.Sound()
    modifies host
    ensures host.Calm(17)
    ensures o.Killed? ==> host.schedule == [] && |old(host.schedule)| < 17
    ensures o.Ok? ==> Recorded(o.value.1, host.world) && Live(host.world.api) && Live(host.world.worker)
    ensures o.Ok? && o.value.0 == Idempotent ==>
              host.world.site.head == Release && host.world.site.revision == TO_ALEMBIC
    ensures o.Ok? && o.value.0 == Migrate ==>
              host.world.site.head == Rollback && host.world.site.revision == FROM_ALEMBIC
    ensures old(host.Ready(17) && BothRun(host.world) && Authorized(host.world)) ==> host.Foreseen(17, o)
    ensures old(host.Able(17) && BothRun(host.world) && !Authorized(host.world)) ==> o == Failed(true)
  {
    hide Host.Sound, Host.Valid, Host.Course, Chained, Obedient, WorldAt;
    var head :- RequireCheckout(host);
    var captured :- RequireServices(host);
    var revision :- ReadDatabase(host);
    var action :- RolloutAction(head, revision);
    o := Ok((action, captured));
  }

  method ConfirmIdempotent(host: Host, captured: Captured) returns (o: Outcome<()>)
    requires host.Sound()
    modifies host
    ensures host.Calm(7)
    ensures o.Killed? ==> host.schedule == [] && |old(host.schedule)| < 7
    ensures o.Ok? ==> host.world.site.head == Release && host.world.site.revision == TO_ALEMBIC
    ensures o.Ok? ==> host.world.site.identity == captured.identity
    ensures o.Ok? ==> BothPresent(host.world) && host.world.site.structured
    ensures old(host.Ready(7) && host.world.site.head == Release && host.world.site.revision == TO_ALEMBIC &&
                host.world.site.structured && BothPresent(host.world) &&
                host.world.site.identity == captured.identity) ==>
      host.Foreseen(6, o)
  {
    hide Host.Sound, Host.Valid, Host.Course, Chained, Obedient, WorldAt;
    var _ :- RequireIdentity(host, captured.identity);
    var _ :- RequireStructure(host, false);
    var head :- Head(host);
    if head != Release {
      return Failed(true);
    }
    o := RequireRevision(host, TO_ALEMBIC);
  }

  /** The resolved environment of the release, and that it keeps database and credential settings. */
  method RequireReleaseEnvironment(host: Host) returns (o: Outcome<()>)
    requires host.Sound()
    modifies host
    ensures host.Calm(2)
    ensures o.Killed? ==> host.schedule == [] && |old(host.schedule)| < 2
    ensures old(host.Ready(2)) ==> host.Struck() || host.Took(2, o)
  {
    hide Host.Sound, Host.Valid, Host.Course, Chained, Obedient, WorldAt;
    var _ :- Look(host);
    o := Look(host);
  }

  /** Select the release and look at its environment. */
  method SelectRelease(host: Host, captured: Captured) returns (o: Outcome<()>)
    requires host.Sound() && Recorded(captured, host.world)
    modifies host
    ensures host.Advanced(6)
    ensures o.Killed? ==> host.schedule == [] && |old(host.schedule)| < 6
    ensures host.world.site.revision == old(host.world.site.revision)
    ensures host.Steady() && host.Undisturbed() && host.Unwritten() && host.Unmoved() && host.stops == old(host.stops)
    ensures o.Ok? ==> host.world.site.head == Release && host.world.site.identity == captured.identity
    ensures old(host.Ready(6)) ==> host.Struck() || host.Took(6, o)
    ensures old(host.Ready(6)) ==> host.Reached(0, Switch(Release))
    ensures o.Ok? ==> host.Unharmed()
  {
    hide Host.Sound, Host.Valid, Host.Course, Chained, Obedient, WorldAt;
    var _ :- Prepare(host, Switch(Release));
    var _ :- RequireReleaseEnvironment(host);
    o := RequireIdentity(host, captured.identity);
  }

  /** Select the release and build its images while the old containers keep running. */
  method BuildRelease(host: Host, captured: Captured) returns (o: Outcome<()>)
    requires host.Sound() && Recorded(captured, host.world) && host.world.site.revision == FROM_ALEMBIC
    modifies host
    ensures host.Advanced(10)
    ensures o.Killed? ==> host.schedule == [] && |old(host.schedule)| < 10
    ensures host.world.site.revision == FROM_ALEMBIC
    ensures Ids(captured.api, captured.worker, host.world)
    ensures host.Steady() && host.Undisturbed() && host.Unwritten() && host.Unmoved() && host.stops == old(host.stops)
    ensures o.Ok? ==> host.world.site.apiTag == Release == host.world.site.workerTag
    ensures o.Ok? ==> host.world.site.head == Release
    ensures old(host.Ready(10)) ==> host.Struck() || host.Took(10, o)
    ensures old(host.Ready(10)) ==> host.Reached(0, Switch(Release)) && host.Reached(6, Build)
    ensures o.Ok? ==> host.Unharmed()
  {
    hide Host.Sound, Host.Valid, Host.Course, Chained, Obedient, WorldAt;
    var _ :- SelectRelease(host, captured);
    var _ :- Prepare(host, Build);
    o := RequireIdentity(host, captured.identity);
  }

  method StopApplications(host: Host, captured: Captured) returns (o: Outcome<()>)
    requires host.Sound() && host.world.site.revision == FROM_ALEMBIC
    requires Ids(captured.api, captured.worker, host.world)
    modifies host
    ensures host.Advanced(7)
    ensures o.Killed? ==> host.schedule == [] && |old(host.schedule)| < 7
    ensures host.world.site.revision == FROM_ALEMBIC && host.world.site.head == old(host.world.site.head)
    ensures Ids(captured.api, captured.worker, host.world)
    ensures host.world.site.apiTag == old(host.world.site.apiTag)
    ensures host.world.site.workerTag == old(host.world.site.workerTag)
    ensures o.Ok? ==> NoneLive(host.world)
    ensures host.Steady() && host.Unwritten() && (!o.Killed? ==> host.stops > old(host.stops))
    ensures old(host.Ready(7) && host.world.site.identity == captured.identity) ==> host.Struck() || host.Took(7, o)
    ensures old(host.Ready(7)) ==> host.Reached(0, Stop)
    ensures o.Ok? ==> host.Unharmed()
  {
    hide Host.Sound, Host.Valid, Host.Course, Chained, Obedient, WorldAt;
    var _ :- Prepare(host, Stop);
    var _ :- RequireStopped(host, captured.api, captured.worker);
    var _ :- Look(host); // database running and healthy
    o := RequireIdentity(host, captured.identity);
  }

  /** Upgrade the schema and prove it complete and empty. */
  method UpgradeSchema(host: Host) returns (o: Outcome<()>)
    requires host.Sound() && NoneLive(host.world)
    modifies host
    ensures host.Advanced(4)
    ensures o.Killed? ==> host.schedule == [] && |old(host.schedule)| < 4
    ensures NoneLive(host.world) && host.world.site.head == old(host.world.site.head)
    ensures host.world.api.id == old(host.world.api.id) && host.world.worker.id == old(host.world.worker.id)
    ensures host.world.site.apiTag == old(host.world.site.apiTag)
    ensures host.world.site.workerTag == old(host.world.site.workerTag)
    ensures host.smooth && host.Struck() ==> SameSchema(host.Met(), host.world)
    ensures host.stops == old(host.stops)
    ensures o.Ok? ==> host.world.site.revision == TO_ALEMBIC && host.world.site.structured && TablesEmpty(host.world)
    ensures old(host.Ready(4) && TablesEmpty(host.world)) ==> host.Struck() || host.Took(4, o)
    ensures old(host.Ready(4)) ==> host.Reached(0, Upgrade) && host.trace[|old(host.trace)|].before == old(host.world)
    ensures o.Ok? ==> host.Unharmed()
  {
    hide Host.Sound, Host.Valid, Host.Course, Chained, Obedient, WorldAt;
    var _ :- Alembic(host, Upgrade);
    var _ :- RequireRevision(host, TO_ALEMBIC);
    o := RequireStructure(host, true);
  }

  /** Start the release and check that it is new, running and healthy over 0054. */
  method GoLive(host: Host, captured: Captured) returns (o: Outcome<()>)
    requires host.Sound() && host.world.site.apiTag == Release == host.world.site.workerTag
    requires host.world.site.revision == TO_ALEMBIC && Ids(captured.api, captured.worker, host.world)
    modifies host
    ensures host.Advanced(40)
    ensures o.Killed? ==> host.schedule == [] && |old(host.schedule)| < 40
    ensures host.Steady() && host.stops == old(host.stops) && host.world.site.revision == TO_ALEMBIC
    ensures o.Ok? ==> Coherent(host.world, Release, TO_ALEMBIC)
    ensures o.Ok? ==> Replaced(captured, host.world)
    ensures old(host.Ready(40) && host.world.site.identity == captured.identity &&
                host.world.site.head == Release) ==>
      host.Struck() || host.Took(11, o)
    ensures old(host.Ready(40)) ==> host.Reached(0, Up)
    ensures o.Ok? ==> host.Unharmed()
  {
    hide Host.Valid, Host.Course, Chained, Obedient, WorldAt;
    var _ :- Start(host);
    o := ConfirmRelease(host, captured);
  }

  /** The identity must hold, and both containers must be new and running. */
  method RequireReplaced(host: Host, captured: Captured) returns (o: Outcome<()>)
    requires host.Sound()
    modifies host
    ensures host.Calm(7)
    ensures o.Killed? ==> host.schedule == [] && |old(host.schedule)| < 7
    ensures o.Ok? ==> Live(host.world.api) && Live(host.world.worker) && Replaced(captured, host.world)
    ensures old(host.Ready(7) && BothRun(host.world) && Replaced(captured, host.world)) ==>
      host.Struck() || host.Took(7, o)
  {
    hide Host.Sound, Host.Valid, Host.Course, Chained, Obedient, WorldAt;
    var _ :- RequireIdentity(host, captured.identity);
    var ids :- ServiceIds(host);
    if ids.0 == captured.api || ids.1 == captured.worker {
      return Failed(true);
    }
    o := RequireRunning(host, ids.0, ids.1);
  }

  /** Check that both started containers are new, running and healthy, and what they run over. */
  method ConfirmRelease(host: Host, captured: Captured) returns (o: Outcome<()>)
    requires host.Sound()
    modifies host
    ensures host.Calm(39)
    ensures o.Killed? ==> host.schedule == [] && |old(host.schedule)| < 39
    ensures o.Ok? ==> Live(host.world.api) && Live(host.world.worker) && Replaced(captured, host.world)
    ensures o.Ok? ==> host.world.site.revision == TO_ALEMBIC && host.world.site.head == Release
    ensures old(host.Ready(39) && BothRun(host.world) && Replaced(captured, host.world) &&
                host.world.site.revision == TO_ALEMBIC && host.world.site.head == Release) ==>
      host.Struck() || host.Took(10, o)
  {
    hide Host.Sound, Host.Valid, Host.Course, Chained, Obedient, WorldAt;
    var _ :- RequireReplaced(host, captured);
    var _ :- Health(host, 30);
    var _ :- RequireRevision(host, TO_ALEMBIC);
    var head :- Head(host);
    o := if head == Release then Ok(()) else Failed(true);
  }

  /** Over 0052 no release code is started. */
  lemma OldCode(host: Host)
    requires host.Sound() && host.world.site.revision == FROM_ALEMBIC
    ensures !ReleaseLive(host.world)
  {
  }

  /** The guarded part of a migrating run; the flags tell a failure how far it got. */
  method Attempt(host: Host, captured: Captured)
    returns (o: Outcome<()>, stopped: bool, migrationStarted: bool, live: bool)
    requires host.Sound() && Recorded(captured, host.world) && host.world.site.revision == FROM_ALEMBIC
    modifies host
    ensures host.Advanced(61)
    ensures o.Killed? ==> host.schedule == [] && |old(host.schedule)| < 61
    ensures live ==> migrationStarted
    ensures o.Ok? ==> live
    ensures migrationStarted ==> stopped
    ensures stopped && !migrationStarted ==> host.world.site.revision == FROM_ALEMBIC
    ensures migrationStarted && !live ==> NoneLive(host.world)
    ensures o.Ok? ==> Coherent(host.world, Release, TO_ALEMBIC) && Replaced(captured, host.world)
    ensures live && !o.Ok? ==> host.world.site.revision == TO_ALEMBIC
    ensures !stopped ==> host.stops == old(host.stops) && host.Undisturbed() && host.Unmoved()
    ensures !migrationStarted ==> host.Unwritten() && host.world.site.revision == FROM_ALEMBIC
    ensures stopped && !o.Killed? ==> host.stops > old(host.stops)
    ensures old(host.Ready(61) && TablesEmpty(host.world)) ==>
      if host.Struck() then o.Ok? || SameSchema(host.Met(), host.world) else host.Took(32, o)
    ensures old(host.Ready(61) && TablesEmpty(host.world)) ==>
      && host.Reached(0, Switch(Release)) && host.Reached(6, Build) && host.Reached(10, Stop)
      && host.Reached(17, Upgrade) && host.Reached(21, Up)
    ensures old(host.Ready(61)) && host.odd == |old(host.trace)| + 17 ==>
      host.odd < |host.trace| && SameSchema(old(host.world), host.trace[host.odd].before)
    ensures o.Ok? ==> host.Unharmed()
  {
    hide Host.Sound, Host.Valid, Host.Course, Chained, Obedient, WorldAt;
    OldCode(host);
    stopped, migrationStarted, live := false, false, false;
    var _ :- BuildRelease(host, captured);
    stopped := true;
    var _ :- StopApplications(host, captured);
    migrationStarted := true;
    var _ :- UpgradeSchema(host);
    live := true;
    o := GoLive(host, captured);
  }

  /** Stop whatever runs now. */
  method StopCurrent(host: Host) returns (o: Outcome<()>)
    requires host.Sound()
    modifies host
    ensures host.Advanced(5)
    ensures o.Killed? ==> host.schedule == [] && |old(host.schedule)| < 5
    ensures o.Ok? ==> NoneLive(host.world)
    ensures old(host.Able(5)) ==> o.Ok? && host.Steady()
    ensures old(host.Able(5)) ==> host.Took(5, o)
  {
    hide Host.Sound, Host.Valid, Host.Course, Chained, Obedient, WorldAt;
    var _ :- Prepare(host, Stop);
    var api :- CurrentServiceId(host, Api);
    var worker :- CurrentServiceId(host, Worker);
    o := RequireStopped(host, api, worker);
  }

  /** After a cut-over: stop whatever runs now and prove that nothing was written. */
  method ProveRollbackSafe(host: Host) returns (o: Outcome<()>)
    requires host.Sound()
    modifies host
    ensures host.Advanced(7)
    ensures o.Killed? ==> host.schedule == [] && |old(host.schedule)| < 7
    ensures o.Ok? ==> NoneLive(host.world) && BothEmpty(host.world) && host.world.site.revision == TO_ALEMBIC
    ensures old(host.Able(7)) ==>
              (o.Ok? <==> old(BothEmpty(host.world) && host.world.site.revision == TO_ALEMBIC))
    ensures old(host.Able(7)) ==> NoneLive(host.world) && SameSchema(old(host.world), host.world)
    ensures old(host.Able(7)) && o.Ok? ==> host.Took(7, o)
  {
    hide Host.Sound, Host.Valid, Host.Course, Chained, Obedient, WorldAt;
    var _ :- StopCurrent(host);
    var _ :- RequireRevision(host, TO_ALEMBIC);
    o := ProveTablesEmpty(host);
  }

  datatype Classified = Untouched | MigratedEmpty

  predicate UntouchedSchema(w: World) {
    w.site.revision == FROM_ALEMBIC && BothAbsent(w)
  }

  predicate MigratedSchema(w: World) {
    w.site.revision in {MIDDLE_ALEMBIC, TO_ALEMBIC} && BothEmpty(w)
  }

  /** A failed upgrade either changed nothing, or left both tables behind, empty. */
  method ClassifyFailedMigration(host: Host, revision: nat) returns (o: Outcome<Classified>)
    requires host.Sound() && revision == host.world.site.revision
    modifies host
    ensures host.Calm(2)
    ensures o.Killed? ==> host.schedule == [] && |old(host.schedule)| < 2
    ensures o == Ok(Untouched) ==> UntouchedSchema(host.world)
    ensures o == Ok(MigratedEmpty) ==> MigratedSchema(host.world)
    ensures old(host.Able(2)) ==> (o.Ok? <==> old(UntouchedSchema(host.world) || MigratedSchema(host.world)))
    ensures old(host.Able(2)) && o.Ok? ==> host.Took(if revision == FROM_ALEMBIC then 1 else 2, o)
  {
    hide Host.Sound, Host.Valid, Host.Course, Chained, Obedient, WorldAt;
    if revision !in {FROM_ALEMBIC, MIDDLE_ALEMBIC, TO_ALEMBIC} {
      return Failed(true);
    }
    var presence :- TablePresence(host);
    if revision == FROM_ALEMBIC {
      return if presence == (false, false) then Ok(Untouched) else Failed(true);
    }
    if presence != (true, true) {
      return Failed(true);
    }
    var _ :- ProveTablesEmpty(host);
    o := Ok(MigratedEmpty);
  }

  method DowngradeSchema(host: Host, live: bool) returns (o: Outcome<()>)
    requires host.Sound() && NoneLive(host.world) && TablesEmpty(host.world)
    modifies host
    ensures host.Advanced(3)
    ensures o.Killed? ==> host.schedule == [] && |old(host.schedule)| < 3
    ensures o.Ok? ==> host.world.site.revision == FROM_ALEMBIC
    ensures o.Ok? && !live ==> BothAbsent(host.world)
    ensures old(host.Able(3)) ==> o.Ok?
    ensures old(host.Able(3)) ==> host.Took(if live then 2 else 3, o)
  {
    hide Host.Sound, Host.Valid, Host.Course, Chained, Obedient, WorldAt;
    var _ :- Alembic(host, Downgrade);
    var _ :- RequireRevision(host, FROM_ALEMBIC);
    if !live {
      var _ :- ProveTablesAbsent(host);
    }
    o := Ok(());
  }

  /** Check out, build and start the rollback code. */
  method StartRollback(host: Host) returns (o: Outcome<()>)
    requires host.Sound() && host.world.site.revision == FROM_ALEMBIC
    modifies host
    ensures host.Advanced(3)
    ensures o.Killed? ==> host.schedule == [] && |old(host.schedule)| < 3
    ensures host.world.site.revision == FROM_ALEMBIC
    ensures o.Ok? ==> host.world.site.head == host.world.api.image == host.world.worker.image == Rollback
    ensures o.Ok? ==> host.world.api.id >= old(host.world.site.nextId)
    ensures o.Ok? ==> host.world.worker.id >= old(host.world.site.nextId)
    ensures old(host.Able(3)) ==> o.Ok? && BothRun(host.world)
    ensures old(host.Able(3)) ==> host.Took(3, o)
  {
    hide Host.Sound, Host.Valid, Host.Course, Chained, Obedient, WorldAt;
    var _ :- Prepare(host, Switch(Rollback));
    var _ :- Prepare(host, Build);
    o := Start(host);
  }

  /** Whether the identity holds and neither container is the recorded one. */
  method ContainersReplaced(host: Host, captured: Captured) returns (o: Outcome<bool>)
    requires host.Sound()
    modifies host
    ensures host.Calm(5)
    ensures o.Killed? ==> host.schedule == [] && |old(host.schedule)| < 5
    ensures o == Ok(true) ==> Replaced(captured, host.world) && Live(host.world.api) && Live(host.world.worker)
    ensures old(host.Able(5) && BothRun(host.world) && Replaced(captured, host.world)) ==> o == Ok(true)
    ensures old(host.Able(5)) && o == Ok(true) ==> host.Took(5, o)
  {
    hide Host.Sound, Host.Valid, Host.Course, Chained, Obedient, WorldAt;
    var same :- IdentityHolds(host, captured.identity);
    if !same {
      return Ok(false);
    }
    var api :- ServiceId(host, Api);
    if api == captured.api {
      return Ok(false);
    }
    var worker :- ServiceId(host, Worker);
    o := Ok(worker != captured.worker);
  }

  /** Check the restored code; `Ok(false)` and errors both mean that the restore failed. */
  method ConfirmRollback(host: Host, captured: Captured) returns (o: Outcome<bool>)
    requires host.Sound()
    modifies host
    ensures host.Calm(37)
    ensures o.Killed? ==> host.schedule == [] && |old(host.schedule)| < 37
    ensures o == Ok(true) ==> Live(host.world.api) && Live(host.world.worker)
    ensures o == Ok(true) ==> host.world.site.revision == FROM_ALEMBIC
    ensures o == Ok(true) ==> Replaced(captured, host.world)
    ensures old(host.Able(37) && BothRun(host.world) && Replaced(captured, host.world) &&
                host.world.site.revision == FROM_ALEMBIC)
            ==> o == Ok(true)
    ensures old(host.Able(37)) && o == Ok(true) ==> host.Took(8, o)
  {
    hide Host.Sound, Host.Valid, Host.Course, Chained, Obedient, WorldAt;
    var replaced :- ContainersReplaced(host, captured);
    if !replaced {
      return Ok(false);
    }
    var _ :- Look(host); // database running and healthy
    var _ :- Health(host, 30);
    var _ :- RequireRevision(host, FROM_ALEMBIC);
    o := Ok(true);
  }

  /** The recorded containers are older than anything a restore can start. */
  predicate Outdated(captured: Captured, w: World) {
    captured.api < w.site.nextId && captured.worker < w.site.nextId && captured.identity == w.site.identity
  }

  method RestoreOld(host: Host, captured: Captured) returns (o: Outcome<bool>)
    requires host.Sound() && host.world.site.revision == FROM_ALEMBIC
    modifies host
    ensures host.Advanced(40)
    ensures o.Killed? ==> host.schedule == [] && |old(host.schedule)| < 40
    ensures o == Ok(true) ==> Coherent(host.world, Rollback, FROM_ALEMBIC) && Replaced(captured, host.world)
    ensures old(host.Able(40) && Outdated(captured, host.world)) ==> o == Ok(true) && BothRun(host.world)
    ensures old(host.Able(40)) && o == Ok(true) ==> host.Took(11, o)
  {
    hide Host.Sound, Host.Valid, Host.Course, Chained, Obedient, WorldAt;
    var _ :- StartRollback(host);
    o := ConfirmRollback(host, captured);
  }

  /** On a host where every command works, which failed runs the recovery can undo. */
  predicate Recoverable(live: bool, migrationStarted: bool, w: World) {
    if live then w.site.revision == TO_ALEMBIC && BothEmpty(w)
    else if migrationStarted then UntouchedSchema(w) || MigratedSchema(w)
    else true
  }

  /** Decide how a failed run is undone; `Ok(true)` asks for a downgrade first. */
  method PlanRecovery(host: Host, live: bool, migrationStarted: bool) returns (o: Outcome<bool>)
    requires host.Sound()
    requires live ==> migrationStarted
    requires migrationStarted && !live ==> NoneLive(host.world)
    requires !migrationStarted ==> host.world.site.revision == FROM_ALEMBIC
    modifies host
    ensures host.Advanced(7)
    ensures o.Killed? ==> host.schedule == [] && |old(host.schedule)| < 7
    ensures o == Ok(true) ==> NoneLive(host.world) && TablesEmpty(host.world)
    ensures o == Ok(false) ==> host.world.site.revision == FROM_ALEMBIC
    ensures old(host.Able(7)) ==> (o.Ok? <==> Recoverable(live, migrationStarted, old(host.world)))
    ensures old(host.Able(7)) && !o.Ok? ==> NoneLive(host.world) && SameSchema(old(host.world), host.world)
    ensures old(host.Able(7)) && o.Ok? ==>
      host.Took(if live then 7 else if !migrationStarted then 0
                else if old(host.world.site.revision) == FROM_ALEMBIC then 2 else 3, o)
    ensures old(host.Able(7)) && o.Ok? ==>
      (o.value <==> live || (migrationStarted && old(host.world.site.revision) != FROM_ALEMBIC))
  {
    hide Host.Sound, Host.Valid, Host.Course, Chained, Obedient, WorldAt;
    if live {
      var _ :- ProveRollbackSafe(host);
      return Ok(migrationStarted);
    } else if migrationStarted {
      var revision :- ReadRevision(host);
      var state :- ClassifyFailedMigration(host, revision);
      return Ok(state == MigratedEmpty);
    }
    o := Ok(false);
  }

  method RecoverFailedRollout(host: Host, captured: Captured, live: bool, migrationStarted: bool)
    returns (exit: Exit)
    requires host.Sound()
    requires live ==> migrationStarted
    requires migrationStarted && !live ==> NoneLive(host.world)
    requires !migrationStarted ==> host.world.site.revision == FROM_ALEMBIC
    modifies host
    ensures host.Advanced(50)
    ensures exit.Dead? ==> host.schedule == [] && |old(host.schedule)| < 50
    ensures exit == Exited(0) ==> Coherent(host.world, Rollback, FROM_ALEMBIC) && Replaced(captured, host.world)
    ensures exit in {Exited(0), Exited(2), Dead}
    ensures old(host.Able(50) && Outdated(captured, host.world)) ==>
              exit == if Recoverable(live, migrationStarted, old(host.world)) then Exited(0) else Exited(2)
    ensures old(host.Able(50) && Outdated(captured, host.world)) ==>
              if exit == Exited(0) then BothRun(host.world)
              else NoneLive(host.world) && SameSchema(old(host.world), host.world)
    ensures old(host.Able(50) && Outdated(captured, host.world)) && exit == Exited(0) ==>
      |host.trace| == |old(host.trace)| +
        if live then 20 else if !migrationStarted then 11
        else if old(host.world.site.revision) == FROM_ALEMBIC then 13 else 17
  {
    hide Host.Sound, Host.Valid, Host.Course, Chained, Obedient, WorldAt;
    var plan := PlanRecovery(host, live, migrationStarted);
    match plan {
      case Killed => return Dead;
      case Failed(_) => return Exited(2); // break glass
      case Ok(_) =>
    }
    if plan.value {
      var downgraded := DowngradeSchema(host, live);
      match downgraded {
        case Killed => return Dead;
        case Failed(_) => return Exited(2);
        case Ok(_) =>
      }
    }
    var restored := RestoreOld(host, captured);
    exit := if restored.Killed? then Dead else if restored == Ok(true) then Exited(0) else Exited(2);
  }

  /** A host the rollout can migrate: rollback code running, nothing in the role tables. */
  predicate Migratable(w: World) {
    && Coherent(w, Rollback, FROM_ALEMBIC)
    && BothRun(w)
    && TablesEmpty(w)
  }

  /** A host that already runs the release over the finished schema. */
  predicate Migrated(w: World) {
    && Coherent(w, Release, TO_ALEMBIC)
    && BothRun(w)
    && BothPresent(w) && w.site.structured
  }

  /** Nothing was migrated, or both tables are there and empty. */
  predicate Undoable(w: World) {
    UntouchedSchema(w) || MigratedSchema(w)
  }

  /**
    How a run over a migratable host ends when one command at most goes wrong. When none does, it
    goes through. When one does before the applications are stopped, they are left as they are and
    the old code is checked out. After that the run goes through nevertheless, or the old code runs
    again over 0052, or nothing runs and the schema is left as it was met; which of the last two
    depends on that schema alone.
  */
  twostate predicate OneFailure(host: Host, exit: Exit, commands: nat)
    reads host
  {
    var before := old(host.world);
    if !host.Struck() then host.Took(commands, Ok(())) && exit == Exited(0) && Coherent(host.world, Release, TO_ALEMBIC)
    else if host.stops == old(host.stops) then
      && (exit == Exited(1) || exit == Exited(2))
      && (host.trace[host.odd].acts == [] ==>
            exit == Exited(if |host.trace| == host.odd + 1 && !host.trace[host.odd].fault.deployError then 1 else 2))
      && Coherent(host.world, Rollback, FROM_ALEMBIC) && host.Unmoved()
      && host.world.terms == before.terms && host.world.assignments == before.assignments
      && (host.trace[host.odd].acts == [] ==> host.world.api == before.api && host.world.worker == before.worker)
    else
      || (exit == Exited(0) && Coherent(host.world, Release, TO_ALEMBIC) && host.Unharmed())
      || (exit == Exited(0) && Coherent(host.world, Rollback, FROM_ALEMBIC) && BothRun(host.world) &&
          (BothAbsent(before) ==> Undoable(host.Met())))
      || (exit == Exited(2) && NoneLive(host.world) && SameSchema(host.Met(), host.world) && !Undoable(host.Met()))
  }

  /**
    The commands that change something, by their numbers in a run in which nothing goes wrong before;
    the upgrade, where it is the command that may go wrong, meets the schema the run began with.
  */
  twostate predicate InOrder(host: Host, first: nat)
    reads host
  {
    && host.Reached(first, Switch(Release)) && host.Reached(first + 6, Build) && host.Reached(first + 10, Stop)
    && host.Reached(first + 17, Upgrade) && host.Reached(first + 21, Up)
    && (host.odd == |old(host.trace)| + first + 17 ==>
         host.odd < |host.trace| && SameSchema(old(host.world), host.trace[host.odd].before))
  }

  /** How a run over a migrated host ends: with the error of the command that fails, if one does. */
  twostate predicate Confirmed(host: Host, exit: Exit)
    reads host
  {
    if !host.Struck() then exit == Exited(0)
    else host.trace[host.odd].acts == [] ==>
      var fault := host.trace[host.odd].fault;
      exit == Exited(if fault.ok then 0 else if fault.deployError then 2 else 1)
  }

  /** The guarded part of a migrating run, and what follows when it fails. */
  method MigrateHost(host: Host, captured: Captured) returns (exit: Exit)
    requires host.Sound() && Recorded(captured, host.world)
    requires Coherent(host.world, Rollback, FROM_ALEMBIC)
    modifies host
    ensures host.Advanced(111)
    ensures exit.Dead? ==> host.schedule == [] && |old(host.schedule)| < 111
    ensures exit == Exited(0) ==>
              Coherent(host.world, Release, TO_ALEMBIC) || Coherent(host.world, Rollback, FROM_ALEMBIC)
    ensures exit == Exited(0) ==>
              host.world.site.identity == old(host.world.site.identity) && host.stops > old(host.stops)
    ensures exit in {Exited(0), Exited(2), Dead}
    ensures old(host.Ready(111) && TablesEmpty(host.world)) ==> OneFailure(host, exit, 32) && InOrder(host, 0)
  {
    hide Host.Valid, Host.Course, Chained, Obedient, WorldAt;
    var o, stopped, migrationStarted, live := Attempt(host, captured);
    match o {
      case Killed => return Dead;
      case Ok(_) => return Exited(0);
      case Failed(_) =>
    }
    if stopped {
      exit := RecoverFailedRollout(host, captured, live, migrationStarted);
      return;
    }
    var back := Prepare(host, Switch(Rollback));
    exit := if back.Killed? then Dead else Exited(2);
  }

  /** The rollout up to its exit status, on what is left of the host's fault schedule. */
  method Rollout(host: Host) returns (exit: Exit)
    requires host.Sound()
    modifies host
    ensures host.Advanced(COMMANDS)
    ensures exit.Dead? ==> host.schedule == [] && |old(host.schedule)| < COMMANDS
    ensures exit == Exited(0) ==>
              Coherent(host.world, Release, TO_ALEMBIC) || Coherent(host.world, Rollback, FROM_ALEMBIC)
    ensures exit == Exited(0) ==> host.world.site.identity == old(host.world.site.identity)
    ensures exit in {Exited(0), Exited(1), Exited(2), Dead}
    ensures old(host.world.site.head != Rollback || host.world.site.revision != FROM_ALEMBIC) ==>
              host.Calm(COMMANDS)
    ensures old(host.Ready(COMMANDS) && Migratable(host.world)) ==>
      OneFailure(host, exit, 49) && InOrder(host, 17)
    ensures old(host.Ready(COMMANDS) && Migrated(host.world)) ==> Confirmed(host, exit)
    ensures old(host.Able(COMMANDS) && BothRun(host.world) && !Authorized(host.world)) ==> exit == Exited(2)
  {
    hide Host.Valid, Host.Course, Chained, Obedient, WorldAt;
    var preflight := Preflight(host);
    match preflight {
      case Killed => return Dead;
      case Failed(deployError) => return Exited(if deployError then 2 else 1);
      case Ok(_) =>
    }
    var (action, captured) := preflight.value;
    if action == Idempotent {
      var confirmed := ConfirmIdempotent(host, captured);
      match confirmed {
        case Killed => return Dead;
        case Failed(deployError) => return Exited(if deployError then 2 else 1);
        case Ok(_) => return Exited(0);
      }
    }
    exit := MigrateHost(host, captured);
  }

  /**
    One run: it loses no role row, whatever fails and wherever it is killed, and every command it
    issued was safe. With one failure at most it ends as it should.
  */
  method RunRollout(host: Host) returns (exit: Exit)
    requires host.Sound()
    modifies host
    ensures host.Advanced(COMMANDS)
    ensures SafeBetween(old(host.trace), old(host.world), host.trace, host.world)
    ensures exit.Dead? ==> host.schedule == [] && |old(host.schedule)| < COMMANDS
    ensures exit == Exited(0) ==>
              Coherent(host.world, Release, TO_ALEMBIC) || Coherent(host.world, Rollback, FROM_ALEMBIC)
    ensures exit == Exited(0) ==> host.world.site.identity == old(host.world.site.identity)
    ensures exit in {Exited(0), Exited(1), Exited(2), Dead}
    ensures old(host.world.site.head != Rollback || host.world.site.revision != FROM_ALEMBIC) ==>
              host.Calm(COMMANDS)
    ensures old(host.Ready(COMMANDS) && Migratable(host.world)) ==>
      OneFailure(host, exit, 49) && InOrder(host, 17)
    ensures old(host.Ready(COMMANDS) && Migrated(host.world)) ==> Confirmed(host, exit)
    ensures old(host.Able(COMMANDS) && BothRun(host.world) && !Authorized(host.world)) ==> exit == Exited(2)
  {
    hide Chained, Obedient, WorldAt, SafeBetween, Inv;
    ghost var was, before := host.trace, host.world;
    exit := Rollout(host);
    RecordGoesOn(was, before, host.trace, host.world);
  }

  /**
    Any number of runs, one after the other, each under its own fault schedule: together they lose
    no role row and issue only safe commands.
  */
  method RunAll(host: Host, schedules: seq<seq<Slot>>) returns (exits: seq<Exit>)
    requires host.Sound()
    modifies host
    ensures host.Sound() && SafeBetween(old(host.trace), old(host.world), host.trace, host.world)
    ensures |exits| == |schedules|
    ensures exits != [] && exits[|exits| - 1] == Exited(0) ==>
              Coherent(host.world, Release, TO_ALEMBIC) || Coherent(host.world, Rollback, FROM_ALEMBIC)
  {
    hide Chained, Obedient, WorldAt, SafeBetween, Inv, Host.Calm, Coherent, Migratable, Migrated;
    ghost var was, before := host.trace, host.world;
    exits := [];
    while |exits| < |schedules|
      invariant host.Sound() && was <= host.trace
      invariant |exits| <= |schedules|
      invariant exits != [] && exits[|exits| - 1] == Exited(0) ==>
                  Coherent(host.world, Release, TO_ALEMBIC) || Coherent(host.world, Rollback, FROM_ALEMBIC)
    {
      host.schedule, host.smooth := schedules[|exits|], false;
      var exit := RunRollout(host);
      exits := exits + [exit];
    }
    RecordGoesOn(was, before, host.trace, host.world);
  }
}
