/**
  The commands of the rollout: the checks that only look, with what a successful one has
  learned, and the commands that change the host.
*/
module RolloutCommands {
  import opened RolloutWorld
  import opened RolloutHost

  method Look(host: Host) returns (o: Outcome<()>)
    requires host.Sound()
    modifies host
    ensures host.Calm(1)
    ensures o.Killed? ==> host.schedule == [] && |old(host.schedule)| < 1
    ensures old(host.Ready(1)) ==> host.Foreseen(1, o)
  {
    hide Chained, Obedient, WorldAt, Inv, SmoothBut, StopCount, Slots;
    ghost var at, fault;
    o, at, fault := host.Issue(Read);
  }

  method Head(host: Host) returns (o: Outcome<Ref>)
    requires host.Sound()
    modifies host
    ensures host.Calm(1)
    ensures o.Killed? ==> host.schedule == [] && |old(host.schedule)| < 1
    ensures o.Ok? ==> o.value == host.world.site.head
    ensures old(host.Ready(1)) ==> host.Foreseen(1, o)
  {
    var _ :- Look(host);
    o := Ok(host.world.site.head);
  }

  method ReadRevision(host: Host) returns (o: Outcome<nat>)
    requires host.Sound()
    modifies host
    ensures host.Calm(1)
    ensures o.Killed? ==> host.schedule == [] && |old(host.schedule)| < 1
    ensures o.Ok? ==> o.value == host.world.site.revision
    ensures old(host.Ready(1)) ==> host.Foreseen(1, o)
  {
    var _ :- Look(host);
    o := Ok(host.world.site.revision);
  }

  method RequireRevision(host: Host, expected: nat) returns (o: Outcome<()>)
    requires host.Sound()
    modifies host
    ensures host.Calm(1)
    ensures o.Killed? ==> host.schedule == [] && |old(host.schedule)| < 1
    ensures o.Ok? ==> host.world.site.revision == expected
    ensures old(host.Ready(1)) && old(host.world.site.revision) == expected ==> host.Foreseen(1, o)
  {
    var revision :- ReadRevision(host);
    o := if revision == expected then Ok(()) else Failed(true);
  }

  function Named(service: Service, w: World): Container {
    if service.Api? then w.api else w.worker
  }

  predicate BothRun(w: World) {
    w.api.status == Running == w.worker.status
  }

  predicate Ids(api: nat, worker: nat, w: World) {
    api == w.api.id && worker == w.worker.id
  }

  /** `ps -q` lists a service only while it runs. */
  method ServiceId(host: Host, service: Service) returns (o: Outcome<nat>)
    requires host.Sound()
    modifies host
    ensures host.Calm(1)
    ensures o.Killed? ==> host.schedule == [] && |old(host.schedule)| < 1
    ensures o.Ok? ==> o.value == Named(service, host.world).id && Named(service, host.world).status == Running
    ensures old(host.Ready(1)) && Named(service, old(host.world)).status == Running ==> host.Foreseen(1, o)
  {
    var _ :- Look(host);
    var c := Named(service, host.world);
    o := if c.status == Running then Ok(c.id) else Failed(true);
  }

  /** `ps --all -q` finds the container whether it runs or not. */
  method CurrentServiceId(host: Host, service: Service) returns (o: Outcome<nat>)
    requires host.Sound()
    modifies host
    ensures host.Calm(1)
    ensures o.Killed? ==> host.schedule == [] && |old(host.schedule)| < 1
    ensures o.Ok? ==> o.value == Named(service, host.world).id
    ensures old(host.Ready(1)) ==> host.Struck() || host.Took(1, o)
  {
    var _ :- Look(host);
    o := Ok(Named(service, host.world).id);
  }

  /** Inspecting an id that no container carries any more fails. */
  method IsRunning(host: Host, id: nat) returns (o: Outcome<bool>)
    requires host.Sound()
    modifies host
    ensures host.Calm(1)
    ensures o.Killed? ==> host.schedule == [] && |old(host.schedule)| < 1
    ensures o.Ok? ==> id == host.world.api.id || id == host.world.worker.id
    ensures o.Ok? && id == host.world.api.id ==> o.value == (host.world.api.status == Running)
    ensures o.Ok? && id == host.world.worker.id && id != host.world.api.id ==>
              o.value == (host.world.worker.status == Running)
    ensures old(host.Ready(1)) && (id == host.world.api.id || id == host.world.worker.id) ==>
      host.Foreseen(1, o)
  {
    var _ :- Look(host);
    if id == host.world.api.id {
      o := Ok(host.world.api.status == Running);
    } else if id == host.world.worker.id {
      o := Ok(host.world.worker.status == Running);
    } else {
      o := Failed(true);
    }
  }

  method RequireRunning(host: Host, api: nat, worker: nat) returns (o: Outcome<()>)
    requires host.Sound()
    modifies host
    ensures host.Calm(2)
    ensures o.Killed? ==> host.schedule == [] && |old(host.schedule)| < 2
    ensures old(host.Ready(2)) && Ids(api, worker, old(host.world)) && BothRun(old(host.world)) ==>
      host.Foreseen(2, o)
  {
    hide Host.Sound, Host.Valid, Host.Course, Chained, Obedient, WorldAt;
    var apiRuns :- IsRunning(host, api);
    if !apiRuns {
      return Failed(true);
    }
    var workerRuns :- IsRunning(host, worker);
    o := if workerRuns then Ok(()) else Failed(true);
  }

  method RequireStopped(host: Host, api: nat, worker: nat) returns (o: Outcome<()>)
    requires host.Sound()
    modifies host
    ensures host.Calm(2)
    ensures o.Killed? ==> host.schedule == [] && |old(host.schedule)| < 2
    ensures old(host.Ready(2)) && Ids(api, worker, old(host.world)) && NoneLive(old(host.world)) ==>
      host.Struck() || host.Took(2, o)
  {
    hide Host.Sound, Host.Valid, Host.Course, Chained, Obedient, WorldAt;
    var apiRuns :- IsRunning(host, api);
    if apiRuns {
      return Failed(true);
    }
    var workerRuns :- IsRunning(host, worker);
    o := if workerRuns then Failed(true) else Ok(());
  }

  method DbContainer(host: Host) returns (o: Outcome<nat>)
    requires host.Sound()
    modifies host
    ensures host.Calm(1)
    ensures o.Killed? ==> host.schedule == [] && |old(host.schedule)| < 1
    ensures o.Ok? ==> o.value == host.world.site.identity.container
    ensures old(host.Ready(1)) ==> host.Foreseen(1, o)
  {
    var _ :- Look(host);
    o := Ok(host.world.site.identity.container);
  }

  method DbVolume(host: Host) returns (o: Outcome<nat>)
    requires host.Sound()
    modifies host
    ensures host.Calm(1)
    ensures o.Killed? ==> host.schedule == [] && |old(host.schedule)| < 1
    ensures o.Ok? ==> o.value == host.world.site.identity.volume
    ensures old(host.Ready(1)) ==> host.Foreseen(1, o)
  {
    var _ :- Look(host);
    o := Ok(host.world.site.identity.volume);
  }

  method EnvHash(host: Host) returns (o: Outcome<nat>)
    requires host.Sound()
    modifies host
    ensures host.Calm(1)
    ensures o.Killed? ==> host.schedule == [] && |old(host.schedule)| < 1
    ensures o.Ok? ==> o.value == host.world.site.identity.environment
    ensures old(host.Ready(1)) ==> host.Foreseen(1, o)
  {
    var _ :- Look(host);
    o := Ok(host.world.site.identity.environment);
  }

  /** Database container, its volume and the environment hash still are the recorded ones. */
  method IdentityHolds(host: Host, recorded: Identity) returns (o: Outcome<bool>)
    requires host.Sound()
    modifies host
    ensures host.Calm(3)
    ensures o.Killed? ==> host.schedule == [] && |old(host.schedule)| < 3
    ensures o.Ok? ==> (o.value <==> host.world.site.identity == recorded)
    ensures old(host.Ready(3)) ==> host.Struck() || o.Ok?
    ensures old(host.Ready(3)) && old(host.world.site.identity) == recorded ==>
      host.Foreseen(3, o) && (o.Ok? ==> o.value)
  {
    hide Host.Sound, Host.Valid, Host.Course, Chained, Obedient, WorldAt;
    var container :- DbContainer(host);
    if container != recorded.container {
      return Ok(false);
    }
    var volume :- DbVolume(host);
    if volume != recorded.volume {
      return Ok(false);
    }
    var environment :- EnvHash(host);
    o := Ok(environment == recorded.environment);
  }

  method RequireIdentity(host: Host, recorded: Identity) returns (o: Outcome<()>)
    requires host.Sound()
    modifies host
    ensures host.Calm(3)
    ensures o.Killed? ==> host.schedule == [] && |old(host.schedule)| < 3
    ensures o.Ok? ==> host.world.site.identity == recorded
    ensures old(host.Ready(3)) && old(host.world.site.identity) == recorded ==> host.Foreseen(3, o)
  {
    var same :- IdentityHolds(host, recorded);
    o := if same then Ok(()) else Failed(true);
  }

  /** Up to `attempts` probes; only the rollout's own error is worth another one. */
  method Health(host: Host, attempts: nat) returns (o: Outcome<()>)
    requires host.Sound()
    modifies host
    ensures host.Calm(attempts)
    ensures o.Killed? ==> host.schedule == [] && |old(host.schedule)| < attempts
    ensures old(host.Ready(attempts)) && attempts == 1 ==> host.Foreseen(1, o)
    ensures old(host.Ready(attempts)) && attempts > 0 ==> host.Struck() || host.Took(1, o)
  {
    hide Host.Sound, Host.Valid, Host.Course, Chained, Obedient, WorldAt;
    o := Failed(true);
    var attempt := 0;
    while attempt < attempts
      invariant attempt <= attempts && host.Calm(attempt)
      invariant attempt == 1 && old(host.Ready(attempts)) ==> host.Foreseen<()>(1, Failed(true))
      invariant attempt > 0 && old(host.Ready(attempts)) ==> host.Struck()
    {
      o := Look(host);
      if !o.Failed? || !o.deployError {
        return;
      }
      attempt := attempt + 1;
    }
    o := Failed(true);
  }

  /** The row counts of both tables; the query fails when either table is missing. */
  method ProveTablesEmpty(host: Host) returns (o: Outcome<()>)
    requires host.Sound()
    modifies host
    ensures host.Calm(1)
    ensures o.Killed? ==> host.schedule == [] && |old(host.schedule)| < 1
    ensures o.Ok? ==> BothEmpty(host.world)
    ensures old(host.Ready(1) && BothEmpty(host.world)) ==> host.Struck() || host.Took(1, o)
  {
    var answer := Look(host);
    if answer.Killed? {
      return Killed;
    }
    if answer.Failed? || host.world.terms.Absent? || host.world.assignments.Absent? {
      return Failed(true);
    }
    o := if host.world.terms.rows == {} && host.world.assignments.rows == {} then Ok(()) else Failed(true);
  }

  method TablePresence(host: Host) returns (o: Outcome<(bool, bool)>)
    requires host.Sound()
    modifies host
    ensures host.Calm(1)
    ensures o.Killed? ==> host.schedule == [] && |old(host.schedule)| < 1
    ensures o.Ok? ==> o.value == (host.world.terms.Present?, host.world.assignments.Present?)
    ensures old(host.Ready(1)) ==> host.Struck() || host.Took(1, o)
  {
    var answer := Look(host);
    if answer.Killed? {
      return Killed;
    }
    o := if answer.Failed? then Failed(true) else Ok((host.world.terms.Present?, host.world.assignments.Present?));
  }

  method ProveTablesAbsent(host: Host) returns (o: Outcome<()>)
    requires host.Sound()
    modifies host
    ensures host.Calm(1)
    ensures o.Killed? ==> host.schedule == [] && |old(host.schedule)| < 1
    ensures o.Ok? ==> BothAbsent(host.world)
    ensures old(host.Ready(1) && BothAbsent(host.world)) ==> host.Struck() || host.Took(1, o)
  {
    var presence :- TablePresence(host);
    o := if presence == (false, false) then Ok(()) else Failed(true);
  }

  method RequireStructure(host: Host, requireEmpty: bool) returns (o: Outcome<()>)
    requires host.Sound()
    modifies host
    ensures host.Calm(2)
    ensures o.Killed? ==> host.schedule == [] && |old(host.schedule)| < 2
    ensures o.Ok? ==> BothPresent(host.world) && host.world.site.structured
    ensures o.Ok? && requireEmpty && !ReleaseLive(host.world) ==> TablesEmpty(host.world)
    ensures old(host.Ready(2) && host.world.site.structured && BothEmpty(host.world)) ==>
      host.Struck() || host.Took(if requireEmpty then 2 else 1, o)
    ensures old(host.Ready(2) && host.world.site.structured && BothPresent(host.world)) && !requireEmpty ==>
      host.Foreseen(1, o)
  {
    hide Host.Sound, Host.Valid, Host.Course, Chained, Obedient, WorldAt;
    var _ :- Look(host);
    if host.world.terms.Absent? || host.world.assignments.Absent? || !host.world.site.structured {
      return Failed(true);
    }
    if requireEmpty {
      var _ :- ProveTablesEmpty(host);
    }
    o := Ok(());
  }

  /** Switch the checkout, build the images or stop the services: never dangerous. */
  method Prepare(host: Host, c: Command) returns (o: Outcome<()>)
    requires host.Sound() && (c.Switch? || c.Build? || c.Stop?)
    modifies host
    ensures host.Advanced(1)
    ensures o.Killed? ==> host.schedule == [] && |old(host.schedule)| < 1
    ensures host.world.site.revision == old(host.world.site.revision)
    ensures host.world.terms.Absent? == old(host.world.terms.Absent?)
    ensures host.world.api.id == old(host.world.api.id) && host.world.worker.id == old(host.world.worker.id)
    ensures host.world.site.nextId == old(host.world.site.nextId)
    ensures host.Steady() && (c.Stop? || (host.Undisturbed() && host.Unmoved())) && host.Unwritten()
    ensures host.stops == old(host.stops) + if c.Stop? && !o.Killed? then 1 else 0
    ensures if o.Killed? then host.trace == old(host.trace) else host.Issued(c)
    ensures o.Ok? ==> host.Unharmed()
    ensures !c.Switch? ==> host.world.site.head == old(host.world.site.head)
    ensures !c.Build? ==>
      host.world.site.apiTag == old(host.world.site.apiTag) &&
      host.world.site.workerTag == old(host.world.site.workerTag)
    ensures old(NoneLive(host.world)) ==> NoneLive(host.world)
    ensures o.Ok? && c.Switch? ==> host.world.site.head == c.ref
    ensures o.Ok? && c.Build? ==> host.world.site.apiTag == host.world.site.head == host.world.site.workerTag
    ensures o.Ok? && c.Stop? ==> NoneLive(host.world)
    ensures old(host.Ready(1)) ==>
      host.Struck() || (o.Ok? && host.world == Effect(c, Smoothly(old(host.world.site.identity)), old(host.world)))
  {
    hide Chained, Obedient, WorldAt, Inv, SmoothBut, StopCount, Slots;
    ghost var at, fault;
    o, at, fault := host.Issue(c);
  }

  /** `alembic upgrade` and `alembic downgrade`: wherever they land, ids and tags stay. */
  method Alembic(host: Host, c: Command) returns (o: Outcome<()>)
    requires host.Sound() && (c.Upgrade? || c.Downgrade?)
    modifies host
    ensures host.Valid() && old(host.trace) <= host.trace
    ensures o.Killed? ==> host.schedule == [] && |old(host.schedule)| < 1
    ensures old(Permitted(c, host.world)) ==> host.Advanced(1)
    ensures host.smooth && host.Struck() ==> SameSchema(host.Met(), host.world)
    ensures host.stops == old(host.stops) && (o.Killed? || host.Issued(c)) && (o.Ok? ==> host.Unharmed())
    ensures !o.Killed? ==> host.trace[|old(host.trace)|].before == old(host.world)
    ensures old(NoneLive(host.world)) ==> NoneLive(host.world)
    ensures host.world.site.head == old(host.world.site.head)
    ensures host.world.site.apiTag == old(host.world.site.apiTag) &&
            host.world.site.workerTag == old(host.world.site.workerTag)
    ensures host.world.api.id == old(host.world.api.id) && host.world.worker.id == old(host.world.worker.id)
    ensures old(host.Ready(1)) ==>
      host.Struck() || (o.Ok? && host.world == Effect(c, Smoothly(old(host.world.site.identity)), old(host.world)))
  {
    hide Chained, Obedient, WorldAt, Inv, SmoothBut, StopCount, Slots;
    ghost var at, fault;
    o, at, fault := host.Issue(c);
  }

  method Start(host: Host) returns (o: Outcome<()>)
    requires host.Sound()
    modifies host
    ensures host.Valid() && old(host.trace) <= host.trace
    ensures o.Killed? ==> host.schedule == [] && |old(host.schedule)| < 1
    ensures old(Permitted(Up, host.world)) ==> host.Advanced(1)
    ensures host.Steady() && host.stops == old(host.stops)
    ensures (o.Killed? || host.Issued(Up)) && (o.Ok? ==> host.Unharmed())
    ensures host.world.site.head == old(host.world.site.head) &&
            host.world.site.revision == old(host.world.site.revision)
    ensures o.Ok? ==>
      host.world.api.image == old(host.world.site.apiTag) && host.world.worker.image == old(host.world.site.workerTag)
    ensures o.Ok? ==>
      host.world.api.id >= old(host.world.site.nextId) && host.world.worker.id >= old(host.world.site.nextId)
    ensures old(host.Ready(1)) ==>
      host.Struck() || (o.Ok? && host.world == Effect(Up, Smoothly(old(host.world.site.identity)), old(host.world)))
  {
    hide Chained, Obedient, WorldAt, Inv, SmoothBut, StopCount, Slots;
    ghost var at, fault;
    o, at, fault := host.Issue(Up);
  }
}
