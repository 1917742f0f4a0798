/**
  The production host as the 0052 -> 0054 rollout sees it: the release checkout, the image
  tags, the database schema with its role rows, and the two application containers.

  Every external command is an `Effect` on that world, steered by a `Fault` that may stop it
  before, during or after its work. Between two commands the applications themselves may act.
*/
module RolloutWorld {

  const FROM_ALEMBIC: nat := 52
  const MIDDLE_ALEMBIC: nat := 53
  const TO_ALEMBIC: nat := 54

  datatype Ref = Rollback | Release | Other

  datatype Service = Api | Worker

  // `Died` is a container that went down on its own; `Stopped` was stopped by a command.
  datatype Status = Running | Died | Stopped

  datatype Container = Container(id: nat, image: Ref, status: Status)

  datatype Table = Absent | Present(rows: set<nat>)

  // The database container, its volume and the hash of the environment file.
  datatype Identity = Identity(container: nat, volume: nat, environment: nat)

  // What only a command can change: checkout, image tags, schema revision, fresh ids, identity.
  datatype Site = Site(
    head: Ref,
    apiTag: Ref,
    workerTag: Ref,
    revision: nat,
    structured: bool,
    nextId: nat,
    identity: Identity)

  datatype World = World(site: Site, terms: Table, assignments: Table, api: Container, worker: Container)

  /** What the applications may do on their own between two commands. */
  datatype Act =
    | InsertTerm(row: nat)
    | InsertAssignment(row: nat)
    | ApiDies
    | ApiRestarts
    | WorkerDies
    | WorkerRestarts

  /** The external commands; everything that only looks at the host is a `Read`. */
  datatype Command = Switch(ref: Ref) | Build | Stop | Upgrade | Downgrade | Up | Read

  // Where an Alembic command leaves the schema: any revision, with each table kept or not.
  datatype Landing = Landing(revision: nat, terms: bool, assignments: bool, structured: bool)

  /**
    How one command goes. `ok` is the exit status the rollout sees. A command that reports
    failure may still have done its work, wholly or for one service only, and a mutating
    command may disturb the database container, volume or environment file.
  */
  datatype Fault = Fault(
    ok: bool,
    deployError: bool,
    reached: bool,
    api: bool,
    worker: bool,
    apiStatus: Status,
    workerStatus: Status,
    up: Landing,
    down: Landing,
    identity: Identity)

  /** A command that simply works. */
  function Smoothly(identity: Identity): Fault {
    Fault(true, true, true, true, true, Running, Running,
          Landing(TO_ALEMBIC, true, true, true), Landing(FROM_ALEMBIC, false, false, false), identity)
  }

  /** One slot of a fault schedule. A process whose schedule runs out has been killed. */
  datatype Slot = Slot(acts: seq<Act>, fault: Fault)

  function Rows(t: Table): set<nat> {
    if t.Absent? then {} else t.rows
  }

  predicate Live(c: Container) {
    c.status != Stopped
  }

  predicate NoneLive(w: World) {
    !Live(w.api) && !Live(w.worker)
  }

  predicate ReleaseLive(w: World) {
    (Live(w.api) && w.api.image == Release) || (Live(w.worker) && w.worker.image == Release)
  }

  predicate BothAbsent(w: World) {
    w.terms.Absent? && w.assignments.Absent?
  }

  predicate BothPresent(w: World) {
    w.terms.Present? && w.assignments.Present?
  }

  predicate BothEmpty(w: World) {
    w.terms == w.assignments == Present({})
  }

  predicate TablesEmpty(w: World) {
    Rows(w.terms) == {} && Rows(w.assignments) == {}
  }

  predicate ReleaseRuns(w: World) {
    || (w.api.status == Running && w.api.image == Release)
    || (w.worker.status == Running && w.worker.image == Release)
  }

  /** Only running release code writes role rows, and only into a table that exists. */
  function Perform(a: Act, w: World): World {
    match a
    case InsertTerm(row) =>
      if ReleaseRuns(w) && w.terms.Present? then w.(terms := Present(w.terms.rows + {row})) else w
    case InsertAssignment(row) =>
      if ReleaseRuns(w) && w.assignments.Present?
      then w.(assignments := Present(w.assignments.rows + {row})) else w
    case ApiDies => if w.api.status == Running then w.(api := w.api.(status := Died)) else w
    case ApiRestarts => if w.api.status == Died then w.(api := w.api.(status := Running)) else w
    case WorkerDies => if w.worker.status == Running then w.(worker := w.worker.(status := Died)) else w
    case WorkerRestarts => if w.worker.status == Died then w.(worker := w.worker.(status := Running)) else w
  }

  function PerformAll(acts: seq<Act>, w: World): World {
    if acts == [] then w else PerformAll(acts[1..], Perform(acts[0], w))
  }

  function Grown(t: Table, create: bool): Table {
    if t.Absent? && create then Present({}) else t
  }

  function Shrunk(t: Table, keep: bool): Table {
    if keep then t else Absent
  }

  function Core(c: Command, f: Fault, w: World): World {
    match c
    case Switch(ref) => if f.ok || f.reached then w.(site := w.site.(head := ref)) else w
    case Build =>
      w.(site := w.site.(apiTag := if f.ok || f.api then w.site.head else w.site.apiTag,
                         workerTag := if f.ok || f.worker then w.site.head else w.site.workerTag))
    case Stop =>
      w.(api := if f.ok || f.api then w.api.(status := Stopped) else w.api,
         worker := if f.ok || f.worker then w.worker.(status := Stopped) else w.worker)
    case Upgrade =>
      if f.ok || f.reached then
        w.(site := w.site.(revision := f.up.revision, structured := f.up.structured),
           terms := Grown(w.terms, f.up.terms),
           assignments := Grown(w.assignments, f.up.assignments))
      else w
    case Downgrade =>
      if f.ok || f.reached then
        w.(site := w.site.(revision := f.down.revision, structured := f.down.structured),
           terms := Shrunk(w.terms, f.down.terms),
           assignments := Shrunk(w.assignments, f.down.assignments))
      else w
    case Up =>
      w.(site := w.site.(nextId := w.site.nextId + 2),
         api := if f.ok || f.api then Container(w.site.nextId, w.site.apiTag, f.apiStatus) else w.api,
         worker := if f.ok || f.worker then Container(w.site.nextId + 1, w.site.workerTag, f.workerStatus)
                   else w.worker)
    case Read => w
  }

  function Effect(c: Command, f: Fault, w: World): World {
    if c.Read? then w else
    var w' := Core(c, f, w);
    w'.(site := w'.site.(identity := f.identity))
  }

  /** A container that may run its code does so over the one revision its code is written for. */
  predicate Matched(c: Container, revision: nat) {
    Live(c) ==>
      || (c.image == Rollback && revision == FROM_ALEMBIC)
      || (c.image == Release && revision == TO_ALEMBIC)
  }

  predicate Inv(w: World) {
    && Matched(w.api, w.site.revision)
    && Matched(w.worker, w.site.revision)
    && w.api.id < w.site.nextId
    && w.worker.id < w.site.nextId
    && w.api.id != w.worker.id
  }

  /** The schema-safety rule: when each dangerous command may be issued. */
  predicate Permitted(c: Command, w: World) {
    match c
    case Upgrade => NoneLive(w)
    case Downgrade => NoneLive(w) && TablesEmpty(w)
    case Up =>
      && (w.site.apiTag == Rollback || w.site.workerTag == Rollback ==> w.site.revision == FROM_ALEMBIC)
      && (w.site.apiTag == Release || w.site.workerTag == Release ==> w.site.revision == TO_ALEMBIC)
      && w.site.apiTag != Other && w.site.workerTag != Other
    case _ => true
  }

  /** What may have changed while no command ran: liveness of started containers, new rows. */
  predicate Quiet(w: World, w': World) {
    && w'.site == w.site
    && w'.api.id == w.api.id && w'.api.image == w.api.image
    && w'.worker.id == w.worker.id && w'.worker.image == w.worker.image
    && Live(w.api) == Live(w'.api)
    && Live(w.worker) == Live(w'.worker)
    && w.terms.Absent? == w'.terms.Absent?
    && w.assignments.Absent? == w'.assignments.Absent?
    && Rows(w.terms) <= Rows(w'.terms)
    && Rows(w.assignments) <= Rows(w'.assignments)
    && (!ReleaseLive(w) ==> w'.terms == w.terms && w'.assignments == w.assignments)
  }

  lemma {:induction false} ActsAreQuiet(acts: seq<Act>, w: World)
    ensures Quiet(w, PerformAll(acts, w))
  {
    if acts == [] {
    } else {
      var mid := Perform(acts[0], w);
      assert Quiet(w, mid);
      ActsAreQuiet(acts[1..], mid);
    }
  }

  predicate RowsKept(w: World, w': World) {
    Rows(w.terms) <= Rows(w'.terms) && Rows(w.assignments) <= Rows(w'.assignments)
  }

  predicate SameSchema(w: World, w': World) {
    w'.site.revision == w.site.revision && w'.terms == w.terms && w'.assignments == w.assignments
  }

  /** A permitted command keeps the host matched and loses no role row, however it fails. */
  lemma PermittedCommandIsSafe(c: Command, f: Fault, w: World)
    requires Inv(w) && Permitted(c, w)
    ensures Inv(Effect(c, f, w))
    ensures RowsKept(w, Effect(c, f, w))
  {
    match c
    case Upgrade => assert Inv(Core(c, f, w));
    case _ =>
  }
}
