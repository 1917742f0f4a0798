/**
  The host the rollout drives, command by command, and the record of what was done to it.
*/
module RolloutHost {
  import opened RolloutWorld

  /**
    How a step of the rollout ends: with a value, with one of the errors the rollout catches
    (`deployError` tells the rollout's own error from the others), or because the process died.
  */
  datatype Outcome<+T> = Ok(value: T) | Failed(deployError: bool) | Killed {
    predicate IsFailure() {
      !Ok?
    }

    function PropagateFailure<U>(): Outcome<U>
      requires !Ok?
    {
      if Killed? then Killed else Failed(deployError)
    }

    function Extract(): T
      requires Ok?
    {
      value
    }
  }

  /** One command as it happened: what the applications did first, the command, its fault. */
  datatype Entry = Entry(before: World, acts: seq<Act>, command: Command, fault: Fault) {
    function Issued(): World {
      PerformAll(acts, before)
    }

    function After(): World {
      Effect(command, fault, Issued())
    }
  }

  /** The world before entry `i` of a record that ends in `w`. */
  function WorldAt(trace: seq<Entry>, w: World, i: nat): World
    requires i <= |trace|
  {
    if i == |trace| then w else trace[i].before
  }

  /** The record is one uninterrupted history that ends in world `w`. */
  predicate Chained(trace: seq<Entry>, w: World) {
    forall i | 0 <= i < |trace| :: trace[i].After() == WorldAt(trace, w, i + 1)
  }

  /** Every recorded command was permitted at the moment it was issued. */
  predicate Obedient(trace: seq<Entry>) {
    forall i | 0 <= i < |trace| :: Permitted(trace[i].command, trace[i].Issued())
  }

  /** Recording one more command keeps the record honest and, when permitted, obedient. */
  lemma RecordEntry(trace: seq<Entry>, w: World, acts: seq<Act>, c: Command, f: Fault)
    requires Chained(trace, w)
    ensures var e := Entry(w, acts, c, f);
            && Chained(trace + [e], e.After())
            && (Obedient(trace) && Permitted(c, e.Issued()) ==> Obedient(trace + [e]))
            && (Inv(w) && Permitted(c, e.Issued()) ==> Inv(e.After()))
  {
    var e := Entry(w, acts, c, f);
    ActsAreQuiet(acts, w);
    if Inv(w) && Permitted(c, e.Issued()) {
      PermittedCommandIsSafe(c, f, e.Issued());
    }
  }

  /**
    Every command simply works, but for the one that will be entry `odd` of a record that has
    `first` entries now: that one may go in any way that leaves the identity alone.
  */
  predicate SmoothBut(schedule: seq<Slot>, first: nat, odd: nat, identity: Identity) {
    forall i | 0 <= i < |schedule| ::
      if first + i == odd then schedule[i].fault.identity == identity else schedule[i] == Slot([], Smoothly(identity))
  }

  /** The slots a record has used up. */
  function Slots(trace: seq<Entry>): seq<Slot> {
    seq(|trace|, i requires 0 <= i < |trace| => Slot(trace[i].acts, trace[i].fault))
  }

  lemma SlotUsed(trace: seq<Entry>, e: Entry, schedule: seq<Slot>)
    requires schedule != [] && schedule[0] == Slot(e.acts, e.fault)
    ensures Slots(trace + [e]) + schedule[1..] == Slots(trace) + schedule
  {
    assert Slots(trace + [e]) == Slots(trace) + [schedule[0]];
  }

  /** How many commands of a record stop the applications. */
  function StopCount(trace: seq<Entry>): nat {
    if trace == [] then 0
    else StopCount(trace[..|trace| - 1]) + (if trace[|trace| - 1].command.Stop? then 1 else 0)
  }

  lemma StopRecorded(trace: seq<Entry>, e: Entry)
    ensures StopCount(trace + [e]) == StopCount(trace) + (if e.command.Stop? then 1 else 0)
  {
    assert (trace + [e])[..|trace|] == trace;
  }

  /** A longer record counts more stops exactly if one of its further commands is a stop. */
  lemma {:induction false} StopsCounted(was: seq<Entry>, now: seq<Entry>)
    requires was <= now
    ensures StopCount(was) <= StopCount(now)
    ensures StopCount(was) < StopCount(now) <==> exists i | |was| <= i < |now| :: now[i].command.Stop?
  {
    if was == now {
    } else {
      var n := |now| - 1;
      assert forall i | |was| <= i < n :: now[..n][i] == now[i];
      StopsCounted(was, now[..n]);
    }
  }

  /** One more entry: this command under this fault, issued in world `at`. */
  ghost predicate Appended(was: seq<Entry>, now: seq<Entry>, before: World, c: Command, f: Fault, at: World) {
    && |now| == |was| + 1
    && now[..|was|] == was
    && now[|was|].before == before && now[|was|].command == c && now[|was|].fault == f && now[|was|].Issued() == at
  }

  class Host {
    var world: World
    var schedule: seq<Slot>
    ghost const origin: World // where the record begins
    ghost var trace: seq<Entry>
    ghost var stops: nat // how often the applications were stopped
    ghost var smooth: bool // promises that every remaining command simply works, but for one:
    ghost var odd: nat // the place in the record of the command that may not

    constructor (w: World)
      ensures world == w == origin && schedule == [] && trace == [] && !smooth && odd == 0 && Valid()
    {
      world, origin := w, w;
      schedule := [];
      trace := [];
      stops, smooth, odd := 0, false, 0;
    }

    ghost predicate Valid()
      reads this
    {
      && Chained(trace, world) && WorldAt(trace, world, 0) == origin
      && stops == StopCount(trace)
      && (smooth ==> SmoothBut(schedule, |trace|, odd, world.site.identity))
    }

    /**
      The record is honest from its origin on, every command in it was permitted, and the host was
      matched at the origin and is now.
    */
    ghost predicate Sound()
      reads this
    {
      Valid() && Obedient(trace) && Inv(origin) && Inv(world)
    }

    /** The slots used up and those to come. */
    ghost function Course(): seq<Slot>
      reads this
    {
      Slots(trace) + schedule
    }

    /**
      The host stays sound, at most `n` commands were issued, each slot of the schedule that was
      used up is an entry of the record, and smooth sailing goes on.
    */
    twostate predicate Advanced(n: nat)
      reads this
    {
      && Sound()
      && old(trace) <= trace
      && |schedule| + n >= |old(schedule)|
      && |trace| + |schedule| == |old(trace)| + |old(schedule)| && Course() == old(Course())
      && world.site.nextId >= old(world.site.nextId)
      && smooth == old(smooth) && odd == old(odd) && stops >= old(stops)
      && (smooth ==> world.site.identity == old(world.site.identity))
    }

    /** The one command that may go wrong was issued. */
    twostate predicate Struck()
      reads this
    {
      |old(trace)| <= odd < |trace|
    }

    /** This is the one command that was issued. */
    twostate predicate Issued(c: Command)
      reads this
    {
      |trace| == |old(trace)| + 1 && trace[|old(trace)|].command == c
    }

    /** Command number `k` from here on is this one, unless an earlier one may have gone wrong. */
    twostate predicate Reached(k: nat, c: Command)
      reads this
    {
      old(|trace|) <= odd < old(|trace|) + k ||
      (old(|trace|) + k < |trace| && trace[old(|trace|) + k].command == c)
    }

    /** If the command that may go wrong was issued, it succeeded. */
    twostate predicate Unharmed()
      reads this
    {
      Struck() ==> trace[odd].fault.ok || trace[odd].command.Read?
    }

    /** Success, after exactly `n` commands. */
    twostate predicate Took<T>(n: nat, o: Outcome<T>)
      reads this
    {
      o.Ok? && |trace| == |old(trace)| + n
    }

    /**
      What `n` reads that want to succeed come to: they do, unless the odd command fails, which
      then is the last one and gives its own error. The applications may change this by acting.
    */
    twostate predicate Foreseen<T>(n: nat, o: Outcome<T>)
      reads this
    {
      if !Struck() then Took(n, o)
      else trace[odd].acts == [] ==>
        if trace[odd].fault.ok then o.Ok?
        else o == Failed(trace[odd].fault.deployError) && |trace| == odd + 1
    }

    /** The world right after that command. */
    ghost function Met(): World
      requires odd < |trace|
      reads this
    {
      trace[odd].After()
    }

    /** Moreover nothing happened but reads and what the applications do on their own. */
    twostate predicate Calm(n: nat)
      reads this
    {
      && Advanced(n)
      && Quiet(old(world), world) && stops == old(stops) && (Struck() ==> trace[odd].command.Read?)
      && (smooth ==> world == if Struck() then Met() else old(world))
      && Undisturbed()
    }

    /** Both containers are the same ones, started or stopped as before. */
    twostate predicate Unmoved()
      reads this
    {
      && world.api.id == old(world.api.id) && world.api.image == old(world.api.image)
      && world.worker.id == old(world.worker.id) && world.worker.image == old(world.worker.image)
      && Live(world.api) == old(Live(world.api)) && Live(world.worker) == old(Live(world.worker))
    }

    /** Where no release code is started, none appears and no row is written. */
    twostate predicate Unwritten()
      reads this
    {
      !ReleaseLive(old(world)) ==>
        !ReleaseLive(world) && world.terms == old(world).terms && world.assignments == old(world).assignments
    }

    /** The schema, with its rows, is what it was, or what the command that may go wrong has made of it. */
    twostate predicate Steady()
      reads this
    {
      smooth ==> SameSchema(if Struck() then Met() else old(world), world)
    }

    /** The containers are what they were, unless the applications acted. */
    twostate predicate Undisturbed()
      reads this
    {
      smooth && (Struck() ==> trace[odd].acts == []) ==>
        world.api == old(world).api && world.worker == old(world).worker
    }

    /** The coming `n` commands simply work, but for one at most. */
    ghost predicate Ready(n: nat)
      reads this
    {
      smooth && |schedule| >= n
    }

    /** The coming `n` commands simply work. */
    ghost predicate Able(n: nat)
      reads this
    {
      Ready(n) && !(|trace| <= odd < |trace| + |schedule|)
    }

    /** Issue one command; `at` is the world it met. It is recorded, unless the process was killed. */
    method Issue(c: Command) returns (o: Outcome<()>, ghost at: World, ghost fault: Fault)
      requires Valid()
      modifies this
      ensures Valid() && old(trace) <= trace
      ensures o.Killed? ==> trace == old(trace)
      ensures !o.Killed? ==> Appended(old(trace), trace, old(world), c, fault, at)
      ensures Quiet(old(world), at)
      ensures o.Killed? ==> world == old(world) && old(schedule) == schedule == []
      ensures !o.Killed? ==> world == Effect(c, fault, at)
      ensures !o.Killed? ==> |schedule| + 1 == |old(schedule)| && (o.Ok? <==> fault.ok)
      ensures o.Failed? ==> o.deployError == fault.deployError
      ensures smooth == old(smooth) && odd == old(odd) && Course() == old(Course())
      ensures stops == old(stops) + if c.Stop? && !o.Killed? then 1 else 0
      ensures smooth && !Struck() ==> at == old(world) && fault == Smoothly(at.site.identity)
      ensures smooth ==> fault.identity == old(world.site.identity)
      ensures Struck() ==> world == Met()
      ensures smooth && (Struck() ==> trace[odd].acts == []) ==> at == old(world)
      ensures old(Sound()) && (o.Killed? || Permitted(c, at)) ==> Sound()
    {
      hide StopCount, Slots, Chained, Obedient, Inv, Permitted, Core;
      if schedule == [] {
        at, fault := world, Smoothly(world.site.identity);
        return Killed, at, fault;
      }
      var slot := schedule[0];
      schedule := schedule[1..];
      at, fault := PerformAll(slot.acts, world), slot.fault;
      ActsAreQuiet(slot.acts, world);
      RecordEntry(trace, world, slot.acts, c, fault);
      StopRecorded(trace, Entry(world, slot.acts, c, fault));
      SlotUsed(trace, Entry(world, slot.acts, c, fault), old(schedule));
      stops := stops + if c.Stop? then 1 else 0;
      trace := trace + [Entry(world, slot.acts, c, fault)];
      world := Effect(c, slot.fault, PerformAll(slot.acts, world));
      o := if slot.fault.ok then Ok(()) else Failed(slot.fault.deployError);
    }
  }
}
