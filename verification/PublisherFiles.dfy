/**
  The part of the file system below the static root, with operations that may fail.
*/
module PublisherFiles {
  import opened Options

  type Bytes = seq<bv8>

  /** A path below the root, name by name. */
  type Path = seq<string>

  datatype Node =
    | Directory
    | File(data: Bytes, mode: nat, uid: int, gid: int, mtime: int)
    | Symlink
    | Special

  type Nodes = map<Path, Node>

  /** Permission bits, without the set-id and sticky bits. */
  const PERMISSIONS: nat := 0x200
  const FILE_MODE: nat := 0x1A4
  const TEMPORARY_MODE: nat := 0x180

  function Parent(p: Path): Path {
    if p == [] then [] else p[..|p| - 1]
  }

  predicate IsDotted(p: Path) {
    p != [] && p[|p| - 1] != [] && p[|p| - 1][0] == '.'
  }

  /** Every node below the root stands in a directory. */
  ghost predicate Rooted(nodes: Nodes) {
    && [] !in nodes
    && forall p | p in nodes && |p| > 1 :: Parent(p) in nodes && nodes[Parent(p)].Directory?
  }

  /** The two trees hold the same outside some paths. */
  ghost predicate AgreeExcept(a: Nodes, b: Nodes, paths: set<Path>) {
    forall p | p !in paths :: (p in a <==> p in b) && (p in a ==> a[p] == b[p])
  }

  /** The half-made file beside `p`. */
  function Temporary(p: Path, suffix: string): (t: Path)
    requires p != []
    ensures IsDotted(t) && Parent(t) == Parent(p)
  {
    Parent(p) + ["." + p[|p| - 1] + "." + suffix]
  }

  /** A file at `p` would stand in a directory. */
  predicate InDirectory(nodes: Nodes, p: Path) {
    Parent(p) == [] || (Parent(p) in nodes && nodes[Parent(p)].Directory?)
  }

  /** What the system does with one operation. */
  datatype Answer = Answer(raises: bool, denied: bool, suffix: string, now: int, partial: Bytes)

  class FileSystem {
    var nodes: Nodes
    /** How many operations were asked for, and how many of them failed. */
    var asked: nat
    ghost var failures: nat
    const answers: nat -> Answer
    /** Whether the process is root, and whom its files belong to. */
    const privileged: bool
    const uid: int
    const gid: int

    constructor (nodes: Nodes, answers: nat -> Answer, privileged: bool, uid: int, gid: int)
      ensures this.nodes == nodes && this.answers == answers && this.privileged == privileged
      ensures asked == 0 && failures == 0
    {
      this.nodes, this.answers, this.privileged, this.uid, this.gid := nodes, answers, privileged, uid, gid;
      asked, failures := 0, 0;
    }

    method Ask() returns (a: Answer)
      modifies this`asked
      ensures asked == old(asked) + 1 && a == answers(old(asked))
    {
      a := answers(asked);
      asked := asked + 1;
    }

    method MakeDirectory(p: Path) returns (ok: bool)
      requires p !in nodes
      modifies this
      ensures asked == old(asked) + 1 && (ok <==> !answers(old(asked)).raises)
      ensures failures == old(failures) + (if ok then 0 else 1)
      ensures nodes == if ok then old(nodes)[p := Directory] else old(nodes)
    {
      var a := Ask();
      if !a.raises {
        nodes := nodes[p := Directory];
      }
      ok := !a.raises;
      failures := if ok then failures else failures + 1;
    }

    /** An empty file in the directory of `p`, of a name that starts with a dot and was not taken. */
    method MakeTemporary(p: Path) returns (t: Option<Path>)
      requires p != []
      modifies this
      ensures asked == old(asked) + 1
      ensures failures == old(failures) + (if t.Some? then 0 else 1)
      ensures t.Some? <==>
        !answers(old(asked)).raises && InDirectory(old(nodes), p) &&
        Temporary(p, answers(old(asked)).suffix) !in old(nodes)
      ensures t.None? ==> nodes == old(nodes)
      ensures t.Some? ==>
        && t.value == Temporary(p, answers(old(asked)).suffix) && Parent(t.value) == Parent(p) && IsDotted(t.value)
        && t.value !in old(nodes)
        && t.value in nodes && nodes[t.value].File? && nodes == old(nodes)[t.value := nodes[t.value]]
    {
      var a := Ask();
      var path := Temporary(p, a.suffix);
      if a.raises || path in nodes || !InDirectory(nodes, p) {
        failures := failures + 1;
        return None;
      }
      nodes := nodes[path := File([], TEMPORARY_MODE, uid, gid, a.now)];
      t := Some(path);
    }

    /** A write that fails may leave anything behind. */
    method Write(p: Path, data: Bytes) returns (ok: bool)
      requires p in nodes && nodes[p].File?
      modifies this
      ensures asked == old(asked) + 1 && (ok <==> !answers(old(asked)).raises)
      ensures failures == old(failures) + (if ok then 0 else 1)
      ensures p in nodes && nodes[p].File? && nodes == old(nodes)[p := nodes[p]]
      ensures ok ==> nodes[p] == old(nodes[p]).(data := data, mtime := nodes[p].mtime)
    {
      var a := Ask();
      nodes := nodes[p := nodes[p].(data := if a.raises then a.partial else data, mtime := a.now)];
      ok := !a.raises;
      failures := if ok then failures else failures + 1;
    }

    method ChangeMode(p: Path, mode: nat) returns (ok: bool)
      requires p in nodes && nodes[p].File?
      modifies this
      ensures asked == old(asked) + 1 && (ok <==> !answers(old(asked)).raises)
      ensures failures == old(failures) + (if ok then 0 else 1)
      ensures nodes == if ok then old(nodes)[p := old(nodes[p]).(mode := mode)] else old(nodes)
    {
      var a := Ask();
      if !a.raises {
        nodes := nodes[p := nodes[p].(mode := mode)];
      }
      ok := !a.raises;
      failures := if ok then failures else failures + 1;
    }

    /** Handing a file over; a process without privileges shrugs off a denial. */
    method ApplyOwner(p: Path, owner: int, group: int) returns (ok: bool)
      requires p in nodes && nodes[p].File?
      modifies this
      ensures asked == old(asked) + 1 &&
        (ok <==> !(answers(old(asked)).raises || (answers(old(asked)).denied && privileged)))
      ensures failures == old(failures) + (if ok then 0 else 1)
      ensures !ok ==> nodes == old(nodes)
      ensures p in nodes && nodes[p].File? && nodes == old(nodes)[p := nodes[p]]
      ensures nodes[p] == old(nodes[p]).(uid := nodes[p].uid, gid := nodes[p].gid)
      ensures ok && privileged ==> nodes[p].uid == owner && nodes[p].gid == group
    {
      var a := Ask();
      if a.raises || (a.denied && privileged) {
        failures := failures + 1;
        return false;
      }
      if !a.denied {
        nodes := nodes[p := nodes[p].(uid := owner, gid := group)];
      }
      ok := true;
    }

    method Replace(source: Path, target: Path) returns (ok: bool)
      requires source in nodes && nodes[source].File? && source != target
      modifies this
      ensures asked == old(asked) + 1 && (ok <==> !answers(old(asked)).raises)
      ensures failures == old(failures) + (if ok then 0 else 1)
      ensures nodes == if ok then (old(nodes) - {source})[target := old(nodes[source])] else old(nodes)
    {
      var a := Ask();
      if !a.raises {
        nodes := (nodes - {source})[target := nodes[source]];
      }
      ok := !a.raises;
      failures := if ok then failures else failures + 1;
    }

    method Unlink(p: Path) returns (ok: bool)
      requires p in nodes && nodes[p].File?
      modifies this
      ensures asked == old(asked) + 1 && (ok <==> !answers(old(asked)).raises)
      ensures failures == old(failures) + (if ok then 0 else 1)
      ensures nodes == if ok then old(nodes) - {p} else old(nodes)
    {
      var a := Ask();
      if !a.raises {
        nodes := nodes - {p};
      }
      ok := !a.raises;
      failures := if ok then failures else failures + 1;
    }

    method SetTime(p: Path, mtime: int) returns (ok: bool)
      requires p in nodes && nodes[p].File?
      modifies this
      ensures asked == old(asked) + 1 && (ok <==> !answers(old(asked)).raises)
      ensures failures == old(failures) + (if ok then 0 else 1)
      ensures nodes == if ok then old(nodes)[p := old(nodes[p]).(mtime := mtime)] else old(nodes)
    {
      var a := Ask();
      if !a.raises {
        nodes := nodes[p := nodes[p].(mtime := mtime)];
      }
      ok := !a.raises;
      failures := if ok then failures else failures + 1;
    }

    /** Whether nothing stands in a directory. */
    function IsEmpty(directory: Path): bool
      reads this`nodes
    {
      forall p | p in nodes.Keys :: p == [] || Parent(p) != directory
    }

    method RemoveDirectory(p: Path) returns (ok: bool)
      requires p in nodes && nodes[p].Directory? && IsEmpty(p)
      modifies this
      ensures asked == old(asked) + 1 && (ok <==> !answers(old(asked)).raises)
      ensures failures == old(failures) + (if ok then 0 else 1)
      ensures nodes == if ok then old(nodes) - {p} else old(nodes)
    {
      var a := Ask();
      if !a.raises {
        nodes := nodes - {p};
      }
      ok := !a.raises;
      failures := if ok then failures else failures + 1;
    }
  }
}
