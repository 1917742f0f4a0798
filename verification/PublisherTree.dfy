/**
  The pages and the tree they are published into: owned files, their snapshots, and what it means
  for a tree to be delivered or restored.
*/
module PublisherTree {
  import opened PublisherFiles

  const HOME: Path := ["index.html"]
  const PRIVACY_DIRECTORY: Path := ["privacy"]
  const TERMS_DIRECTORY: Path := ["terms"]
  const PRIVACY: Path := ["privacy", "index.html"]
  const TERMS: Path := ["terms", "index.html"]

  function OwnedPaths(): (paths: seq<Path>)
    ensures |paths| == 3
  {
    [HOME, PRIVACY, TERMS]
  }

  function CreatedDirectories(): (paths: seq<Path>)
    ensures |paths| == 2
  {
    [PRIVACY_DIRECTORY, TERMS_DIRECTORY]
  }

  predicate Owned(p: Path) {
    p in OwnedPaths()
  }

  /** What a file was before publishing; of its mode only the permission bits are kept. */
  datatype Snapshot = Missing | Kept(data: Bytes, mode: nat, uid: int, gid: int, mtime: int)

  function SnapshotOf(nodes: Nodes, p: Path): Snapshot {
    if p in nodes && nodes[p].File? then
      var f := nodes[p];
      Kept(f.data, f.mode % PERMISSIONS, f.uid, f.gid, f.mtime)
    else Missing
  }

  /** A file restored from its snapshot; only a privileged process can give it back to its owner. */
  predicate RestoredFile(was: Node, now: Node, privileged: bool) {
    && was.File? && now.File?
    && now.data == was.data && now.mtime == was.mtime && now.mode == was.mode % PERMISSIONS
    && (privileged ==> now.uid == was.uid && now.gid == was.gid)
  }

  /** Everything is as it was, the owned files as far as a snapshot can tell. */
  ghost predicate Restored(now: Nodes, was: Nodes, privileged: bool) {
    forall p ::
      && (p in now <==> p in was)
      && (p in was ==> if Owned(p) then RestoredFile(was[p], now[p], privileged) else now[p] == was[p])
  }

  /** The owned files carry permission bits only. */
  ghost predicate PlainModes(was: Nodes) {
    forall p | p in was && Owned(p) && was[p].File? :: was[p].mode < PERMISSIONS
  }

  ghost predicate SameModes(now: Nodes, was: Nodes) {
    forall p | p in was && Owned(p) && was[p].File? :: p in now && now[p].File? && now[p].mode == was[p].mode
  }

  /**
    Nothing but owned files was changed, and nothing but owned files, directories for them and
    half-made files was added.
  */
  ghost predicate Contained(now: Nodes, was: Nodes) {
    && (forall p | p in was && !Owned(p) :: p in now && now[p] == was[p])
    && (forall p | p in now && p !in was :: Owned(p) || p in CreatedDirectories() || IsDotted(p))
  }

  /** Only one path differs, or besides it a new half-made file. */
  ghost predicate Touched(now: Nodes, before: Nodes, p: Path) {
    AgreeExcept(now, before, {p}) || exists t: Path :: IsDotted(t) && t !in before && AgreeExcept(now, before, {p, t})
  }

  predicate InstalledFile(n: Node, data: Bytes, uid: int, gid: int, privileged: bool) {
    n.File? && n.data == data && n.mode == FILE_MODE && (privileged ==> n.uid == uid && n.gid == gid)
  }

  datatype Page = Page(path: Path, data: Bytes)

  /** A dictionary of pages, in its order. */
  ghost predicate Dictionary(pages: seq<Page>) {
    forall i, j | 0 <= i < j < |pages| :: pages[i].path != pages[j].path
  }

  /** Exactly the owned paths hold the pages, in directories that exist. */
  ghost predicate Delivered(now: Nodes, was: Nodes, pages: seq<Page>, uid: int, gid: int, privileged: bool) {
    && (forall p :: Owned(p) <==> exists i | 0 <= i < |pages| :: pages[i].path == p)
    && (forall i | 0 <= i < |pages| ::
         pages[i].path in now && InstalledFile(now[pages[i].path], pages[i].data, uid, gid, privileged))
    && (forall d | d in CreatedDirectories() :: d in now && now[d].Directory?)
    && (forall p | !Owned(p) && (p in was || p !in CreatedDirectories()) ::
         (p in now <==> p in was) && (p in was ==> now[p] == was[p]))
  }
}
