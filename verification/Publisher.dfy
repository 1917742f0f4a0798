/**
  Publishing the branding pages: snapshot, create directories, install, verify, and on any
  failure put everything back.
*/
module Publisher {
  import opened Options
  import opened PublisherFiles
  import opened PublisherTree
  import opened PublisherAnswers
  import opened Sequences

  // ----- installing and restoring one file -----

  datatype Installed = Done | Failed | Littered

  /** Write beside the target, then move over it; a failure removes the half-made file. */
  method Install(fs: FileSystem, path: Path, data: Bytes, uid: int, gid: int, ghost was: Nodes) returns (r: Installed)
    requires Owned(path) && path != [] && !IsDotted(path)
    modifies fs
    ensures InDirectory(old(fs.nodes), path) ==>
      (r.Done? <==> InstallWorks(old(fs.nodes), fs.answers, old(fs.asked), path, fs.privileged))
    ensures r.Done? ==> fs.asked == old(fs.asked) + 5
    ensures old(fs.asked) <= fs.asked
    ensures InDirectory(old(fs.nodes), path) && NoLitter(old(fs.nodes), was) ==>
      fs.failures <= old(fs.failures) + Troubles(fs.answers, old(fs.asked), fs.asked, was, fs.privileged)
    ensures r.Done? ==>
      && fs.failures == old(fs.failures)
      && path in fs.nodes && fs.nodes == old(fs.nodes)[path := fs.nodes[path]]
      && InstalledFile(fs.nodes[path], data, uid, gid, fs.privileged)
    ensures r.Failed? ==> fs.nodes == old(fs.nodes) && fs.failures == old(fs.failures) + 1
    ensures r.Littered? ==>
      && fs.failures == old(fs.failures) + 2
      && exists t: Path :: IsDotted(t) && t !in old(fs.nodes) && AgreeExcept(fs.nodes, old(fs.nodes), {t})
  {
    hide Sound, Troubles, FillWorks, Owned, InDirectory, InstalledFile, NoLitter, Temporary, AgreeExcept, IsDotted;
    ghost var a := fs.asked;
    if NoLitter(fs.nodes, was) {
      TemporaryTaken(fs.answers, a, path, fs.nodes, was, fs.privileged);
    }
    var t := fs.MakeTemporary(path);
    if t.None? {
      return Failed;
    }
    ghost var b := fs.asked;
    var ok := Fill(fs, t.value, path, data, uid, gid, was);
    TroublesAdd(fs.answers, a, b, fs.asked, was, fs.privileged);
    if ok {
      return Done;
    }
    ghost var c := fs.asked;
    LeftBehind(fs.nodes, old(fs.nodes), t.value);
    ok := fs.Unlink(t.value);
    Raising(fs.answers, c, c, was, fs.privileged);
    TroublesAdd(fs.answers, a, c, fs.asked, was, fs.privileged);
    r := if ok then Failed else Littered;
  }

  lemma LeftBehind(now: Nodes, before: Nodes, t: Path)
    requires t in now && now == before[t := now[t]]
    ensures AgreeExcept(now, before, {t})
  {
  }

  method Fill(fs: FileSystem, temporary: Path, path: Path, data: Bytes, uid: int, gid: int, ghost was: Nodes)
    returns (ok: bool)
    requires temporary in fs.nodes && fs.nodes[temporary].File? && temporary != path
    modifies fs
    ensures ok <==> FillWorks(fs.answers, old(fs.asked), fs.privileged)
    ensures ok ==> fs.asked == old(fs.asked) + 4
    ensures old(fs.asked) <= fs.asked
    ensures fs.failures <= old(fs.failures) + Troubles(fs.answers, old(fs.asked), fs.asked, was, fs.privileged)
    ensures fs.failures == old(fs.failures) + (if ok then 0 else 1)
    ensures ok ==>
      && path in fs.nodes && fs.nodes == (old(fs.nodes) - {temporary})[path := fs.nodes[path]]
      && InstalledFile(fs.nodes[path], data, uid, gid, fs.privileged)
    ensures !ok ==>
      temporary in fs.nodes && fs.nodes[temporary].File? && fs.nodes == old(fs.nodes)[temporary := fs.nodes[temporary]]
  {
    hide Sound, Troubles;
    ghost var a := fs.asked;
    ok := fs.Write(temporary, data);
    if ok {
      ok := fs.ChangeMode(temporary, FILE_MODE);
    }
    if ok {
      ok := fs.ApplyOwner(temporary, uid, gid);
    }
    if ok {
      ok := fs.Replace(temporary, path);
    }
    Raising(fs.answers, a, fs.asked - 1, was, fs.privileged);
  }

  method Restore(fs: FileSystem, path: Path, snapshot: Snapshot, ghost was: Nodes) returns (ok: bool)
    requires Owned(path) && path != [] && !IsDotted(path)
    requires path in fs.nodes ==> fs.nodes[path].File?
    requires snapshot.Kept? ==> snapshot.mode < PERMISSIONS
    modifies fs
    ensures ok <==> fs.failures == old(fs.failures)
    ensures fs.failures >= old(fs.failures) && old(fs.asked) <= fs.asked
    ensures (snapshot.Kept? ==> InDirectory(old(fs.nodes), path)) && NoLitter(old(fs.nodes), was) ==>
      ok || Troubles(fs.answers, old(fs.asked), fs.asked, was, fs.privileged) > 0
    ensures Touched(fs.nodes, old(fs.nodes), path)
    ensures ok && snapshot.Missing? ==> fs.nodes == old(fs.nodes) - {path}
    ensures ok && snapshot.Kept? ==>
      && path in fs.nodes && fs.nodes == old(fs.nodes)[path := fs.nodes[path]]
      && RestoredFile(File(snapshot.data, snapshot.mode, snapshot.uid, snapshot.gid, snapshot.mtime), fs.nodes[path],
                      fs.privileged)
  {
    hide Sound, Troubles, InstallWorks, Owned, OwnedPaths, InDirectory, NoLitter, IsDotted, Temporary;
    ghost var a := fs.asked;
    if snapshot.Missing? {
      ok := true;
      if path in fs.nodes {
        ok := fs.Unlink(path);
        Raising(fs.answers, a, a, was, fs.privileged);
      }
      return;
    }
    var r := Install(fs, path, snapshot.data, snapshot.uid, snapshot.gid, was);
    if r.Littered? {
      ghost var t: Path :| IsDotted(t) && t !in old(fs.nodes) && AgreeExcept(fs.nodes, old(fs.nodes), {t});
      assert AgreeExcept(fs.nodes, old(fs.nodes), {path, t});
    }
    ok := r.Done?;
    if ok {
      ok := fs.ChangeMode(path, snapshot.mode);
      if ok {
        ok := fs.SetTime(path, snapshot.mtime);
      }
      Raising(fs.answers, a, fs.asked - 1, was, fs.privileged);
    }
  }

  // ----- the way forward -----

  /** Why publishing stopped: an operation failed, a callback raised, or a check refused. */
  datatype Cause = Operation | Callback | Check

  function OwnedSet(): set<Path> {
    {HOME, PRIVACY, TERMS}
  }

  /** Half-made files are new, and carry names that start with a dot. */
  ghost predicate HalfMade(litter: set<Path>, was: Nodes) {
    forall t | t in litter :: IsDotted(t) && t !in was
  }

  /** Between start and end: only owned paths, created directories and litter may differ. */
  ghost predicate Underway(now: Nodes, was: Nodes, created: set<Path>, litter: set<Path>) {
    && AgreeExcept(now, was, OwnedSet() + created + litter)
    && (forall d | d in created :: d in CreatedDirectories() && d !in was && d in now && now[d].Directory?)
    && (forall p | p in OwnedSet() && p in now :: now[p].File?)
    && HalfMade(litter, was)
  }

  lemma NamesApart()
    ensures HOME != PRIVACY && PRIVACY != TERMS && HOME != TERMS && PRIVACY_DIRECTORY != TERMS_DIRECTORY
    ensures forall p :: Owned(p) <==> p in OwnedSet()
    ensures forall p | p in OwnedSet() :: p != [] && !IsDotted(p) && p !in CreatedDirectories()
    ensures |CreatedDirectories()| == 2
    ensures forall d | d in CreatedDirectories() :: |d| == 1 && !IsDotted(d)
  {
    assert "privacy"[0] == 'p' && "terms"[0] == 't' && "index.html"[0] == 'i' && "."[0] == '.';
    assert PRIVACY[0] == "privacy" && TERMS[0] == "terms";
  }

  /** Changing an owned file, or adding a directory that was not there, stays within bounds. */
  lemma UnderwayFile(now: Nodes, was: Nodes, created: set<Path>, litter: set<Path>, p: Path, n: Node)
    requires Underway(now, was, created, litter) && p in OwnedSet() && n.File?
    ensures Underway(now[p := n], was, created, litter) && Underway(now - {p}, was, created, litter)
    ensures Directories(now, 2) ==> Directories(now[p := n], 2)
  {
    hide HOME, PRIVACY, TERMS, PRIVACY_DIRECTORY, TERMS_DIRECTORY, OwnedSet, CreatedDirectories, IsDotted;
    NamesApart();
  }

  lemma UnderwayDirectory(now: Nodes, was: Nodes, created: set<Path>, d: Path)
    requires Underway(now, was, created, {}) && d in CreatedDirectories() && d !in now
    ensures Underway(now[d := Directory], was, created + {d}, {})
  {
    hide HOME, PRIVACY, TERMS, PRIVACY_DIRECTORY, TERMS_DIRECTORY, OwnedSet, CreatedDirectories, IsDotted;
    NamesApart();
    assert d !in OwnedSet();
  }

  lemma UnderwayLitter(now: Nodes, after: Nodes, was: Nodes, created: set<Path>, t: Path)
    requires Underway(now, was, created, {}) && IsDotted(t) && t !in now && AgreeExcept(after, now, {t})
    ensures Underway(after, was, created, {t})
  {
    hide HOME, PRIVACY, TERMS, PRIVACY_DIRECTORY, TERMS_DIRECTORY, OwnedSet, CreatedDirectories, IsDotted;
    NamesApart();
    assert t !in OwnedSet() && t !in CreatedDirectories();
  }

  ghost predicate Directories(now: Nodes, n: nat)
    requires n <= 2
  {
    forall k | 0 <= k < n :: CreatedDirectories()[k] in now && now[CreatedDirectories()[k]].Directory?
  }

  /** The directories that exist already are real ones. */
  ghost predicate RealDirectories(was: Nodes) {
    forall d | d in CreatedDirectories() && d in was :: was[d].Directory?
  }

  lemma UnrealDirectory(now: Nodes, was: Nodes, created: set<Path>, d: Path)
    requires Underway(now, was, created, {}) && d in CreatedDirectories() && d in now && !now[d].Directory?
    ensures !RealDirectories(was)
  {
    hide HOME, PRIVACY, TERMS, PRIVACY_DIRECTORY, TERMS_DIRECTORY, OwnedSet, CreatedDirectories, IsDotted;
    NamesApart();
    assert d !in OwnedSet();
  }

  /** A directory that was not reached yet is there exactly if it was. */
  lemma DirectoryAsBefore(now: Nodes, was: Nodes, created: seq<Path>, i: nat)
    requires Underway(now, was, Elements(created), {}) && i < 2
    requires Among(created, now, i)
    ensures CreatedDirectories()[i] in now <==> CreatedDirectories()[i] in was
    ensures CreatedDirectories()[i] !in created
  {
    hide HOME, PRIVACY, TERMS, PRIVACY_DIRECTORY, TERMS_DIRECTORY, OwnedSet, IsDotted;
    NamesApart();
    var d := CreatedDirectories()[i];
    assert d !in CreatedDirectories()[..i];
    assert d !in OwnedSet();
  }

  method MakeDirectories(fs: FileSystem, ghost was: Nodes) returns (cause: Option<Cause>, created: seq<Path>)
    requires fs.nodes == was && Underway(fs.nodes, was, {}, {})
    modifies fs
    ensures Underway(fs.nodes, was, Elements(created), {}) && Distinct(created)
    ensures cause.None? || cause == Some(Operation) || cause == Some(Check)
    ensures fs.failures == old(fs.failures) + (if cause == Some(Operation) then 1 else 0)
    ensures cause.None? ==> Directories(fs.nodes, 2)
    ensures cause == Some(Check) ==> !RealDirectories(was)
    ensures RealDirectories(was) ==>
      (cause.None? <==> NoneRaises(fs.answers, old(fs.asked), old(fs.asked) + MissingDirectories(was, 2)))
    ensures cause.None? ==> fs.asked == old(fs.asked) + MissingDirectories(was, 2)
    ensures old(fs.asked) <= fs.asked
    ensures fs.failures <= old(fs.failures) + Troubles(fs.answers, old(fs.asked), fs.asked, was, fs.privileged)
  {
    hide HOME, PRIVACY, TERMS, PRIVACY_DIRECTORY, TERMS_DIRECTORY, OwnedSet, CreatedDirectories;
    hide AgreeExcept, Underway, IsDotted, Sound, RealDirectories, NoneRaises, MissingDirectories;
    hide Distinct, Elements, Among, Troubles;
    NoneYet(fs.answers, fs.asked, was);
    NamesApart();
    cause, created := None, [];
    NoneCreated();
    for i := 0 to 2
      invariant Underway(fs.nodes, was, Elements(created), {}) && Distinct(created)
      invariant Among(created, fs.nodes, i)
      invariant fs.failures == old(fs.failures)
      invariant Directories(fs.nodes, i)
      invariant fs.asked == old(fs.asked) + MissingDirectories(was, i)
      invariant NoneRaises(fs.answers, old(fs.asked), fs.asked)
    {
      var directory := CreatedDirectories()[i];
      assert directory in CreatedDirectories();
      DirectoryAsBefore(fs.nodes, was, created, i);
      AmongMore(created, fs.nodes, i);
      MissingOneMore(was, i);
      NoneMore(fs.answers, old(fs.asked), fs.asked, fs.asked + 1);
      if directory in fs.nodes {
        if !fs.nodes[directory].Directory? {
          UnrealDirectory(fs.nodes, was, Elements(created), directory);
          return Some(Check), created;
        }
      } else {
        UnderwayDirectory(fs.nodes, was, Elements(created), directory);
        var ok := fs.MakeDirectory(directory);
        if !ok {
          Raising(fs.answers, old(fs.asked), fs.asked - 1, was, fs.privileged);
          NoneMore(fs.answers, old(fs.asked), fs.asked - 1, old(fs.asked) + MissingDirectories(was, 2));
          return Some(Operation), created;
        }
        OneMoreCreated(created, directory, i);
        created := created + [directory];
      }
    }
  }

  /** The created directories are among the first `i`, and there. */
  ghost predicate Among(created: seq<Path>, now: Nodes, i: nat)
    requires i <= 2
  {
    forall d | d in created :: d in now && d in CreatedDirectories()[..i]
  }

  lemma NoneCreated()
    ensures Elements([]) == {} && Distinct<Path>([]) && forall now: Nodes :: Among([], now, 0)
  {
  }

  lemma OneMoreCreated(created: seq<Path>, d: Path, i: nat)
    requires i < 2 && d !in created && Distinct(created) && CreatedDirectories()[i] == d
    ensures Elements(created + [d]) == Elements(created) + {d} && Distinct(created + [d])
    ensures forall now: Nodes | Among(created, now, i) :: Among(created + [d], now[d := Directory], i + 1)
  {
    hide CreatedDirectories;
    assert CreatedDirectories()[..i + 1] == CreatedDirectories()[..i] + [d];
  }

  lemma AmongMore(created: seq<Path>, now: Nodes, i: nat)
    requires i < 2 && Among(created, now, i)
    ensures Among(created, now, i + 1)
  {
    hide CreatedDirectories;
    assert CreatedDirectories()[..i + 1] == CreatedDirectories()[..i] + [CreatedDirectories()[i]];
  }

  ghost function Elements(s: seq<Path>): set<Path> {
    set p | p in s
  }

  /** The first `n` pages are in place. */
  ghost predicate InPlace(now: Nodes, pages: seq<Page>, n: nat, uid: int, gid: int, privileged: bool)
    requires n <= |pages|
  {
    forall j | 0 <= j < n ::
      pages[j].path in now && InstalledFile(now[pages[j].path], pages[j].data, uid, gid, privileged)
  }

  method InstallPages(fs: FileSystem, pages: seq<Page>, uid: int, gid: int, ghost was: Nodes, ghost created: set<Path>)
    returns (cause: Option<Cause>, clean: bool, ghost litter: set<Path>)
    requires Dictionary(pages) && (forall i | 0 <= i < |pages| :: pages[i].path in OwnedSet())
    requires Underway(fs.nodes, was, created, {}) && Directories(fs.nodes, 2)
    modifies fs
    ensures Underway(fs.nodes, was, created, litter) && (clean ==> litter == {})
    ensures cause.None? || cause == Some(Operation)
    ensures if clean then fs.failures == old(fs.failures) + (if cause.Some? then 1 else 0)
            else cause.Some? && fs.failures > old(fs.failures) + 1
    ensures cause.None? ==>
      clean && Directories(fs.nodes, 2) && InPlace(fs.nodes, pages, |pages|, uid, gid, fs.privileged)
    ensures cause.None? <==> InstallsWork(was, fs.answers, old(fs.asked), pages, fs.privileged)
    ensures old(fs.asked) <= fs.asked
    ensures fs.failures <= old(fs.failures) + Troubles(fs.answers, old(fs.asked), fs.asked, was, fs.privileged)
  {
    hide HOME, PRIVACY, TERMS, PRIVACY_DIRECTORY, TERMS_DIRECTORY, OwnedSet, CreatedDirectories;
    hide AgreeExcept, Directories, Underway, InstalledFile, IsDotted, Parent, Sound, InstallWorks, NoLitter, Troubles;
    hide InDirectory, Owned;
    NamesApart();
    cause, clean, litter := None, true, {};
    for i := 0 to |pages|
      invariant Underway(fs.nodes, was, created, {}) && clean && litter == {} && cause.None?
      invariant fs.failures == old(fs.failures)
      invariant Directories(fs.nodes, 2) && InPlace(fs.nodes, pages, i, uid, gid, fs.privileged)
      invariant fs.asked == old(fs.asked) + 5 * i
      invariant forall j | 0 <= j < i ::
        InstallWorks(was, fs.answers, old(fs.asked) + 5 * j, pages[j].path, fs.privileged)
    {
      ghost var before, at := fs.nodes, fs.asked;
      var path := pages[i].path;
      ReadyToInstall(before, was, created, path, fs.answers, at, fs.privileged);
      var r := Install(fs, path, pages[i].data, uid, gid, was);
      TroublesAdd(fs.answers, old(fs.asked), at, fs.asked, was, fs.privileged);
      if r.Failed? {
        return Some(Operation), true, {};
      }
      if r.Littered? {
        ghost var t: Path :| IsDotted(t) && t !in before && AgreeExcept(fs.nodes, before, {t});
        UnderwayLitter(before, fs.nodes, was, created, t);
        return Some(Operation), false, {t};
      }
      InstalledIsFile(fs.nodes[path], pages[i].data, uid, gid, fs.privileged);
      UnderwayFile(before, was, created, {}, path, fs.nodes[path]);
    }
  }

  /** On the way forward, installing meets the directories and the free names of the old tree. */
  lemma ReadyToInstall(now: Nodes, was: Nodes, created: set<Path>, p: Path, answers: nat -> Answer, at: nat,
                       privileged: bool)
    requires Underway(now, was, created, {}) && Directories(now, 2) && p in OwnedSet()
    ensures p != [] && Owned(p) && InDirectory(now, p) && NoLitter(now, was)
    ensures InstallWorks(now, answers, at, p, privileged) <==> InstallWorks(was, answers, at, p, privileged)
  {
    NamesApart();
    OwnedInDirectory(now, p);
    NothingHalfMade(now, was, created);
    hide *;
    hide FillWorks;
  }

  lemma OwnedInDirectory(now: Nodes, p: Path)
    requires Directories(now, 2) && p in OwnedSet()
    ensures InDirectory(now, p)
  {
    assert CreatedDirectories()[0] == PRIVACY_DIRECTORY && CreatedDirectories()[1] == TERMS_DIRECTORY;
    assert Parent(HOME) == [] && Parent(PRIVACY) == PRIVACY_DIRECTORY && Parent(TERMS) == TERMS_DIRECTORY;
  }

  lemma NothingHalfMade(now: Nodes, was: Nodes, created: set<Path>)
    requires Underway(now, was, created, {})
    ensures forall t | IsDotted(t) :: t in now <==> t in was
    ensures NoLitter(now, was)
  {
    hide HOME, PRIVACY, TERMS, PRIVACY_DIRECTORY, TERMS_DIRECTORY, CreatedDirectories, OwnedSet, IsDotted;
    NamesApart();
  }

  lemma InstalledIsFile(n: Node, data: Bytes, uid: int, gid: int, privileged: bool)
    requires InstalledFile(n, data, uid, gid, privileged)
    ensures n.File?
  {
  }

  lemma ForwardSplit(was: Nodes, answers: nat -> Answer, at: nat, pages: seq<Page>, privileged: bool)
    ensures
      var directories := MissingDirectories(was, 2);
      ForwardWorks(was, answers, at, pages, privileged) <==>
      NoneRaises(answers, at, at + directories) && InstallsWork(was, answers, at + directories, pages, privileged)
  {
  }

  /** Create the directories, install the pages, then ask the two callbacks. */
  method Forward(fs: FileSystem, pages: seq<Page>, uid: int, gid: int, identityFails: bool, verifyFails: bool,
                 ghost was: Nodes)
    returns (cause: Option<Cause>, created: seq<Path>, clean: bool, ghost litter: set<Path>)
    requires Dictionary(pages) && (forall i | 0 <= i < |pages| :: pages[i].path in OwnedSet())
    requires fs.nodes == was && Underway(fs.nodes, was, {}, {})
    modifies fs
    ensures Underway(fs.nodes, was, Elements(created), litter) && Distinct(created) && (clean ==> litter == {})
    ensures if clean then fs.failures == old(fs.failures) + (if cause == Some(Operation) then 1 else 0)
            else cause == Some(Operation) && fs.failures > old(fs.failures) + 1
    ensures cause == Some(Check) ==> !RealDirectories(was)
    ensures cause == Some(Callback) ==> identityFails || verifyFails
    ensures cause.None? ==>
      && clean && Directories(fs.nodes, 2) && InPlace(fs.nodes, pages, |pages|, uid, gid, fs.privileged)
      && !identityFails && !verifyFails
    ensures RealDirectories(was) ==>
      && (ForwardWorks(was, fs.answers, old(fs.asked), pages, fs.privileged) <==> cause != Some(Operation))
      && (cause != Some(Operation) ==> (cause == Some(Callback) <==> identityFails || verifyFails))
    ensures old(fs.asked) <= fs.asked
    ensures fs.failures <= old(fs.failures) + Troubles(fs.answers, old(fs.asked), fs.asked, was, fs.privileged)
  {
    hide *;
    clean, litter := true, {};
    ghost var a := fs.asked;
    cause, created := MakeDirectories(fs, was);
    ForwardSplit(was, fs.answers, a, pages, fs.privileged);
    if cause.Some? {
      return;
    }
    ghost var b := fs.asked;
    cause, clean, litter := InstallPages(fs, pages, uid, gid, was, Elements(created));
    TroublesAdd(fs.answers, a, b, fs.asked, was, fs.privileged);
    if cause.Some? {
      return;
    }
    if identityFails || verifyFails {
      cause := Some(Callback);
    }
  }

  // ----- the way back -----

  /** Owned paths number `i` and later are restored. */
  ghost predicate RestoredFrom(now: Nodes, was: Nodes, i: nat, privileged: bool)
    requires i <= 3
  {
    forall k | i <= k < 3 ::
      var p := OwnedPaths()[k];
      && (p in now <==> p in was)
      && (p in was ==> RestoredFile(was[p], now[p], privileged))
  }

  /** What `Restore` makes of one path. */
  ghost predicate PutBack(now: Nodes, before: Nodes, p: Path, snapshot: Snapshot, privileged: bool) {
    if snapshot.Missing? then now == before - {p}
    else
      && p in now && now == before[p := now[p]]
      && RestoredFile(File(snapshot.data, snapshot.mode, snapshot.uid, snapshot.gid, snapshot.mtime), now[p],
                      privileged)
  }

  lemma RestoredOne(now: Nodes, before: Nodes, was: Nodes, i: nat, privileged: bool)
    requires i < 3 && RestoredFrom(before, was, i + 1, privileged)
    requires OwnedPaths()[i] in was ==> was[OwnedPaths()[i]].File?
    requires PutBack(now, before, OwnedPaths()[i], SnapshotOf(was, OwnedPaths()[i]), privileged)
    ensures RestoredFrom(now, was, i, privileged)
  {
    hide HOME, PRIVACY, TERMS, PRIVACY_DIRECTORY, TERMS_DIRECTORY, CreatedDirectories, OwnedSet;
    NamesApart();
  }

  lemma UnderwayContained(now: Nodes, was: Nodes, created: set<Path>, litter: set<Path>)
    requires Underway(now, was, created, litter)
    ensures Contained(now, was)
  {
    hide HOME, PRIVACY, TERMS, PRIVACY_DIRECTORY, TERMS_DIRECTORY, CreatedDirectories, OwnedSet, IsDotted;
    NamesApart();
  }

  lemma TouchedContained(now: Nodes, before: Nodes, was: Nodes, p: Path)
    requires Contained(before, was) && Owned(p) && Touched(now, before, p)
    ensures Contained(now, was)
  {
    hide Owned, CreatedDirectories, IsDotted;
  }

  /** On the way back, a file that was there before finds its directory. */
  lemma ReadyToRestore(now: Nodes, was: Nodes, created: set<Path>, litter: set<Path>, p: Path)
    requires Underway(now, was, created, litter) && Underway(was, was, {}, {}) && Rooted(was) && Owned(p)
    ensures p != [] && !IsDotted(p) && (p in now ==> now[p].File?) && (p in was ==> was[p].File?)
    ensures p in was ==> InDirectory(now, p)
    ensures litter == {} ==> NoLitter(now, was)
  {
    NamesApart();
    if litter == {} {
      NothingHalfMade(now, was, created);
    }
    if p in was && Parent(p) != [] {
      ParentKept(now, was, created, litter, p);
    }
  }

  lemma ParentKept(now: Nodes, was: Nodes, created: set<Path>, litter: set<Path>, p: Path)
    requires Underway(now, was, created, litter) && Rooted(was) && p in OwnedSet() && p in was && Parent(p) != []
    ensures Parent(p) in now && now[Parent(p)].Directory?
  {
    hide OwnedSet;
    NamesApart();
    assert |p| > 1;
    OwnedParent(p);
  }

  lemma OwnedParent(p: Path)
    requires p in OwnedSet()
    ensures Parent(p) !in OwnedSet()
  {
    assert |HOME| == 1 && |PRIVACY| == 2 && |TERMS| == 2;
    assert Parent(PRIVACY) == PRIVACY_DIRECTORY && Parent(TERMS) == TERMS_DIRECTORY;
    assert "privacy"[0] == 'p' && "terms"[0] == 't' && "index.html"[0] == 'i';
  }

  method RestoreFiles(fs: FileSystem, snapshots: seq<Snapshot>, ghost was: Nodes, ghost created: set<Path>,
                      ghost litter: set<Path>)
    returns (ok: bool)
    requires Underway(fs.nodes, was, created, litter) && Underway(was, was, {}, {}) && Rooted(was)
    requires |snapshots| == 3 && forall k | 0 <= k < 3 :: snapshots[k] == SnapshotOf(was, OwnedPaths()[k])
    modifies fs
    ensures fs.failures >= old(fs.failures) && (ok <==> fs.failures == old(fs.failures))
    ensures ok ==> Underway(fs.nodes, was, created, litter) && RestoredFrom(fs.nodes, was, 0, fs.privileged)
    ensures Contained(fs.nodes, was)
    ensures old(fs.asked) <= fs.asked
    ensures litter == {} ==> ok || Troubles(fs.answers, old(fs.asked), fs.asked, was, fs.privileged) > 0
  {
    hide HOME, PRIVACY, TERMS, PRIVACY_DIRECTORY, TERMS_DIRECTORY, CreatedDirectories, OwnedSet, AgreeExcept;
    hide Contained, Touched, Sound, NoLitter, InDirectory, Underway, IsDotted;
    NamesApart();
    UnderwayContained(fs.nodes, was, created, litter);
    for i := 3 downto 0
      invariant Underway(fs.nodes, was, created, litter) && fs.failures == old(fs.failures)
      invariant RestoredFrom(fs.nodes, was, i, fs.privileged)
      invariant Contained(fs.nodes, was) && old(fs.asked) <= fs.asked
    {
      var path := OwnedPaths()[i];
      assert Owned(path);
      ghost var before, at := fs.nodes, fs.asked;
      ReadyToRestore(before, was, created, litter, path);
      ok := Restore(fs, path, snapshots[i], was);
      TroublesAdd(fs.answers, old(fs.asked), at, fs.asked, was, fs.privileged);
      TouchedContained(fs.nodes, before, was, path);
      if !ok {
        return;
      }
      RestoredOne(fs.nodes, before, was, i, fs.privileged);
      UnderwayFile(before, was, created, litter, path,
                   if path in fs.nodes then fs.nodes[path] else File([], 0, 0, 0, 0));
    }
    ok := true;
  }

  /** With every owned path restored, nothing stands in a created directory. */
  lemma CreatedIsEmpty(now: Nodes, was: Nodes, created: set<Path>, d: Path, privileged: bool)
    requires Rooted(was) && Underway(now, was, created, {}) && RestoredFrom(now, was, 0, privileged)
    requires d in created
    ensures forall p | p in now :: p == [] || Parent(p) != d
  {
    hide HOME, PRIVACY, TERMS, PRIVACY_DIRECTORY, TERMS_DIRECTORY, CreatedDirectories, OwnedSet;
    NamesApart();
    forall p | p in now && p != [] ensures Parent(p) != d {
      if p in OwnedSet() {
        assert Owned(p);
        assert p in was;
      } else if p in created {
        assert |p| == 1;
      }
    }
  }

  lemma DirectoryRemoved(now: Nodes, was: Nodes, created: set<Path>, d: Path, privileged: bool)
    requires Underway(now, was, created + {d}, {}) && d !in created && d in now && now[d].Directory?
    requires d in CreatedDirectories() && d !in was && RestoredFrom(now, was, 0, privileged)
    ensures Underway(now - {d}, was, created, {}) && RestoredFrom(now - {d}, was, 0, privileged)
  {
    hide HOME, PRIVACY, TERMS, PRIVACY_DIRECTORY, TERMS_DIRECTORY, CreatedDirectories, OwnedSet;
    NamesApart();
    assert forall k | 0 <= k < 3 :: OwnedPaths()[k] in OwnedSet() by {
      assert forall k | 0 <= k < 3 :: Owned(OwnedPaths()[k]);
    }
  }

  lemma AllRestored(now: Nodes, was: Nodes, privileged: bool)
    requires Underway(now, was, {}, {}) && RestoredFrom(now, was, 0, privileged)
    ensures Restored(now, was, privileged)
  {
    hide HOME, PRIVACY, TERMS, PRIVACY_DIRECTORY, TERMS_DIRECTORY, CreatedDirectories, OwnedSet, RestoredFile;
    NamesApart();
    forall p ensures (p in now <==> p in was) &&
                     (p in was ==> now[p] == was[p] || (Owned(p) && RestoredFile(was[p], now[p], privileged)))
    {
      if p in OwnedSet() {
        assert Owned(p);
        var k :| 0 <= k < 3 && OwnedPaths()[k] == p;
      }
    }
  }

  lemma CreatedAreNew(now: Nodes, was: Nodes, created: seq<Path>, litter: set<Path>)
    requires Underway(now, was, Elements(created), litter)
    ensures forall i | 0 <= i < |created| :: created[i] !in was
  {
    assert forall i | 0 <= i < |created| :: created[i] in Elements(created);
  }

  lemma RemovedContained(now: Nodes, was: Nodes, d: Path)
    requires Contained(now, was) && d !in was
    ensures Contained(now - {d}, was)
  {
    hide Owned, CreatedDirectories, IsDotted;
  }

  /** The last created directory is there and empty, and the others remain. */
  lemma ReadyToRemove(now: Nodes, was: Nodes, created: seq<Path>, i: nat, privileged: bool)
    requires Rooted(was) && i < |created| && Distinct(created)
    requires Underway(now, was, Elements(created[..i + 1]), {}) && RestoredFrom(now, was, 0, privileged)
    ensures created[i] in now && now[created[i]].Directory? && forall p | p in now :: p == [] || Parent(p) != created[i]
    ensures Underway(now - {created[i]}, was, Elements(created[..i]), {})
    ensures RestoredFrom(now - {created[i]}, was, 0, privileged)
  {
    hide RestoredFrom, Rooted, Parent, AgreeExcept, CreatedDirectories, OwnedSet, HalfMade;
    var d := created[i];
    assert d in created[..i + 1];
    assert Elements(created[..i + 1]) == Elements(created[..i]) + {d};
    CreatedIsEmpty(now, was, Elements(created[..i + 1]), d, privileged);
    DirectoryRemoved(now, was, Elements(created[..i]), d, privileged);
  }

  method RemoveDirectories(fs: FileSystem, created: seq<Path>, ghost was: Nodes, ghost litter: set<Path>)
    returns (ok: bool)
    requires Rooted(was) && Underway(fs.nodes, was, Elements(created), litter) && Distinct(created)
    requires RestoredFrom(fs.nodes, was, 0, fs.privileged)
    modifies fs
    ensures fs.failures >= old(fs.failures) && (ok <==> fs.failures == old(fs.failures))
    ensures ok && litter == {} ==> Restored(fs.nodes, was, fs.privileged)
    ensures Contained(fs.nodes, was)
    ensures old(fs.asked) <= fs.asked
    ensures ok || Troubles(fs.answers, old(fs.asked), fs.asked, was, fs.privileged) > 0
  {
    hide HOME, PRIVACY, TERMS, PRIVACY_DIRECTORY, TERMS_DIRECTORY, CreatedDirectories, OwnedSet;
    hide AgreeExcept, RestoredFrom, Rooted, Restored, Parent, OwnedPaths, Sound, IsDotted, HalfMade, Troubles;
    hide Underway, Contained, Elements, Distinct;
    UnderwayContained(fs.nodes, was, Elements(created), litter);
    CreatedAreNew(fs.nodes, was, created, litter);
    assert created[..|created|] == created;
    for i := |created| downto 0
      invariant fs.failures == old(fs.failures) && Contained(fs.nodes, was) && old(fs.asked) <= fs.asked
      invariant litter == {} ==>
          Underway(fs.nodes, was, Elements(created[..i]), {}) && RestoredFrom(fs.nodes, was, 0, fs.privileged)
    {
      var directory := created[i];
      if litter == {} {
        ReadyToRemove(fs.nodes, was, created, i, fs.privileged);
      }
      RemovedContained(fs.nodes, was, directory);
      if directory in fs.nodes && fs.nodes[directory].Directory? && fs.IsEmpty(directory) {
        ok := fs.RemoveDirectory(directory);
        if !ok {
          Raising(fs.answers, old(fs.asked), fs.asked - 1, was, fs.privileged);
          return;
        }
      }
    }
    ok := true;
    if litter == {} {
      assert created[..0] == [];
      NoneCreated();
      AllRestored(fs.nodes, was, fs.privileged);
    }
  }

  // ----- publishing -----

  /** The manifest lists exactly the owned paths, with the hashes of their pages. */
  ghost predicate Manifested(pages: seq<Page>, manifest: map<Path, string>, hash: Bytes -> string) {
    && manifest.Keys == OwnedSet()
    && (forall p | p in OwnedSet() :: exists i | 0 <= i < |pages| :: pages[i].path == p)
    && (forall i | 0 <= i < |pages| :: pages[i].path in manifest && manifest[pages[i].path] == hash(pages[i].data))
  }

  /** The hash of each page under its path, and nothing else. */
  ghost predicate Hashed(actual: map<Path, string>, pages: seq<Page>, n: nat, hash: Bytes -> string)
    requires n <= |pages|
  {
    && (forall j | 0 <= j < n :: pages[j].path in actual && actual[pages[j].path] == hash(pages[j].data))
    && (forall p | p in actual :: exists j | 0 <= j < n :: pages[j].path == p)
  }

  lemma HashedOne(actual: map<Path, string>, pages: seq<Page>, n: nat, hash: Bytes -> string)
    requires n < |pages| && Dictionary(pages) && Hashed(actual, pages, n, hash)
    ensures Hashed(actual[pages[n].path := hash(pages[n].data)], pages, n + 1, hash)
  {
  }

  lemma ManifestDecided(actual: map<Path, string>, pages: seq<Page>, manifest: map<Path, string>, hash: Bytes -> string)
    requires Hashed(actual, pages, |pages|, hash)
    ensures actual.Keys == OwnedSet() && actual == manifest <==> Manifested(pages, manifest, hash)
  {
    hide OwnedSet;
    if Manifested(pages, manifest, hash) {
      forall p ensures p in actual <==> p in manifest {
        if p in manifest {
          var i :| 0 <= i < |pages| && pages[i].path == p;
        }
      }
      assert actual.Keys == manifest.Keys;
    }
  }

  method RequirePageManifest(pages: seq<Page>, manifest: map<Path, string>, hash: Bytes -> string) returns (ok: bool)
    requires Dictionary(pages)
    ensures ok <==> Manifested(pages, manifest, hash)
  {
    hide OwnedSet, Hashed, Manifested, Dictionary;
    var actual: map<Path, string> := map[];
    assert Hashed(actual, pages, 0, hash) by {
      NothingHashed(pages, hash);
    }
    for i := 0 to |pages|
      invariant Hashed(actual, pages, i, hash)
    {
      HashedOne(actual, pages, i, hash);
      actual := actual[pages[i].path := hash(pages[i].data)];
    }
    ok := actual.Keys == OwnedSet() && actual == manifest;
    ManifestDecided(actual, pages, manifest, hash);
  }

  lemma NothingHashed(pages: seq<Page>, hash: Bytes -> string)
    ensures Hashed(map[], pages, 0, hash)
  {
  }

  /** What publishing demands of the tree before it touches anything. */
  ghost predicate Acceptable(was: Nodes, pages: seq<Page>, manifest: map<Path, string>, hash: Bytes -> string) {
    && Manifested(pages, manifest, hash)
    && RealDirectories(was)
    && forall k | 0 <= k < 3 :: OwnedPaths()[k] in was ==> was[OwnedPaths()[k]].File?
  }

  /** Refused before anything is touched, or raised on the way and rolled back, as far as that went. */
  datatype Outcome = Published | Refused(cause: Cause) | RolledBack(cause: Cause, undone: bool)

  method RequireExistingParents(fs: FileSystem) returns (ok: bool)
    ensures ok <==> RealDirectories(fs.nodes)
  {
    hide PRIVACY_DIRECTORY, TERMS_DIRECTORY;
    ok := forall d | d in CreatedDirectories() :: d in fs.nodes ==> fs.nodes[d].Directory?;
  }

  /** The snapshots of the owned files, unless one is not a regular file or cannot be read. */
  method TakeSnapshots(fs: FileSystem) returns (snapshots: seq<Snapshot>, cause: Option<Cause>)
    modifies fs`asked, fs`failures
    ensures cause.None? ==>
      && |snapshots| == 3
      && forall k | 0 <= k < 3 ::
           && snapshots[k] == SnapshotOf(fs.nodes, OwnedPaths()[k])
           && (OwnedPaths()[k] in fs.nodes ==> fs.nodes[OwnedPaths()[k]].File?)
    ensures cause.None? || cause == Some(Operation) || cause == Some(Check)
    ensures cause == Some(Check) ==>
      exists k | 0 <= k < 3 :: OwnedPaths()[k] in fs.nodes && !fs.nodes[OwnedPaths()[k]].File?
    ensures fs.failures == old(fs.failures) + (if cause == Some(Operation) then 1 else 0)
    ensures cause.None? ==> fs.asked == old(fs.asked) + 3
    ensures old(fs.asked) <= fs.asked
    ensures NoneRaises(fs.answers, old(fs.asked), fs.asked) <==> cause != Some(Operation)
    ensures cause == Some(Operation) ==>
      old(fs.asked) < fs.asked <= old(fs.asked) + 3 && fs.answers(fs.asked - 1).raises
  {
    hide HOME, PRIVACY, TERMS;
    snapshots := [];
    for i := 0 to 3
      invariant |snapshots| == i && fs.failures == old(fs.failures) && fs.asked == old(fs.asked) + i
      invariant NoneRaises(fs.answers, old(fs.asked), fs.asked)
      invariant forall k | 0 <= k < i ::
          && snapshots[k] == SnapshotOf(fs.nodes, OwnedPaths()[k])
          && (OwnedPaths()[k] in fs.nodes ==> fs.nodes[OwnedPaths()[k]].File?)
    {
      var path := OwnedPaths()[i];
      if path in fs.nodes && !fs.nodes[path].File? {
        return snapshots, Some(Check);
      }
      var a := fs.Ask();
      if a.raises {
        fs.failures := fs.failures + 1;
        return snapshots, Some(Operation);
      }
      snapshots := snapshots + [SnapshotOf(fs.nodes, path)];
    }
    cause := None;
  }

  lemma AllDelivered(now: Nodes, was: Nodes, created: set<Path>, pages: seq<Page>, uid: int, gid: int, privileged: bool)
    requires Underway(now, was, created, {}) && Directories(now, 2)
    requires InPlace(now, pages, |pages|, uid, gid, privileged)
    requires forall p | p in OwnedSet() :: exists i | 0 <= i < |pages| :: pages[i].path == p
    requires forall i | 0 <= i < |pages| :: pages[i].path in OwnedSet()
    ensures Delivered(now, was, pages, uid, gid, privileged)
  {
    hide HOME, PRIVACY, TERMS, PRIVACY_DIRECTORY, TERMS_DIRECTORY, CreatedDirectories, OwnedSet, InstalledFile;
    NamesApart();
    forall d | d in CreatedDirectories() ensures d in now && now[d].Directory? {
      var k :| 0 <= k < |CreatedDirectories()| && CreatedDirectories()[k] == d;
    }
  }

  lemma Begin(was: Nodes)
    requires forall k | 0 <= k < 3 :: OwnedPaths()[k] in was ==> was[OwnedPaths()[k]].File?
    ensures Underway(was, was, {}, {})
  {
    hide HOME, PRIVACY, TERMS;
    forall p | p in OwnedSet() && p in was ensures was[p].File? {
      assert OwnedPaths()[0] == HOME && OwnedPaths()[1] == PRIVACY && OwnedPaths()[2] == TERMS;
    }
  }

  /** Put everything back after a failure. */
  method Undo(fs: FileSystem, snapshots: seq<Snapshot>, created: seq<Path>, ghost was: Nodes, ghost litter: set<Path>)
    returns (ok: bool)
    requires Rooted(was) && Underway(fs.nodes, was, Elements(created), litter) && Underway(was, was, {}, {})
    requires Distinct(created)
    requires |snapshots| == 3 && forall k | 0 <= k < 3 :: snapshots[k] == SnapshotOf(was, OwnedPaths()[k])
    modifies fs
    ensures fs.failures >= old(fs.failures) && (ok <==> fs.failures == old(fs.failures))
    ensures ok && litter == {} ==> Restored(fs.nodes, was, fs.privileged)
    ensures Contained(fs.nodes, was)
    ensures old(fs.asked) <= fs.asked
    ensures litter == {} ==> ok || Troubles(fs.answers, old(fs.asked), fs.asked, was, fs.privileged) > 0
  {
    hide *;
    ghost var a := fs.asked;
    ok := RestoreFiles(fs, snapshots, was, Elements(created), litter);
    if ok {
      ghost var b := fs.asked;
      ok := RemoveDirectories(fs, created, was, litter);
      TroublesAdd(fs.answers, a, b, fs.asked, was, fs.privileged);
    }
  }

  /**
    All or nothing: either the pages are delivered, or nothing was touched, or, as long as the undoing
    itself does not fail, everything is restored: exactly, for a privileged process, when the owned
    files had no set-id or sticky bits. In any case nothing else is changed.
  */
  method PublishBrandingFiles(fs: FileSystem, pages: seq<Page>, manifest: map<Path, string>, hash: Bytes -> string,
                              rootOwner: (int, int), identityFails: bool, verifyFails: bool)
    returns (r: Outcome)
    requires Rooted(fs.nodes) && Dictionary(pages)
    modifies fs
    ensures r.Published? <==>
      && Acceptable(old(fs.nodes), pages, manifest, hash) && !identityFails && !verifyFails
      && Smoothly(old(fs.nodes), fs.answers, old(fs.asked), pages, fs.privileged)
    ensures r.Published? ==> fs.failures == old(fs.failures)
    ensures r.RolledBack? && r.cause.Callback? <==>
      && Acceptable(old(fs.nodes), pages, manifest, hash) && (identityFails || verifyFails)
      && Smoothly(old(fs.nodes), fs.answers, old(fs.asked), pages, fs.privileged)
    ensures Faultless(fs.answers, old(fs.asked), old(fs.nodes), fs.privileged) ==>
      r == if !Acceptable(old(fs.nodes), pages, manifest, hash) then Refused(Check)
           else if identityFails || verifyFails then RolledBack(Callback, true)
           else Published
    ensures r.RolledBack? && r.cause.Operation? && OneFault(fs.answers, old(fs.asked), old(fs.nodes), fs.privileged) ==>
      r.undone
    ensures r.Published? && HOME in old(fs.nodes) && old(fs.nodes)[HOME].File? ==>
      Delivered(fs.nodes, old(fs.nodes), pages, old(fs.nodes)[HOME].uid, old(fs.nodes)[HOME].gid, fs.privileged)
    ensures r.Published? && !(HOME in old(fs.nodes) && old(fs.nodes)[HOME].File?) ==>
      Delivered(fs.nodes, old(fs.nodes), pages, rootOwner.0, rootOwner.1, fs.privileged)
    ensures r.Refused? ==> fs.nodes == old(fs.nodes)
    ensures r.Refused? ==>
      if r.cause.Operation? then fs.failures == old(fs.failures) + 1
      else r.cause.Check? && fs.failures == old(fs.failures) && !Acceptable(old(fs.nodes), pages, manifest, hash)
    ensures r.RolledBack? ==> Acceptable(old(fs.nodes), pages, manifest, hash) && !r.cause.Check?
    ensures r.RolledBack? ==> (r.undone <==> fs.failures == old(fs.failures) + (if r.cause.Operation? then 1 else 0))
    ensures r.RolledBack? && r.undone ==> Restored(fs.nodes, old(fs.nodes), fs.privileged)
    ensures r.RolledBack? && r.undone ==> (SameModes(fs.nodes, old(fs.nodes)) <==> PlainModes(old(fs.nodes)))
    ensures r.RolledBack? && r.undone && fs.privileged ==> (fs.nodes == old(fs.nodes) <==> PlainModes(old(fs.nodes)))
    ensures Contained(fs.nodes, old(fs.nodes))
  {
    hide *;
    ghost var was := fs.nodes;
    NothingTouched(was, pages, manifest, hash);
    var ok := RequirePageManifest(pages, manifest, hash);
    if ok {
      ok := RequireExistingParents(fs);
    }
    if !ok {
      return Refused(Check);
    }
    ghost var a := fs.asked;
    var snapshots, cause := TakeSnapshots(fs);
    SmoothlySplit(was, fs.answers, a, pages, fs.privileged);
    if cause.Some? {
      SnapshotsStop(was, fs.answers, a, fs.asked, pages, fs.privileged);
      return Refused(cause.value);
    }
    Begin(was);
    ghost var b := fs.asked;
    AcceptableNow(was, pages, manifest, hash);
    var uid, gid := if snapshots[0].Kept? then snapshots[0].uid else rootOwner.0,
                    if snapshots[0].Kept? then snapshots[0].gid else rootOwner.1;
    HomeKept(was);
    var stopped, created, clean, litter := Forward(fs, pages, uid, gid, identityFails, verifyFails, was);
    ghost var c := fs.asked;
    FaultsAdd(fs.answers, a, b, c, c, was, fs.privileged);
    if stopped.None? {
      UnderwayContained(fs.nodes, was, Elements(created), litter);
      AllDelivered(fs.nodes, was, Elements(created), pages, uid, gid, fs.privileged);
      return Published;
    }
    ok := Undo(fs, snapshots, created, was, litter);
    FaultsAdd(fs.answers, a, b, c, fs.asked, was, fs.privileged);
    r := RolledBack(stopped.value, ok && clean);
    if r.undone {
      ModesRestored(fs.nodes, was, fs.privileged);
    }
  }

  lemma SmoothlySplit(was: Nodes, answers: nat -> Answer, at: nat, pages: seq<Page>, privileged: bool)
    ensures Smoothly(was, answers, at, pages, privileged) <==>
            NoneRaises(answers, at, at + 3) && ForwardWorks(was, answers, at + 3, pages, privileged)
  {
  }

  /** An answer that raises while the snapshots are taken. */
  lemma SnapshotsStop(was: Nodes, answers: nat -> Answer, at: nat, asked: nat, pages: seq<Page>, privileged: bool)
    ensures at < asked <= at + 3 && answers(asked - 1).raises ==>
              !Smoothly(was, answers, at, pages, privileged) && !Faultless(answers, at, was, privileged)
  {
    hide OwnedPaths, ForwardWorks;
  }

  lemma NothingTouched(was: Nodes, pages: seq<Page>, manifest: map<Path, string>, hash: Bytes -> string)
    ensures Contained(was, was)
    ensures Acceptable(was, pages, manifest, hash) ==>
      && Manifested(pages, manifest, hash) && RealDirectories(was)
      && forall k | 0 <= k < 3 :: OwnedPaths()[k] in was ==> was[OwnedPaths()[k]].File?
  {
  }

  lemma AcceptableNow(was: Nodes, pages: seq<Page>, manifest: map<Path, string>, hash: Bytes -> string)
    requires Manifested(pages, manifest, hash) && RealDirectories(was)
    requires forall k | 0 <= k < 3 :: OwnedPaths()[k] in was ==> was[OwnedPaths()[k]].File?
    ensures Acceptable(was, pages, manifest, hash)
    ensures forall p | p in OwnedSet() :: exists i | 0 <= i < |pages| :: pages[i].path == p
    ensures forall i | 0 <= i < |pages| :: pages[i].path in OwnedSet()
  {
  }

  /** The snapshot of the home page has its owner, if there was a file. */
  lemma HomeKept(was: Nodes)
    ensures
      var s := SnapshotOf(was, OwnedPaths()[0]);
      && (s.Kept? <==> HOME in was && was[HOME].File?)
      && (s.Kept? ==> s.uid == was[HOME].uid && s.gid == was[HOME].gid)
  {
  }

  /**
    Set-id and sticky bits, and for an unprivileged process the owner, are what the undoing can lose:
    it brings all modes back exactly when no owned file had such bits, and a privileged one then
    brings back the whole tree.
  */
  lemma ModesRestored(now: Nodes, was: Nodes, privileged: bool)
    requires Restored(now, was, privileged)
    ensures SameModes(now, was) <==> PlainModes(was)
    ensures privileged ==> (now == was <==> PlainModes(was))
  {
    hide Owned;
    if PlainModes(was) && privileged {
      forall p ensures (p in now <==> p in was) && (p in was ==> now[p] == was[p]) {
      }
      assert now == was;
    }
  }
}
