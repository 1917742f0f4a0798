/**
  Two publications over a home page with a set-id bit, by a privileged process that meets no trouble:
  one that is verified, and one whose verification fails and that is undone.
*/
module PublisherExample {
  import opened Options
  import opened PublisherFiles
  import opened PublisherTree
  import opened PublisherAnswers
  import opened Publisher

  /** Read and write for the owner, read for the others, and the set-user-id bit. */
  const SET_ID_MODE: nat := 0x9A4

  function Tree(): Nodes {
    map[HOME := File([1], SET_ID_MODE, 7, 8, 9)]
  }

  function Pages(): seq<Page> {
    [Page(HOME, [2]), Page(PRIVACY, [3]), Page(TERMS, [4])]
  }

  function Hash(data: Bytes): string {
    "hash"
  }

  function Manifest(): map<Path, string> {
    map[HOME := "hash", PRIVACY := "hash", TERMS := "hash"]
  }

  function Untroubled(k: nat): Answer {
    Answer(false, false, "part", 10, [])
  }

  lemma TreeIsRooted()
    ensures Rooted(Tree()) && Dictionary(Pages()) && !PlainModes(Tree())
  {
    hide HOME, PRIVACY, TERMS;
    NamesApart();
    HomeAtRoot();
    assert Owned(HOME) && HOME in Tree();
  }

  lemma HomeAtRoot()
    ensures |HOME| == 1
  {
  }

  lemma PagesManifested()
    ensures Manifested(Pages(), Manifest(), Hash)
  {
    hide HOME, PRIVACY, TERMS;
    NamesApart();
    assert Pages()[0].path == HOME && Pages()[1].path == PRIVACY && Pages()[2].path == TERMS;
  }

  lemma TreeAcceptable()
    ensures Acceptable(Tree(), Pages(), Manifest(), Hash)
  {
    hide HOME, PRIVACY, TERMS, PRIVACY_DIRECTORY, TERMS_DIRECTORY, CreatedDirectories, Manifested;
    NamesApart();
    PagesManifested();
    assert HOME in OwnedSet();
    assert OwnedPaths()[0] == HOME && OwnedPaths()[1] == PRIVACY && OwnedPaths()[2] == TERMS;
  }

  lemma NoTrouble()
    ensures Faultless(Untroubled, 0, Tree(), true)
  {
    NamesApart();
    forall k: nat ensures Sound(Untroubled(k), Tree(), true) {
      forall i | 0 <= i < 3 ensures Temporary(OwnedPaths()[i], Untroubled(k).suffix) !in Tree() {
        assert IsDotted(Temporary(OwnedPaths()[i], Untroubled(k).suffix)) && HOME in OwnedSet();
      }
    }
  }

  /** What becomes of the tree when the publication is verified, and when it is not. */
  method PublishOver(verifyFails: bool) returns (fs: FileSystem, r: Outcome)
    ensures !verifyFails ==> r == Published && Delivered(fs.nodes, Tree(), Pages(), 7, 8, true)
    ensures verifyFails ==> r == RolledBack(Callback, true) && fs.nodes != Tree()
    ensures verifyFails ==>
      && fs.nodes.Keys == {HOME} && fs.nodes[HOME] == File([1], SET_ID_MODE % PERMISSIONS, 7, 8, 9)
      && fs.nodes[HOME].mode != SET_ID_MODE
  {
    hide Untroubled, Hash, Manifest, Pages;
    hide Faultless, Smoothly, Acceptable, Rooted, Dictionary, PlainModes, SameModes, Contained, OneFault, Delivered;
    TreeIsRooted();
    TreeAcceptable();
    NoTrouble();
    fs := new FileSystem(Tree(), Untroubled, true, 0, 0);
    r := PublishBrandingFiles(fs, Pages(), Manifest(), Hash, (0, 0), false, verifyFails);
    if verifyFails {
      RestoredHome(fs.nodes);
    }
  }

  lemma RestoredHome(now: Nodes)
    requires Restored(now, Tree(), true)
    ensures now.Keys == {HOME} && now[HOME] == File([1], SET_ID_MODE % PERMISSIONS, 7, 8, 9)
  {
    assert Owned(HOME) && HOME in Tree();
    forall p ensures p in now.Keys <==> p in {HOME} {
      assert p in now <==> p in Tree();
    }
  }
}
