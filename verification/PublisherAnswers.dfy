/**
  Which answers of the system let a publication through, and which failures they can be blamed for.
*/
module PublisherAnswers {
  import opened PublisherFiles
  import opened PublisherTree

  /** Nothing raises, nothing is denied that matters, and the name for a half-made file is free. */
  predicate Sound(a: Answer, was: Nodes, privileged: bool) {
    && !a.raises && !(a.denied && privileged)
    && forall k | 0 <= k < 3 :: Temporary(OwnedPaths()[k], a.suffix) !in was
  }

  /** How many of the answers from number `from` up to `to` are not sound. */
  function Troubles(answers: nat -> Answer, from: nat, to: nat, was: Nodes, privileged: bool): nat
    requires from <= to
  {
    if from == to then 0
    else
      Troubles(answers, from, to - 1, was, privileged) + if Sound(answers(to - 1), was, privileged) then 0 else 1
  }

  lemma {:induction false} TroublesAdd(answers: nat -> Answer, from: nat, mid: nat, to: nat,
        was: Nodes, privileged: bool)
    requires from <= mid <= to
    ensures Troubles(answers, from, to, was, privileged) ==
            Troubles(answers, from, mid, was, privileged) + Troubles(answers, mid, to, was, privileged)
  {
    hide Sound;
    if mid < to {
      TroublesAdd(answers, from, mid, to - 1, was, privileged);
    }
  }

  /** All answers from number `from` on are sound. */
  ghost predicate Faultless(answers: nat -> Answer, from: nat, was: Nodes, privileged: bool) {
    forall k: nat | from <= k :: Sound(answers(k), was, privileged)
  }

  /** At most one answer from number `from` on is not sound. */
  ghost predicate OneFault(answers: nat -> Answer, from: nat, was: Nodes, privileged: bool) {
    forall j: nat, k: nat | from <= j < k :: Sound(answers(j), was, privileged) || Sound(answers(k), was, privileged)
  }

  lemma {:induction false} FewTroubles(answers: nat -> Answer, from: nat, to: nat, was: Nodes, privileged: bool)
    requires from <= to
    ensures Faultless(answers, from, was, privileged) ==> Troubles(answers, from, to, was, privileged) == 0
    ensures OneFault(answers, from, was, privileged) ==> Troubles(answers, from, to, was, privileged) <= 1
    ensures Troubles(answers, from, to, was, privileged) > 0 ==>
              exists k | from <= k < to :: !Sound(answers(k), was, privileged)
  {
    hide Sound;
    if from < to {
      FewTroubles(answers, from, to - 1, was, privileged);
    }
  }

  /** The troubles of the way forward and of the way back, together. */
  lemma FaultsAdd(answers: nat -> Answer, from: nat, b: nat, c: nat, to: nat, was: Nodes, privileged: bool)
    requires from <= b <= c <= to
    ensures
      var troubles := Troubles(answers, b, c, was, privileged) + Troubles(answers, c, to, was, privileged);
      && (Faultless(answers, from, was, privileged) ==> troubles == 0)
      && (OneFault(answers, from, was, privileged) ==> troubles <= 1)
  {
    hide Troubles, Faultless, OneFault;
    FewTroubles(answers, from, to, was, privileged);
    TroublesAdd(answers, from, b, to, was, privileged);
    TroublesAdd(answers, b, c, to, was, privileged);
  }

  /** One file can be installed with the answers from number `at` on. */
  predicate InstallWorks(was: Nodes, answers: nat -> Answer, at: nat, p: Path, privileged: bool)
    requires p != []
  {
    && !answers(at).raises && Temporary(p, answers(at).suffix) !in was
    && FillWorks(answers, at + 1, privileged)
  }

  predicate FillWorks(answers: nat -> Answer, at: nat, privileged: bool) {
    && !answers(at).raises && !answers(at + 1).raises
    && !(answers(at + 2).raises || (answers(at + 2).denied && privileged))
    && !answers(at + 3).raises
  }

  /** How many of the first `n` directories are missing. */
  function MissingDirectories(was: Nodes, n: nat): nat
    requires n <= 2
  {
    if n == 0 then 0 else MissingDirectories(was, n - 1) + if CreatedDirectories()[n - 1] in was then 0 else 1
  }

  ghost predicate NoneRaises(answers: nat -> Answer, from: nat, to: nat) {
    forall k: nat | from <= k < to :: !answers(k).raises
  }

  ghost predicate InstallsWork(was: Nodes, answers: nat -> Answer, at: nat, pages: seq<Page>, privileged: bool) {
    forall i | 0 <= i < |pages| ::
      pages[i].path != [] && InstallWorks(was, answers, at + 5 * i, pages[i].path, privileged)
  }

  /** The way forward: missing directories are made, then the pages installed. */
  ghost predicate ForwardWorks(was: Nodes, answers: nat -> Answer, at: nat, pages: seq<Page>, privileged: bool) {
    var directories := MissingDirectories(was, 2);
    NoneRaises(answers, at, at + directories) && InstallsWork(was, answers, at + directories, pages, privileged)
  }

  /** The answers let every step of a publication through: three snapshots, then the way forward. */
  ghost predicate Smoothly(was: Nodes, answers: nat -> Answer, at: nat, pages: seq<Page>, privileged: bool) {
    NoneRaises(answers, at, at + 3) && ForwardWorks(was, answers, at + 3, pages, privileged)
  }

  /** No half-made file is about but those that were there before. */
  ghost predicate NoLitter(now: Nodes, was: Nodes) {
    forall t | IsDotted(t) && t in now :: t in was
  }

  /** An answer that raises, or denies what matters, is a trouble. */
  lemma Raising(answers: nat -> Answer, from: nat, at: nat, was: Nodes, privileged: bool)
    requires from <= at
    ensures answers(at).raises || (answers(at).denied && privileged) ==>
              Troubles(answers, from, at + 1, was, privileged) > 0
  {
    hide OwnedPaths;
  }

  /** So is one whose name for a half-made file is taken. */
  lemma TemporaryTaken(answers: nat -> Answer, at: nat, p: Path, now: Nodes, was: Nodes, privileged: bool)
    requires Owned(p) && p != [] && NoLitter(now, was)
    ensures answers(at).raises || Temporary(p, answers(at).suffix) in now ==>
              Troubles(answers, at, at + 1, was, privileged) > 0
  {
    hide OwnedPaths;
    var k :| 0 <= k < 3 && OwnedPaths()[k] == p;
  }

  lemma NoneYet(answers: nat -> Answer, at: nat, was: Nodes)
    ensures NoneRaises(answers, at, at) && MissingDirectories(was, 0) == 0
  {
  }

  /** One more answer, which may be the one that raises. */
  lemma NoneMore(answers: nat -> Answer, from: nat, at: nat, to: nat)
    requires from <= at < to && NoneRaises(answers, from, at)
    ensures answers(at).raises ==> !NoneRaises(answers, from, to)
    ensures to == at + 1 && !answers(at).raises ==> NoneRaises(answers, from, to)
  {
  }

  lemma MissingOneMore(was: Nodes, i: nat)
    requires i < 2
    ensures MissingDirectories(was, i + 1) ==
            MissingDirectories(was, i) + if CreatedDirectories()[i] in was then 0 else 1
    ensures MissingDirectories(was, i + 1) <= MissingDirectories(was, 2)
  {
    hide CreatedDirectories;
    assert i + 1 == 2 || MissingDirectories(was, 2) >= MissingDirectories(was, 1);
  }
}
