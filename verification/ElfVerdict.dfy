/**
  Exactly when the patcher succeeds, does nothing or fails.
*/
module ElfVerdict {
  import opened Options
  import opened ElfFile
  import opened ElfPatch
  import opened ElfTheorems
  import opened ElfFamilies

  /** The run-path string is terminated and leaves room for `$ORIGIN`. */
  predicate Fits(data: seq<byte>, e: Entry, strOff: nat) {
    var s := StringAt(data, Start(e, strOff));
    s.Some? && |s.value| >= 7
  }

  predicate IsOrigin(data: seq<byte>, e: Entry, strOff: nat) {
    StringAt(data, Start(e, strOff)) == Some(ORIGIN[..7])
  }

  predicate AllFit(data: seq<byte>, entries: seq<Entry>, strOff: nat, n: nat)
    requires n <= |entries|
  {
    forall i | 0 <= i < n && RunPath(entries[i]) :: Fits(data, entries[i], strOff)
  }

  predicate AllOrigin(data: seq<byte>, entries: seq<Entry>, strOff: nat, n: nat)
    requires n <= |entries|
  {
    forall i | 0 <= i < n && RunPath(entries[i]) :: IsOrigin(data, entries[i], strOff)
  }

  lemma FreshVerdict(data: seq<byte>, d: seq<byte>, e: Entry, strOff: nat)
    requires |d| == |data| && e.loc + 16 <= |d| && RunPath(e)
    requires ClearOf(data, e, e, strOff)
    requires forall k | 0 <= k < |d| && InSpan(data, e, strOff, k) :: d[k] == data[k]
    ensures PatchEntry(d, e, strOff).Going? <==> Fits(data, e, strOff)
    ensures PatchEntry(d, e, strOff).Going? ==>
              (PatchEntry(d, e, strOff).changed <==> !IsOrigin(data, e, strOff))
  {
    FreshString(data, d, e, strOff);
  }

  /** A run path never starts behind one before it whose string has the same end. */
  predicate Descending(data: seq<byte>, entries: seq<Entry>, strOff: nat, n: nat)
    requires n <= |entries|
  {
    forall i, j | 0 <= i < j < n && RunPath(entries[i]) && RunPath(entries[j]) &&
                  End(data, Start(entries[i], strOff)) == End(data, Start(entries[j], strOff)) ::
      Start(entries[j], strOff) <= Start(entries[i], strOff)
  }

  /** Whether entry `n` goes through, and whether it changes a string. */
  predicate Judged(data: seq<byte>, e: Entry, strOff: nat, last: Option<nat>, p: Progress) {
    var start := Start(e, strOff);
    match last
    case None => (p.Going? <==> Fits(data, e, strOff)) && (p.Going? ==> (p.changed <==> !IsOrigin(data, e, strOff)))
    case Some(before) => (p.Going? <==> start <= before) && (p.Going? ==> (p.changed <==> start < before))
  }

  lemma EntryJudged(data: seq<byte>, d: seq<byte>, e: Entry, strOff: nat, lo: nat, last: Option<nat>)
    requires |d| == |data| && e.loc + 16 <= |d| && RunPath(e) && ClearOf(data, e, e, strOff)
    requires lo <= Start(e, strOff) <= End(data, lo) && (End(data, lo) < e.loc || e.loc + 16 <= lo)
    requires Shaped(data, d, lo, End(data, lo), last)
    ensures Judged(data, e, strOff, last, PatchEntry(d, e, strOff))
  {
    hide Filled, FillByte, Fits, IsOrigin;
    SameTail(data, lo, Start(e, strOff));
    match last {
      case None =>
        FreshVerdict(data, d, e, strOff);
      case Some(p) =>
        TagAside(data, d, e.loc, lo, last);
        WrittenJudged(data, d, e, strOff, lo, p);
    }
  }

  lemma WrittenJudged(data: seq<byte>, d: seq<byte>, e: Entry, strOff: nat, lo: nat, p: nat)
    requires e.loc + 16 <= |d| && RunPath(e)
    requires lo <= Start(e, strOff) <= End(data, lo)
    requires WrittenFrom(data, Splice(d, e.loc, RUNPATH_WORD), lo, End(data, lo), p)
    ensures Judged(data, e, strOff, Some(p), PatchEntry(d, e, strOff))
  {
    hide Splice, WrittenFrom, Filling;
    var tagged, start := Splice(d, e.loc, RUNPATH_WORD), Start(e, strOff);
    WrittenEnd(data, tagged, lo, p, start);
    var end := End(tagged, start);
    assert |tagged[start..end]| == end - start && |ORIGIN[..7]| == 7;
  }

  /** The last of the strings with an end: one of them, and when they descend the longest. */
  lemma {:induction false} LastFound(data: seq<byte>, entries: seq<Entry>, strOff: nat, n: nat, end: nat)
    requires n <= |entries| && Descending(data, entries, strOff, n)
    ensures
      match LastStart(data, entries, strOff, n, end)
      case None => forall i | 0 <= i < n && RunPath(entries[i]) :: End(data, Start(entries[i], strOff)) != end
      case Some(p) =>
        && (exists i | 0 <= i < n :: RunPath(entries[i]) && Start(entries[i], strOff) == p)
        && End(data, p) == end
        && forall i | 0 <= i < n && RunPath(entries[i]) && End(data, Start(entries[i], strOff)) == end ::
             p <= Start(entries[i], strOff)
  {
    if n > 0 {
      LastFound(data, entries, strOff, n - 1, end);
    }
  }

  lemma VerdictStep(data: seq<byte>, entries: seq<Entry>, strOff: nat, n: nat, changed: bool, p: Progress)
    requires n < |entries| && RunPath(entries[n])
    requires AllFit(data, entries, strOff, n) && Descending(data, entries, strOff, n)
    requires changed <==> !AllOrigin(data, entries, strOff, n)
    requires
      var e := entries[n];
      Judged(data, e, strOff, LastStart(data, entries, strOff, n, End(data, Start(e, strOff))), p)
    ensures p.Going? <==> AllFit(data, entries, strOff, n + 1) && Descending(data, entries, strOff, n + 1)
    ensures p.Going? ==> (changed || p.changed <==> !AllOrigin(data, entries, strOff, n + 1))
  {
    hide LastStart, Fits, IsOrigin;
    var e := entries[n];
    var end := End(data, Start(e, strOff));
    LastFound(data, entries, strOff, n, end);
    match LastStart(data, entries, strOff, n, end) {
      case None =>
      case Some(p) =>
        var i :| 0 <= i < n && RunPath(entries[i]) && Start(entries[i], strOff) == p;
        LongerFits(data, entries[i], e, strOff);
    }
  }

  /** A string that ends where a shorter one does fits when that does; only one of them is `$ORIGIN`. */
  lemma LongerFits(data: seq<byte>, a: Entry, b: Entry, strOff: nat)
    requires End(data, Start(a, strOff)) == End(data, Start(b, strOff))
    ensures Start(b, strOff) <= Start(a, strOff) && Fits(data, a, strOff) ==> Fits(data, b, strOff)
    ensures IsOrigin(data, a, strOff) ==> (IsOrigin(data, b, strOff) <==> Start(b, strOff) == Start(a, strOff))
  {
    var s, t := StringAt(data, Start(a, strOff)), StringAt(data, Start(b, strOff));
    assert s.Some? && t.Some? ==> |s.value| - |t.value| == Start(b, strOff) - Start(a, strOff);
  }

  /**
    After `n` entries: patching goes on exactly when all strings so far fit and none is a proper tail
    of one before it, and something has changed exactly when one of them was not `$ORIGIN`.
  */
  lemma {:induction false} VerdictProgress(data: seq<byte>, entries: seq<Entry>, strOff: nat, n: nat)
    requires n <= |entries| && InFile(entries, |data|) && ClearOfTable(data, entries, strOff)
    ensures PatchEntries(data, entries, strOff, n).Going? <==>
            AllFit(data, entries, strOff, n) && Descending(data, entries, strOff, n)
    ensures PatchEntries(data, entries, strOff, n).Going? ==>
              (PatchEntries(data, entries, strOff, n).changed <==> !AllOrigin(data, entries, strOff, n))
  {
    hide PatchEntry, Fits, IsOrigin, Judged, LastStart, Shaped, Leads, EndsKept;
    if n > 0 {
      VerdictProgress(data, entries, strOff, n - 1);
      if PatchEntries(data, entries, strOff, n - 1).Going? {
        var e := entries[n - 1];
        var Going(d, changed) := PatchEntries(data, entries, strOff, n - 1);
        if RunPath(e) {
          NextJudged(data, entries, strOff, n - 1);
          VerdictStep(data, entries, strOff, n - 1, changed, PatchEntry(d, e, strOff));
        } else {
          PassedOver(d, e, strOff);
        }
      }
    }
  }

  lemma NextJudged(data: seq<byte>, entries: seq<Entry>, strOff: nat, n: nat)
    requires n < |entries| && InFile(entries, |data|) && ClearOfTable(data, entries, strOff) && RunPath(entries[n])
    requires PatchEntries(data, entries, strOff, n).Going?
    ensures
      var e, d := entries[n], PatchEntries(data, entries, strOff, n).data;
      var last := LastStart(data, entries, strOff, n, End(data, Start(e, strOff)));
      Judged(data, e, strOff, last, PatchEntry(d, e, strOff))
  {
    hide PatchEntry, PatchEntries, LastStart, Shaped, EndsKept, Judged;
    var e := entries[n];
    var lo := FirstOfFamily(data, entries, strOff, n);
    FamilyProgress(data, entries, strOff, n, lo);
    var i :| 0 <= i < |entries| && RunPath(entries[i]) && Start(entries[i], strOff) == lo;
    assert ClearOf(data, entries[i], e, strOff) && ClearOf(data, e, e, strOff);
    EntryJudged(data, PatchEntries(data, entries, strOff, n).data, e, strOff, lo,
                LastStart(data, entries, strOff, n, End(data, lo)));
  }

  /**
    The patcher rewrites a file exactly when every run-path string has room, none is a proper tail of
    one patched before it, and one of them is not `$ORIGIN` yet; it leaves the file alone exactly when
    all of them are, whatever their tags say.
  */
  lemma PatchVerdict(file: seq<byte>, entries: seq<Entry>, strOff: nat)
    requires LayoutOf(file) == Ready(entries, strOff) && ClearOfTable(file, entries, strOff)
    ensures PatchFile(file).0 == Patched <==>
              && AllFit(file, entries, strOff, |entries|) && Descending(file, entries, strOff, |entries|)
              && !AllOrigin(file, entries, strOff, |entries|)
    ensures PatchFile(file).0 == SkipNoRpath <==> AllOrigin(file, entries, strOff, |entries|)
    ensures PatchFile(file).0.Fail? <==>
              !AllFit(file, entries, strOff, |entries|) || !Descending(file, entries, strOff, |entries|)
    ensures PatchFile(file).0 != Patched ==> PatchFile(file).1 == file
  {
    hide LayoutOf, PatchEntries, ClearOfTable, Fits, IsOrigin;
    LayoutInFile(file);
    VerdictProgress(file, entries, strOff, |entries|);
    forall i | 0 <= i < |entries| && RunPath(entries[i]) && IsOrigin(file, entries[i], strOff)
      ensures Fits(file, entries[i], strOff)
    {
      OriginFits(file, entries[i], strOff);
    }
    if AllOrigin(file, entries, strOff, |entries|) {
      OriginsDescend(file, entries, strOff);
    }
  }

  lemma OriginFits(data: seq<byte>, e: Entry, strOff: nat)
    requires IsOrigin(data, e, strOff)
    ensures Fits(data, e, strOff)
  {
  }

  lemma OriginsDescend(data: seq<byte>, entries: seq<Entry>, strOff: nat)
    requires AllOrigin(data, entries, strOff, |entries|)
    ensures Descending(data, entries, strOff, |entries|)
  {
    hide IsOrigin;
    forall i, j | 0 <= i < j < |entries| && RunPath(entries[i]) && RunPath(entries[j]) &&
                  End(data, Start(entries[i], strOff)) == End(data, Start(entries[j], strOff))
      ensures Start(entries[j], strOff) <= Start(entries[i], strOff)
    {
      LongerFits(data, entries[i], entries[j], strOff);
    }
  }

  /** Strings that are apart descend. */
  lemma ApartDescends(data: seq<byte>, entries: seq<Entry>, strOff: nat)
    requires Apart(data, entries, strOff)
    ensures Descending(data, entries, strOff, |entries|)
  {
    forall i, j | 0 <= i < j < |entries| && RunPath(entries[i]) && RunPath(entries[j]) &&
                  End(data, Start(entries[i], strOff)) == End(data, Start(entries[j], strOff))
      ensures Start(entries[j], strOff) <= Start(entries[i], strOff)
    {
      assert SameOrApart(data, entries[i], entries[j], strOff);
    }
  }

  /** For strings that are kept apart only their room and their content decide. */
  lemma SeparatedVerdict(file: seq<byte>, entries: seq<Entry>, strOff: nat)
    requires LayoutOf(file) == Ready(entries, strOff) && Separated(file, entries, strOff)
    ensures PatchFile(file).0 == Patched <==>
              AllFit(file, entries, strOff, |entries|) && !AllOrigin(file, entries, strOff, |entries|)
    ensures PatchFile(file).0.Fail? <==> !AllFit(file, entries, strOff, |entries|)
  {
    hide LayoutOf, PatchFile, Apart, ClearOfTable, AllFit, AllOrigin, Descending;
    PatchVerdict(file, entries, strOff);
    ApartDescends(file, entries, strOff);
  }
}
