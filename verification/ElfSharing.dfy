/**
  Run paths that share a tail: what each of them reads after a patch that reports success, and when
  that is `$ORIGIN` for all of them.
*/
module ElfSharing {
  import opened Options
  import opened ElfFile
  import opened ElfPatch
  import opened ElfTheorems
  import opened ElfResults
  import opened ElfFamilies
  import opened ElfVerdict

  /** `$ORIGIN` without its first `k` characters. */
  function OriginFrom(k: nat): seq<byte> {
    if k < 7 then ORIGIN[k..7] else []
  }

  lemma WrittenReads(data: seq<byte>, out: seq<byte>, lo: nat, start: nat)
    requires WrittenFrom(data, out, lo, End(data, lo), lo) && lo <= start <= End(data, lo)
    ensures StringAt(out, start) == Some(OriginFrom(start - lo))
  {
    FillEnds();
    if start < lo + 7 {
      EndAt(out, start, lo + 7);
      forall k | start <= k < lo + 7 ensures out[k] == ORIGIN[k - lo] {
      }
      assert out[start..lo + 7] == ORIGIN[start - lo..7];
    } else {
      EndAt(out, start, start);
      assert out[start..start] == [];
    }
  }

  /** Once all entries are patched, the string of a family that starts first is the one written. */
  lemma FirstIsLast(data: seq<byte>, entries: seq<Entry>, strOff: nat, i: nat, lo: nat)
    requires i < |entries| && RunPath(entries[i]) && Descending(data, entries, strOff, |entries|)
    requires Leads(data, entries, strOff, lo) && End(data, lo) == End(data, Start(entries[i], strOff))
    ensures LastStart(data, entries, strOff, |entries|, End(data, lo)) == Some(lo)
  {
    hide LastStart, End;
    LastFound(data, entries, strOff, |entries|, End(data, lo));
    var j :| 0 <= j < |entries| && RunPath(entries[j]) && Start(entries[j], strOff) == lo;
  }

  /**
    After a patch that reports success, the run path that starts first among those with one end reads
    `$ORIGIN`, and any other of them reads what is left of it at its own start, if anything.
  */
  lemma TailsRead(file: seq<byte>, out: seq<byte>, entries: seq<Entry>, strOff: nat, i: nat, lo: nat)
    requires LayoutOf(file) == Ready(entries, strOff) && ClearOfTable(file, entries, strOff)
    requires PatchFile(file) == (Patched, out)
    requires i < |entries| && RunPath(entries[i])
    requires Leads(file, entries, strOff, lo) && End(file, lo) == End(file, Start(entries[i], strOff))
    ensures lo <= Start(entries[i], strOff)
    ensures StringAt(out, Start(entries[i], strOff)) == Some(OriginFrom(Start(entries[i], strOff) - lo))
  {
    hide LayoutOf, PatchFile, PatchReady, PatchEntries, ClearOfTable, OriginFrom, StringAt, WrittenFrom, LastStart;
    hide Descending, AllFit, AllOrigin;
    PatchFileRuns(file, out, entries, strOff);
    PatchReadyRuns(file, entries, strOff);
    VerdictProgress(file, entries, strOff, |entries|);
    FirstIsLast(file, entries, strOff, i, lo);
    FamilyProgress(file, entries, strOff, |entries|, lo);
    WrittenReads(file, out, lo, Start(entries[i], strOff));
  }

  lemma OnlyWholeOrigin(k: nat)
    requires OriginFrom(k) == ORIGIN[..7]
    ensures k == 0
  {
    assert k < 7 ==> |ORIGIN[k..7]| == 7 - k;
    assert |ORIGIN[..7]| == 7;
  }

  /** A run path that reads `$ORIGIN` is the first of those that end with it. */
  lemma ReadsWhole(file: seq<byte>, out: seq<byte>, entries: seq<Entry>, strOff: nat, i: nat, lo: nat)
    requires LayoutOf(file) == Ready(entries, strOff) && ClearOfTable(file, entries, strOff)
    requires PatchFile(file) == (Patched, out) && ReadsOriginEverywhere(out, entries, strOff)
    requires i < |entries| && RunPath(entries[i])
    requires Leads(file, entries, strOff, lo) && End(file, lo) == End(file, Start(entries[i], strOff))
    ensures Start(entries[i], strOff) == lo
  {
    hide LayoutOf, PatchFile, ClearOfTable, OriginFrom, StringAt, Leads;
    TailsRead(file, out, entries, strOff, i, lo);
    OnlyWholeOrigin(Start(entries[i], strOff) - lo);
  }

  /**
    After a patch that reports success every run path reads `$ORIGIN` exactly when, in the old
    file, no two run paths share a part of their strings without being the same string.
  */
  lemma ReadsOriginExactly(file: seq<byte>, out: seq<byte>, entries: seq<Entry>, strOff: nat)
    requires LayoutOf(file) == Ready(entries, strOff) && ClearOfTable(file, entries, strOff)
    requires PatchFile(file) == (Patched, out)
    ensures ReadsOriginEverywhere(out, entries, strOff) <==> Apart(file, entries, strOff)
  {
    hide LayoutOf, PatchFile, ClearOfTable, Leads, ReadsOriginEverywhere;
    if Apart(file, entries, strOff) {
      PatchedFile(file, out, entries, strOff);
    } else if ReadsOriginEverywhere(out, entries, strOff) {
      forall i, j | 0 <= i < |entries| && 0 <= j < |entries| && RunPath(entries[i]) && RunPath(entries[j])
        ensures SameOrApart(file, entries[i], entries[j], strOff)
      {
        TogetherOrApart(file, Start(entries[i], strOff), Start(entries[j], strOff));
        if End(file, Start(entries[i], strOff)) == End(file, Start(entries[j], strOff)) {
          var lo := FirstOfFamily(file, entries, strOff, i);
          ReadsWhole(file, out, entries, strOff, i, lo);
          ReadsWhole(file, out, entries, strOff, j, lo);
        }
      }
    }
  }

  /** A patched file has its old length and differs only in tags and strings of run paths. */
  lemma PatchChanges(file: seq<byte>, out: seq<byte>, entries: seq<Entry>, strOff: nat)
    requires LayoutOf(file) == Ready(entries, strOff) && ClearOfTable(file, entries, strOff)
    requires PatchFile(file) == (Patched, out)
    ensures ChangedTo(file, out, entries, strOff, |entries|) && EndsKept(file, out, entries, strOff)
  {
    hide LayoutOf, PatchFile, PatchReady, PatchEntries, ClearOfTable;
    LayoutSpaced(file);
    PatchFileRuns(file, out, entries, strOff);
    PatchReadyRuns(file, entries, strOff);
    ChangeProgress(file, entries, strOff, |entries|);
  }

  /** Strings of a patched file end where they did or before, so they stay clear of the table. */
  lemma StillClear(file: seq<byte>, out: seq<byte>, entries: seq<Entry>, strOff: nat)
    requires InFile(entries, |file|) && ClearOfTable(file, entries, strOff) && EndsKept(file, out, entries, strOff)
    requires AllFit(file, entries, strOff, |entries|)
    ensures ClearOfTable(out, AllRetagged(entries), strOff)
    ensures forall i | 0 <= i < |entries| && RunPath(entries[i]) :: End(out, Start(entries[i], strOff)) < |out|
  {
    hide Retagged;
    forall i | 0 <= i < |entries| && RunPath(entries[i])
      ensures End(out, Start(entries[i], strOff)) <= End(file, Start(entries[i], strOff)) < |file|
    {
      assert Fits(file, entries[i], strOff);
      EndBefore(out, Start(entries[i], strOff), End(file, Start(entries[i], strOff)));
    }
    forall i, j | 0 <= i < |entries| && 0 <= j < |entries| && RunPath(AllRetagged(entries)[i])
      ensures ClearOf(out, AllRetagged(entries)[i], AllRetagged(entries)[j], strOff)
    {
      SameEntry(entries[i]);
      SameEntry(entries[j]);
      assert ClearOf(file, entries[i], entries[j], strOff);
    }
  }

  lemma SameEntry(e: Entry)
    ensures RunPath(Retagged(e)) <==> RunPath(e)
    ensures Retagged(e).loc == e.loc && Retagged(e).val == e.val
  {
  }

  lemma SameRunPaths(out: seq<byte>, entries: seq<Entry>, strOff: nat)
    requires forall i | 0 <= i < |entries| && RunPath(entries[i]) :: Tagged(out, entries[i])
    ensures AllOrigin(out, AllRetagged(entries), strOff, |entries|) <==> ReadsOriginEverywhere(out, entries, strOff)
    ensures forall i | 0 <= i < |entries| ::
              && (RunPath(AllRetagged(entries)[i]) <==> RunPath(entries[i]))
              && Start(AllRetagged(entries)[i], strOff) == Start(entries[i], strOff)
  {
    hide Retagged, StringAt, RunPath;
    forall i | 0 <= i < |entries|
      ensures RunPath(AllRetagged(entries)[i]) <==> RunPath(entries[i])
      ensures Start(AllRetagged(entries)[i], strOff) == Start(entries[i], strOff)
      ensures RunPath(entries[i]) ==> entries[i].loc + 16 <= |out| && Word(out, entries[i].loc, 8) == DT_RUNPATH
    {
      SameEntry(entries[i]);
      if RunPath(entries[i]) {
        assert Tagged(out, entries[i]);
        assert out[entries[i].loc..entries[i].loc + 8] == RUNPATH_WORD;
        RunPathWord();
      }
    }
  }

  /** Retagged run paths that do not all read `$ORIGIN` do not all fit, once a patch has been through. */
  lemma TailsDoNotFit(file: seq<byte>, out: seq<byte>, entries: seq<Entry>, strOff: nat)
    requires LayoutOf(file) == Ready(entries, strOff) && ClearOfTable(file, entries, strOff)
    requires PatchFile(file) == (Patched, out)
    requires !AllOrigin(out, AllRetagged(entries), strOff, |entries|)
    ensures !AllFit(out, AllRetagged(entries), strOff, |entries|)
  {
    hide LayoutOf, PatchFile, ClearOfTable, StringAt, Leads, OriginFrom;
    var i :| 0 <= i < |entries| && RunPath(AllRetagged(entries)[i]) && !IsOrigin(out, AllRetagged(entries)[i], strOff);
    SameEntry(entries[i]);
    var lo := FirstOfFamily(file, entries, strOff, i);
    TailsRead(file, out, entries, strOff, i, lo);
    ShorterOrigin(Start(entries[i], strOff) - lo);
    assert !Fits(out, AllRetagged(entries)[i], strOff);
  }

  lemma ShorterOrigin(k: nat)
    ensures OriginFrom(k) == ORIGIN[..7] || |OriginFrom(k)| < 7
  {
  }

  /**
    Patching a patched file again leaves it alone exactly when its strings were apart before the first
    patch; otherwise it fails, because some run path has lost the room for `$ORIGIN`.
  */
  lemma PatchAgain(file: seq<byte>, out: seq<byte>, entries: seq<Entry>, strOff: nat)
    requires LayoutOf(file) == Ready(entries, strOff) && ClearLayout(file)
    requires PatchFile(file) == (Patched, out)
    ensures PatchFile(out) == (SkipNoRpath, out) <==> Apart(file, entries, strOff)
    ensures !Apart(file, entries, strOff) ==>
              PatchFile(out).0.Fail? && PatchFile(out).0.failure.TooSmall? && PatchFile(out).1 == out
  {
    hide LayoutOf, PatchEntries, ClearOfTable, Apart, AllOrigin, AllFit, Descending, ReadsOriginEverywhere, Free;
    hide AllRetagged;
    var again := AllRetagged(entries);
    LayoutSpaced(file);
    PatchVerdict(file, entries, strOff);
    PatchChanges(file, out, entries, strOff);
    PatchedLayout(file, out, entries, strOff);
    StillClear(file, out, entries, strOff);
    SameRunPaths(out, entries, strOff);
    ReadsOriginExactly(file, out, entries, strOff);
    LayoutSpaced(out);
    PatchVerdict(out, again, strOff);
    if !AllOrigin(out, again, strOff, |again|) {
      TailsDoNotFit(file, out, entries, strOff);
      StopsTooSmall(out, again, strOff, |again|);
    }
  }
}
