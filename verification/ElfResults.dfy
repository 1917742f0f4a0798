/**
  The promises of the run-path patcher, for every file whose run-path strings are kept apart.
*/
module ElfResults {
  import opened Options
  import opened ElfFile
  import opened ElfPatch
  import opened ElfTheorems

  /** All bytes from `from` up to `to` are none of the patcher's business. */
  predicate Free(file: seq<byte>, entries: seq<Entry>, strOff: nat, from: nat, to: nat) {
    forall k | from <= k < to :: Untouched(file, entries, strOff, |entries|, k)
  }

  /** Run-path strings are apart from the dynamic table and from the headers. */
  predicate ClearLayout(file: seq<byte>) {
    var layout := LayoutOf(file);
    layout.Ready? ==>
      && ClearOfTable(file, layout.entries, layout.strOff)
      && Free(file, layout.entries, layout.strOff, 0, 58)
      && (forall i | 0 <= i < Word(file, 56, 2) ::
            var at := HeaderPos(Word(file, 32, 8), Word(file, 54, 2), i);
            Free(file, layout.entries, layout.strOff, at, at + 40))
  }

  /** Moreover they are apart from each other. */
  predicate WellSeparated(file: seq<byte>) {
    ClearLayout(file) && (LayoutOf(file).Ready? ==> Apart(file, LayoutOf(file).entries, LayoutOf(file).strOff))
  }

  lemma LayoutSpaced(file: seq<byte>)
    requires LayoutOf(file).Ready?
    ensures InFile(LayoutOf(file).entries, |file|) && Spaced(LayoutOf(file).entries)
    ensures forall i | 0 <= i < |LayoutOf(file).entries| ::
              var e := LayoutOf(file).entries[i];
              e.loc + 16 <= |file| && e == EntryAt(file, e.loc)
  {
    var headers := ProgramHeaders(file, Word(file, 32, 8), Word(file, 54, 2), Word(file, 56, 2));
    var (offset, size) := headers.value.dynamic.value;
    TableInFile(file, offset, size, 0);
  }

  lemma RunPathWord()
    ensures LittleEndian(RUNPATH_WORD) == DT_RUNPATH
  {
    ZeroWord(RUNPATH_WORD[1..]);
  }

  lemma {:induction false} ZeroWord(s: seq<byte>)
    requires forall i | 0 <= i < |s| :: s[i] == 0
    ensures LittleEndian(s) == 0
  {
    if s != [] {
      ZeroWord(s[1..]);
    }
  }

  /** Every run-path entry is tagged DT_RUNPATH and reads exactly `$ORIGIN`. */
  predicate ReadsOriginEverywhere(out: seq<byte>, entries: seq<Entry>, strOff: nat) {
    forall i | 0 <= i < |entries| && RunPath(entries[i]) ::
      && entries[i].loc + 16 <= |out|
      && Word(out, entries[i].loc, 8) == DT_RUNPATH
      && StringAt(out, strOff + entries[i].val) == Some(ORIGIN[..7])
  }

  lemma RewrittenReads(file: seq<byte>, out: seq<byte>, entries: seq<Entry>, strOff: nat)
    requires PatchedTo(file, out, entries, strOff, |entries|)
    ensures ReadsOriginEverywhere(out, entries, strOff)
  {
    forall i | 0 <= i < |entries| && RunPath(entries[i])
      ensures entries[i].loc + 16 <= |out|
      ensures Word(out, entries[i].loc, 8) == DT_RUNPATH
      ensures StringAt(out, strOff + entries[i].val) == Some(ORIGIN[..7])
    {
      ReadsOrigin(file, out, entries[i], strOff);
    }
  }

  lemma PatchedBuffer(file: seq<byte>, out: seq<byte>, entries: seq<Entry>, strOff: nat)
    requires InFile(entries, |file|) && Spaced(entries) && Separated(file, entries, strOff)
    requires PatchEntries(file, entries, strOff, |entries|) == Going(out, true)
    ensures PatchedTo(file, out, entries, strOff, |entries|)
    ensures ReadsOriginEverywhere(out, entries, strOff)
  {
    PatchProgress(file, entries, strOff, |entries|);
    RewrittenReads(file, out, entries, strOff);
  }

  lemma PatchReadyRuns(file: seq<byte>, entries: seq<Entry>, strOff: nat)
    requires InFile(entries, |file|) && PatchReady(file, entries, strOff).0 == Patched
    ensures PatchEntries(file, entries, strOff, |entries|) == Going(PatchReady(file, entries, strOff).1, true)
  {
  }

  lemma PatchFileRuns(file: seq<byte>, out: seq<byte>, entries: seq<Entry>, strOff: nat)
    requires PatchFile(file) == (Patched, out) && LayoutOf(file) == Ready(entries, strOff)
    ensures InFile(entries, |file|)
    ensures PatchReady(file, entries, strOff) == (Patched, out)
  {
    LayoutInFile(file);
  }

  /**
    A patched file has its old length, every run-path entry reads exactly `$ORIGIN`, and every
    byte outside their tag words and string spans is the old one.
  */
  lemma PatchedFile(file: seq<byte>, out: seq<byte>, entries: seq<Entry>, strOff: nat)
    requires PatchFile(file) == (Patched, out) && LayoutOf(file) == Ready(entries, strOff)
    requires Separated(file, entries, strOff)
    ensures |out| == |file|
    ensures ReadsOriginEverywhere(out, entries, strOff)
    ensures PatchedTo(file, out, entries, strOff, |entries|)
  {
    LayoutSpaced(file);
    PatchFileRuns(file, out, entries, strOff);
    PatchReadyRuns(file, entries, strOff);
    PatchedBuffer(file, out, entries, strOff);
  }

  lemma ReadsOrigin(file: seq<byte>, out: seq<byte>, e: Entry, strOff: nat)
    requires Rewritten(file, out, e, strOff)
    ensures Word(out, e.loc, 8) == DT_RUNPATH
    ensures StringAt(out, strOff + e.val) == Some(ORIGIN[..7])
    ensures End(out, strOff + e.val) == strOff + e.val + 7
  {
    assert out[e.loc..e.loc + 8] == RUNPATH_WORD;
    RunPathWord();
    FilledEnd(out, Start(e, strOff));
  }

  /** Any other string that shares no byte with what was written reads as before. */
  lemma OtherStringsKept(file: seq<byte>, out: seq<byte>, entries: seq<Entry>, strOff: nat, at: nat)
    requires PatchFile(file) == (Patched, out) && LayoutOf(file) == Ready(entries, strOff)
    requires Separated(file, entries, strOff)
    requires Free(file, entries, strOff, at, End(file, at) + 1)
    ensures StringAt(out, at) == StringAt(file, at)
  {
    hide *;
    PatchedFile(file, out, entries, strOff);
    SameString(file, out, entries, strOff, at);
  }

  lemma SameString(file: seq<byte>, out: seq<byte>, entries: seq<Entry>, strOff: nat, at: nat)
    requires PatchedTo(file, out, entries, strOff, |entries|)
    requires Free(file, entries, strOff, at, End(file, at) + 1)
    ensures StringAt(out, at) == StringAt(file, at)
  {
    hide Rewritten, Untouched, End;
    SameEnd(file, out, at);
    var end := End(file, at);
    if end < |file| {
      assert out[at..end] == file[at..end];
    }
  }

  /** Two files hold the same bytes from `at` on, as far as they go. */
  predicate SameBytes(file: seq<byte>, out: seq<byte>, at: nat, size: nat) {
    |out| == |file| && forall k | at <= k < at + size && k < |file| :: out[k] == file[k]
  }

  lemma SameWord(file: seq<byte>, out: seq<byte>, at: nat, size: nat)
    requires SameBytes(file, out, at, size) && at + size <= |file|
    ensures Word(out, at, size) == Word(file, at, size)
  {
    assert out[at..at + size] == file[at..at + size];
  }

  lemma {:induction false} SameHeaders(file: seq<byte>, out: seq<byte>, phoff: nat, phentsize: nat, n: nat)
    requires |out| == |file|
    requires forall i | 0 <= i < n :: SameBytes(file, out, HeaderPos(phoff, phentsize, i), 40)
    ensures ProgramHeaders(out, phoff, phentsize, n) == ProgramHeaders(file, phoff, phentsize, n)
  {
    if n > 0 {
      SameHeaders(file, out, phoff, phentsize, n - 1);
      var at := HeaderPos(phoff, phentsize, n - 1);
      assert SameBytes(file, out, at, 40);
      if at + 40 <= |file| {
        SameWord(file, out, at, 4);
        SameWord(file, out, at + 8, 8);
        SameWord(file, out, at + 16, 8);
        SameWord(file, out, at + 32, 8);
      }
    }
  }

  function Retagged(e: Entry): Entry {
    if RunPath(e) then e.(tag := DT_RUNPATH) else e
  }

  function AllRetagged(entries: seq<Entry>): (r: seq<Entry>)
    ensures |r| == |entries|
    ensures forall i | 0 <= i < |entries| :: r[i] == Retagged(entries[i])
  {
    seq(|entries|, i requires 0 <= i < |entries| => Retagged(entries[i]))
  }

  lemma {:induction false} SameStrtab(entries: seq<Entry>)
    ensures Strtab(AllRetagged(entries)) == Strtab(entries)
  {
    if entries != [] {
      var last := |entries| - 1;
      SameStrtab(entries[..last]);
      assert AllRetagged(entries)[..last] == AllRetagged(entries[..last]);
    }
  }

  lemma EntryLoc(data: seq<byte>, loc: nat)
    requires loc + 16 <= |data|
    ensures EntryAt(data, loc).loc == loc
  {
  }

  lemma RetaggedNull(e: Entry)
    ensures Retagged(e).tag == DT_NULL <==> e.tag == DT_NULL
  {
  }

  lemma {:induction false} RetaggedTable(
    file: seq<byte>, out: seq<byte>, offset: nat, size: nat, cursor: nat, entries: seq<Entry>)
    requires |out| == |file| && DynamicTable(file, offset, size, cursor) == Good(entries)
    requires forall i | 0 <= i < |entries| ::
               entries[i].loc + 16 <= |out| && EntryAt(out, entries[i].loc) == Retagged(entries[i])
    ensures DynamicTable(out, offset, size, cursor) == Good(AllRetagged(entries))
    decreases |entries|
  {
    hide EntryAt, AllRetagged, RunPath;
    if cursor + 16 <= size {
      var e := EntryAt(file, offset + cursor);
      assert entries[0] == e;
      var rest := entries[1..];
      RetaggedNull(e);
      EntryLoc(file, offset + cursor);
      if e.tag == DT_NULL {
        assert AllRetagged(entries) == [Retagged(e)];
      } else {
        assert DynamicTable(file, offset, size, cursor + 16) == Good(rest) by {
          assert entries == [e] + DynamicTable(file, offset, size, cursor + 16).value;
        }
        RetaggedTable(file, out, offset, size, cursor + 16, rest);
        assert AllRetagged(entries) == [Retagged(e)] + AllRetagged(rest);
      }
    } else {
      assert AllRetagged(entries) == [];
    }
  }

  lemma EntryDone(out: seq<byte>, file: seq<byte>, e: Entry, strOff: nat)
    requires e.loc + 16 <= |out| && (RunPath(e) ==> Rewritten(file, out, e, strOff))
    ensures PatchEntry(out, Retagged(e), strOff) == Going(out, false)
  {
    if RunPath(e) {
      ReadsOrigin(file, out, e, strOff);
      assert Splice(out, e.loc, RUNPATH_WORD) == out;
    }
  }

  lemma {:induction false} NothingLeft(out: seq<byte>, file: seq<byte>, entries: seq<Entry>, strOff: nat, n: nat)
    requires n <= |entries| && InFile(entries, |file|) && PatchedTo(file, out, entries, strOff, |entries|)
    ensures PatchEntries(out, AllRetagged(entries), strOff, n) == Going(out, false)
  {
    hide PatchEntry, Rewritten, Untouched, AllRetagged, Retagged;
    if n > 0 {
      NothingLeft(out, file, entries, strOff, n - 1);
      EntryDone(out, file, entries[n - 1], strOff);
    }
  }

  lemma RewrittenChanged(file: seq<byte>, out: seq<byte>, entries: seq<Entry>, strOff: nat)
    requires PatchedTo(file, out, entries, strOff, |entries|)
    ensures ChangedTo(file, out, entries, strOff, |entries|)
  {
    hide Untouched;
  }

  lemma PatchedLayout(file: seq<byte>, out: seq<byte>, entries: seq<Entry>, strOff: nat)
    requires LayoutOf(file) == Ready(entries, strOff) && ClearLayout(file)
    requires ChangedTo(file, out, entries, strOff, |entries|)
    ensures LayoutOf(out) == Ready(AllRetagged(entries), strOff)
  {
    LayoutSpaced(file);
    assert forall k | 0 <= k < 58 :: out[k] == file[k] by {
      assert Free(file, entries, strOff, 0, 58);
    }
    assert out[..4] == file[..4];
    SameWord(file, out, 32, 8);
    SameWord(file, out, 54, 2);
    SameWord(file, out, 56, 2);
    var phoff, phentsize, phnum := Word(file, 32, 8), Word(file, 54, 2), Word(file, 56, 2);
    forall i | 0 <= i < phnum
      ensures SameBytes(file, out, HeaderPos(phoff, phentsize, i), 40)
    {
      var at := HeaderPos(phoff, phentsize, i);
      assert Free(file, entries, strOff, at, at + 40);
    }
    SameHeaders(file, out, phoff, phentsize, phnum);
    forall i | 0 <= i < |entries|
      ensures EntryAt(out, entries[i].loc) == Retagged(entries[i])
    {
      EntryKept(file, out, entries, strOff, i);
    }
    var (offset, size) := ProgramHeaders(file, phoff, phentsize, phnum).value.dynamic.value;
    RetaggedTable(file, out, offset, size, 0, entries);
    SameStrtab(entries);
  }

  lemma EntryKept(file: seq<byte>, out: seq<byte>, entries: seq<Entry>, strOff: nat, i: nat)
    requires i < |entries| && InFile(entries, |file|) && Spaced(entries)
    requires ClearOfTable(file, entries, strOff) && ChangedTo(file, out, entries, strOff, |entries|)
    requires entries[i] == EntryAt(file, entries[i].loc)
    ensures EntryAt(out, entries[i].loc) == Retagged(entries[i])
  {
    var e := entries[i];
    forall k | e.loc + 8 <= k < e.loc + 16
      ensures out[k] == file[k]
    {
      OnlyTagTouched(file, entries, strOff, i, k);
    }
    SameWord(file, out, e.loc + 8, 8);
    if RunPath(e) {
      assert out[e.loc..e.loc + 8] == RUNPATH_WORD;
      RunPathWord();
    } else {
      forall k | e.loc <= k < e.loc + 8
        ensures out[k] == file[k]
      {
        OnlyTagTouched(file, entries, strOff, i, k);
      }
      SameWord(file, out, e.loc, 8);
    }
  }

  /** Of a dynamic entry only the tag word is ever written, and only in a run-path entry. */
  lemma OnlyTagTouched(file: seq<byte>, entries: seq<Entry>, strOff: nat, i: nat, k: nat)
    requires i < |entries| && Spaced(entries) && ClearOfTable(file, entries, strOff)
    requires entries[i].loc <= k < entries[i].loc + 16
    requires RunPath(entries[i]) ==> !InTag(entries[i], k)
    ensures Untouched(file, entries, strOff, |entries|, k)
  {
    forall j | 0 <= j < |entries| && RunPath(entries[j])
      ensures !InTag(entries[j], k) && !InSpan(file, entries[j], strOff, k)
    {
      assert ClearOf(file, entries[j], entries[i], strOff);
      assert i < j ==> entries[i].loc + 16 <= entries[j].loc;
      assert j < i ==> entries[j].loc + 16 <= entries[i].loc;
    }
  }

  /** Patching a patched file finds nothing to do and leaves it as it is. */
  lemma PatchTwice(file: seq<byte>, out: seq<byte>)
    requires PatchFile(file) == (Patched, out) && WellSeparated(file)
    ensures PatchFile(out) == (SkipNoRpath, out)
  {
    var entries, strOff := LayoutOf(file).entries, LayoutOf(file).strOff;
    PatchedFile(file, out, entries, strOff);
    RewrittenChanged(file, out, entries, strOff);
    PatchedLayout(file, out, entries, strOff);
    LayoutSpaced(file);
    NothingLeft(out, file, entries, strOff, |entries|);
  }
}
