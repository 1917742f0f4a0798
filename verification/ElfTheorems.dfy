/**
  What a successful patch leaves in the file, and why patching it again changes nothing.
*/
module ElfTheorems {
  import opened ElfFile
  import opened ElfPatch

  function Start(e: Entry, strOff: nat): nat {
    strOff + e.val
  }

  /** The byte belongs to the tag word of the entry. */
  predicate InTag(e: Entry, k: nat) {
    e.loc <= k < e.loc + 8
  }

  /** The byte belongs to the run-path string of the entry, its terminator included. */
  predicate InSpan(data: seq<byte>, e: Entry, strOff: nat, k: nat) {
    Start(e, strOff) <= k <= End(data, Start(e, strOff))
  }

  predicate Spaced(entries: seq<Entry>) {
    forall i, j | 0 <= i < j < |entries| :: entries[i].loc + 16 <= entries[j].loc
  }

  /** Two run-path strings are the same one, or share no byte. */
  predicate SameOrApart(data: seq<byte>, a: Entry, b: Entry, strOff: nat) {
    || Start(a, strOff) == Start(b, strOff)
    || End(data, Start(a, strOff)) < Start(b, strOff)
    || End(data, Start(b, strOff)) < Start(a, strOff)
  }

  /** The run-path string of `a` shares no byte with the dynamic entry `b`. */
  predicate ClearOf(data: seq<byte>, a: Entry, b: Entry, strOff: nat) {
    End(data, Start(a, strOff)) < b.loc || b.loc + 16 <= Start(a, strOff)
  }

  /** No run-path string is a tail of another. */
  predicate Apart(data: seq<byte>, entries: seq<Entry>, strOff: nat) {
    forall i, j | 0 <= i < |entries| && 0 <= j < |entries| && RunPath(entries[i]) && RunPath(entries[j]) ::
      SameOrApart(data, entries[i], entries[j], strOff)
  }

  predicate ClearOfTable(data: seq<byte>, entries: seq<Entry>, strOff: nat) {
    forall i, j | 0 <= i < |entries| && 0 <= j < |entries| && RunPath(entries[i]) ::
      ClearOf(data, entries[i], entries[j], strOff)
  }

  predicate Separated(data: seq<byte>, entries: seq<Entry>, strOff: nat) {
    Apart(data, entries, strOff) && ClearOfTable(data, entries, strOff)
  }

  /** No run-path entry among the first `n` owns the byte. */
  predicate Untouched(data: seq<byte>, entries: seq<Entry>, strOff: nat, n: nat, k: nat)
    requires n <= |entries|
  {
    forall i | 0 <= i < n && RunPath(entries[i]) :: !InTag(entries[i], k) && !InSpan(data, entries[i], strOff, k)
  }

  /** The entry is tagged DT_RUNPATH and its string span holds `$ORIGIN` and zeros. */
  predicate Rewritten(data: seq<byte>, d: seq<byte>, e: Entry, strOff: nat) {
    var start, end := Start(e, strOff), End(data, Start(e, strOff));
    && e.loc + 16 <= |d| == |data|
    && (forall k | e.loc <= k < e.loc + 8 :: d[k] == RUNPATH_WORD[k - e.loc])
    && start + 7 <= end < |d|
    && (forall k | start <= k <= end :: d[k] == FillByte(k - start))
  }

  predicate PatchedTo(data: seq<byte>, d: seq<byte>, entries: seq<Entry>, strOff: nat, n: nat)
    requires n <= |entries|
  {
    && |d| == |data|
    && (forall i | 0 <= i < n && RunPath(entries[i]) :: Rewritten(data, d, entries[i], strOff))
    && (forall k | 0 <= k < |d| && Untouched(data, entries, strOff, n, k) :: d[k] == data[k])
  }

  /** The first `n` run paths are tagged DT_RUNPATH, and only their tags and strings have changed. */
  predicate ChangedTo(data: seq<byte>, d: seq<byte>, entries: seq<Entry>, strOff: nat, n: nat)
    requires n <= |entries|
  {
    && |d| == |data|
    && (forall i | 0 <= i < n && RunPath(entries[i]) :: Tagged(d, entries[i]))
    && (forall k | 0 <= k < |d| && Untouched(data, entries, strOff, n, k) :: d[k] == data[k])
  }

  predicate Tagged(d: seq<byte>, e: Entry) {
    e.loc + 16 <= |d| && forall k | e.loc <= k < e.loc + 8 :: d[k] == RUNPATH_WORD[k - e.loc]
  }

  /** `End` only looks at the bytes up to the zero it finds. */
  lemma {:induction false} SameEnd(data: seq<byte>, d: seq<byte>, start: nat)
    requires |d| == |data|
    requires forall k | start <= k <= End(data, start) && k < |data| :: d[k] == data[k]
    ensures End(d, start) == End(data, start)
    decreases |data| - start
  {
    if start < |data| && data[start] != 0 {
      SameEnd(data, d, start + 1);
    }
  }

  /** A filled span reads as `$ORIGIN`. */
  lemma FilledEnd(d: seq<byte>, start: nat)
    requires start + 8 <= |d|
    requires forall k | start <= k < start + 8 :: d[k] == FillByte(k - start)
    ensures End(d, start) == start + 7
    ensures d[start..start + 7] == ORIGIN[..7]
  {
    assert forall k | start <= k < start + 7 :: d[k] != 0;
    assert d[start + 7] == 0;
  }

  /** An entry patched earlier stays rewritten when bytes outside its entry and span change. */
  lemma StaysRewritten(data: seq<byte>, d: seq<byte>, d': seq<byte>, e: Entry, strOff: nat)
    requires Rewritten(data, d, e, strOff) && |d'| == |d|
    requires forall k | 0 <= k < |d| && (InTag(e, k) || InSpan(data, e, strOff, k)) :: d'[k] == d[k]
    ensures Rewritten(data, d', e, strOff)
  {
  }

  /** What one run-path entry writes, seen from the original file. */
  predicate Wrote(data: seq<byte>, d: seq<byte>, d': seq<byte>, e: Entry, strOff: nat) {
    && |d'| == |d|
    && Rewritten(data, d', e, strOff)
    && (forall k | 0 <= k < |d| && !InTag(e, k) && !InSpan(data, e, strOff, k) :: d'[k] == d[k])
  }

  /** A string no earlier entry has touched is found as it stood in the original file. */
  lemma FreshString(data: seq<byte>, d: seq<byte>, e: Entry, strOff: nat)
    requires |d| == |data| && e.loc + 16 <= |d|
    requires ClearOf(data, e, e, strOff)
    requires forall k | 0 <= k < |d| && InSpan(data, e, strOff, k) :: d[k] == data[k]
    ensures var tagged := Splice(d, e.loc, RUNPATH_WORD);
            var start, end := Start(e, strOff), End(data, Start(e, strOff));
            && End(tagged, start) == end
            && (end < |data| ==> tagged[start..end] == data[start..end])
  {
    var tagged := Splice(d, e.loc, RUNPATH_WORD);
    SameEnd(data, tagged, Start(e, strOff));
  }

  lemma FreshKept(data: seq<byte>, d: seq<byte>, e: Entry, strOff: nat)
    requires |d| == |data| && e.loc + 16 <= |d|
    requires ClearOf(data, e, e, strOff)
    requires var start, end := Start(e, strOff), End(data, Start(e, strOff));
             end < |data| && End(d, start) == end && d[start..end] == ORIGIN[..7]
    ensures Wrote(data, d, Splice(d, e.loc, RUNPATH_WORD), e, strOff)
  {
    var tagged := Splice(d, e.loc, RUNPATH_WORD);
    var start, end := Start(e, strOff), End(data, Start(e, strOff));
    assert |d[start..end]| == 7;
    forall k | start <= k <= end
      ensures tagged[k] == FillByte(k - start)
    {
      assert k < end ==> d[start..end][k - start] == ORIGIN[..7][k - start];
    }
  }

  lemma FreshFilled(data: seq<byte>, d: seq<byte>, e: Entry, strOff: nat)
    requires |d| == |data| && e.loc + 16 <= |d|
    requires ClearOf(data, e, e, strOff)
    requires Start(e, strOff) + 7 <= End(data, Start(e, strOff)) < |d|
    ensures var start, end := Start(e, strOff), End(data, Start(e, strOff));
            Wrote(data, d, Splice(Splice(d, e.loc, RUNPATH_WORD), start, Filling(end + 1 - start)), e, strOff)
  {
    hide End, Splice, Filling, FillByte, RunPath;
    var start, end := Start(e, strOff), End(data, Start(e, strOff));
    var tagged := Splice(d, e.loc, RUNPATH_WORD);
    var d' := Splice(tagged, start, Filling(end + 1 - start));
    assert forall k | start <= k <= end :: d'[k] == FillByte(k - start);
  }

  lemma PatchFresh(data: seq<byte>, d: seq<byte>, e: Entry, strOff: nat)
    requires |d| == |data| && e.loc + 16 <= |d| && RunPath(e)
    requires ClearOf(data, e, e, strOff)
    requires forall k | 0 <= k < |d| && InSpan(data, e, strOff, k) :: d[k] == data[k]
    requires PatchEntry(d, e, strOff).Going?
    ensures Wrote(data, d, PatchEntry(d, e, strOff).data, e, strOff)
  {
    hide Splice, Filling, FillByte, Wrote, Rewritten;
    var tagged := Splice(d, e.loc, RUNPATH_WORD);
    var start, end := Start(e, strOff), End(data, Start(e, strOff));
    FreshString(data, d, e, strOff);
    if tagged[start..end] == ORIGIN[..7] {
      FreshString(data, d, e, strOff);
      assert d[start..end] == tagged[start..end];
      SameEnd(data, d, start);
      FreshKept(data, d, e, strOff);
    } else {
      FreshFilled(data, d, e, strOff);
    }
  }

  /** A string that an earlier entry has already rewritten. */
  lemma PatchShared(data: seq<byte>, d: seq<byte>, e: Entry, other: Entry, strOff: nat)
    requires |d| == |data| && e.loc + 16 <= |d| && RunPath(e)
    requires ClearOf(data, e, e, strOff)
    requires Rewritten(data, d, other, strOff) && Start(other, strOff) == Start(e, strOff)
    ensures PatchEntry(d, e, strOff) == Going(Splice(d, e.loc, RUNPATH_WORD), false)
    ensures Wrote(data, d, PatchEntry(d, e, strOff).data, e, strOff)
  {
    var tagged := Splice(d, e.loc, RUNPATH_WORD);
    var start, end := Start(e, strOff), End(data, Start(e, strOff));
    FilledEnd(tagged, start);
  }

  /** The span of a run path with a string of its own is untouched by the entries before it. */
  lemma SpanUntouched(data: seq<byte>, entries: seq<Entry>, strOff: nat, n: nat, k: nat)
    requires n < |entries| && Separated(data, entries, strOff)
    requires RunPath(entries[n]) && InSpan(data, entries[n], strOff, k)
    requires forall i | 0 <= i < n && RunPath(entries[i]) :: Start(entries[i], strOff) != Start(entries[n], strOff)
    ensures Untouched(data, entries, strOff, n, k)
  {
    forall i | 0 <= i < n && RunPath(entries[i])
      ensures !InTag(entries[i], k) && !InSpan(data, entries[i], strOff, k)
    {
      assert ClearOf(data, entries[n], entries[i], strOff);
      assert SameOrApart(data, entries[i], entries[n], strOff);
    }
  }

  /** What entry `n` writes leaves an earlier run path rewritten. */
  lemma KeepEarlier(data: seq<byte>, d: seq<byte>, d': seq<byte>, entries: seq<Entry>, strOff: nat, i: nat, n: nat)
    requires i < n < |entries| && Spaced(entries) && Separated(data, entries, strOff)
    requires RunPath(entries[i]) && RunPath(entries[n])
    requires Rewritten(data, d, entries[i], strOff)
    requires Wrote(data, d, d', entries[n], strOff)
    requires Start(entries[i], strOff) == Start(entries[n], strOff) ==>
               forall k | 0 <= k < |d| && !InTag(entries[n], k) :: d'[k] == d[k]
    ensures Rewritten(data, d', entries[i], strOff)
  {
    var a, e := entries[i], entries[n];
    assert ClearOf(data, a, e, strOff) && ClearOf(data, e, a, strOff);
    assert SameOrApart(data, a, e, strOff);
    forall k | 0 <= k < |d| && (InTag(a, k) || InSpan(data, a, strOff, k))
      ensures d'[k] == d[k]
    {
      assert !InTag(e, k);
    }
    StaysRewritten(data, d, d', a, strOff);
  }

  /** The buffer `d'` is what entry `n` makes of `d`. */
  predicate Stepped(data: seq<byte>, d: seq<byte>, d': seq<byte>, entries: seq<Entry>, strOff: nat, n: nat)
    requires n < |entries|
  {
    if RunPath(entries[n]) then
      && Wrote(data, d, d', entries[n], strOff)
      && (forall i | 0 <= i < n && RunPath(entries[i]) && Start(entries[i], strOff) == Start(entries[n], strOff) ::
            forall k | 0 <= k < |d| && !InTag(entries[n], k) :: d'[k] == d[k])
    else d' == d
  }

  lemma PatchStep(data: seq<byte>, d: seq<byte>, d': seq<byte>, entries: seq<Entry>, strOff: nat, n: nat)
    requires n < |entries| && Spaced(entries) && Separated(data, entries, strOff)
    requires PatchedTo(data, d, entries, strOff, n)
    requires Stepped(data, d, d', entries, strOff, n)
    ensures PatchedTo(data, d', entries, strOff, n + 1)
  {
    forall i | 0 <= i < n + 1 && RunPath(entries[i])
      ensures Rewritten(data, d', entries[i], strOff)
    {
      if i < n && RunPath(entries[n]) {
        KeepEarlier(data, d, d', entries, strOff, i, n);
      }
    }
    forall k | 0 <= k < |d| && Untouched(data, entries, strOff, n + 1, k)
      ensures d'[k] == data[k]
    {
      assert Untouched(data, entries, strOff, n, k);
    }
  }

  /** A run-path entry rewrites itself; a string shared with an earlier entry stays as it is. */
  lemma EntrySteps(data: seq<byte>, d: seq<byte>, entries: seq<Entry>, strOff: nat, n: nat)
    requires n < |entries| && InFile(entries, |data|) && Separated(data, entries, strOff)
    requires PatchedTo(data, d, entries, strOff, n)
    requires PatchEntry(d, entries[n], strOff).Going?
    ensures Stepped(data, d, PatchEntry(d, entries[n], strOff).data, entries, strOff, n)
  {
    var e := entries[n];
    if RunPath(e) {
      assert ClearOf(data, e, e, strOff);
      if i :| 0 <= i < n && RunPath(entries[i]) && Start(entries[i], strOff) == Start(e, strOff) {
        PatchShared(data, d, e, entries[i], strOff);
      } else {
        forall k | 0 <= k < |d| && InSpan(data, e, strOff, k)
          ensures d[k] == data[k]
        {
          SpanUntouched(data, entries, strOff, n, k);
        }
        PatchFresh(data, d, e, strOff);
      }
    }
  }

  lemma PatchNext(data: seq<byte>, d: seq<byte>, entries: seq<Entry>, strOff: nat, n: nat)
    requires n < |entries| && InFile(entries, |data|) && Spaced(entries) && Separated(data, entries, strOff)
    requires PatchedTo(data, d, entries, strOff, n)
    requires PatchEntry(d, entries[n], strOff).Going?
    ensures PatchedTo(data, PatchEntry(d, entries[n], strOff).data, entries, strOff, n + 1)
  {
    EntrySteps(data, d, entries, strOff, n);
    PatchStep(data, d, PatchEntry(d, entries[n], strOff).data, entries, strOff, n);
  }

  /** After `n` entries, exactly the first `n` run paths are rewritten. */
  lemma {:induction false} PatchProgress(data: seq<byte>, entries: seq<Entry>, strOff: nat, n: nat)
    requires n <= |entries| && InFile(entries, |data|) && Spaced(entries) && Separated(data, entries, strOff)
    requires PatchEntries(data, entries, strOff, n).Going?
    ensures PatchedTo(data, PatchEntries(data, entries, strOff, n).data, entries, strOff, n)
  {
    if n > 0 {
      PatchProgress(data, entries, strOff, n - 1);
      var d := PatchEntries(data, entries, strOff, n - 1).data;
      PatchNext(data, d, entries, strOff, n - 1);
    }
  }
}
