/**
  Run paths whose strings end together, one being a tail of the other: what becomes of them while
  the entries are patched one by one.
*/
module ElfFamilies {
  import opened Options
  import opened ElfFile
  import opened ElfPatch
  import opened ElfTheorems

  /** Strings that start inside one another end together. */
  lemma {:induction false} SameTail(data: seq<byte>, start: nat, inner: nat)
    requires start <= inner <= End(data, start)
    ensures End(data, inner) == End(data, start)
    decreases inner - start
  {
    if start < inner {
      SameTail(data, start + 1, inner);
    }
  }

  lemma {:induction false} EndBefore(d: seq<byte>, start: nat, zero: nat)
    requires start <= zero < |d| && d[zero] == 0
    ensures End(d, start) <= zero
    decreases zero - start
  {
    if start < zero {
      EndBefore(d, start + 1, zero);
    }
  }

  lemma {:induction false} EndAt(d: seq<byte>, start: nat, end: nat)
    requires start <= end < |d| && d[end] == 0
    requires forall k | start <= k < end :: d[k] != 0
    ensures End(d, start) == end
    decreases end - start
  {
    if start < end {
      EndAt(d, start + 1, end);
    }
  }

  // ----- what every entry keeps -----

  /** A string that ended still ends there or before; one that never ended is as it was. */
  predicate EndKept(data: seq<byte>, d: seq<byte>, start: nat)
    requires |d| == |data|
  {
    var end := End(data, start);
    if end < |data| then d[end] == 0 else forall k | start <= k < |data| :: d[k] == data[k]
  }

  predicate EndsKept(data: seq<byte>, d: seq<byte>, entries: seq<Entry>, strOff: nat) {
    && |d| == |data|
    && forall j | 0 <= j < |entries| && RunPath(entries[j]) :: EndKept(data, d, Start(entries[j], strOff))
  }

  /** What an entry that goes through writes: its tag, and some of its own string. */
  predicate WroteWithin(data: seq<byte>, d: seq<byte>, d': seq<byte>, e: Entry, strOff: nat) {
    && |d'| == |d| == |data|
    && End(data, Start(e, strOff)) < |data|
    && (forall k | 0 <= k < |d| && !InTag(e, k) && !InSpan(data, e, strOff, k) :: d'[k] == d[k])
    && d'[End(data, Start(e, strOff))] == 0
    && Tagged(d', e)
  }

  lemma WritesWithin(data: seq<byte>, d: seq<byte>, e: Entry, strOff: nat)
    requires |d| == |data| && e.loc + 16 <= |d| && RunPath(e) && ClearOf(data, e, e, strOff)
    requires EndKept(data, d, Start(e, strOff))
    requires PatchEntry(d, e, strOff).Going?
    ensures WroteWithin(data, d, PatchEntry(d, e, strOff).data, e, strOff)
  {
    hide FillByte;
    var tagged := Splice(d, e.loc, RUNPATH_WORD);
    var start, end := Start(e, strOff), End(data, Start(e, strOff));
    if end >= |data| {
      SameEnd(data, tagged, start);
      assert false;
    } else {
      EndBefore(tagged, start, end);
      FillEnds();
    }
  }

  lemma FillEnds()
    ensures forall k | k >= 7 :: FillByte(k) == 0
  {
  }

  /** The strings of two run paths end together, or share no byte. */
  lemma TogetherOrApart(data: seq<byte>, a: nat, b: nat)
    ensures End(data, a) == End(data, b) || End(data, a) < b || End(data, b) < a
  {
    if a <= b <= End(data, a) {
      SameTail(data, a, b);
    }
    if b <= a <= End(data, b) {
      SameTail(data, b, a);
    }
  }

  lemma EndStaysKept(data: seq<byte>, d: seq<byte>, d': seq<byte>, e: Entry, other: Entry, strOff: nat)
    requires WroteWithin(data, d, d', e, strOff) && EndKept(data, d, Start(other, strOff))
    requires ClearOf(data, other, e, strOff) && e.loc + 16 <= |d|
    ensures EndKept(data, d', Start(other, strOff))
  {
    TogetherOrApart(data, Start(e, strOff), Start(other, strOff));
  }

  lemma EndsStayKept(data: seq<byte>, d: seq<byte>, entries: seq<Entry>, strOff: nat, n: nat)
    requires n < |entries| && InFile(entries, |data|) && ClearOfTable(data, entries, strOff)
    requires EndsKept(data, d, entries, strOff) && PatchEntry(d, entries[n], strOff).Going?
    ensures EndsKept(data, PatchEntry(d, entries[n], strOff).data, entries, strOff)
    ensures RunPath(entries[n]) ==> WroteWithin(data, d, PatchEntry(d, entries[n], strOff).data, entries[n], strOff)
  {
    hide PatchEntry, WroteWithin, EndKept;
    var e := entries[n];
    if RunPath(e) {
      assert ClearOf(data, e, e, strOff);
      WritesWithin(data, d, e, strOff);
      var d' := PatchEntry(d, e, strOff).data;
      SameLength(data, d, d', e, strOff);
      forall j | 0 <= j < |entries| && RunPath(entries[j]) ensures EndKept(data, d', Start(entries[j], strOff)) {
        assert ClearOf(data, entries[j], e, strOff);
        EndStaysKept(data, d, d', e, entries[j], strOff);
      }
    } else {
      PassedOver(d, e, strOff);
    }
  }

  lemma SameLength(data: seq<byte>, d: seq<byte>, d': seq<byte>, e: Entry, strOff: nat)
    requires WroteWithin(data, d, d', e, strOff)
    ensures |d'| == |data|
  {
  }

  lemma PassedOver(d: seq<byte>, e: Entry, strOff: nat)
    requires !RunPath(e) && e.loc + 16 <= |d|
    ensures PatchEntry(d, e, strOff) == Going(d, false)
  {
  }

  /** One more entry: its tag is written, the tags before it stay, and nothing else but strings changes. */
  lemma ChangedOneMore(data: seq<byte>, d: seq<byte>, d': seq<byte>, entries: seq<Entry>, strOff: nat, n: nat)
    requires n < |entries| && Spaced(entries) && ClearOfTable(data, entries, strOff)
    requires ChangedTo(data, d, entries, strOff, n)
    requires if RunPath(entries[n]) then WroteWithin(data, d, d', entries[n], strOff) else d' == d
    ensures ChangedTo(data, d', entries, strOff, n + 1)
  {
    forall i | 0 <= i < n + 1 && RunPath(entries[i]) ensures Tagged(d', entries[i]) {
      if i < n && RunPath(entries[n]) {
        assert ClearOf(data, entries[n], entries[i], strOff);
        assert entries[i].loc + 16 <= entries[n].loc;
      }
    }
    forall k | 0 <= k < |d| && Untouched(data, entries, strOff, n + 1, k) ensures d'[k] == data[k] {
      assert Untouched(data, entries, strOff, n, k);
    }
  }

  /** After `n` entries only tags and strings of run paths have changed, and no string reaches further. */
  lemma {:induction false} ChangeProgress(data: seq<byte>, entries: seq<Entry>, strOff: nat, n: nat)
    requires n <= |entries| && InFile(entries, |data|) && Spaced(entries) && ClearOfTable(data, entries, strOff)
    requires PatchEntries(data, entries, strOff, n).Going?
    ensures ChangedTo(data, PatchEntries(data, entries, strOff, n).data, entries, strOff, n)
    ensures EndsKept(data, PatchEntries(data, entries, strOff, n).data, entries, strOff)
  {
    hide PatchEntry, ClearOfTable, ChangedTo, WroteWithin;
    if n == 0 {
      NothingChanged(data, entries, strOff);
    } else {
      ChangeProgress(data, entries, strOff, n - 1);
      var d := PatchEntries(data, entries, strOff, n - 1).data;
      EndsStayKept(data, d, entries, strOff, n - 1);
      if !RunPath(entries[n - 1]) {
        PassedOver(d, entries[n - 1], strOff);
      }
      ChangedOneMore(data, d, PatchEntry(d, entries[n - 1], strOff).data, entries, strOff, n - 1);
    }
  }

  lemma NothingChanged(data: seq<byte>, entries: seq<Entry>, strOff: nat)
    ensures ChangedTo(data, data, entries, strOff, 0)
  {
  }

  /** Where every string ends in the file, an entry can only fail for want of room. */
  lemma {:induction false} StopsTooSmall(data: seq<byte>, entries: seq<Entry>, strOff: nat, n: nat)
    requires n <= |entries| && InFile(entries, |data|) && Spaced(entries) && ClearOfTable(data, entries, strOff)
    requires forall i | 0 <= i < |entries| && RunPath(entries[i]) :: End(data, Start(entries[i], strOff)) < |data|
    ensures PatchEntries(data, entries, strOff, n).Stopped? ==>
              PatchEntries(data, entries, strOff, n).failure.TooSmall?
  {
    hide PatchEntry, ChangedTo, EndKept;
    if n > 0 {
      StopsTooSmall(data, entries, strOff, n - 1);
      if PatchEntries(data, entries, strOff, n - 1).Going? {
        ChangeProgress(data, entries, strOff, n - 1);
        var e, d := entries[n - 1], PatchEntries(data, entries, strOff, n - 1).data;
        if RunPath(e) {
          assert ClearOf(data, e, e, strOff);
          EntryTooSmall(data, d, e, strOff);
        } else {
          PassedOver(d, e, strOff);
        }
      }
    }
  }

  lemma EntryTooSmall(data: seq<byte>, d: seq<byte>, e: Entry, strOff: nat)
    requires |d| == |data| && e.loc + 16 <= |d| && ClearOf(data, e, e, strOff)
    requires EndKept(data, d, Start(e, strOff)) && End(data, Start(e, strOff)) < |data|
    ensures PatchEntry(d, e, strOff).Stopped? ==> PatchEntry(d, e, strOff).failure.TooSmall?
  {
    EndBefore(Splice(d, e.loc, RUNPATH_WORD), Start(e, strOff), End(data, Start(e, strOff)));
  }

  // ----- what becomes of strings with a common end -----

  /** From `lo` to `end` the old bytes up to `p`, and from there `$ORIGIN` and zeros. */
  predicate WrittenFrom(data: seq<byte>, d: seq<byte>, lo: nat, end: nat, p: nat) {
    && lo <= p && p + 7 <= end < |d| == |data|
    && forall k | lo <= k <= end :: d[k] == if k < p then data[k] else FillByte(k - p)
  }

  predicate AsBefore(data: seq<byte>, d: seq<byte>, lo: nat, end: nat) {
    |d| == |data| && forall k | lo <= k <= end && k < |data| :: d[k] == data[k]
  }

  /** Where the last of the first `n` run paths with this end starts. */
  function LastStart(data: seq<byte>, entries: seq<Entry>, strOff: nat, n: nat, end: nat): Option<nat>
    requires n <= |entries|
  {
    if n == 0 then None
    else
      var e := entries[n - 1];
      if RunPath(e) && End(data, Start(e, strOff)) == end then Some(Start(e, strOff))
      else LastStart(data, entries, strOff, n - 1, end)
  }

  /** Of some strings with a common end only the last one patched is written. */
  predicate Shaped(data: seq<byte>, d: seq<byte>, lo: nat, end: nat, last: Option<nat>) {
    match last
    case None => AsBefore(data, d, lo, end)
    case Some(p) => WrittenFrom(data, d, lo, end, p)
  }

  /** Where a string reads its end once the tail from `p` is written. */
  lemma WrittenEnd(data: seq<byte>, d: seq<byte>, lo: nat, p: nat, start: nat)
    requires WrittenFrom(data, d, lo, End(data, lo), p) && lo <= start <= End(data, lo)
    ensures
      var end := End(d, start);
      && end < |d|
      && (if start <= p then end == p + 7 else end < start + 7)
      && (start == p ==> d[start..end] == ORIGIN[..7])
  {
    FillEnds();
    if start <= p {
      EndAt(d, start, p + 7);
      if start == p {
        FilledStart(d, p);
      }
    } else if start <= p + 7 {
      EndBefore(d, start, p + 7);
    } else {
      EndBefore(d, start, start);
    }
  }

  lemma FilledStart(d: seq<byte>, p: nat)
    requires p + 7 < |d| && forall k | p <= k < p + 7 :: d[k] == FillByte(k - p)
    ensures d[p..p + 7] == ORIGIN[..7]
  {
  }

  /** What an entry writes over a buffer that has its tag already. */
  function Filled(tagged: seq<byte>, start: nat): seq<byte>
    requires End(tagged, start) < |tagged|
  {
    var end := End(tagged, start);
    if tagged[start..end] == ORIGIN[..7] then tagged else Splice(tagged, start, Filling(end + 1 - start))
  }

  lemma PatchFills(d: seq<byte>, e: Entry, strOff: nat)
    requires e.loc + 16 <= |d| && RunPath(e) && PatchEntry(d, e, strOff).Going?
    ensures
      var tagged, start := Splice(d, e.loc, RUNPATH_WORD), Start(e, strOff);
      && start + 7 <= End(tagged, start) < |tagged| && PatchEntry(d, e, strOff).data == Filled(tagged, start)
  {
    hide Splice, FillByte;
    var tagged, start := Splice(d, e.loc, RUNPATH_WORD), Start(e, strOff);
    if tagged[start..End(tagged, start)] == ORIGIN[..7] {
      assert |tagged[start..End(tagged, start)]| == 7;
    }
  }

  lemma TagAside(data: seq<byte>, d: seq<byte>, loc: nat, lo: nat, last: Option<nat>)
    requires |d| == |data| && loc + 16 <= |d| && (End(data, lo) < loc || loc + 16 <= lo)
    requires Shaped(data, d, lo, End(data, lo), last)
    ensures Shaped(data, Splice(d, loc, RUNPATH_WORD), lo, End(data, lo), last)
  {
    hide FillByte;
  }

  /** The next entry of the family takes over, unless it is the one that was written last. */
  lemma FamilyWrites(data: seq<byte>, tagged: seq<byte>, lo: nat, start: nat, last: Option<nat>)
    requires Shaped(data, tagged, lo, End(data, lo), last) && lo <= start <= End(data, lo)
    requires start + 7 <= End(tagged, start) < |tagged| == |data|
    ensures WrittenFrom(data, Filled(tagged, start), lo, End(data, lo), start)
  {
    hide Filled, WrittenFrom;
    SameTail(data, lo, start);
    match last {
      case None =>
        SameEnd(data, tagged, start);
        FreshWritten(data, tagged, lo, start);
      case Some(p) =>
        WrittenEnd(data, tagged, lo, p, start);
        LaterWritten(data, tagged, lo, p, start);
    }
  }

  lemma FreshWritten(data: seq<byte>, tagged: seq<byte>, lo: nat, start: nat)
    requires AsBefore(data, tagged, lo, End(data, lo)) && lo <= start && start + 7 <= End(data, lo) < |data|
    requires End(tagged, start) == End(data, lo)
    ensures WrittenFrom(data, Filled(tagged, start), lo, End(data, lo), start)
  {
    var end := End(data, lo);
    FillEnds();
    if tagged[start..end] == ORIGIN[..7] {
      assert |tagged[start..end]| == 7;
      forall k | start <= k <= end ensures tagged[k] == FillByte(k - start) {
        assert k < end ==> tagged[start..end][k - start] == ORIGIN[..7][k - start];
      }
    }
  }

  lemma LaterWritten(data: seq<byte>, tagged: seq<byte>, lo: nat, p: nat, start: nat)
    requires WrittenFrom(data, tagged, lo, End(data, lo), p) && lo <= start <= p
    requires End(tagged, start) == p + 7
    ensures WrittenFrom(data, Filled(tagged, start), lo, End(data, lo), start)
  {
    FillEnds();
    if start == p {
      FilledStart(tagged, p);
    } else {
      assert |tagged[start..p + 7]| > 7;
    }
  }

  /** `lo` starts a run path, and no run path with the same end starts before it. */
  ghost predicate Leads(data: seq<byte>, entries: seq<Entry>, strOff: nat, lo: nat) {
    && (exists i | 0 <= i < |entries| :: RunPath(entries[i]) && Start(entries[i], strOff) == lo)
    && forall j | 0 <= j < |entries| && RunPath(entries[j]) && End(data, Start(entries[j], strOff)) == End(data, lo) ::
         lo <= Start(entries[j], strOff)
  }

  lemma FamilyStep(data: seq<byte>, d: seq<byte>, entries: seq<Entry>, strOff: nat, n: nat, lo: nat)
    requires n < |entries| && InFile(entries, |data|) && ClearOfTable(data, entries, strOff)
    requires EndsKept(data, d, entries, strOff) && PatchEntry(d, entries[n], strOff).Going?
    requires Leads(data, entries, strOff, lo)
    requires Shaped(data, d, lo, End(data, lo), LastStart(data, entries, strOff, n, End(data, lo)))
    ensures
      var d' := PatchEntry(d, entries[n], strOff).data;
      Shaped(data, d', lo, End(data, lo), LastStart(data, entries, strOff, n + 1, End(data, lo)))
  {
    hide PatchEntry, WrittenFrom, AsBefore, EndsKept, WroteWithin, Filled, RunPath, Splice;
    var e, end := entries[n], End(data, lo);
    var last := LastStart(data, entries, strOff, n, end);
    EndsLength(data, d, entries, strOff);
    if RunPath(e) {
      var i :| 0 <= i < |entries| && RunPath(entries[i]) && Start(entries[i], strOff) == lo;
      assert ClearOf(data, entries[i], e, strOff);
      EndsStayKept(data, d, entries, strOff, n);
      TogetherOrApart(data, Start(e, strOff), lo);
      if End(data, Start(e, strOff)) == end {
        PatchFills(d, e, strOff);
        TagAside(data, d, e.loc, lo, last);
        FamilyWrites(data, Splice(d, e.loc, RUNPATH_WORD), lo, Start(e, strOff), last);
      } else {
        OthersWrite(data, d, PatchEntry(d, e, strOff).data, e, strOff, lo, last);
      }
    } else {
      PassedOver(d, e, strOff);
    }
  }

  lemma EndsLength(data: seq<byte>, d: seq<byte>, entries: seq<Entry>, strOff: nat)
    requires EndsKept(data, d, entries, strOff)
    ensures |d| == |data|
  {
  }

  lemma OthersWrite(data: seq<byte>, d: seq<byte>, d': seq<byte>, e: Entry, strOff: nat, lo: nat, last: Option<nat>)
    requires WroteWithin(data, d, d', e, strOff) && Shaped(data, d, lo, End(data, lo), last)
    requires End(data, Start(e, strOff)) < lo || End(data, lo) < Start(e, strOff)
    requires End(data, lo) < e.loc || e.loc + 16 <= lo
    ensures Shaped(data, d', lo, End(data, lo), last)
  {
    hide FillByte;
  }

  /** After `n` entries only the last of the first `n` strings with a common end is written. */
  lemma {:induction false} FamilyProgress(data: seq<byte>, entries: seq<Entry>, strOff: nat, n: nat, lo: nat)
    requires n <= |entries| && InFile(entries, |data|) && ClearOfTable(data, entries, strOff)
    requires Leads(data, entries, strOff, lo) && PatchEntries(data, entries, strOff, n).Going?
    ensures EndsKept(data, PatchEntries(data, entries, strOff, n).data, entries, strOff)
    ensures
      var d := PatchEntries(data, entries, strOff, n).data;
      Shaped(data, d, lo, End(data, lo), LastStart(data, entries, strOff, n, End(data, lo)))
  {
    hide PatchEntry, ClearOfTable, Leads, WrittenFrom;
    if n > 0 {
      FamilyProgress(data, entries, strOff, n - 1, lo);
      var d := PatchEntries(data, entries, strOff, n - 1).data;
      FamilyStep(data, d, entries, strOff, n - 1, lo);
      EndsStayKept(data, d, entries, strOff, n - 1);
    }
  }

  /** Among the run paths that end with a given one, one starts first. */
  lemma {:induction false} FirstOfFamily(data: seq<byte>, entries: seq<Entry>, strOff: nat, i: nat) returns (lo: nat)
    requires i < |entries| && RunPath(entries[i])
    ensures Leads(data, entries, strOff, lo) && End(data, lo) == End(data, Start(entries[i], strOff))
    decreases Start(entries[i], strOff)
  {
    var start := Start(entries[i], strOff);
    if j :| 0 <= j < |entries| && RunPath(entries[j]) && End(data, Start(entries[j], strOff)) == End(data, start)
            && Start(entries[j], strOff) < start
    {
      lo := FirstOfFamily(data, entries, strOff, j);
    } else {
      lo := start;
    }
  }
}
