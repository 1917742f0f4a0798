/**
  What the layout read from a file means, header by header and entry by entry: the last dynamic
  header counts, the last string-table entry, and the first loadable segment that holds an address.
*/
module ElfLayout {
  import opened Options
  import opened ElfFile

  /** The dynamic entries are those of the table, up to a null entry or to the end of its segment. */
  ghost predicate TableIs(data: seq<byte>, offset: nat, size: nat, cursor: nat, entries: seq<Entry>) {
    && (forall j | 0 <= j < |entries| ::
         && offset + cursor + 16 * j + 16 <= |data| && cursor + 16 * j + 16 <= size
         && entries[j] == EntryAt(data, offset + cursor + 16 * j)
         && (entries[j].tag == DT_NULL ==> j == |entries| - 1))
    && ((entries != [] && entries[|entries| - 1].tag == DT_NULL) || cursor + 16 * |entries| + 16 > size)
  }

  lemma {:induction false} TableRead(data: seq<byte>, offset: nat, size: nat, cursor: nat, entries: seq<Entry>)
    ensures DynamicTable(data, offset, size, cursor) == Good(entries) <==>
            TableIs(data, offset, size, cursor, entries)
    decreases if cursor <= size then size - cursor else 0
  {
    hide EntryAt, TableIs;
    if cursor + 16 <= size && offset + cursor + 16 <= |data| {
      var e := EntryAt(data, offset + cursor);
      if e.tag == DT_NULL {
        TableEnds(data, offset, size, cursor, entries);
      } else {
        var rest := if entries == [] then [] else entries[1..];
        TableRead(data, offset, size, cursor + 16, rest);
        TableGoesOn(data, offset, size, cursor, entries);
        assert entries != [] ==> entries == [entries[0]] + rest;
      }
    } else {
      TableStops(data, offset, size, cursor, entries);
    }
  }

  lemma TableStops(data: seq<byte>, offset: nat, size: nat, cursor: nat, entries: seq<Entry>)
    requires cursor + 16 > size || offset + cursor + 16 > |data|
    ensures TableIs(data, offset, size, cursor, entries) <==> cursor + 16 > size && entries == []
  {
    hide EntryAt;
    FirstInside(data, offset, size, cursor, entries);
  }

  lemma FirstInside(data: seq<byte>, offset: nat, size: nat, cursor: nat, entries: seq<Entry>)
    ensures entries != [] && TableIs(data, offset, size, cursor, entries) ==>
      offset + cursor + 16 <= |data| && cursor + 16 <= size
  {
    hide EntryAt;
    assert forall j | j == 0 :: offset + cursor + 16 * j == offset + cursor;
  }

  lemma TableEnds(data: seq<byte>, offset: nat, size: nat, cursor: nat, entries: seq<Entry>)
    requires cursor + 16 <= size && offset + cursor + 16 <= |data|
    requires EntryAt(data, offset + cursor).tag == DT_NULL
    ensures TableIs(data, offset, size, cursor, entries) <==> entries == [EntryAt(data, offset + cursor)]
  {
    hide EntryAt;
    if TableIs(data, offset, size, cursor, entries) {
      assert entries != [];
      assert entries[0] == EntryAt(data, offset + cursor + 16 * 0);
    }
  }

  lemma TableGoesOn(data: seq<byte>, offset: nat, size: nat, cursor: nat, entries: seq<Entry>)
    requires cursor + 16 <= size && offset + cursor + 16 <= |data|
    requires EntryAt(data, offset + cursor).tag != DT_NULL
    ensures TableIs(data, offset, size, cursor, entries) <==>
            entries != [] && entries[0] == EntryAt(data, offset + cursor) &&
            TableIs(data, offset, size, cursor + 16, entries[1..])
  {
    hide EntryAt;
    if TableIs(data, offset, size, cursor, entries) {
      assert entries != [];
      assert entries[0] == EntryAt(data, offset + cursor + 16 * 0);
      var rest := entries[1..];
      forall j | 0 <= j < |rest|
        ensures offset + (cursor + 16) + 16 * j + 16 <= |data| && (cursor + 16) + 16 * j + 16 <= size
        ensures rest[j] == EntryAt(data, offset + (cursor + 16) + 16 * j)
        ensures rest[j].tag == DT_NULL ==> j == |rest| - 1
      {
        assert rest[j] == entries[j + 1];
      }
    }
    if entries != [] && entries[0] == EntryAt(data, offset + cursor) &&
      TableIs(data, offset, size, cursor + 16, entries[1..])
    {
      var rest := entries[1..];
      forall j | 0 <= j < |entries|
        ensures offset + cursor + 16 * j + 16 <= |data| && cursor + 16 * j + 16 <= size
        ensures entries[j] == EntryAt(data, offset + cursor + 16 * j)
        ensures entries[j].tag == DT_NULL ==> j == |entries| - 1
      {
        if j > 0 {
          assert rest[j - 1] == entries[j];
          assert rest[j - 1] == EntryAt(data, offset + (cursor + 16) + 16 * (j - 1));
        }
      }
    }
  }

  /** Entry `s` is the last that gives the string table. */
  ghost predicate LastStrtab(entries: seq<Entry>, s: nat) {
    && s < |entries| && entries[s].tag == DT_STRTAB
    && forall j | s < j < |entries| :: entries[j].tag != DT_STRTAB
  }

  lemma {:induction false} StrtabRead(entries: seq<Entry>)
    ensures Strtab(entries).None? <==> forall j | 0 <= j < |entries| :: entries[j].tag != DT_STRTAB
    ensures forall s: nat | LastStrtab(entries, s) :: Strtab(entries) == Some(entries[s].val)
    ensures Strtab(entries).Some? ==> exists s: nat :: LastStrtab(entries, s)
  {
    if entries != [] {
      var n := |entries| - 1;
      var front := entries[..n];
      StrtabRead(front);
      if entries[n].tag == DT_STRTAB {
        assert LastStrtab(entries, n);
      } else {
        forall s: nat | LastStrtab(entries, s) ensures Strtab(entries) == Some(entries[s].val) {
          assert LastStrtab(front, s);
        }
        if Strtab(entries).Some? {
          var s: nat :| LastStrtab(front, s);
          assert LastStrtab(entries, s);
        }
      }
    }
  }

  // ----- program headers -----

  /** A program header: its kind, file offset, virtual address and size in the file. */
  datatype Header = Header(kind: nat, offset: nat, vaddr: nat, size: nat)

  function HeaderOf(data: seq<byte>, at: nat): Header
    requires at + 40 <= |data|
  {
    Header(Word(data, at, 4), Word(data, at + 8, 8), Word(data, at + 16, 8), Word(data, at + 32, 8))
  }

  /** The first `n` program headers lie in the file and are these. */
  ghost predicate HeadersAre(data: seq<byte>, phoff: nat, phentsize: nat, headers: seq<Header>) {
    forall i | 0 <= i < |headers| ::
      && HeaderPos(phoff, phentsize, i) + 40 <= |data|
      && headers[i] == HeaderOf(data, HeaderPos(phoff, phentsize, i))
  }

  ghost predicate LastDynamic(headers: seq<Header>, d: nat) {
    && d < |headers| && headers[d].kind == PT_DYNAMIC
    && forall j | d < j < |headers| :: headers[j].kind != PT_DYNAMIC
  }

  predicate Holds(h: Header, addr: nat) {
    h.kind == PT_LOAD && h.vaddr <= addr < h.vaddr + h.size
  }

  ghost predicate FirstHolding(headers: seq<Header>, addr: nat, l: nat) {
    && l < |headers| && Holds(headers[l], addr)
    && forall j | 0 <= j < l :: !Holds(headers[j], addr)
  }

  function Segments(headers: seq<Header>): seq<Load> {
    if headers == [] then []
    else
      var h := headers[|headers| - 1];
      Segments(headers[..|headers| - 1]) +
      (if h.kind == PT_LOAD then [Load(h.offset, h.vaddr, h.size)] else [])
  }

  /** What is kept of some headers: the loadable segments in order, and the last dynamic one. */
  ghost predicate Kept(h: Headers, headers: seq<Header>) {
    && h.loads == Segments(headers)
    && (h.dynamic.None? <==> NoneDynamic(headers))
    && forall d: nat | LastDynamic(headers, d) :: h.dynamic == Some((headers[d].offset, headers[d].size))
  }

  ghost predicate NoneDynamic(headers: seq<Header>) {
    forall i | 0 <= i < |headers| :: headers[i].kind != PT_DYNAMIC
  }

  /** All headers are read, or one of them lies outside the file. */
  lemma {:induction false} HeadersRead(data: seq<byte>, phoff: nat, phentsize: nat, n: nat)
    returns (headers: seq<Header>)
    ensures ProgramHeaders(data, phoff, phentsize, n).Bad? <==> Outside(data, phoff, phentsize, n)
    ensures ProgramHeaders(data, phoff, phentsize, n).Good? ==>
      && |headers| == n && HeadersAre(data, phoff, phentsize, headers)
      && Kept(ProgramHeaders(data, phoff, phentsize, n).value, headers)
  {
    hide Word, HeaderPos, Segments, Kept, HeaderOf, HeaderAt;
    headers := [];
    if n == 0 {
      NoSegments();
    } else {
      var before := HeadersRead(data, phoff, phentsize, n - 1);
      var at := HeaderPos(phoff, phentsize, n - 1);
      var past := ProgramHeaders(data, phoff, phentsize, n - 1);
      if at + 40 <= |data| && past.Good? {
        headers := before + [HeaderOf(data, at)];
        OneKeptMore(data, at, past.value, before);
      }
    }
  }

  /** One of the first `n` program headers is not in the file. */
  ghost predicate Outside(data: seq<byte>, phoff: nat, phentsize: nat, n: nat) {
    exists i: nat :: i < n && HeaderPos(phoff, phentsize, i) + 40 > |data|
  }

  lemma OneKeptMore(data: seq<byte>, at: nat, h: Headers, before: seq<Header>)
    requires at + 40 <= |data| && Kept(h, before)
    ensures Kept(HeaderAt(data, at, h), before + [HeaderOf(data, at)])
  {
    hide Word, Segments, LastDynamic, NoneDynamic;
    var header := HeaderOf(data, at);
    OneHeaderMore(before, header);
  }

  lemma NoSegments()
    ensures Kept(Headers([], None), [])
  {
  }

  lemma OneHeaderMore(before: seq<Header>, h: Header)
    ensures Segments(before + [h]) ==
            Segments(before) + if h.kind == PT_LOAD then [Load(h.offset, h.vaddr, h.size)] else []
    ensures forall d: nat | LastDynamic(before + [h], d) ::
              if h.kind == PT_DYNAMIC then d == |before| && (before + [h])[d] == h
              else LastDynamic(before, d) && (before + [h])[d] == before[d]
    ensures NoneDynamic(before + [h]) <==> h.kind != PT_DYNAMIC && NoneDynamic(before)
  {
    var headers := before + [h];
    assert headers[..|before|] == before;
    assert headers[|before|] == h;
    assert forall i | 0 <= i < |before| :: headers[i] == before[i];
  }

  lemma {:induction false} MappedLast(loads: seq<Load>, l: Load, addr: nat)
    ensures Mapped(loads + [l], addr) ==
            if Mapped(loads, addr).Some? then Mapped(loads, addr) else Mapped([l], addr)
  {
    if loads == [] {
      assert loads + [l] == [l];
    } else {
      assert (loads + [l])[1..] == loads[1..] + [l];
      MappedLast(loads[1..], l, addr);
    }
  }

  ghost predicate NoneHolds(headers: seq<Header>, addr: nat) {
    forall j | 0 <= j < |headers| :: !Holds(headers[j], addr)
  }

  lemma HeldBefore(headers: seq<Header>, addr: nat, l: nat)
    requires headers != [] && FirstHolding(headers, addr, l)
    ensures
      var n := |headers| - 1;
      if l < n then
        FirstHolding(headers[..n], addr, l) && headers[..n][l] == headers[l] && !NoneHolds(headers[..n], addr)
      else l == n && NoneHolds(headers[..n], addr) && Holds(headers[n], addr)
  {
    var front := headers[..|headers| - 1];
    assert forall j | 0 <= j < |front| :: front[j] == headers[j];
  }

  lemma NoneHoldsLast(headers: seq<Header>, addr: nat)
    requires headers != []
    ensures
      var n := |headers| - 1;
      NoneHolds(headers, addr) <==> NoneHolds(headers[..n], addr) && !Holds(headers[n], addr)
  {
    var front := headers[..|headers| - 1];
    assert forall j | 0 <= j < |front| :: front[j] == headers[j];
  }

  /** An address is found through the first segment that holds it. */
  lemma {:induction false} MappedRead(headers: seq<Header>, addr: nat)
    ensures Mapped(Segments(headers), addr).None? <==> NoneHolds(headers, addr)
    ensures forall l: nat | FirstHolding(headers, addr, l) ::
              Mapped(Segments(headers), addr) == Some(headers[l].offset + (addr - headers[l].vaddr))
  {
    hide FirstHolding, NoneHolds;
    if headers == [] {
      NothingHeld(addr);
    } else {
      var n := |headers| - 1;
      var front, h := headers[..n], headers[n];
      MappedRead(front, addr);
      NoneHoldsLast(headers, addr);
      var last := Load(h.offset, h.vaddr, h.size);
      if h.kind == PT_LOAD {
        MappedLast(Segments(front), last, addr);
      } else {
        assert Segments(front) + [] == Segments(front);
      }
      forall l: nat | FirstHolding(headers, addr, l)
        ensures l < |headers|
        ensures Mapped(Segments(headers), addr) == Some(headers[l].offset + (addr - headers[l].vaddr))
      {
        HeldBefore(headers, addr, l);
      }
    }
  }

  lemma NothingHeld(addr: nat)
    ensures NoneHolds([], addr) && forall l: nat :: !FirstHolding([], addr, l)
  {
  }

  // ----- the layout -----

  /** The identification of a 64-bit little-endian ELF file, and room for the fields of its header. */
  predicate Elf64(data: seq<byte>) {
    58 <= |data| && data[..6] == [0x7f, 0x45, 0x4c, 0x46, 2, 1]
  }

  predicate HasMagic(data: seq<byte>) {
    4 <= |data| && data[..4] == [0x7f, 0x45, 0x4c, 0x46]
  }

  /** What the identification alone decides. */
  lemma Identified(data: seq<byte>)
    ensures LayoutOf(data).NotElf? <==> !HasMagic(data)
    ensures LayoutOf(data).NotElf64Le? <==>
            HasMagic(data) && ((4 < |data| && data[4] != 2) || (5 < |data| && data[4] == 2 && data[5] != 1))
    ensures !Elf64(data) ==> LayoutOf(data) in {NotElf, NotElf64Le, Malformed}
    ensures Elf64(data) ==> !LayoutOf(data).NotElf? && !LayoutOf(data).NotElf64Le?
  {
    hide ProgramHeaders, Word, Mapped, DynamicTable, Strtab;
    if Elf64(data) {
      assert data[..4] == data[..6][..4] && data[4] == data[..6][4] && data[5] == data[..6][5];
    }
    if HasMagic(data) && 58 <= |data| && data[4] == 2 && data[5] == 1 {
      assert data[..6] == data[..4] + [data[4], data[5]];
    }
  }

  /** What the dynamic table of header `d` decides. */
  ghost predicate TableDecides(data: seq<byte>, headers: seq<Header>, d: nat, entries: seq<Entry>)
    requires d < |headers|
  {
    TableIs(data, headers[d].offset, headers[d].size, 0, entries) ==>
      && (LayoutOf(data).NoStrtab? <==> forall j | 0 <= j < |entries| :: entries[j].tag != DT_STRTAB)
      && forall s: nat | LastStrtab(entries, s) ::
           && (LayoutOf(data).StrtabUnmapped? <==> NoneHolds(headers, entries[s].val))
           && forall l: nat | FirstHolding(headers, entries[s].val, l) ::
                LayoutOf(data) == Ready(entries, headers[l].offset + (entries[s].val - headers[l].vaddr))
  }

  /**
    The layout of a 64-bit little-endian file in terms of its program headers: they may lie outside
    the file, there may be no dynamic one, and otherwise the table of the last dynamic one decides.
  */
  lemma LayoutRead(data: seq<byte>) returns (headers: seq<Header>)
    requires Elf64(data)
    ensures
      var phoff, phentsize, n := Word(data, 32, 8), Word(data, 54, 2), Word(data, 56, 2);
      if Outside(data, phoff, phentsize, n) then LayoutOf(data).Malformed?
      else
        && |headers| == n && HeadersAre(data, phoff, phentsize, headers)
        && (LayoutOf(data).NoDynamic? <==> NoneDynamic(headers))
        && (forall d: nat, entries | LastDynamic(headers, d) :: TableDecides(data, headers, d, entries))
        && forall d: nat | LastDynamic(headers, d) ::
             LayoutOf(data).Malformed? <==>
             forall entries :: !TableIs(data, headers[d].offset, headers[d].size, 0, entries)
  {
    hide Word, ProgramHeaders, DynamicTable, Mapped, Strtab, Segments, TableIs, LastStrtab, FirstHolding, NoneHolds,
      NoneDynamic, Outside, HeadersAre, LastDynamic;
    Identified(data);
    headers := HeadersRead(data, Word(data, 32, 8), Word(data, 54, 2), Word(data, 56, 2));
    InsideDecides(data, headers);
  }

  lemma InsideDecides(data: seq<byte>, headers: seq<Header>)
    requires Elf64(data)
    requires
      var p := ProgramHeaders(data, Word(data, 32, 8), Word(data, 54, 2), Word(data, 56, 2));
      p.Good? ==> Kept(p.value, headers)
    ensures
      ProgramHeaders(data, Word(data, 32, 8), Word(data, 54, 2), Word(data, 56, 2)).Good? ==>
        forall d: nat | LastDynamic(headers, d) ::
          && d < |headers| && (forall entries :: TableDecides(data, headers, d, entries))
          && (LayoutOf(data).Malformed? <==>
              forall entries :: !TableIs(data, headers[d].offset, headers[d].size, 0, entries))
  {
    hide Word, ProgramHeaders, DynamicTable, Mapped, Strtab, Segments, TableIs, LastStrtab, FirstHolding, NoneHolds,
      NoneDynamic;
    Identified(data);
    var p := ProgramHeaders(data, Word(data, 32, 8), Word(data, 54, 2), Word(data, 56, 2));
    if p.Good? {
      forall d: nat | LastDynamic(headers, d)
        ensures d < |headers| && (forall entries :: TableDecides(data, headers, d, entries))
        ensures LayoutOf(data).Malformed? <==>
                forall entries :: !TableIs(data, headers[d].offset, headers[d].size, 0, entries)
      {
        var offset, size := headers[d].offset, headers[d].size;
        assert p.value.dynamic == Some((offset, size));
        var table := DynamicTable(data, offset, size, 0);
        forall entries ensures TableIs(data, offset, size, 0, entries) <==> table == Good(entries) {
          TableRead(data, offset, size, 0, entries);
        }
        if table.Good? {
          TableSettles(data, headers, d, table.value);
        }
      }
    }
  }

  lemma TableSettles(data: seq<byte>, headers: seq<Header>, d: nat, entries: seq<Entry>)
    requires Elf64(data) && d < |headers|
    requires DynamicTable(data, headers[d].offset, headers[d].size, 0) == Good(entries)
    requires
      var p := ProgramHeaders(data, Word(data, 32, 8), Word(data, 54, 2), Word(data, 56, 2));
      && p.Good? && p.value.loads == Segments(headers)
      && p.value.dynamic == Some((headers[d].offset, headers[d].size))
    ensures TableDecides(data, headers, d, entries) && !LayoutOf(data).Malformed?
  {
    hide Word, ProgramHeaders, DynamicTable, Mapped, Strtab, Segments, TableIs, FirstHolding, NoneHolds, LastStrtab;
    Identified(data);
    assert data[4] == data[..6][4] && data[5] == data[..6][5];
    StrtabRead(entries);
    if Strtab(entries).Some? {
      MappedRead(headers, Strtab(entries).value);
    }
  }
}
