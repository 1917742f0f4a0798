/**
  The ELF-64 little-endian structures that the run-path patcher reads (System V gABI, chapter 5,
  "Program Header" and "Dynamic Section"): what a byte sequence says, and a reader that says it.
*/
module ElfFile {
  import opened Options

  type byte = x: int | 0 <= x < 256

  /** What reading a structure yields, unless it reaches past the end of the file. */
  datatype Parse<+T> = Good(value: T) | Bad

  const PT_LOAD: nat := 1
  const PT_DYNAMIC: nat := 2
  const DT_NULL: nat := 0
  const DT_STRTAB: nat := 5
  const DT_RPATH: nat := 15
  const DT_RUNPATH: nat := 29

  /** A loadable segment: file offset, virtual address, size in the file. */
  datatype Load = Load(offset: nat, vaddr: nat, size: nat)

  datatype Headers = Headers(loads: seq<Load>, dynamic: Option<(nat, nat)>)

  /** A dynamic entry and where its tag word sits. */
  datatype Entry = Entry(loc: nat, tag: nat, val: nat)

  /** How a file is laid out, or why the patcher leaves it alone. */
  datatype Layout =
    | NotElf
    | NotElf64Le
    | NoDynamic
    | NoStrtab
    | StrtabUnmapped
    | Malformed
    | Ready(entries: seq<Entry>, strOff: nat)

  function LittleEndian(s: seq<byte>): nat {
    if s == [] then 0 else s[0] + 256 * LittleEndian(s[1..])
  }

  function Word(data: seq<byte>, offset: nat, size: nat): nat
    requires offset + size <= |data|
  {
    LittleEndian(data[offset..offset + size])
  }

  function HeaderAt(data: seq<byte>, at: nat, before: Headers): Headers
    requires at + 40 <= |data|
  {
    var kind := Word(data, at, 4);
    var offset, vaddr, size := Word(data, at + 8, 8), Word(data, at + 16, 8), Word(data, at + 32, 8);
    if kind == PT_LOAD then before.(loads := before.loads + [Load(offset, vaddr, size)])
    else if kind == PT_DYNAMIC then before.(dynamic := Some((offset, size)))
    else before
  }

  /** Where program header `i` starts. */
  function HeaderPos(phoff: nat, phentsize: nat, i: nat): nat {
    phoff + i * phentsize
  }

  /** The first `n` program headers: every loadable segment in order, the last dynamic one. */
  function ProgramHeaders(data: seq<byte>, phoff: nat, phentsize: nat, n: nat): Parse<Headers> {
    if n == 0 then Good(Headers([], None))
    else
      var before := ProgramHeaders(data, phoff, phentsize, n - 1);
      var at := HeaderPos(phoff, phentsize, n - 1);
      if before.Bad? || at + 40 > |data| then Bad
      else Good(HeaderAt(data, at, before.value))
  }

  method ReadProgramHeaders(data: seq<byte>, phoff: nat, phentsize: nat, phnum: nat) returns (p: Parse<Headers>)
    ensures p == ProgramHeaders(data, phoff, phentsize, phnum)
  {
    var headers := Headers([], None);
    for i := 0 to phnum
      invariant ProgramHeaders(data, phoff, phentsize, i) == Good(headers)
    {
      var at := HeaderPos(phoff, phentsize, i);
      if at + 40 > |data| {
        BadStays(data, phoff, phentsize, i + 1, phnum);
        return Bad;
      }
      headers := HeaderAt(data, at, headers);
    }
    p := Good(headers);
  }

  lemma {:induction false} BadStays(data: seq<byte>, phoff: nat, phentsize: nat, n: nat, m: nat)
    requires n <= m && ProgramHeaders(data, phoff, phentsize, n).Bad?
    ensures ProgramHeaders(data, phoff, phentsize, m).Bad?
    decreases m
  {
    if n < m {
      BadStays(data, phoff, phentsize, n, m - 1);
    }
  }

  /** File offset of a virtual address, through the first segment that holds it. */
  function Mapped(loads: seq<Load>, addr: nat): Option<nat> {
    if loads == [] then None
    else if loads[0].vaddr <= addr < loads[0].vaddr + loads[0].size
    then Some(loads[0].offset + (addr - loads[0].vaddr))
    else Mapped(loads[1..], addr)
  }

  function Prepend(front: seq<Entry>, rest: Parse<seq<Entry>>): Parse<seq<Entry>> {
    if rest.Bad? then Bad else Good(front + rest.value)
  }

  function EntryAt(data: seq<byte>, loc: nat): Entry
    requires loc + 16 <= |data|
  {
    Entry(loc, Word(data, loc, 8), Word(data, loc + 8, 8))
  }

  /** The dynamic table from byte `cursor` on, up to its null entry or the end of its segment. */
  function DynamicTable(data: seq<byte>, offset: nat, size: nat, cursor: nat): Parse<seq<Entry>>
    decreases if cursor <= size then size - cursor else 0
  {
    if cursor + 16 > size then Good([])
    else if offset + cursor + 16 > |data| then Bad
    else
      var e := EntryAt(data, offset + cursor);
      if e.tag == DT_NULL then Good([e])
      else Prepend([e], DynamicTable(data, offset, size, cursor + 16))
  }

  /** The value of the last string-table entry. */
  function Strtab(entries: seq<Entry>): Option<nat> {
    if entries == [] then None
    else
      var e := entries[|entries| - 1];
      if e.tag == DT_STRTAB then Some(e.val) else Strtab(entries[..|entries| - 1])
  }

  lemma NoStrtabYet()
    ensures Strtab([]) == None
  {
  }

  lemma StrtabSnoc(entries: seq<Entry>, e: Entry)
    ensures Strtab(entries + [e]) == if e.tag == DT_STRTAB then Some(e.val) else Strtab(entries)
  {
    assert (entries + [e])[..|entries|] == entries;
  }

  method ReadDynamicTable(data: seq<byte>, offset: nat, size: nat)
    returns (entries: Parse<seq<Entry>>, strtab: Option<nat>)
    ensures entries == DynamicTable(data, offset, size, 0)
    ensures entries.Good? ==> strtab == Strtab(entries.value)
  {
    hide EntryAt, Strtab;
    NoStrtabYet();
    var found: seq<Entry> := [];
    strtab := None;
    var cursor := 0;
    ghost var table := DynamicTable(data, offset, size, 0);
    assert table.Good? ==> [] + table.value == table.value;
    while cursor + 16 <= size
      invariant table == Prepend(found, DynamicTable(data, offset, size, cursor))
      invariant strtab == Strtab(found)
      decreases size - cursor
    {
      if offset + cursor + 16 > |data| {
        return Bad, strtab;
      }
      var e := EntryAt(data, offset + cursor);
      ghost var before, rest := found, DynamicTable(data, offset, size, cursor + 16);
      found := found + [e];
      StrtabSnoc(before, e);
      assert rest.Good? ==> before + ([e] + rest.value) == found + rest.value;
      if e.tag == DT_NULL {
        return Good(found), strtab;
      }
      if e.tag == DT_STRTAB {
        strtab := Some(e.val);
      }
      cursor := cursor + 16;
    }
    assert found + [] == found;
    entries := Good(found);
  }

  function LayoutOf(data: seq<byte>): Layout {
    if |data| < 4 || data[..4] != [0x7f, 0x45, 0x4c, 0x46] then NotElf
    else if |data| < 5 then Malformed
    else if data[4] != 2 then NotElf64Le
    else if |data| < 6 then Malformed
    else if data[5] != 1 then NotElf64Le
    else if |data| < 58 then Malformed
    else
      var headers := ProgramHeaders(data, Word(data, 32, 8), Word(data, 54, 2), Word(data, 56, 2));
      if headers.Bad? then Malformed
      else if headers.value.dynamic.None? then NoDynamic
      else
        var (offset, size) := headers.value.dynamic.value;
        var entries := DynamicTable(data, offset, size, 0);
        if entries.Bad? then Malformed
        else
          var strtab := Strtab(entries.value);
          if strtab.None? then NoStrtab
          else
            var strOff := Mapped(headers.value.loads, strtab.value);
            if strOff.None? then StrtabUnmapped else Ready(entries.value, strOff.value)
  }

  method ReadLayout(data: seq<byte>) returns (layout: Layout)
    ensures layout == LayoutOf(data)
  {
    if |data| < 4 || data[..4] != [0x7f, 0x45, 0x4c, 0x46] {
      return NotElf;
    }
    if |data| < 5 {
      return Malformed;
    }
    if data[4] != 2 {
      return NotElf64Le;
    }
    if |data| < 6 {
      return Malformed;
    }
    if data[5] != 1 {
      return NotElf64Le;
    }
    if |data| < 58 {
      return Malformed;
    }
    var headers := ReadProgramHeaders(data, Word(data, 32, 8), Word(data, 54, 2), Word(data, 56, 2));
    if headers.Bad? {
      return Malformed;
    }
    if headers.value.dynamic.None? {
      return NoDynamic;
    }
    var (offset, size) := headers.value.dynamic.value;
    var entries, strtab := ReadDynamicTable(data, offset, size);
    if entries.Bad? {
      return Malformed;
    }
    if strtab.None? {
      return NoStrtab;
    }
    var strOff := Mapped(headers.value.loads, strtab.value);
    layout := if strOff.None? then StrtabUnmapped else Ready(entries.value, strOff.value);
  }
}
