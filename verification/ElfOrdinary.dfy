/**
  An ordinary library: its words take two bytes, and its strings are loaded at another address than
  their place in the file. Its run path is patched to `$ORIGIN`.
*/
module ElfOrdinary {
  import opened Options
  import opened ElfFile
  import opened ElfPatch
  import opened ElfTheorems
  import opened ElfResults
  import opened ElfVerdict
  import ElfFamilies

  const SIZE: nat := 650
  const DYNAMIC: nat := 576
  const STRINGS: nat := 640
  const ADDRESS: nat := 0x1280
  const RUN_PATH: nat := 641

  /** Identification, three program headers at 64, the dynamic table at 576, one path at 641. */
  function ByteAt(i: nat): byte {
    if i < 64 then IdentByte(i)
    else if i < 120 then FirstHeaderByte(i - 64)
    else if i < 176 then SecondHeaderByte(i - 120)
    else if i < 232 then DynamicHeaderByte(i - 176)
    else if DYNAMIC <= i < STRINGS then TableByte(i - DYNAMIC)
    else if RUN_PATH <= i < SIZE - 1 then 0x61
    else 0
  }

  function IdentByte(i: nat): byte {
    match i
    case 0 => 0x7f
    case 1 => 0x45
    case 2 => 0x4c
    case 3 => 0x46
    case 4 => 2
    case 5 => 1
    case 32 => 64
    case 54 => 56
    case 56 => 3
    case _ => 0
  }

  /** Loaded from 0 to 0: 512 bytes, 768 in memory. */
  function FirstHeaderByte(i: nat): byte {
    match i
    case 0 => 1
    case 33 => 2
    case 41 => 3
    case _ => 0
  }

  /** Loaded from 576 to address 0x1240, at physical address 0x7000: 256 bytes, 768 in memory. */
  function SecondHeaderByte(i: nat): byte {
    match i
    case 0 => 1
    case 8 => 0x40
    case 9 => 2
    case 16 => 0x40
    case 17 => 0x12
    case 25 => 0x70
    case 33 => 1
    case 41 => 3
    case _ => 0
  }

  /** The dynamic section: 48 bytes at 576. */
  function DynamicHeaderByte(i: nat): byte {
    match i
    case 0 => 2
    case 8 => 0x40
    case 9 => 2
    case 16 => 0x40
    case 17 => 0x12
    case 32 => 48
    case 40 => 48
    case _ => 0
  }

  /** String table at address 0x1280, DT_RPATH at 1 in it, end. */
  function TableByte(i: nat): byte {
    match i
    case 0 => 5
    case 8 => 0x80
    case 9 => 0x12
    case 16 => 15
    case 24 => 1
    case _ => 0
  }

  function Library(): (file: seq<byte>)
    ensures |file| == SIZE && forall i | 0 <= i < SIZE :: file[i] == ByteAt(i)
  {
    seq(SIZE, i requires 0 <= i => ByteAt(i))
  }

  function Table(): seq<Entry> {
    [Entry(576, DT_STRTAB, ADDRESS), Entry(592, DT_RPATH, 1), Entry(608, DT_NULL, 0)]
  }

  /** A word whose bytes from the third on are zero. */
  lemma ShortWord(data: seq<byte>, at: nat, size: nat)
    requires size >= 2 && at + size <= |data|
    requires forall k | at + 2 <= k < at + size :: data[k] == 0
    ensures Word(data, at, size) == (data[at] as int) + 256 * (data[at + 1] as int)
  {
    var word := data[at..at + size];
    ZeroWord(word[1..][1..]);
    assert LittleEndian(word) == (word[0] as int) + 256 * LittleEndian(word[1..]);
    assert LittleEndian(word[1..]) == (word[1] as int) + 256 * LittleEndian(word[1..][1..]);
  }

  lemma IdentWords()
    ensures Word(Library(), 32, 8) == 64 && Word(Library(), 54, 2) == 56 && Word(Library(), 56, 2) == 3
  {
    hide Word;
    ShortWord(Library(), 32, 8);
    ShortWord(Library(), 54, 2);
    ShortWord(Library(), 56, 2);
  }

  lemma FirstHeader(before: Headers)
    ensures HeaderAt(Library(), 64, before) == before.(loads := before.loads + [Load(0, 0, 512)])
  {
    hide Word;
    ShortWord(Library(), 64, 4);
    ShortWord(Library(), 72, 8);
    ShortWord(Library(), 80, 8);
    ShortWord(Library(), 96, 8);
  }

  lemma SecondHeader(before: Headers)
    ensures HeaderAt(Library(), 120, before) == before.(loads := before.loads + [Load(576, 0x1240, 256)])
  {
    hide Word;
    ShortWord(Library(), 120, 4);
    ShortWord(Library(), 128, 8);
    ShortWord(Library(), 136, 8);
    ShortWord(Library(), 152, 8);
  }

  lemma DynamicHeader(before: Headers)
    ensures HeaderAt(Library(), 176, before) == before.(dynamic := Some((576, 48)))
  {
    hide Word;
    ShortWord(Library(), 176, 4);
    ShortWord(Library(), 184, 8);
    ShortWord(Library(), 192, 8);
    ShortWord(Library(), 208, 8);
  }

  const LOADS: seq<Load> := [Load(0, 0, 512), Load(576, 0x1240, 256)]

  lemma LibraryHeaders()
    ensures ProgramHeaders(Library(), 64, 56, 3) == Good(Headers(LOADS, Some((576, 48))))
  {
    hide Word, Library, HeaderAt;
    assert HeaderPos(64, 56, 0) == 64 && HeaderPos(64, 56, 1) == 120 && HeaderPos(64, 56, 2) == 176;
    assert |Library()| == SIZE;
    FirstHeader(Headers([], None));
    SecondHeader(Headers([Load(0, 0, 512)], None));
    DynamicHeader(Headers(LOADS, None));
    assert [] + [Load(0, 0, 512)] == [Load(0, 0, 512)];
    assert [Load(0, 0, 512)] + [Load(576, 0x1240, 256)] == LOADS;
    assert ProgramHeaders(Library(), 64, 56, 0) == Good(Headers([], None));
    assert ProgramHeaders(Library(), 64, 56, 1) == Good(Headers([Load(0, 0, 512)], None));
    assert ProgramHeaders(Library(), 64, 56, 2) == Good(Headers(LOADS, None));
  }

  lemma TableWords(i: nat)
    requires i < 3
    ensures EntryAt(Library(), 576 + 16 * i) == Table()[i]
  {
    hide Word;
    ShortWord(Library(), 576 + 16 * i, 8);
    ShortWord(Library(), 584 + 16 * i, 8);
  }

  lemma {:induction false} LibraryTable(i: nat)
    requires i < 3
    ensures DynamicTable(Library(), 576, 48, 16 * i) == Good(Table()[i..])
    decreases 3 - i
  {
    hide EntryAt, Library;
    TableWords(i);
    assert |Library()| == SIZE;
    if i < 2 {
      LibraryTable(i + 1);
      assert [Table()[i]] + Table()[i + 1..] == Table()[i..];
    } else {
      assert [Table()[i]] == Table()[i..];
    }
  }

  lemma LibraryStrtab()
    ensures Strtab(Table()) == Some(ADDRESS)
  {
    hide Strtab;
    var t := Table();
    NoStrtabYet();
    StrtabSnoc([], t[0]);
    StrtabSnoc([t[0]], t[1]);
    StrtabSnoc([t[0], t[1]], t[2]);
    assert [] + [t[0]] == [t[0]] && [t[0]] + [t[1]] == [t[0], t[1]] && [t[0], t[1]] + [t[2]] == t;
  }

  /** The address of the strings is looked up in the segment that holds it, not in the first one. */
  lemma LibraryMapped()
    ensures Mapped(LOADS, ADDRESS) == Some(STRINGS)
  {
    assert LOADS[1..] == [Load(576, 0x1240, 256)];
  }

  lemma LibraryIdent()
    ensures |Library()| == SIZE && Library()[..4] == [0x7f, 0x45, 0x4c, 0x46]
    ensures Library()[4] == 2 && Library()[5] == 1
  {
  }

  lemma LibraryLayout()
    ensures LayoutOf(Library()) == Ready(Table(), STRINGS)
  {
    hide Word, Library, ProgramHeaders, DynamicTable, Strtab, Mapped;
    IdentWords();
    LibraryHeaders();
    LibraryTable(0);
    LibraryStrtab();
    LibraryMapped();
    assert Table()[0..] == Table();
    LibraryIdent();
  }

  lemma LibraryEnds()
    ensures End(Library(), RUN_PATH) == SIZE - 1
  {
    hide Library;
    ElfFamilies.EndAt(Library(), RUN_PATH, SIZE - 1);
  }

  lemma LibraryStrings()
    ensures Separated(Library(), Table(), STRINGS)
    ensures AllFit(Library(), Table(), STRINGS, 3) && !AllOrigin(Library(), Table(), STRINGS, 3)
  {
    hide End, Library;
    LibraryEnds();
    var t := Table();
    assert RunPath(t[1]) && !RunPath(t[0]) && !RunPath(t[2]) && Start(t[1], STRINGS) == RUN_PATH;
    assert |Library()[RUN_PATH..SIZE - 1]| == 8;
    assert !IsOrigin(Library(), t[1], STRINGS);
  }

  /** A text of single-byte characters stands in the file, with its terminator. */
  predicate Spells(data: seq<byte>, at: nat, text: string) {
    && at + |text| < |data| && data[at + |text|] == 0
    && forall i | 0 <= i < |text| :: data[at + i] == text[i] as int
  }

  lemma OriginSpelled(data: seq<byte>, at: nat)
    requires StringAt(data, at) == Some(ORIGIN[..7])
    ensures Spells(data, at, "$ORIGIN")
  {
    var end := End(data, at);
    assert |data[at..end]| == 7 && data[at + 7] == 0;
    forall i | 0 <= i < 7 ensures data[at + i] == "$ORIGIN"[i] as int {
      assert data[at..end][i] == ORIGIN[..7][i];
    }
  }

  lemma RunPathEntry()
    ensures |Table()| == 3 && RunPath(Table()[1]) && Table()[1].loc == 592 && STRINGS + Table()[1].val == RUN_PATH
  {
  }

  /** The library is patched: its DT_RPATH is a DT_RUNPATH now and reads `$ORIGIN`. */
  lemma OrdinaryPatched()
    ensures PatchFile(Library()).0 == Patched
    ensures
      var out := PatchFile(Library()).1;
      |out| == SIZE && Word(out, 592, 8) == 29 && Spells(out, RUN_PATH, "$ORIGIN")
  {
    hide LayoutOf, PatchFile, Library, StringAt, AllFit, AllOrigin, Separated, Word, Spells, Table, RunPath;
    RunPathEntry();
    LibraryLayout();
    LibraryStrings();
    LibraryIdent();
    SeparatedVerdict(Library(), Table(), STRINGS);
    var out := PatchFile(Library()).1;
    PatchedFile(Library(), out, Table(), STRINGS);
    OriginSpelled(out, RUN_PATH);
  }
}
