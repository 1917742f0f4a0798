/**
  A library whose DT_RPATH is the tail of its DT_RUNPATH: the patcher reports success, and the first
  run path reads as the empty string afterwards.
*/
module ElfExample {
  import opened Options
  import opened ElfFile
  import opened ElfPatch
  import opened ElfTheorems
  import opened ElfResults
  import opened ElfFamilies
  import opened ElfVerdict
  import opened ElfSharing

  const SIZE: nat := 257
  const STRINGS: nat := 240
  const TAIL: nat := 248

  /** Identification, two program headers at 64, the dynamic table at 176, one path at 240. */
  function ByteAt(i: nat): byte {
    if i < 64 then IdentByte(i)
    else if i < 176 then HeaderByte(i)
    else if i < STRINGS then TableByte(i)
    else if i < SIZE - 1 then 0x61
    else 0
  }

  function IdentByte(i: nat): byte {
    match i
    case 0 => 0x7f
    case 1 => 0x45
    case 2 => 0x4c
    case 3 => 0x46
    case 4 => 2
    case 5 => 1
    case 32 => 64
    case 54 => 56
    case 56 => 2
    case _ => 0
  }

  /** A loadable segment of 255 bytes at 0, and the dynamic section: 64 bytes at 176. */
  function HeaderByte(i: nat): byte {
    match i
    case 64 => 1
    case 96 => 255
    case 120 => 2
    case 128 => 176
    case 152 => 64
    case _ => 0
  }

  /** String table at 240, run paths at 8 and at 0 in it, end. */
  function TableByte(i: nat): byte {
    match i
    case 176 => 5
    case 184 => 240
    case 192 => 15
    case 200 => 8
    case 208 => 29
    case _ => 0
  }

  function Library(): (file: seq<byte>)
    ensures |file| == SIZE && forall i | 0 <= i < SIZE :: file[i] == ByteAt(i)
  {
    seq(SIZE, i requires 0 <= i => ByteAt(i))
  }

  function Table(): seq<Entry> {
    [Entry(176, DT_STRTAB, STRINGS), Entry(192, DT_RPATH, 8), Entry(208, DT_RUNPATH, 0), Entry(224, DT_NULL, 0)]
  }

  /** A word whose higher bytes are zero. */
  lemma SmallWord(data: seq<byte>, at: nat, size: nat)
    requires size > 0 && at + size <= |data|
    requires forall k | at < k < at + size :: data[k] == 0
    ensures Word(data, at, size) == data[at]
  {
    var word := data[at..at + size];
    ZeroWord(word[1..]);
  }

  lemma IdentWords()
    ensures Word(Library(), 32, 8) == 64 && Word(Library(), 54, 2) == 56 && Word(Library(), 56, 2) == 2
  {
    hide Word;
    SmallWord(Library(), 32, 8);
    SmallWord(Library(), 54, 2);
    SmallWord(Library(), 56, 2);
  }

  lemma HeaderWords()
    ensures Word(Library(), 64, 4) == 1 && Word(Library(), 72, 8) == 0 && Word(Library(), 80, 8) == 0
    ensures Word(Library(), 96, 8) == 255
    ensures Word(Library(), 120, 4) == 2 && Word(Library(), 128, 8) == 176 && Word(Library(), 152, 8) == 64
  {
    hide Word;
    SmallWord(Library(), 64, 4);
    SmallWord(Library(), 72, 8);
    SmallWord(Library(), 80, 8);
    SmallWord(Library(), 96, 8);
    SmallWord(Library(), 120, 4);
    SmallWord(Library(), 128, 8);
    SmallWord(Library(), 152, 8);
  }

  lemma LibraryHeaders()
    ensures ProgramHeaders(Library(), 64, 56, 2) == Good(Headers([Load(0, 0, 255)], Some((176, 64))))
  {
    hide Word, Library;
    HeaderWords();
    assert HeaderPos(64, 56, 0) == 64 && HeaderPos(64, 56, 1) == 120;
    assert |Library()| == SIZE;
    assert ProgramHeaders(Library(), 64, 56, 0) == Good(Headers([], None));
    assert HeaderAt(Library(), 64, Headers([], None)) == Headers([Load(0, 0, 255)], None);
    assert ProgramHeaders(Library(), 64, 56, 1) == Good(Headers([Load(0, 0, 255)], None));
  }

  lemma TableWords(i: nat)
    requires i < 4
    ensures EntryAt(Library(), 176 + 16 * i) == Table()[i]
  {
    hide Word;
    SmallWord(Library(), 176 + 16 * i, 8);
    SmallWord(Library(), 184 + 16 * i, 8);
  }

  lemma {:induction false} LibraryTable(i: nat)
    requires i < 4
    ensures DynamicTable(Library(), 176, 64, 16 * i) == Good(Table()[i..])
    decreases 4 - i
  {
    hide EntryAt, Library;
    TableWords(i);
    assert |Library()| == SIZE;
    if i < 3 {
      LibraryTable(i + 1);
      assert [Table()[i]] + Table()[i + 1..] == Table()[i..];
    } else {
      assert [Table()[i]] == Table()[i..];
    }
  }

  lemma LibraryStrtab()
    ensures Strtab(Table()) == Some(STRINGS)
  {
    hide Strtab;
    var t := Table();
    NoStrtabYet();
    StrtabSnoc([], t[0]);
    StrtabSnoc([t[0]], t[1]);
    StrtabSnoc([t[0], t[1]], t[2]);
    StrtabSnoc([t[0], t[1], t[2]], t[3]);
    assert [] + [t[0]] == [t[0]] && [t[0]] + [t[1]] == [t[0], t[1]];
    assert [t[0], t[1]] + [t[2]] == [t[0], t[1], t[2]] && [t[0], t[1], t[2]] + [t[3]] == t;
  }

  lemma LibraryLayout()
    ensures LayoutOf(Library()) == Ready(Table(), STRINGS)
  {
    hide Word, Library, ProgramHeaders, DynamicTable, Strtab;
    IdentWords();
    LibraryHeaders();
    LibraryTable(0);
    LibraryStrtab();
    assert Table()[0..] == Table();
    LibraryIdent();
  }

  lemma LibraryIdent()
    ensures |Library()| == SIZE && Library()[..4] == [0x7f, 0x45, 0x4c, 0x46]
    ensures Library()[4] == 2 && Library()[5] == 1
  {
  }

  /** Both run paths end at the end of the file. */
  lemma LibraryEnds()
    ensures End(Library(), STRINGS) == SIZE - 1 && End(Library(), TAIL) == SIZE - 1
  {
    hide Library;
    EndAt(Library(), STRINGS, SIZE - 1);
    EndAt(Library(), TAIL, SIZE - 1);
  }

  lemma LibraryStrings()
    ensures ClearOfTable(Library(), Table(), STRINGS) && AllFit(Library(), Table(), STRINGS, 4)
    ensures Descending(Library(), Table(), STRINGS, 4) && !AllOrigin(Library(), Table(), STRINGS, 4)
    ensures !Apart(Library(), Table(), STRINGS) && Leads(Library(), Table(), STRINGS, STRINGS)
  {
    hide End, Library;
    LibraryEnds();
    var t := Table();
    assert RunPath(t[1]) && RunPath(t[2]) && !RunPath(t[0]) && !RunPath(t[3]);
    assert Start(t[1], STRINGS) == TAIL && Start(t[2], STRINGS) == STRINGS;
    assert !SameOrApart(Library(), t[1], t[2], STRINGS);
    assert |Library()[STRINGS..SIZE - 1]| == 16;
    assert !IsOrigin(Library(), t[2], STRINGS);
  }

  /** The patch succeeds, and the DT_RPATH string is lost. */
  lemma TailSharingBreaks()
    ensures LayoutOf(Library()) == Ready(Table(), STRINGS) && ClearOfTable(Library(), Table(), STRINGS)
    ensures PatchFile(Library()).0 == Patched
    ensures StringAt(PatchFile(Library()).1, TAIL) == Some([])
    ensures !ReadsOriginEverywhere(PatchFile(Library()).1, Table(), STRINGS)
  {
    hide LayoutOf, PatchFile, Library, End, StringAt, ReadsOriginEverywhere, AllFit, Descending, AllOrigin;
    hide Leads, ClearOfTable;
    LibraryLayout();
    LibraryStrings();
    LibraryEnds();
    PatchVerdict(Library(), Table(), STRINGS);
    var out := PatchFile(Library()).1;
    assert RunPath(Table()[1]) && Start(Table()[1], STRINGS) == TAIL;
    TailsRead(Library(), out, Table(), STRINGS, 1, STRINGS);
    ReadsOriginExactly(Library(), out, Table(), STRINGS);
  }

  /** The program headers, like all in front of the dynamic table, are not touched. */
  lemma LibraryFree(from: nat, to: nat)
    requires to <= 176
    ensures Free(Library(), Table(), STRINGS, from, to)
  {
    hide Library, End;
    LibraryEnds();
    var t := Table();
    assert RunPath(t[1]) && RunPath(t[2]) && !RunPath(t[0]) && !RunPath(t[3]);
  }

  /** Patching the patched library once more fails: one run path has no room left. */
  lemma SecondPatchFails()
    ensures PatchFile(PatchFile(Library()).1).0.Fail? && PatchFile(PatchFile(Library()).1).0.failure.TooSmall?
  {
    hide LayoutOf, PatchFile, Library, End, ReadsOriginEverywhere, AllFit, Descending, AllOrigin, Leads, ClearOfTable;
    hide Free, Word, Apart;
    LibraryLayout();
    LibraryStrings();
    IdentWords();
    TailSharingBreaks();
    LibraryFree(0, 58);
    LibraryFree(64, 104);
    LibraryFree(120, 160);
    PatchAgain(Library(), PatchFile(Library()).1, Table(), STRINGS);
  }
}
