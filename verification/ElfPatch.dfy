/**
  Rewriting every DT_RPATH/DT_RUNPATH entry of a bundled library to `$ORIGIN`, in place.
*/
module ElfPatch {
  import opened Options
  import opened ElfFile

  const ORIGIN: seq<byte> := [0x24, 0x4f, 0x52, 0x49, 0x47, 0x49, 0x4e, 0]
  const RUNPATH_WORD: seq<byte> := [29, 0, 0, 0, 0, 0, 0, 0]

  datatype Status =
    | Patched
    | SkipNoRpath
    | Skip(layout: Layout)
    | Fail(failure: Failure)

  datatype Failure = Unterminated | TooSmall(current: seq<byte>)

  /** The buffer after some entries, and whether a string had to change; or why it stopped. */
  datatype Progress = Going(data: seq<byte>, changed: bool) | Stopped(failure: Failure)

  predicate RunPath(e: Entry) {
    e.tag == DT_RPATH || e.tag == DT_RUNPATH
  }

  /** Position of the first zero byte at or after `start`; the length when there is none. */
  function End(data: seq<byte>, start: nat): (end: nat)
    ensures start <= |data| ==> start <= end <= |data|
    ensures start > |data| ==> end == start
    ensures end < |data| ==> data[end] == 0
    ensures forall k | start <= k < end && k < |data| :: data[k] != 0
    decreases |data| - start
  {
    if start >= |data| then start
    else if data[start] == 0 then start
    else End(data, start + 1)
  }

  /** The string that starts at a position: the bytes before the next zero byte. */
  function StringAt(data: seq<byte>, start: nat): Option<seq<byte>> {
    var end := End(data, start);
    if end < |data| then Some(data[start..end]) else None
  }

  function Splice(data: seq<byte>, at: nat, bytes: seq<byte>): (r: seq<byte>)
    requires at + |bytes| <= |data|
    ensures |r| == |data|
    ensures forall k | 0 <= k < |data| :: r[k] == if at <= k < at + |bytes| then bytes[k - at] else data[k]
  {
    seq(|data|, k requires 0 <= k < |data| => if at <= k < at + |bytes| then bytes[k - at] else data[k])
  }

  function FillByte(i: nat): byte {
    if i < |ORIGIN| then ORIGIN[i] else 0
  }

  /** A span of `size` bytes that holds `$ORIGIN` and zeros. */
  function Filling(size: nat): (r: seq<byte>)
    ensures |r| == size
    ensures forall k | 0 <= k < size :: r[k] == FillByte(k)
  {
    seq(size, k requires 0 <= k => FillByte(k))
  }

  /** What one entry does to the buffer. */
  function PatchEntry(data: seq<byte>, e: Entry, strOff: nat): Progress
    requires e.loc + 16 <= |data|
  {
    if !RunPath(e) then Going(data, false) else
    var tagged := Splice(data, e.loc, RUNPATH_WORD);
    var start := strOff + e.val;
    var end := End(tagged, start);
    if end >= |tagged| then Stopped(Unterminated)
    else if tagged[start..end] == ORIGIN[..7] then Going(tagged, false)
    else if end - start < 7 then Stopped(TooSmall(tagged[start..end]))
    else Going(Splice(tagged, start, Filling(end + 1 - start)), true)
  }

  predicate InFile(entries: seq<Entry>, size: nat) {
    forall i | 0 <= i < |entries| :: entries[i].loc + 16 <= size
  }

  /** The buffer after the first `n` entries. */
  function PatchEntries(data: seq<byte>, entries: seq<Entry>, strOff: nat, n: nat): (p: Progress)
    requires n <= |entries| && InFile(entries, |data|)
    ensures p.Going? ==> |p.data| == |data|
  {
    if n == 0 then Going(data, false)
    else
      var before := PatchEntries(data, entries, strOff, n - 1);
      if before.Stopped? then before
      else
        var p := PatchEntry(before.data, entries[n - 1], strOff);
        if p.Stopped? then p else Going(p.data, before.changed || p.changed)
  }

  lemma {:induction false} StoppedStays(data: seq<byte>, entries: seq<Entry>, strOff: nat, n: nat, m: nat)
    requires n <= m <= |entries| && InFile(entries, |data|)
    requires PatchEntries(data, entries, strOff, n).Stopped?
    ensures PatchEntries(data, entries, strOff, m) == PatchEntries(data, entries, strOff, n)
    decreases m
  {
    if n < m {
      StoppedStays(data, entries, strOff, n, m - 1);
    }
  }

  method WriteBytes(buffer: array<byte>, at: nat, bytes: seq<byte>)
    requires at + |bytes| <= buffer.Length
    modifies buffer
    ensures buffer[..] == Splice(old(buffer[..]), at, bytes)
  {
    for i := 0 to |bytes|
      invariant forall k | 0 <= k < buffer.Length ::
          buffer[k] == if at <= k < at + i then bytes[k - at] else old(buffer[k])
    {
      buffer[at + i] := bytes[i];
    }
  }

  /** Overwrite a longer string in place: `$ORIGIN`, its terminator, then zeros to the old end. */
  method WriteOrigin(buffer: array<byte>, start: nat, end: nat)
    requires start + 7 <= end < buffer.Length
    modifies buffer
    ensures buffer[..] == Splice(old(buffer[..]), start, Filling(end + 1 - start))
  {
    WriteBytes(buffer, start, ORIGIN);
    ghost var written := buffer[..];
    for pad := start + |ORIGIN| to end + 1
      invariant forall k | 0 <= k < buffer.Length ::
          buffer[k] == if start + |ORIGIN| <= k < pad then 0 else written[k]
    {
      buffer[pad] := 0;
    }
  }

  method PatchOne(buffer: array<byte>, e: Entry, strOff: nat) returns (changed: bool, failure: Option<Failure>)
    requires e.loc + 16 <= buffer.Length
    modifies buffer
    ensures failure.Some? ==> PatchEntry(old(buffer[..]), e, strOff) == Stopped(failure.value)
    ensures failure.None? ==> PatchEntry(old(buffer[..]), e, strOff) == Going(buffer[..], changed)
  {
    if e.tag != DT_RPATH && e.tag != DT_RUNPATH {
      return false, None;
    }
    WriteBytes(buffer, e.loc, RUNPATH_WORD);
    var start := strOff + e.val;
    var end := End(buffer[..], start);
    if end >= buffer.Length {
      return false, Some(Unterminated);
    }
    var current := buffer[start..end];
    if current == ORIGIN[..7] {
      return false, None;
    }
    if 7 > end - start {
      return false, Some(TooSmall(current));
    }
    WriteOrigin(buffer, start, end);
    return true, None;
  }

  /** Patch every entry of the buffer in turn; stop at the first that cannot be patched. */
  method PatchBuffer(buffer: array<byte>, entries: seq<Entry>, strOff: nat)
    returns (changed: bool, failure: Option<Failure>)
    requires InFile(entries, buffer.Length)
    modifies buffer
    ensures failure.Some? ==>
              PatchEntries(old(buffer[..]), entries, strOff, |entries|) == Stopped(failure.value)
    ensures failure.None? ==>
              PatchEntries(old(buffer[..]), entries, strOff, |entries|) == Going(buffer[..], changed)
  {
    changed := false;
    for i := 0 to |entries|
      invariant PatchEntries(old(buffer[..]), entries, strOff, i) == Going(buffer[..], changed)
    {
      var patched;
      patched, failure := PatchOne(buffer, entries[i], strOff);
      if failure.Some? {
        StoppedStays(old(buffer[..]), entries, strOff, i + 1, |entries|);
        return;
      }
      changed := changed || patched;
    }
    failure := None;
  }

  /** The patcher on one file: its verdict and the bytes the file holds afterwards. */
  method Patch(file: seq<byte>) returns (status: Status, written: seq<byte>)
    ensures (status, written) == PatchFile(file)
  {
    written := file;
    var layout := ReadLayout(file);
    if !layout.Ready? {
      return Skip(layout), written;
    }
    LayoutInFile(file);
    var buffer := new byte[|file|](i requires 0 <= i < |file| => file[i]);
    assert buffer[..] == file;
    var changed, failure := PatchBuffer(buffer, layout.entries, layout.strOff);
    if failure.Some? {
      return Fail(failure.value), written;
    }
    if !changed {
      return SkipNoRpath, written;
    }
    status, written := Patched, buffer[..];
  }

  lemma {:induction false} TableInFile(data: seq<byte>, offset: nat, size: nat, cursor: nat)
    requires DynamicTable(data, offset, size, cursor).Good?
    ensures InFile(DynamicTable(data, offset, size, cursor).value, |data|)
    ensures var entries := DynamicTable(data, offset, size, cursor).value;
            forall i | 0 <= i < |entries| ::
              && entries[i].loc == offset + cursor + 16 * i
              && entries[i].loc + 16 <= offset + size
              && entries[i].loc + 16 <= |data|
              && entries[i] == EntryAt(data, entries[i].loc)
    decreases if cursor <= size then size - cursor else 0
  {
    if cursor + 16 <= size && EntryAt(data, offset + cursor).tag != DT_NULL {
      TableInFile(data, offset, size, cursor + 16);
    }
  }

  lemma LayoutInFile(data: seq<byte>)
    ensures LayoutOf(data).Ready? ==> InFile(LayoutOf(data).entries, |data|)
  {
    if LayoutOf(data).Ready? {
      var headers := ProgramHeaders(data, Word(data, 32, 8), Word(data, 54, 2), Word(data, 56, 2));
      var (offset, size) := headers.value.dynamic.value;
      TableInFile(data, offset, size, 0);
    }
  }

  /** The verdict on a file with a readable layout, and the bytes it holds afterwards. */
  function PatchReady(file: seq<byte>, entries: seq<Entry>, strOff: nat): (Status, seq<byte>)
    requires InFile(entries, |file|)
  {
    var p := PatchEntries(file, entries, strOff, |entries|);
    if p.Stopped? then (Fail(p.failure), file)
    else if p.changed then (Patched, p.data)
    else (SkipNoRpath, file)
  }

  function PatchFile(file: seq<byte>): (Status, seq<byte>) {
    var layout := LayoutOf(file);
    if !layout.Ready? then (Skip(layout), file)
    else
      LayoutInFile(file);
      PatchReady(file, layout.entries, layout.strOff)
  }
}
