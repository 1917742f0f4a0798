/**
  The batched backfill of mail timestamps: keyset pages over a filter that its own updates shrink.
*/
module MailBackfill {
  import opened Options

  /** An object row; `timestamp` is the metadata entry, absent or possibly null. */
  datatype Row = Row(occurredAt: Option<int>, kind: string, provider: string, timestamp: Option<Option<string>>)

  type Table = map<int, Row>

  /** What the filter of the backfill lets through. */
  predicate Eligible(r: Row) {
    r.occurredAt.None? && r.kind == "email" && r.provider in ["gmail", "yandex_mail"] && r.timestamp.Some?
  }

  /** How metadata text becomes an aware timestamp, if it does. */
  type Parser = Option<string> -> Option<int>

  function Filled(r: Row, parse: Parser): Row {
    if Eligible(r) && parse(r.timestamp.value).Some? then r.(occurredAt := parse(r.timestamp.value)) else r
  }

  /** One pass over the whole table. */
  function Backfilled(t: Table, parse: Parser): Table {
    map id | id in t :: Filled(t[id], parse)
  }

  /** After the last key seen, if there is one. */
  predicate Beyond(id: int, last: Option<int>) {
    last.None? || id > last.value
  }

  function EligibleBeyond(t: Table, last: Option<int>): set<int> {
    set id | id in t && Eligible(t[id]) && Beyond(id, last)
  }

  ghost predicate Ascending(ids: seq<int>) {
    forall i, j | 0 <= i < j < |ids| :: ids[i] < ids[j]
  }

  /** A page: the first eligible ids beyond the last key, in order. */
  ghost predicate IsPage(page: seq<int>, t: Table, last: Option<int>, size: nat) {
    && Ascending(page) && |page| <= size
    && (forall i | 0 <= i < |page| :: page[i] in EligibleBeyond(t, last))
    && (forall id | id in EligibleBeyond(t, last) && id !in page ::
         |page| == size && forall i | 0 <= i < |page| :: page[i] < id)
  }

  lemma SomeMember(ids: set<int>)
    requires ids != {}
    ensures exists id :: id in ids
  {
    assert (forall id :: id !in ids) ==> ids == {};
  }

  method Least(ids: set<int>) returns (least: int)
    requires ids != {}
    ensures least in ids && forall id | id in ids :: least <= id
  {
    SomeMember(ids);
    least :| least in ids;
    var rest := ids - {least};
    while rest != {}
      invariant rest < ids && least in ids && forall id | id in ids && id !in rest :: least <= id
      decreases rest
    {
      SomeMember(rest);
      var id :| id in rest;
      if id < least {
        least := id;
      }
      rest := rest - {id};
    }
  }

  class Objects {
    var rows: Table

    constructor (rows: Table)
      ensures this.rows == rows
    {
      this.rows := rows;
    }

    /** The page query. */
    method Select(last: Option<int>, size: nat) returns (page: seq<int>)
      ensures IsPage(page, rows, last, size)
    {
      hide Eligible, Beyond;
      var left := EligibleBeyond(rows, last);
      page := [];
      while left != {} && |page| < size
        invariant |page| <= size && Ascending(page)
        invariant forall i | 0 <= i < |page| ::
            page[i] in EligibleBeyond(rows, last) && forall id | id in left :: page[i] < id
        invariant forall id :: id in EligibleBeyond(rows, last) <==> id in left || id in page
        decreases size - |page|
      {
        var id := Least(left);
        page := page + [id];
        left := left - {id};
      }
    }

    method Update(id: int, at: int)
      requires id in rows
      modifies this
      ensures rows == old(rows)[id := old(rows[id]).(occurredAt := Some(at))]
    {
      rows := rows[id := rows[id].(occurredAt := Some(at))];
    }
  }

  /** Rows up to a key are done, the ones beyond it are untouched. */
  ghost predicate DoneUpTo(now: Table, was: Table, last: Option<int>, parse: Parser) {
    && now.Keys == was.Keys
    && forall id | id in was :: now[id] == if Beyond(id, last) then was[id] else Filled(was[id], parse)
  }

  /** Every eligible row was visited up to a key, once and in order. */
  ghost predicate Visited(ids: seq<int>, was: Table, last: Option<int>) {
    && Ascending(ids)
    && forall id :: id in ids <==> id in was && Eligible(was[id]) && !Beyond(id, last)
  }

  /** The next row of a page: nothing eligible lies between it and the last key. */
  lemma NextRow(now: Table, was: Table, visited: seq<int>, last: Option<int>, id: int, parse: Parser)
    requires DoneUpTo(now, was, last, parse) && Visited(visited, was, last)
    requires id in was && Eligible(was[id]) && Beyond(id, last)
    requires forall other | other in EligibleBeyond(was, last) :: id <= other
    ensures Visited(visited + [id], was, Some(id))
    ensures now[id] == was[id]
    ensures
      var parsed := parse(was[id].timestamp.value);
      DoneUpTo(if parsed.Some? then now[id := now[id].(occurredAt := parsed)] else now, was, Some(id), parse)
  {
    var longer := visited + [id];
    forall i | 0 <= i < |visited| ensures visited[i] < id {
      assert visited[i] in visited;
    }
    forall other ensures other in longer <==> other in was && Eligible(was[other]) && !Beyond(other, Some(id)) {
      if other in was && Eligible(was[other]) && !Beyond(other, Some(id)) && Beyond(other, last) {
        assert other in EligibleBeyond(was, last);
      }
    }
    var parsed := parse(was[id].timestamp.value);
    var then_ := if parsed.Some? then now[id := now[id].(occurredAt := parsed)] else now;
    forall other | other in was
      ensures then_[other] == if Beyond(other, Some(id)) then was[other] else Filled(was[other], parse)
    {
      if other != id && Beyond(other, last) && !Beyond(other, Some(id)) {
        assert other !in EligibleBeyond(was, last);
      }
    }
  }

  /** The rows of a page that are still to come lie beyond the key of the one before. */
  lemma PageRest(page: seq<int>, i: nat, was: Table, last: Option<int>, size: nat, from: Option<int>)
    requires IsPage(page, was, last, size) && i < |page|
    requires from == if i == 0 then last else Some(page[i - 1])
    ensures forall other | other in EligibleBeyond(was, from) :: page[i] <= other
    ensures Beyond(page[i], from)
  {
    hide Eligible;
    forall other | other in EligibleBeyond(was, from) ensures page[i] <= other {
      assert other in EligibleBeyond(was, last);
      if other in page {
        var j :| 0 <= j < |page| && page[j] == other;
      }
    }
  }

  lemma SameBeyond(now: Table, was: Table, last: Option<int>, parse: Parser)
    requires DoneUpTo(now, was, last, parse)
    ensures EligibleBeyond(now, last) == EligibleBeyond(was, last)
  {
  }

  /** The filled rows of one page. */
  method FillPage(objects: Objects, page: seq<int>, last: Option<int>, size: nat, parse: Parser,
                  ghost was: Table, ghost visited: seq<int>)
    returns (ghost seen: seq<int>)
    requires DoneUpTo(objects.rows, was, last, parse) && Visited(visited, was, last)
    requires IsPage(page, was, last, size) && page != []
    modifies objects
    ensures DoneUpTo(objects.rows, was, Some(page[|page| - 1]), parse)
    ensures seen == visited + page && Visited(seen, was, Some(page[|page| - 1]))
  {
    hide DoneUpTo, Visited, IsPage, Eligible, Ascending;
    seen := visited;
    ghost var from := last;
    for i := 0 to |page|
      invariant from == if i == 0 then last else Some(page[i - 1])
      invariant DoneUpTo(objects.rows, was, from, parse)
      invariant seen == visited + page[..i] && Visited(seen, was, from)
    {
      var id := page[i];
      PageRest(page, i, was, last, size, from);
      PageRow(page, i, was, last, size);
      NextRow(objects.rows, was, seen, from, id, parse);
      DoneKeys(objects.rows, was, from, parse);
      assert objects.rows[id].timestamp.Some?;
      var parsed := parse(objects.rows[id].timestamp.value);
      if parsed.Some? {
        objects.Update(id, parsed.value);
      }
      from := Some(id);
      seen := seen + [id];
    }
    assert page[..|page|] == page;
  }

  lemma PageRow(page: seq<int>, i: nat, was: Table, last: Option<int>, size: nat)
    requires IsPage(page, was, last, size) && i < |page|
    ensures page[i] in was && Eligible(was[page[i]]) && was[page[i]].timestamp.Some?
  {
    assert page[i] in EligibleBeyond(was, last);
  }

  lemma DoneKeys(now: Table, was: Table, last: Option<int>, parse: Parser)
    requires DoneUpTo(now, was, last, parse)
    ensures now.Keys == was.Keys
  {
  }

  /**
    The backfill ends, whatever the size of its pages; it visits each row that was eligible once,
    in order, and leaves the table that one pass over all of it would.
  */
  method BackfillEmailOccurredAt(objects: Objects, size: nat, parse: Parser) returns (ghost visited: seq<int>)
    requires size >= 1
    modifies objects
    ensures objects.rows == Backfilled(old(objects.rows), parse)
    ensures objects.rows.Keys == old(objects.rows).Keys
    ensures forall id | id in old(objects.rows) ::
      var r := old(objects.rows)[id];
      if r.occurredAt == None && r.kind == "email" && (r.provider == "gmail" || r.provider == "yandex_mail") &&
        r.timestamp.Some? && parse(r.timestamp.value).Some?
      then objects.rows[id] == r.(occurredAt := parse(r.timestamp.value)) else objects.rows[id] == r
    ensures Ascending(visited) &&
            forall id :: id in visited <==> id in old(objects.rows) && Eligible(old(objects.rows)[id])
  {
    hide DoneUpTo, Visited, IsPage, Eligible, Ascending, EligibleBeyond, Backfilled;
    ghost var was := objects.rows;
    var last: Option<int> := None;
    visited := [];
    Begin(was, parse);
    OnePass(was, parse);
    while true
      invariant DoneUpTo(objects.rows, was, last, parse) && Visited(visited, was, last)
      decreases EligibleBeyond(was, last)
    {
      var page := objects.Select(last, size);
      SameBeyond(objects.rows, was, last, parse);
      SamePage(page, objects.rows, was, last, size);
      if page == [] {
        Finished(objects.rows, was, visited, last, page, size, parse);
        break;
      }
      ghost var before := last;
      visited := FillPage(objects, page, last, size, parse, was, visited);
      PageAdvances(page, was, last, size);
      last := Some(page[|page| - 1]);
      if |page| < size {
        ShortPage(page, was, before, size);
        AllDone(objects.rows, was, visited, last, parse);
        break;
      }
    }
  }

  /** What one pass does, row by row. */
  lemma OnePass(t: Table, parse: Parser)
    ensures Backfilled(t, parse).Keys == t.Keys
    ensures forall id | id in t ::
      var r := t[id];
      if r.occurredAt == None && r.kind == "email" && (r.provider == "gmail" || r.provider == "yandex_mail") &&
        r.timestamp.Some? && parse(r.timestamp.value).Some?
      then Backfilled(t, parse)[id] == r.(occurredAt := parse(r.timestamp.value)) else Backfilled(t, parse)[id] == r
  {
  }

  lemma Begin(was: Table, parse: Parser)
    ensures DoneUpTo(was, was, None, parse) && Visited([], was, None)
  {
  }

  lemma SamePage(page: seq<int>, now: Table, was: Table, last: Option<int>, size: nat)
    requires IsPage(page, now, last, size) && EligibleBeyond(now, last) == EligibleBeyond(was, last)
    ensures IsPage(page, was, last, size)
  {
    hide EligibleBeyond, Ascending;
  }

  lemma PageAdvances(page: seq<int>, was: Table, last: Option<int>, size: nat)
    requires IsPage(page, was, last, size) && page != []
    ensures EligibleBeyond(was, Some(page[|page| - 1])) < EligibleBeyond(was, last)
  {
    hide Eligible;
    var end := page[|page| - 1];
    assert end in EligibleBeyond(was, last) && end !in EligibleBeyond(was, Some(end));
  }

  lemma ShortPage(page: seq<int>, was: Table, last: Option<int>, size: nat)
    requires IsPage(page, was, last, size) && page != [] && |page| < size
    ensures EligibleBeyond(was, Some(page[|page| - 1])) == {}
  {
    hide Eligible;
    var end := page[|page| - 1];
    forall id ensures id !in EligibleBeyond(was, Some(end)) {
      if id in EligibleBeyond(was, last) {
        assert id in page;
        var i :| 0 <= i < |page| && page[i] == id;
      }
    }
  }

  lemma AllDone(now: Table, was: Table, visited: seq<int>, last: Option<int>, parse: Parser)
    requires DoneUpTo(now, was, last, parse) && Visited(visited, was, last) && EligibleBeyond(was, last) == {}
    ensures now == Backfilled(was, parse)
    ensures Ascending(visited) && forall id :: id in visited <==> id in was && Eligible(was[id])
  {
    forall id | id in was ensures now[id] == Filled(was[id], parse) {
      assert id !in EligibleBeyond(was, last);
    }
    forall id | id in was && Eligible(was[id]) ensures id in visited {
      assert id !in EligibleBeyond(was, last);
    }
  }

  lemma Finished(now: Table, was: Table, visited: seq<int>, last: Option<int>, page: seq<int>, size: nat, parse: Parser)
    requires DoneUpTo(now, was, last, parse) && Visited(visited, was, last)
    requires IsPage(page, was, last, size) && page == [] && size >= 1
    ensures now == Backfilled(was, parse)
    ensures Ascending(visited) && forall id :: id in visited <==> id in was && Eligible(was[id])
  {
    hide Eligible, Beyond;
    assert EligibleBeyond(was, last) == {};
    AllDone(now, was, visited, last, parse);
  }

  /** A second run finds only rows whose timestamp does not parse, and changes nothing. */
  lemma BackfilledAgain(t: Table, parse: Parser)
    ensures Backfilled(Backfilled(t, parse), parse) == Backfilled(t, parse)
  {
    forall id | id in t ensures Filled(Filled(t[id], parse), parse) == Filled(t[id], parse) {
    }
  }
}
