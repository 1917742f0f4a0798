/**
  The census loop: one pass over the task windows, one over the people, and the facts in order.
*/
module TopologyCensus {
  import opened Options
  import opened PythonText
  import opened Sequences
  import opened TopologyKeys
  import opened TopologyFacts
  import opened TopologyMeaning

  datatype Census = Counted(facts: Facts) | Blocked(stage: string)

  /** Which window a task is in, for the tasks seen so far. */
  ghost predicate Maps(m: map<string, nat>, windows: seq<seq<string>>) {
    && (forall t | t in m :: m[t] < |windows| && t in windows[m[t]])
    && (forall w: nat, t | w < |windows| && t in windows[w] :: t in m && m[t] == w)
  }

  /** The tasks seen so far are different, and the map knows exactly them. */
  ghost predicate Known(m: map<string, nat>, seen: seq<string>) {
    Distinct(seen) && (forall t :: t in m <==> t in seen) && |m| == |seen|
  }

  lemma KnownOne(m: map<string, nat>, seen: seq<string>, t: string, w: nat)
    requires Known(m, seen)
    ensures t in m <==> !Distinct(seen + [t])
    ensures t !in m ==> Known(m[t := w], seen + [t])
  {
    if t in m {
      var i :| 0 <= i < |seen| && seen[i] == t;
      assert (seen + [t])[i] == (seen + [t])[|seen|];
    } else {
      assert m[t := w].Keys == m.Keys + {t};
      assert |m[t := w]| == |m| + 1;
    }
  }

  lemma {:induction false} FlatPrefix(windows: seq<seq<string>>, n: nat)
    requires n <= |windows|
    ensures Flat(windows[..n]) <= Flat(windows)
    decreases |windows| - n
  {
    if n == |windows| {
      assert windows[..n] == windows;
    } else {
      FlatPrefix(windows, n + 1);
      assert windows[..n + 1][..n] == windows[..n];
    }
  }

  lemma NotDistinct(prefix: seq<string>, ids: seq<string>)
    requires prefix <= ids && !Distinct(prefix)
    ensures !Distinct(ids)
  {
    var i, j :| 0 <= i < j < |prefix| && prefix[i] == prefix[j];
    assert ids[i] == ids[j];
  }

  lemma KnownNext(m: map<string, nat>, before: seq<string>, ids: seq<string>, i: nat, w: nat)
    requires i < |ids| && Known(m, before + ids[..i])
    ensures ids[i] in m ==> !Distinct(before + ids)
    ensures ids[i] !in m ==> Known(m[ids[i] := w], before + ids[..i + 1])
  {
    hide Known, Distinct;
    var seen := before + ids[..i];
    assert before + ids[..i + 1] == seen + [ids[i]];
    KnownOne(m, seen, ids[i], w);
    if !Distinct(seen + [ids[i]]) {
      assert seen + [ids[i]] <= before + ids;
      NotDistinct(seen + [ids[i]], before + ids);
    }
  }

  /** The tasks of one window, added to the map. */
  method MapWindow(ids: seq<string>, w: nat, known: map<string, nat>, ghost before: seq<string>)
    returns (m: map<string, nat>, count: nat, ok: bool)
    requires Known(known, before)
    ensures ok <==> Distinct(before + ids)
    ensures ok ==>
      && Known(m, before + ids) && count == |ids|
      && (forall t | t in known :: t in m && m[t] == known[t])
      && (forall t | t in m :: if t in known then m[t] == known[t] else t in ids && m[t] == w)
      && (forall t | t in ids :: t in m && t !in known)
  {
    hide Known, Distinct;
    var seenHere: set<string> := {};
    m, count := known, 0;
    assert before + ids[..0] == before;
    for i := 0 to |ids|
      invariant Known(m, before + ids[..i]) && |seenHere| == i
      invariant forall t | t in known :: t in m && m[t] == known[t]
      invariant forall t :: t in seenHere <==> t in m && t !in known
      invariant forall t | t in seenHere :: t in ids && m[t] == w
      invariant forall j | 0 <= j < i :: ids[j] in seenHere
    {
      KnownNext(m, before, ids, i, w);
      if ids[i] in seenHere || ids[i] in m {
        return m, 0, false;
      }
      seenHere := seenHere + {ids[i]};
      m := m[ids[i] := w];
    }
    assert ids[..|ids|] == ids;
    KnownDistinct(m, before + ids);
    count := |seenHere|;
    ok := true;
  }

  lemma KnownDistinct(m: map<string, nat>, seen: seq<string>)
    requires Known(m, seen)
    ensures Distinct(seen) && |m| == |seen|
  {
  }

  lemma MapsOne(m: map<string, nat>, n: map<string, nat>, windows: seq<seq<string>>, ids: seq<string>)
    requires Maps(m, windows)
    requires forall t | t in m :: t in n && n[t] == m[t]
    requires forall t | t in n :: if t in m then n[t] == m[t] else t in ids && n[t] == |windows|
    requires forall t | t in ids :: t in n && t !in m
    ensures Maps(n, windows + [ids])
  {
    var longer := windows + [ids];
    forall w: nat, t | w < |longer| && t in longer[w] ensures t in n && n[t] == w {
      if w < |windows| {
        assert t in windows[w];
      }
    }
  }

  lemma FlatOne(windows: seq<seq<string>>, w: nat)
    requires w < |windows|
    ensures Flat(windows[..w + 1]) == Flat(windows[..w]) + windows[w]
    ensures windows[..w + 1] == windows[..w] + [windows[w]]
    ensures Distinct(Flat(windows)) ==> Distinct(Flat(windows[..w + 1]))
  {
    hide *;
    SliceOne(windows, w);
    FlatStep(windows, w);
    FlatPrefix(windows, w + 1);
    PrefixDistinct(Flat(windows[..w + 1]), Flat(windows));
  }

  lemma SliceOne(windows: seq<seq<string>>, w: nat)
    requires w < |windows|
    ensures windows[..w + 1] == windows[..w] + [windows[w]]
  {
  }

  lemma FlatStep(windows: seq<seq<string>>, w: nat)
    requires w < |windows|
    ensures Flat(windows[..w + 1]) == Flat(windows[..w]) + windows[w]
  {
    assert windows[..w + 1][..w] == windows[..w];
  }

  lemma PrefixDistinct(prefix: seq<string>, ids: seq<string>)
    requires prefix <= ids
    ensures Distinct(ids) ==> Distinct(prefix)
  {
  }

  /** Number the windows of all tasks; a task seen twice stops the census. */
  method MapTasks(windows: seq<seq<string>>) returns (m: map<string, nat>, counts: seq<nat>, ok: bool)
    ensures ok <==> Distinct(Flat(windows))
    ensures ok ==>
      && Maps(m, windows) && |m| == |Flat(windows)|
      && |counts| == |windows| && forall w | 0 <= w < |windows| :: counts[w] == |windows[w]|
  {
    hide Known, Distinct, Flat, Maps;
    m, counts := map[], [];
    Nothing();
    assert windows[..0] == [];
    for w := 0 to |windows|
      invariant Known(m, Flat(windows[..w])) && Maps(m, windows[..w])
      invariant |counts| == w && forall v | 0 <= v < w :: counts[v] == |windows[v]|
    {
      FlatOne(windows, w);
      var n, count, known := MapWindow(windows[w], w, m, Flat(windows[..w]));
      if !known {
        return m, counts, false;
      }
      MapsOne(m, n, windows[..w], windows[w]);
      m, counts := n, counts + [count];
    }
    assert windows[..|windows|] == windows;
    KnownDistinct(m, Flat(windows));
    ok := true;
  }

  lemma Nothing()
    ensures Flat([]) == [] && Known(map[], []) && Maps(map[], [])
  {
  }

  /** The windows of some tasks, and whether one of them is in no window. */
  method MappedWindows(anchors: seq<string>, m: map<string, nat>, ghost windows: seq<seq<string>>)
    returns (spanned: set<nat>, unmapped: bool)
    requires Maps(m, windows)
    ensures spanned == WindowsOf(anchors, windows) && (unmapped <==> Unmapped(anchors, windows))
  {
    spanned, unmapped := {}, false;
    for i := 0 to |anchors|
      invariant forall w :: w in spanned <==> exists j :: 0 <= j < i && anchors[j] in m && m[anchors[j]] == w
      invariant unmapped <==> exists j :: 0 <= j < i && anchors[j] !in m
    {
      if anchors[i] in m {
        spanned := spanned + {m[anchors[i]]};
      } else {
        unmapped := true;
      }
    }
    MappedMeaning(anchors, m, windows, spanned, unmapped);
  }

  lemma MappedMeaning(anchors: seq<string>, m: map<string, nat>, windows: seq<seq<string>>, spanned: set<nat>,
                      unmapped: bool)
    requires Maps(m, windows)
    requires forall w :: w in spanned <==> exists j :: 0 <= j < |anchors| && anchors[j] in m && m[anchors[j]] == w
    requires unmapped <==> exists j :: 0 <= j < |anchors| && anchors[j] !in m
    ensures spanned == WindowsOf(anchors, windows) && (unmapped <==> Unmapped(anchors, windows))
  {
    forall w: nat ensures w in spanned <==> w in WindowsOf(anchors, windows) {
      if w in spanned {
        var j :| 0 <= j < |anchors| && anchors[j] in m && m[anchors[j]] == w;
        assert anchors[j] in anchors && anchors[j] in windows[w];
      }
      if w in WindowsOf(anchors, windows) {
        var t :| t in anchors && t in windows[w];
        var j :| 0 <= j < |anchors| && anchors[j] == t;
        assert anchors[j] in m && m[anchors[j]] == w;
      }
    }
    if unmapped {
      var j :| 0 <= j < |anchors| && anchors[j] !in m;
      assert anchors[j] in anchors;
    }
    if Unmapped(anchors, windows) {
      var t :| t in anchors && forall w | 0 <= w < |windows| :: t !in windows[w];
      var j :| 0 <= j < |anchors| && anchors[j] == t;
      assert anchors[j] !in m;
    }
  }

  // ----- people -----

  /** The counters the loop over the people keeps. */
  class Counters {
    var unanchored: nat
    var single: nat
    var multi: nat
    var incomplete: nat
    var unmapped: nat
    var relevance: seq<nat>
    var maxSpan: nat
    var oneAnchor: nat
    var multipleAnchors: nat
    var aligned: nat
    var mismatched: nat

    constructor (windows: nat)
      ensures Now() == Counts(0, 0, 0, 0, 0, seq(windows, i => 0), 0, 0, 0, 0, 0)
    {
      unanchored, single, multi, incomplete, unmapped := 0, 0, 0, 0, 0;
      relevance, maxSpan, oneAnchor, multipleAnchors, aligned, mismatched := seq(windows, i => 0), 0, 0, 0, 0, 0;
    }

    function Now(): Counts
      reads this
    {
      Counts(unanchored, single, multi, incomplete, unmapped, relevance, maxSpan, oneAnchor, multipleAnchors, aligned,
             mismatched)
    }

    /** One more for every window a person spans, in whatever order the set gives them. */
    method Raise(spanned: set<nat>)
      requires forall w | w in spanned :: w < |relevance|
      modifies this`relevance
      ensures relevance == Raised(old(relevance), spanned)
    {
      var left := spanned;
      while left != {}
        invariant left <= spanned && |relevance| == |old(relevance)|
        invariant forall w | 0 <= w < |relevance| ::
            relevance[w] == old(relevance)[w] + (if w in spanned && w !in left then 1 else 0)
        decreases left
      {
        var w :| w in left;
        relevance := relevance[w := relevance[w] + 1];
        left := left - {w};
      }
    }

    /** Count one person. */
    method Count(page: nat, person: Person, m: map<string, nat>, ghost windows: seq<seq<string>>)
      requires Maps(m, windows) && |relevance| == |windows|
      modifies this
      ensures Now() == After(old(Now()), Visit(page, person), windows)
    {
      hide Maps, WindowsOf, Unmapped, Raised;
      if !person.complete {
        incomplete := incomplete + 1;
        return;
      }
      var spanned, missing := MappedWindows(person.anchors, m, windows);
      WindowsInRange(person.anchors, windows);
      var span := |spanned|;
      if span > maxSpan {
        maxSpan := span;
      }
      if |person.anchors| == 1 {
        oneAnchor := oneAnchor + 1;
      } else if |person.anchors| > 1 {
        multipleAnchors := multipleAnchors + 1;
      }
      Raise(spanned);
      if person.anchors != [] && !missing {
        MappedSpans(person.anchors, windows);
      }
      Place(page, person.anchors == [], spanned, missing);
    }

    /** Put a person with complete anchors in a category. */
    method Place(page: nat, none: bool, spanned: set<nat>, missing: bool)
      requires !none && !missing ==> |spanned| >= 1
      modifies this`unanchored, this`unmapped, this`multi, this`single, this`aligned, this`mismatched
      ensures
        var placed := !none && !missing && |spanned| < 2;
        Now() == old(Now()).(
          unanchored := old(unanchored) + (if none then 1 else 0),
          unmapped := old(unmapped) + (if !none && missing then 1 else 0),
          multi := old(multi) + (if !none && !missing && |spanned| >= 2 then 1 else 0),
          single := old(single) + (if placed then 1 else 0),
          aligned := old(aligned) + (if placed && spanned == {page} then 1 else 0),
          mismatched := old(mismatched) + (if placed && spanned != {page} then 1 else 0))
    {
      if none {
        unanchored := unanchored + 1;
        return;
      }
      if missing {
        unmapped := unmapped + 1;
        return;
      }
      if |spanned| >= 2 {
        multi := multi + 1;
        return;
      }
      single := single + 1;
      var only :| only in spanned;
      OnlyOne(spanned, only);
      if page == only {
        aligned := aligned + 1;
      } else {
        mismatched := mismatched + 1;
      }
    }
  }

  lemma WindowsInRange(anchors: seq<string>, windows: seq<seq<string>>)
    ensures forall w | w in WindowsOf(anchors, windows) :: w < |windows|
  {
  }

  lemma OnlyOne(s: set<nat>, w: nat)
    requires |s| == 1 && w in s
    ensures s == {w}
  {
    assert |s - {w}| == 0;
  }

  function Ids(page: seq<Person>): (ids: seq<string>)
    ensures |ids| == |page|
  {
    seq(|page|, i requires 0 <= i < |page| => page[i].id)
  }

  function IdPages(pages: seq<seq<Person>>): (r: seq<seq<string>>)
    ensures |r| == |pages|
  {
    seq(|pages|, k requires 0 <= k < |pages| => Ids(pages[k]))
  }

  ghost function PageVisits(k: nat, page: seq<Person>, n: nat): set<Visit>
    requires n <= |page|
  {
    set i: nat | i < n :: Visit(k, page[i])
  }

  /** The people seen are different, and they are the ones visited. */
  ghost predicate Seen(seen: set<string>, ids: seq<string>, visits: set<Visit>) {
    && Distinct(ids) && (forall t :: t in seen <==> t in ids)
    && (forall v | v in visits :: v.person.id in seen)
    && |seen| == |visits|
  }

  lemma SeenNext(seen: set<string>, before: seq<string>, ids: seq<string>, visits: set<Visit>, i: nat, v: Visit)
    requires i < |ids| && Seen(seen, before + ids[..i], visits) && v.person.id == ids[i]
    ensures ids[i] in seen ==> !Distinct(before + ids)
    ensures ids[i] !in seen ==> v !in visits && Seen(seen + {ids[i]}, before + ids[..i + 1], visits + {v})
  {
    hide Distinct;
    var known := before + ids[..i];
    assert before + ids[..i + 1] == known + [ids[i]];
    DistinctOne(known, ids[i]);
    if !Distinct(known + [ids[i]]) {
      assert known + [ids[i]] <= before + ids;
      NotDistinct(known + [ids[i]], before + ids);
    }
  }

  lemma DistinctOne(ids: seq<string>, id: string)
    requires Distinct(ids)
    ensures Distinct(ids + [id]) <==> id !in ids
  {
    if id in ids {
      var i :| 0 <= i < |ids| && ids[i] == id;
      assert (ids + [id])[i] == (ids + [id])[|ids|];
    }
  }

  /** Count the people of one page. */
  method CountPage(counters: Counters, k: nat, page: seq<Person>, m: map<string, nat>, known: set<string>,
                   ghost before: seq<string>, ghost visits: set<Visit>, ghost windows: seq<seq<string>>)
    returns (seen: set<string>, ok: bool)
    requires Maps(m, windows) && Seen(known, before, visits)
    requires Describes(counters.Now(), visits, windows) && Balanced(counters.Now(), visits)
    modifies counters
    ensures ok <==> Distinct(before + Ids(page))
    ensures ok ==>
      var now := visits + PageVisits(k, page, |page|);
      Seen(seen, before + Ids(page), now) && Describes(counters.Now(), now, windows) && Balanced(counters.Now(), now)
  {
    hide Maps, Seen, Distinct, Describes, Balanced, After;
    ghost var ids := Ids(page);
    ghost var now := visits;
    seen := known;
    assert before + ids[..0] == before && PageVisits(k, page, 0) == {};
    for i := 0 to |page|
      invariant Seen(seen, before + ids[..i], now) && now == visits + PageVisits(k, page, i)
      invariant Describes(counters.Now(), now, windows) && Balanced(counters.Now(), now)
    {
      var person := page[i];
      ghost var v := Visit(k, person);
      SeenNext(seen, before, ids, now, i, v);
      if person.id in seen {
        return seen, false;
      }
      seen := seen + {person.id};
      Widths(counters.Now(), now, windows);
      AfterDescribes(counters.Now(), now, v, windows);
      AfterBalanced(counters.Now(), now, v, windows);
      counters.Count(k, person, m, windows);
      assert PageVisits(k, page, i + 1) == PageVisits(k, page, i) + {v};
      now := now + {v};
    }
    assert ids[..|page|] == ids;
    SeenDistinct(seen, before + ids, now);
    ok := true;
  }

  lemma Widths(c: Counts, visits: set<Visit>, windows: seq<seq<string>>)
    requires Describes(c, visits, windows)
    ensures |c.relevance| == |windows|
  {
  }

  lemma SeenDistinct(seen: set<string>, ids: seq<string>, visits: set<Visit>)
    requires Seen(seen, ids, visits)
    ensures Distinct(ids) && |seen| == |visits|
  {
  }

  lemma VisitsOne(pages: seq<seq<Person>>, k: nat)
    requires k < |pages|
    ensures Visits(pages, k + 1) == Visits(pages, k) + PageVisits(k, pages[k], |pages[k]|)
  {
  }

  /** Count everybody; a person met twice stops the census. */
  method CountPeople(counters: Counters, pages: seq<seq<Person>>, m: map<string, nat>, ghost windows: seq<seq<string>>)
    returns (seen: set<string>, ok: bool)
    requires Maps(m, windows)
    requires Describes(counters.Now(), {}, windows) && Balanced(counters.Now(), {})
    modifies counters
    ensures ok <==> Distinct(Flat(IdPages(pages)))
    ensures ok ==>
      var visits := Visits(pages, |pages|);
      |seen| == |visits| && Describes(counters.Now(), visits, windows) && Balanced(counters.Now(), visits)
  {
    hide Maps, Seen, Distinct, Describes, Balanced, Flat, Visits, PageVisits, Ids;
    var idPages := IdPages(pages);
    seen := {};
    NobodySeen(pages);
    assert idPages[..0] == [];
    for k := 0 to |pages|
      invariant Seen(seen, Flat(idPages[..k]), Visits(pages, k))
      invariant Describes(counters.Now(), Visits(pages, k), windows) && Balanced(counters.Now(), Visits(pages, k))
    {
      FlatOne(idPages, k);
      VisitsOne(pages, k);
      seen, ok := CountPage(counters, k, pages[k], m, seen, Flat(idPages[..k]), Visits(pages, k), windows);
      if !ok {
        return;
      }
    }
    assert idPages[..|pages|] == idPages;
    SeenDistinct(seen, Flat(idPages), Visits(pages, |pages|));
    ok := true;
  }

  lemma NobodySeen(pages: seq<seq<Person>>)
    ensures Visits(pages, 0) == {} && Flat([]) == [] && Seen({}, [], {})
  {
  }

  // ----- the facts -----

  /** The totals of a census: its counters and the sizes of what was counted. */
  datatype Totals = Totals(counts: Counts, tasks: seq<nat>, union: nat, active: nat, pages: nat, people: nat) {
    function Windows(): nat {
      |tasks|
    }

    predicate Holds(k: Key) {
      (k.TaskWindow? || k.RelevantTo?) ==> k.index < |tasks| && k.index < |counts.relevance|
    }

    function Value(k: Key): nat
      requires Holds(k)
    {
      match k
      case UserCount => 1
      case WindowCount => |tasks|
      case TaskTotal => Sum(tasks)
      case TaskWindow(w) => tasks[w]
      case DuplicatedTasks => 0
      case UnionCount => union
      case ActiveTotal => active
      case PagesEnumerated => pages
      case PeopleUnique => people
      case DuplicatedPeople => 0
      case Unanchored => counts.unanchored
      case SingleWindow => counts.single
      case MultiWindow => counts.multi
      case IncompleteAnchors => counts.incomplete
      case UnmappedAnchors => counts.unmapped
      case RelevantTo(w) => counts.relevance[w]
      case Memberships => Sum(counts.relevance)
      case MaxSpan => counts.maxSpan
      case OneAnchor => counts.oneAnchor
      case MultipleAnchors => counts.multipleAnchors
      case PageCount => pages
      case Aligned => counts.aligned
      case Mismatched => counts.mismatched
    }
  }

  lemma HoldsInOrder(t: Totals, i: nat)
    requires |t.counts.relevance| == |t.tasks| && i < |Order(t.Windows())|
    ensures t.Holds(Order(t.Windows())[i])
  {
    OrderPosition(t.Windows(), i);
  }

  /** The facts a census shows, in order. */
  ghost predicate Shows(facts: Facts, t: Totals) {
    && |t.counts.relevance| == |t.tasks|
    && |facts| == |Order(t.Windows())|
    && forall i | 0 <= i < |facts| ::
         && facts[i].0 == Order(t.Windows())[i]
         && t.Holds(facts[i].0) && facts[i].1 == t.Value(facts[i].0)
  }

  function CountFacts(t: Totals): (facts: map<Key, nat>)
    ensures forall k :: k in facts <==> !k.TaskWindow? && !k.RelevantTo? && KindOf(k) < 10
    ensures forall k | k in facts :: facts[k] == t.Value(k)
  {
    map[UserCount := 1, WindowCount := |t.tasks|, TaskTotal := Sum(t.tasks), DuplicatedTasks := 0,
        UnionCount := t.union,
        ActiveTotal := t.active, PagesEnumerated := t.pages, PeopleUnique := t.people, DuplicatedPeople := 0]
  }

  function CategoryFacts(t: Totals): (facts: map<Key, nat>)
    ensures forall k :: k in facts <==> !k.TaskWindow? && !k.RelevantTo? && 10 <= KindOf(k) < 15
    ensures forall k | k in facts :: facts[k] == t.Value(k)
  {
    var c := t.counts;
    map[Key.Unanchored := c.unanchored, SingleWindow := c.single, MultiWindow := c.multi,
        IncompleteAnchors := c.incomplete, UnmappedAnchors := c.unmapped]
  }

  function PageFacts(t: Totals): (facts: map<Key, nat>)
    ensures forall k :: k in facts <==> !k.TaskWindow? && !k.RelevantTo? && KindOf(k) >= 16
    ensures forall k | k in facts :: facts[k] == t.Value(k)
  {
    var c := t.counts;
    map[Memberships := Sum(c.relevance), MaxSpan := c.maxSpan, OneAnchor := c.oneAnchor,
        MultipleAnchors := c.multipleAnchors, PageCount := t.pages, Aligned := c.aligned, Mismatched := c.mismatched]
  }

  lemma WindowKinds(k: Key)
    ensures k.TaskWindow? <==> KindOf(k) == 3
    ensures k.RelevantTo? <==> KindOf(k) == 15
  {
  }

  method FixedFacts(t: Totals) returns (facts: map<Key, nat>)
    ensures forall k :: k in facts <==> !k.TaskWindow? && !k.RelevantTo?
    ensures forall k | k in facts :: facts[k] == t.Value(k)
  {
    hide Totals.Value, KindOf, CountFacts, CategoryFacts, PageFacts;
    facts := CountFacts(t) + CategoryFacts(t) + PageFacts(t);
    forall k: Key ensures k.TaskWindow? <==> KindOf(k) == 3 ensures k.RelevantTo? <==> KindOf(k) == 15 {
      WindowKinds(k);
    }
  }

  /** The order lists exactly the keys the totals hold. */
  lemma OrderComplete(t: Totals, k: Key)
    requires |t.counts.relevance| == |t.tasks|
    ensures k in Order(t.Windows()) <==> t.Holds(k)
  {
    var n := t.Windows();
    if k in Order(n) {
      var i :| 0 <= i < |Order(n)| && Order(n)[i] == k;
      HoldsInOrder(t, i);
    }
    if t.Holds(k) {
      KeyInOrder(n, k);
    }
  }

  /** Collect the facts in a dictionary, and read them out in order. */
  method Assemble(t: Totals) returns (facts: Facts)
    requires |t.counts.relevance| == |t.tasks|
    ensures Shows(facts, t)
  {
    hide Order, Totals.Value;
    var table := FixedFacts(t);
    for w := 0 to |t.tasks|
      invariant forall k: Key | !k.TaskWindow? && !k.RelevantTo? :: k in table && table[k] == t.Value(k)
      invariant forall v: nat | v < w :: TaskWindow(v) in table && table[TaskWindow(v)] == t.tasks[v]
      invariant forall k | k in table :: t.Holds(k)
    {
      table := table[TaskWindow(w) := t.tasks[w]];
    }
    for w := 0 to |t.counts.relevance|
      invariant forall k: Key | !k.TaskWindow? && !k.RelevantTo? :: k in table && table[k] == t.Value(k)
      invariant forall v: nat | v < |t.tasks| :: TaskWindow(v) in table && table[TaskWindow(v)] == t.tasks[v]
      invariant forall v: nat | v < w :: RelevantTo(v) in table && table[RelevantTo(v)] == t.counts.relevance[v]
      invariant forall k | k in table :: t.Holds(k)
    {
      table := table[RelevantTo(w) := t.counts.relevance[w]];
    }
    forall k | t.Holds(k) ensures k in table && table[k] == t.Value(k) {
      WindowValues(t, k);
    }
    var order := Order(t.Windows());
    forall k ensures k in table <==> k in order {
      OrderComplete(t, k);
    }
    assert table.Keys == set k | k in order;
    facts := [];
    for i := 0 to |order|
      invariant |facts| == i
      invariant forall j | 0 <= j < i ::
          facts[j].0 == order[j] && t.Holds(facts[j].0) && facts[j].1 == t.Value(facts[j].0)
    {
      HoldsInOrder(t, i);
      facts := facts + [(order[i], table[order[i]])];
    }
  }

  lemma WindowValues(t: Totals, k: Key)
    requires t.Holds(k)
    ensures k.TaskWindow? ==> t.Value(k) == t.tasks[k.index]
    ensures k.RelevantTo? ==> t.Value(k) == t.counts.relevance[k.index]
  {
  }

  /** What the totals say about the tasks and the people. */
  ghost predicate Meaning(t: Totals, windows: seq<seq<string>>, pages: seq<seq<Person>>) {
    var visits := Visits(pages, |pages|);
    && |t.tasks| == |windows| && (forall w | 0 <= w < |windows| :: t.tasks[w] == |windows[w]|)
    && t.union == |set w: nat, i: nat | w < |windows| && i < |windows[w]| :: windows[w][i]| == Sum(t.tasks)
    && t.pages == |pages| && t.people == t.active == |visits|
    && Describes(t.counts, visits, windows) && Balanced(t.counts, visits)
  }

  lemma TextsDistinct(facts: Facts, t: Totals)
    requires Shows(facts, t)
    ensures DistinctKeys(TextFacts(facts))
  {
    hide KeyText, Order, Totals.Value;
    var table := TextFacts(facts);
    forall i, j | 0 <= i < j < |table| ensures table[i].0 != table[j].0 {
      OrderDistinct(t.Windows(), i, j);
    }
  }

  /** Looking a key up gives the value of the census. */
  lemma ShownUnder(facts: Facts, t: Totals, k: Key)
    requires Shows(facts, t) && t.Holds(k)
    ensures Lookup(TextFacts(facts), KeyText(k)) == Some(t.Value(k))
  {
    hide KeyText, Order, Totals.Value, Lookup, DistinctKeys;
    TextsDistinct(facts, t);
    OrderComplete(t, k);
    var i :| 0 <= i < |Order(t.Windows())| && Order(t.Windows())[i] == k;
    LookupAt(TextFacts(facts), i);
  }

  lemma TasksTold(facts: Facts, t: Totals, windows: seq<seq<string>>, pages: seq<seq<Person>>)
    requires Shows(facts, t) && Meaning(t, windows, pages)
    ensures TellsTasks(TextFacts(facts), windows)
  {
    hide Lookup, Shows, Order, Decimal, Sum, Balanced, TextFacts, Visits, WithAnchors, Those, OnPage, Relevant,
      IsMaxSpan;
    ShownUnder(facts, t, UserCount);
    ShownUnder(facts, t, WindowCount);
    ShownUnder(facts, t, TaskTotal);
    ShownUnder(facts, t, DuplicatedTasks);
    ShownUnder(facts, t, UnionCount);
    forall w: nat | w < |windows|
      ensures Lookup(TextFacts(facts), "TASK_WINDOW_" + Decimal(w) + "_TASK_COUNT") == Some(|windows[w]|)
    {
      ShownUnder(facts, t, TaskWindow(w));
    }
  }

  lemma PeopleTold(facts: Facts, t: Totals, windows: seq<seq<string>>, pages: seq<seq<Person>>)
    requires Shows(facts, t) && Meaning(t, windows, pages)
    ensures TellsPeople(TextFacts(facts), pages, Visits(pages, |pages|))
  {
    hide Lookup, Shows, Order, Sum, Balanced, TextFacts, Visits, WithAnchors, Those, OnPage, Relevant, IsMaxSpan;
    ShownUnder(facts, t, ActiveTotal);
    ShownUnder(facts, t, PeopleUnique);
    ShownUnder(facts, t, PagesEnumerated);
    ShownUnder(facts, t, PageCount);
    ShownUnder(facts, t, DuplicatedPeople);
    PageCountText();
  }

  lemma AnchorsTold(facts: Facts, t: Totals, windows: seq<seq<string>>, pages: seq<seq<Person>>)
    requires Shows(facts, t) && Meaning(t, windows, pages)
    ensures TellsAnchors(TextFacts(facts), Visits(pages, |pages|))
  {
    hide Lookup, Shows, Order, Sum, Balanced, TextFacts, Visits, WithAnchors, Those, OnPage, Relevant, IsMaxSpan;
    ShownUnder(facts, t, OneAnchor);
    ShownUnder(facts, t, MultipleAnchors);
  }

  lemma CategoriesTold(facts: Facts, t: Totals, windows: seq<seq<string>>, pages: seq<seq<Person>>)
    requires Shows(facts, t) && Meaning(t, windows, pages)
    ensures TellsCategories(TextFacts(facts), Visits(pages, |pages|), windows)
  {
    hide Lookup, Shows, Order, Sum, Balanced, TextFacts, Visits, WithAnchors, Those, OnPage, Relevant, IsMaxSpan;
    ShownUnder(facts, t, Key.Unanchored);
    ShownUnder(facts, t, SingleWindow);
    ShownUnder(facts, t, MultiWindow);
    ShownUnder(facts, t, IncompleteAnchors);
    ShownUnder(facts, t, UnmappedAnchors);
  }

  lemma PagesTold(facts: Facts, t: Totals, windows: seq<seq<string>>, pages: seq<seq<Person>>)
    requires Shows(facts, t) && Meaning(t, windows, pages)
    ensures TellsPages(TextFacts(facts), Visits(pages, |pages|), windows)
  {
    hide Lookup, Shows, Order, Sum, Balanced, TextFacts, Visits, WithAnchors, Those, OnPage, Relevant, IsMaxSpan;
    ShownUnder(facts, t, Aligned);
    ShownUnder(facts, t, Mismatched);
    AlignedText();
    MismatchText();
  }

  lemma WindowsTold(facts: Facts, t: Totals, windows: seq<seq<string>>, pages: seq<seq<Person>>)
    requires Shows(facts, t) && Meaning(t, windows, pages)
    ensures TellsWindows(TextFacts(facts), Visits(pages, |pages|), windows)
  {
    hide Lookup, Shows, Order, Decimal, Sum, Balanced, TextFacts, Visits, WithAnchors, Those, OnPage, Relevant,
      IsMaxSpan, Pairings;
    var visits := Visits(pages, |pages|);
    ShownUnder(facts, t, Memberships);
    ShownUnder(facts, t, MaxSpan);
    MembershipSum(t.counts.relevance, visits, windows);
    forall w: nat | w < |windows|
      ensures Lookup(TextFacts(facts), "PEOPLE_RELEVANT_TO_WINDOW_" + Decimal(w)) ==
              Some(|Relevant(visits, w, windows)|)
    {
      ShownUnder(facts, t, RelevantTo(w));
    }
  }

  lemma PageCountText()
    ensures KeyText(PageCount) == "CURRENT_PEOPLE_PAGE_COUNT"
  {
    assert "CURRENT_PEOPLE_PAGE_" + "COUNT" == "CURRENT_PEOPLE_PAGE_COUNT";
  }

  lemma AlignedText()
    ensures KeyText(Aligned) == "CURRENT_PEOPLE_PAGE_WINDOW_ALIGNED_COUNT"
  {
    assert "CURRENT_PEOPLE_PAGE_" + "WINDOW_ALIGNED_COUNT" == "CURRENT_PEOPLE_PAGE_WINDOW_ALIGNED_COUNT";
  }

  lemma MismatchText()
    ensures KeyText(Mismatched) == "CURRENT_PEOPLE_PAGE_WINDOW_MISMATCH_COUNT"
  {
    assert "CURRENT_PEOPLE_PAGE_" + "WINDOW_MISMATCH_COUNT" == "CURRENT_PEOPLE_PAGE_WINDOW_MISMATCH_COUNT";
  }

  ghost predicate CountsMatch(windows: nat, pages: nat, windowCount: Option<int>, pageCount: Option<int>) {
    && (windowCount.Some? ==> windowCount.value == windows)
    && (pageCount.Some? ==> pageCount.value == pages)
    && windows >= 1 && pages >= 1
  }

  /** Some text stands at two places. */
  ghost predicate Twice(lists: seq<seq<string>>) {
    exists w: nat, i: nat, v: nat, j: nat ::
      && w < |lists| && i < |lists[w]| && v < |lists| && j < |lists[v]|
      && (w, i) != (v, j) && lists[w][i] == lists[v][j]
  }

  lemma {:induction false} FlatHolds(lists: seq<seq<string>>, t: string)
    ensures t in Flat(lists) <==> exists w: nat :: w < |lists| && t in lists[w]
  {
    if lists != [] {
      var n := |lists| - 1;
      FlatHolds(lists[..n], t);
      if t in lists[n] {
        assert n < |lists|;
      }
      assert forall w: nat | w < n :: lists[..n][w] == lists[w];
    }
  }

  lemma TwiceMore(front: seq<seq<string>>, last: seq<string>)
    ensures Twice(front + [last]) <==>
            Twice(front) || !Distinct(last) || exists w: nat, t :: w < |front| && t in front[w] && t in last
  {
    hide Twice, Distinct;
    TwiceSomewhere(front, last);
    TwiceStill(front, last);
  }

  lemma TwiceSomewhere(front: seq<seq<string>>, last: seq<string>)
    ensures Twice(front + [last]) ==>
            Twice(front) || !Distinct(last) || exists w: nat, t :: w < |front| && t in front[w] && t in last
  {
    var lists := front + [last];
    var n := |front|;
    assert lists[n] == last && forall w: nat | w < n :: lists[w] == front[w];
    if Twice(lists) && Distinct(last) && !Twice(front) {
      var w: nat, i: nat, v: nat, j: nat :|
        && w < |lists| && i < |lists[w]| && v < |lists| && j < |lists[v]|
        && (w, i) != (v, j) && lists[w][i] == lists[v][j];
      if w == n && v < n {
        assert front[v][j] in front[v] && front[v][j] in last;
      } else if w < n && v == n {
        assert front[w][i] in front[w] && front[w][i] in last;
      }
    }
  }

  lemma TwiceStill(front: seq<seq<string>>, last: seq<string>)
    ensures Twice(front) || !Distinct(last) || (exists w: nat, t :: w < |front| && t in front[w] && t in last) ==>
            Twice(front + [last])
  {
    var lists := front + [last];
    var n := |front|;
    assert lists[n] == last && forall w: nat | w < n :: lists[w] == front[w];
    if Twice(front) {
      var w: nat, i: nat, v: nat, j: nat :|
        && w < |front| && i < |front[w]| && v < |front| && j < |front[v]|
        && (w, i) != (v, j) && front[w][i] == front[v][j];
      assert lists[w][i] == lists[v][j];
    }
    if !Distinct(last) {
      var i, j :| 0 <= i < j < |last| && last[i] == last[j];
      assert lists[n][i] == lists[n][j];
    }
    if exists w: nat, t :: w < |front| && t in front[w] && t in last {
      var w: nat, t :| w < |front| && t in front[w] && t in last;
      var i :| 0 <= i < |front[w]| && front[w][i] == t;
      var j :| 0 <= j < |last| && last[j] == t;
      assert lists[w][i] == lists[n][j];
    }
  }

  lemma DistinctConcat(a: seq<string>, b: seq<string>)
    ensures Distinct(a + b) <==> Distinct(a) && Distinct(b) && forall t | t in a :: t !in b
  {
    var all := a + b;
    assert forall i | 0 <= i < |a| :: all[i] == a[i];
    assert forall i | 0 <= i < |b| :: all[|a| + i] == b[i];
    if Distinct(all) {
      forall i, j | 0 <= i < j < |b| ensures b[i] != b[j] {
        assert all[|a| + i] != all[|a| + j];
      }
      forall i, j | 0 <= i < |a| && 0 <= j < |b| ensures a[i] != b[j] {
        assert all[i] != all[|a| + j];
      }
    }
    if Distinct(a) && Distinct(b) && forall t | t in a :: t !in b {
      forall i, j | 0 <= i < j < |all| ensures all[i] != all[j] {
        if i < |a| <= j {
          assert all[i] in a && all[j] in b;
        }
      }
    }
  }

  /** Put together, lists hold nothing twice exactly if no text stands at two places. */
  lemma {:induction false} FlatDistinct(lists: seq<seq<string>>)
    ensures Distinct(Flat(lists)) <==> !Twice(lists)
  {
    hide Distinct, Twice;
    if lists == [] {
      NothingTwice();
    } else {
      var n := |lists| - 1;
      var front, last := lists[..n], lists[n];
      FlatDistinct(front);
      DistinctConcat(Flat(front), last);
      TwiceMore(front, last);
      assert front + [last] == lists;
      forall t ensures t in Flat(front) <==> exists w: nat :: w < n && t in front[w] {
        FlatHolds(front, t);
      }
    }
  }

  lemma NothingTwice()
    ensures Distinct<string>([]) && !Twice([])
  {
  }

  /** Why a census is blocked, if it is. */
  ghost function Verdict(userCount: int, windows: seq<seq<string>>, pages: seq<seq<Person>>, active: int,
                         windowCount: Option<int>, pageCount: Option<int>): Option<string> {
    if userCount != 1 then Some("user_count")
    else if !CountsMatch(|windows|, |pages|, windowCount, pageCount) then Some("window_count")
    else if !Distinct(Flat(windows)) then Some("duplicate_task_window")
    else if !Distinct(Flat(IdPages(pages))) then Some("duplicate_person_page")
    else if |Visits(pages, |pages|)| != active then Some("people_union")
    else None
  }

  /**
    The census: blocked for the first of the listed reasons, and never by the two checks of its
    own output; otherwise the facts show totals that mean what they say.
  */
  method BuildFacts(userCount: int, windows: seq<seq<string>>, pages: seq<seq<Person>>, active: int,
                    windowCount: Option<int>, pageCount: Option<int>)
    returns (r: Census)
    ensures
      match Verdict(userCount, windows, pages, active, windowCount, pageCount)
      case Some(stage) => r == Blocked(stage)
      case None => r.Counted? && exists t: Totals :: Shows(r.facts, t) && Meaning(t, windows, pages)
    ensures userCount != 1 ==> r == Blocked("user_count")
    ensures userCount == 1 && !CountsMatch(|windows|, |pages|, windowCount, pageCount) ==> r == Blocked("window_count")
    ensures userCount == 1 && CountsMatch(|windows|, |pages|, windowCount, pageCount) ==>
      && (Twice(windows) ==> r == Blocked("duplicate_task_window"))
      && (!Twice(windows) && Twice(IdPages(pages)) ==> r == Blocked("duplicate_person_page"))
      && (!Twice(windows) && !Twice(IdPages(pages)) && |Visits(pages, |pages|)| != active ==>
           r == Blocked("people_union"))
    ensures r.Counted? <==>
      && userCount == 1 && windows != [] && pages != []
      && (windowCount.Some? ==> windowCount.value == |windows|) && (pageCount.Some? ==> pageCount.value == |pages|)
      && !Twice(windows) && !Twice(IdPages(pages)) && active == |Visits(pages, |pages|)|
    ensures r.Counted? ==>
      var table, visits := TextFacts(r.facts), Visits(pages, |pages|);
      && TellsTasks(table, windows) && TellsPeople(table, pages, visits)
      && TellsAnchors(table, visits) && TellsCategories(table, visits, windows)
      && TellsPages(table, visits, windows) && TellsWindows(table, visits, windows)
  {
    hide Distinct, Flat, Visits, Describes, Balanced, Shows, Maps, Sum, IdPages, TextFacts;
    hide TellsTasks, TellsPeople, TellsAnchors, TellsCategories, TellsPages, TellsWindows, Twice;
    FlatDistinct(windows);
    FlatDistinct(IdPages(pages));
    if userCount != 1 {
      return Blocked("user_count");
    }
    var taskWindowCount := if windowCount.None? then |windows| else windowCount.value;
    var peoplePageCount := if pageCount.None? then |pages| else pageCount.value;
    if taskWindowCount != |windows| || peoplePageCount != |pages| || taskWindowCount < 1 || peoplePageCount < 1 {
      return Blocked("window_count");
    }
    var m, tasks, known := MapTasks(windows);
    if !known {
      return Blocked("duplicate_task_window");
    }
    var counters := new Counters(|windows|);
    NobodyYet(counters.Now(), windows);
    var seen, counted := CountPeople(counters, pages, m, windows);
    if !counted {
      return Blocked("duplicate_person_page");
    }
    if |seen| != active {
      return Blocked("people_union");
    }
    ghost var visits := Visits(pages, |pages|);
    Widths(counters.Now(), visits, windows);
    CategoriesPartition(counters.Now(), visits, windows);
    assert counters.unanchored + counters.single + counters.multi + counters.incomplete + counters.unmapped == active;
    var totals := Totals(counters.Now(), tasks, |m|, active, |pages|, |seen|);
    UnionSize(windows, tasks, m);
    var facts := Assemble(totals);
    TasksTold(facts, totals, windows, pages);
    PeopleTold(facts, totals, windows, pages);
    AnchorsTold(facts, totals, windows, pages);
    CategoriesTold(facts, totals, windows, pages);
    PagesTold(facts, totals, windows, pages);
    WindowsTold(facts, totals, windows, pages);
    r := Counted(facts);
  }

  lemma {:induction false} FlatSum(windows: seq<seq<string>>, tasks: seq<nat>)
    requires |tasks| == |windows| && forall w | 0 <= w < |windows| :: tasks[w] == |windows[w]|
    ensures |Flat(windows)| == Sum(tasks)
  {
    if windows != [] {
      var n := |windows| - 1;
      FlatSum(windows[..n], tasks[..n]);
    }
  }

  /** The union of the windows has as many tasks as the map, and as the windows together. */
  lemma UnionSize(windows: seq<seq<string>>, tasks: seq<nat>, m: map<string, nat>)
    requires Maps(m, windows) && |m| == |Flat(windows)|
    requires |tasks| == |windows| && forall w | 0 <= w < |windows| :: tasks[w] == |windows[w]|
    ensures |m| == |set w: nat, i: nat | w < |windows| && i < |windows[w]| :: windows[w][i]| == Sum(tasks)
  {
    hide Flat, Sum;
    FlatSum(windows, tasks);
    var union := set w: nat, i: nat | w < |windows| && i < |windows[w]| :: windows[w][i];
    forall t ensures t in m.Keys <==> t in union {
      if t in m {
        var i :| 0 <= i < |windows[m[t]]| && windows[m[t]][i] == t;
        assert windows[m[t]][i] in union;
      }
      if t in union {
        var w: nat, i: nat :| w < |windows| && i < |windows[w]| && windows[w][i] == t;
        assert t in windows[w];
      }
    }
    assert m.Keys == union;
  }
}
