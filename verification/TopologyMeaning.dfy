/**
  What the topology facts mean: sets of tasks, windows and people.
*/
module TopologyMeaning {

  datatype Person = Person(id: string, anchors: seq<string>, complete: bool)

  /** A person on a page. */
  datatype Visit = Visit(page: nat, person: Person)

  /** All task ids, window after window. */
  function Flat(windows: seq<seq<string>>): seq<string> {
    if windows == [] then [] else Flat(windows[..|windows| - 1]) + windows[|windows| - 1]
  }

  /** The windows that hold one of the tasks. */
  ghost function WindowsOf(anchors: seq<string>, windows: seq<seq<string>>): set<nat> {
    set w: nat | w < |windows| && exists t | t in anchors :: t in windows[w]
  }

  /** Some task is in no window. */
  ghost predicate Unmapped(anchors: seq<string>, windows: seq<seq<string>>) {
    exists t | t in anchors :: forall w | 0 <= w < |windows| :: t !in windows[w]
  }

  datatype Category = Unanchored | Single | Multi | Incomplete | UnmappedAnchor

  ghost function CategoryOf(p: Person, windows: seq<seq<string>>): Category {
    if !p.complete then Incomplete
    else if p.anchors == [] then Unanchored
    else if Unmapped(p.anchors, windows) then UnmappedAnchor
    else if |WindowsOf(p.anchors, windows)| >= 2 then Multi
    else Single
  }

  /** The people on the first `n` pages. */
  ghost function Visits(pages: seq<seq<Person>>, n: nat): set<Visit>
    requires n <= |pages|
  {
    set k: nat, i: nat | k < n && i < |pages[k]| :: Visit(k, pages[k][i])
  }

  ghost function Those(visits: set<Visit>, c: Category, windows: seq<seq<string>>): set<Visit> {
    set v | v in visits && CategoryOf(v.person, windows) == c
  }

  ghost function Relevant(visits: set<Visit>, w: nat, windows: seq<seq<string>>): set<Visit> {
    set v | v in visits && v.person.complete && w in WindowsOf(v.person.anchors, windows)
  }

  /** The people and the windows they have to do with, of the first `n` windows. */
  ghost function Pairings(visits: set<Visit>, n: nat, windows: seq<seq<string>>): set<(Visit, nat)> {
    set v: Visit, w: nat | v in visits && w < n && v.person.complete && w in WindowsOf(v.person.anchors, windows) ::
      (v, w)
  }

  ghost function WithAnchors(visits: set<Visit>, many: bool): set<Visit> {
    set v | v in visits && v.person.complete && (if many then |v.person.anchors| > 1 else |v.person.anchors| == 1)
  }

  /** People of a single window whose page has the number of that window, or has not. */
  ghost function OnPage(visits: set<Visit>, aligned: bool, windows: seq<seq<string>>): set<Visit> {
    set v | v in visits && CategoryOf(v.person, windows) == Single &&
            (WindowsOf(v.person.anchors, windows) == {v.page}) == aligned
  }

  ghost function Complete(visits: set<Visit>): set<Visit> {
    set v | v in visits && v.person.complete
  }

  ghost predicate IsMaxSpan(visits: set<Visit>, span: nat, windows: seq<seq<string>>) {
    && (forall v | v in visits && v.person.complete :: |WindowsOf(v.person.anchors, windows)| <= span)
    && (span > 0 ==>
         exists v :: v in visits && v.person.complete && |WindowsOf(v.person.anchors, windows)| == span)
  }

  /** The counters of the census. */
  datatype Counts = Counts(
    unanchored: nat, single: nat, multi: nat, incomplete: nat, unmapped: nat,
    relevance: seq<nat>, maxSpan: nat, oneAnchor: nat, multipleAnchors: nat, aligned: nat, mismatched: nat)

  function Sum(s: seq<nat>): nat {
    if s == [] then 0 else Sum(s[..|s| - 1]) + s[|s| - 1]
  }

  /** The counters say what the people visited are. */
  ghost predicate Describes(c: Counts, visits: set<Visit>, windows: seq<seq<string>>) {
    && c.unanchored == |Those(visits, Unanchored, windows)|
    && c.single == |Those(visits, Single, windows)|
    && c.multi == |Those(visits, Multi, windows)|
    && c.incomplete == |Those(visits, Incomplete, windows)|
    && c.unmapped == |Those(visits, UnmappedAnchor, windows)|
    && |c.relevance| == |windows|
    && (forall w | 0 <= w < |windows| :: c.relevance[w] == |Relevant(visits, w, windows)|)
    && IsMaxSpan(visits, c.maxSpan, windows)
    && c.oneAnchor == |WithAnchors(visits, false)| && c.multipleAnchors == |WithAnchors(visits, true)|
    && c.aligned == |OnPage(visits, true, windows)| && c.mismatched == |OnPage(visits, false, windows)|
  }

  /** The memberships are bounded by the categories and the largest span. */
  ghost predicate Balanced(c: Counts, visits: set<Visit>) {
    c.single + 2 * c.multi <= Sum(c.relevance) <= c.maxSpan * |Complete(visits)|
  }

  // ----- one more person -----

  lemma ThoseGrow(visits: set<Visit>, v: Visit, c: Category, windows: seq<seq<string>>)
    requires v !in visits
    ensures |Those(visits + {v}, c, windows)| ==
            |Those(visits, c, windows)| + (if CategoryOf(v.person, windows) == c then 1 else 0)
  {
    hide CategoryOf;
    assert Those(visits + {v}, c, windows) ==
           Those(visits, c, windows) + (if CategoryOf(v.person, windows) == c then {v} else {});
  }

  lemma RelevantGrows(visits: set<Visit>, v: Visit, w: nat, windows: seq<seq<string>>)
    requires v !in visits
    ensures |Relevant(visits + {v}, w, windows)| ==
            |Relevant(visits, w, windows)| +
            (if v.person.complete && w in WindowsOf(v.person.anchors, windows) then 1 else 0)
  {
    hide WindowsOf;
    assert Relevant(visits + {v}, w, windows) ==
           Relevant(visits, w, windows) +
           (if v.person.complete && w in WindowsOf(v.person.anchors, windows) then {v} else {});
  }

  lemma AnchoredGrow(visits: set<Visit>, v: Visit, many: bool)
    requires v !in visits
    ensures |WithAnchors(visits + {v}, many)| == |WithAnchors(visits, many)| +
      (if v.person.complete && (if many then |v.person.anchors| > 1 else |v.person.anchors| == 1) then 1 else 0)
  {
    assert WithAnchors(visits + {v}, many) == WithAnchors(visits, many) +
      (if v.person.complete && (if many then |v.person.anchors| > 1 else |v.person.anchors| == 1) then {v} else {});
  }

  lemma OnPageGrow(visits: set<Visit>, v: Visit, aligned: bool, windows: seq<seq<string>>)
    requires v !in visits
    ensures |OnPage(visits + {v}, aligned, windows)| == |OnPage(visits, aligned, windows)| +
      (if CategoryOf(v.person, windows) == Single && (WindowsOf(v.person.anchors, windows) == {v.page}) == aligned
       then 1 else 0)
  {
    hide CategoryOf, WindowsOf;
    assert OnPage(visits + {v}, aligned, windows) == OnPage(visits, aligned, windows) +
      (if CategoryOf(v.person, windows) == Single && (WindowsOf(v.person.anchors, windows) == {v.page}) == aligned
       then {v} else {});
  }

  lemma CompleteGrows(visits: set<Visit>, v: Visit)
    requires v !in visits
    ensures |Complete(visits + {v})| == |Complete(visits)| + (if v.person.complete then 1 else 0)
  {
    assert Complete(visits + {v}) == Complete(visits) + (if v.person.complete then {v} else {});
  }

  lemma SpanGrows(visits: set<Visit>, v: Visit, span: nat, windows: seq<seq<string>>)
    requires IsMaxSpan(visits, span, windows)
    ensures
      var own := |WindowsOf(v.person.anchors, windows)|;
      IsMaxSpan(visits + {v}, if v.person.complete && own > span then own else span, windows)
  {
    hide WindowsOf;
    var own := |WindowsOf(v.person.anchors, windows)|;
    if span > 0 {
      var u :| u in visits && u.person.complete && |WindowsOf(u.person.anchors, windows)| == span;
      assert u in visits + {v};
    }
    assert v in visits + {v};
  }

  /** The counters after one more person. */
  ghost function After(c: Counts, v: Visit, windows: seq<seq<string>>): Counts
    requires |c.relevance| == |windows|
  {
    var category := CategoryOf(v.person, windows);
    var spanned := WindowsOf(v.person.anchors, windows);
    if category == Incomplete then c.(incomplete := c.incomplete + 1)
    else Counts(
      c.unanchored + (if category == Unanchored then 1 else 0),
      c.single + (if category == Single then 1 else 0),
      c.multi + (if category == Multi then 1 else 0),
      c.incomplete,
      c.unmapped + (if category == UnmappedAnchor then 1 else 0),
      Raised(c.relevance, spanned),
      if |spanned| > c.maxSpan then |spanned| else c.maxSpan,
      c.oneAnchor + (if |v.person.anchors| == 1 then 1 else 0),
      c.multipleAnchors + (if |v.person.anchors| > 1 then 1 else 0),
      c.aligned + (if category == Single && spanned == {v.page} then 1 else 0),
      c.mismatched + (if category == Single && spanned != {v.page} then 1 else 0))
  }

  /** One more at every position of a set. */
  function Raised(s: seq<nat>, at: set<nat>): (r: seq<nat>)
    ensures |r| == |s|
  {
    seq(|s|, i requires 0 <= i < |s| => s[i] + (if i in at then 1 else 0))
  }

  lemma AfterDescribes(c: Counts, visits: set<Visit>, v: Visit, windows: seq<seq<string>>)
    requires Describes(c, visits, windows) && v !in visits
    ensures Describes(After(c, v, windows), visits + {v}, windows)
  {
    hide Those, Relevant, WithAnchors, OnPage, Complete, IsMaxSpan, WindowsOf, Unmapped;
    ThoseGrow(visits, v, Unanchored, windows);
    ThoseGrow(visits, v, Single, windows);
    ThoseGrow(visits, v, Multi, windows);
    ThoseGrow(visits, v, Incomplete, windows);
    ThoseGrow(visits, v, UnmappedAnchor, windows);
    AnchoredGrow(visits, v, false);
    AnchoredGrow(visits, v, true);
    OnPageGrow(visits, v, false, windows);
    OnPageGrow(visits, v, true, windows);
    SpanGrows(visits, v, c.maxSpan, windows);
    forall w: nat | w < |windows| ensures After(c, v, windows).relevance[w] == |Relevant(visits + {v}, w, windows)| {
      RelevantGrows(visits, v, w, windows);
    }
  }

  lemma RaisedFront(s: seq<nat>, at: set<nat>, last: nat)
    requires |s| == last + 1
    ensures Raised(s, at)[..last] == Raised(s[..last], at - {last})
    ensures Raised(s, at)[last] == s[last] + |at| - |at - {last}|
  {
    assert last in at ==> at == at - {last} + {last};
    assert last !in at ==> at == at - {last};
  }

  lemma {:induction false} SumRaised(s: seq<nat>, at: set<nat>)
    requires forall w | w in at :: w < |s|
    ensures Sum(Raised(s, at)) == Sum(s) + |at|
  {
    hide Raised;
    if s == [] {
      assert at == {};
    } else {
      var last := |s| - 1;
      RaisedFront(s, at, last);
      SumRaised(s[..last], at - {last});
    }
  }

  lemma AfterBalanced(c: Counts, visits: set<Visit>, v: Visit, windows: seq<seq<string>>)
    requires |c.relevance| == |windows| && Balanced(c, visits) && v !in visits
    ensures Balanced(After(c, v, windows), visits + {v})
  {
    hide Complete, Unmapped;
    CompleteGrows(visits, v);
    var d := After(c, v, windows);
    var spanned := WindowsOf(v.person.anchors, windows);
    if v.person.complete {
      SumRaised(c.relevance, spanned);
      assert d.maxSpan * (|Complete(visits)| + 1) == d.maxSpan * |Complete(visits)| + d.maxSpan;
      MoreIsMore(c.maxSpan, d.maxSpan, |Complete(visits)|);
      if CategoryOf(v.person, windows) == Single {
        MappedSpans(v.person.anchors, windows);
      }
    }
  }

  lemma MoreIsMore(a: nat, b: nat, n: nat)
    requires a <= b
    ensures a * n <= b * n
  {
  }

  /** Someone whose tasks are all in windows spans at least one. */
  lemma MappedSpans(anchors: seq<string>, windows: seq<seq<string>>)
    requires anchors != [] && !Unmapped(anchors, windows)
    ensures |WindowsOf(anchors, windows)| >= 1
  {
    var t := anchors[0];
    assert t in anchors;
    assert !(forall w | 0 <= w < |windows| :: t !in windows[w]);
    var w: nat :| w < |windows| && t in windows[w];
    assert w in WindowsOf(anchors, windows);
  }

  // ----- everybody -----

  lemma NobodyYet(c: Counts, windows: seq<seq<string>>)
    requires c == Counts(0, 0, 0, 0, 0, seq(|windows|, i => 0), 0, 0, 0, 0, 0)
    ensures Describes(c, {}, windows) && Balanced(c, {})
  {
    assert forall k :: Those({}, k, windows) == {};
    assert forall w: nat :: Relevant({}, w, windows) == {};
    assert WithAnchors({}, false) == WithAnchors({}, true) == {};
    assert OnPage({}, false, windows) == OnPage({}, true, windows) == {};
    Zeros(|windows|);
  }

  lemma {:induction false} Zeros(n: nat)
    ensures Sum(seq(n, i => 0)) == 0
  {
    if n > 0 {
      var s: seq<nat> := seq(n, i => 0);
      assert s[..n - 1] == seq(n - 1, i => 0);
      Zeros(n - 1);
    }
  }

  lemma DisjointSum(a: set<Visit>, b: set<Visit>)
    requires a !! b
    ensures |a + b| == |a| + |b|
  {
  }

  lemma ThoseApart(visits: set<Visit>, c: Category, d: Category, windows: seq<seq<string>>)
    requires c != d
    ensures Those(visits, c, windows) !! Those(visits, d, windows)
  {
  }

  lemma EverybodyPlaced(visits: set<Visit>, windows: seq<seq<string>>)
    ensures visits == Those(visits, Unanchored, windows) + Those(visits, Single, windows) +
            Those(visits, Multi, windows) +
                      Those(visits, Incomplete, windows) + Those(visits, UnmappedAnchor, windows)
    ensures Those(visits, Single, windows) == OnPage(visits, true, windows) + OnPage(visits, false, windows)
    ensures OnPage(visits, true, windows) !! OnPage(visits, false, windows)
  {
    hide CategoryOf, WindowsOf;
  }

  lemma IncompleteOrNot(visits: set<Visit>, windows: seq<seq<string>>)
    ensures visits == Complete(visits) + Those(visits, Incomplete, windows)
    ensures Complete(visits) !! Those(visits, Incomplete, windows)
  {
    hide WindowsOf, Unmapped;
  }

  /** Each person falls in exactly one category, and single-window people are aligned or not. */
  lemma CategoriesPartition(c: Counts, visits: set<Visit>, windows: seq<seq<string>>)
    requires Describes(c, visits, windows)
    ensures c.unanchored + c.single + c.multi + c.incomplete + c.unmapped == |visits|
    ensures c.aligned + c.mismatched == c.single
    ensures |Complete(visits)| == |visits| - c.incomplete
  {
    hide Those, CategoryOf, WindowsOf, IsMaxSpan, Relevant, WithAnchors, OnPage, Complete;
    var a, b, d, e, f := Those(visits, Unanchored, windows), Those(visits, Single, windows),
                         Those(visits, Multi, windows), Those(visits, Incomplete, windows),
                         Those(visits, UnmappedAnchor, windows);
    EverybodyPlaced(visits, windows);
    ThoseApart(visits, Unanchored, Single, windows);
    DisjointSum(a, b);
    ThoseApart(visits, Unanchored, Multi, windows);
    ThoseApart(visits, Single, Multi, windows);
    DisjointSum(a + b, d);
    ThoseApart(visits, Unanchored, Incomplete, windows);
    ThoseApart(visits, Single, Incomplete, windows);
    ThoseApart(visits, Multi, Incomplete, windows);
    DisjointSum(a + b + d, e);
    ThoseApart(visits, Unanchored, UnmappedAnchor, windows);
    ThoseApart(visits, Single, UnmappedAnchor, windows);
    ThoseApart(visits, Multi, UnmappedAnchor, windows);
    ThoseApart(visits, Incomplete, UnmappedAnchor, windows);
    DisjointSum(a + b + d + e, f);
    DisjointSum(OnPage(visits, true, windows), OnPage(visits, false, windows));
    IncompleteOrNot(visits, windows);
    DisjointSum(Complete(visits), e);
  }

  /** Adding up the windows one by one counts the memberships. */
  lemma {:induction false} MembershipSum(relevance: seq<nat>, visits: set<Visit>, windows: seq<seq<string>>)
    requires forall w | 0 <= w < |relevance| :: relevance[w] == |Relevant(visits, w, windows)|
    ensures Sum(relevance) == |Pairings(visits, |relevance|, windows)|
  {
    hide WindowsOf, Relevant;
    if relevance == [] {
      assert Pairings(visits, 0, windows) == {};
    } else {
      var n := |relevance| - 1;
      MembershipSum(relevance[..n], visits, windows);
      OneWindowMore(visits, n, windows);
    }
  }

  lemma OneWindowMore(visits: set<Visit>, n: nat, windows: seq<seq<string>>)
    ensures |Pairings(visits, n + 1, windows)| == |Pairings(visits, n, windows)| + |Relevant(visits, n, windows)|
  {
    hide WindowsOf;
    var relevant := Relevant(visits, n, windows);
    var pairs := set v | v in relevant :: (v, n);
    PairsOf(relevant, n);
    assert Pairings(visits, n + 1, windows) == Pairings(visits, n, windows) + pairs;
    assert Pairings(visits, n, windows) !! pairs;
  }

  lemma {:induction false} PairsOf(visits: set<Visit>, n: nat)
    ensures |set v | v in visits :: (v, n)| == |visits|
  {
    if visits != {} {
      var u :| u in visits;
      var rest := visits - {u};
      PairsOf(rest, n);
      assert (set v | v in visits :: (v, n)) == (set v | v in rest :: (v, n)) + {(u, n)};
    }
  }
}
