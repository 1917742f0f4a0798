/**
  Topology facts as a table of texts and numbers, and what each text stands for.
*/
module TopologyFacts {
  import opened Options
  import opened PythonText
  import opened TopologyKeys
  import opened TopologyMeaning

  /** Facts in the order they are shown. */
  type Facts = seq<(Key, nat)>

  /** Facts as a dictionary with text keys, in insertion order. */
  type Table = seq<(string, nat)>

  /** Facts under the texts of their keys. */
  function TextFacts(facts: Facts): (r: Table)
    ensures |r| == |facts|
  {
    seq(|facts|, i requires 0 <= i < |facts| => (KeyText(facts[i].0), facts[i].1))
  }

  ghost predicate DistinctKeys(facts: Table) {
    forall i, j | 0 <= i < j < |facts| :: facts[i].0 != facts[j].0
  }

  function Lookup(facts: Table, key: string): Option<nat> {
    if facts == [] then None
    else if facts[|facts| - 1].0 == key then Some(facts[|facts| - 1].1)
    else Lookup(facts[..|facts| - 1], key)
  }

  lemma {:induction false} LookupAt(facts: Table, i: nat)
    requires DistinctKeys(facts) && i < |facts|
    ensures Lookup(facts, facts[i].0) == Some(facts[i].1)
  {
    var n := |facts| - 1;
    if i < n {
      assert facts[..n][i] == facts[i];
      LookupAt(facts[..n], i);
    }
  }

  // ----- what the texts stand for -----

  ghost predicate TellsTasks(table: Table, windows: seq<seq<string>>) {
    var tasks := set w: nat, i: nat | w < |windows| && i < |windows[w]| :: windows[w][i];
    && Lookup(table, "USER_COUNT") == Some(1)
    && Lookup(table, "TASK_SEMANTIC_WINDOW_COUNT") == Some(|windows|)
    && Lookup(table, "TASK_SEMANTIC_TASK_TOTAL") == Some(|tasks|)
    && Lookup(table, "TASK_WINDOW_UNION_UNIQUE_COUNT") == Some(|tasks|)
    && Lookup(table, "TASK_IDS_DUPLICATED_ACROSS_WINDOWS") == Some(0)
    && forall w: nat | w < |windows| :: Lookup(table, "TASK_WINDOW_" + Decimal(w) + "_TASK_COUNT") == Some(|windows[w]|)
  }

  ghost predicate TellsPeople(table: Table, pages: seq<seq<Person>>, visits: set<Visit>) {
    && Lookup(table, "ACTIVE_PERSON_TOTAL") == Some(|visits|)
    && Lookup(table, "PEOPLE_ENUMERATED_UNIQUE") == Some(|visits|)
    && Lookup(table, "PEOPLE_PAGES_ENUMERATED") == Some(|pages|)
    && Lookup(table, "CURRENT_PEOPLE_PAGE_COUNT") == Some(|pages|)
    && Lookup(table, "PEOPLE_DUPLICATED_ACROSS_CURRENT_PAGES") == Some(0)
  }

  ghost predicate TellsAnchors(table: Table, visits: set<Visit>) {
    && Lookup(table, "PEOPLE_WITH_ONE_TASK_ANCHOR") == Some(|WithAnchors(visits, false)|)
    && Lookup(table, "PEOPLE_WITH_MULTIPLE_TASK_ANCHORS") == Some(|WithAnchors(visits, true)|)
  }

  ghost predicate TellsCategories(table: Table, visits: set<Visit>, windows: seq<seq<string>>) {
    && Lookup(table, "PEOPLE_UNANCHORED") == Some(|Those(visits, Category.Unanchored, windows)|)
    && Lookup(table, "PEOPLE_SINGLE_WINDOW_ANCHORED") == Some(|Those(visits, Single, windows)|)
    && Lookup(table, "PEOPLE_MULTI_WINDOW_ANCHORED") == Some(|Those(visits, Multi, windows)|)
    && Lookup(table, "PEOPLE_INCOMPLETE_ANCHORS") == Some(|Those(visits, Incomplete, windows)|)
    && Lookup(table, "PEOPLE_UNMAPPED_ANCHORS") == Some(|Those(visits, UnmappedAnchor, windows)|)
  }

  ghost predicate TellsPages(table: Table, visits: set<Visit>, windows: seq<seq<string>>) {
    && Lookup(table, "CURRENT_PEOPLE_PAGE_WINDOW_ALIGNED_COUNT") == Some(|OnPage(visits, true, windows)|)
    && Lookup(table, "CURRENT_PEOPLE_PAGE_WINDOW_MISMATCH_COUNT") == Some(|OnPage(visits, false, windows)|)
  }

  ghost predicate TellsWindows(table: Table, visits: set<Visit>, windows: seq<seq<string>>) {
    && (forall w: nat | w < |windows| ::
          Lookup(table, "PEOPLE_RELEVANT_TO_WINDOW_" + Decimal(w)) == Some(|Relevant(visits, w, windows)|))
    && Lookup(table, "PEOPLE_WINDOW_RELEVANCE_MEMBERSHIPS") == Some(|Pairings(visits, |windows|, windows)|)
    && Lookup(table, "PEOPLE_MULTI_WINDOW_MAX_SPAN").Some?
    && IsMaxSpan(visits, Lookup(table, "PEOPLE_MULTI_WINDOW_MAX_SPAN").value, windows)
  }
}
