/**
  What acceptance by the client means: exactly the tables that a consistent census prints, on lines
  that name nobody, between the fixed first and last lines.
*/
module TopologyClient {
  import opened Options
  import opened PythonText
  import opened TopologyNumbers
  import opened TopologyKeys
  import opened TopologyFacts
  import opened TopologyOutput
  import opened TopologyTheorems
  import opened TopologyCensus

  /** The number under a text, or zero. */
  function Under(table: Table, text: string): nat {
    match Lookup(table, text)
    case Some(n) => n
    case None => 0
  }

  /** Everybody is in one category. */
  predicate CategoriesAddUp(table: Table) {
    Under(table, "PEOPLE_UNANCHORED") + Under(table, "PEOPLE_SINGLE_WINDOW_ANCHORED") +
    Under(table, "PEOPLE_MULTI_WINDOW_ANCHORED") + Under(table, "PEOPLE_INCOMPLETE_ANCHORS") +
    Under(table, "PEOPLE_UNMAPPED_ANCHORS") == Under(table, "ACTIVE_PERSON_TOTAL")
  }

  /** Nobody and nothing is counted twice. */
  predicate NothingTwice(table: Table) {
    && Under(table, "PEOPLE_ENUMERATED_UNIQUE") == Under(table, "ACTIVE_PERSON_TOTAL")
    && Under(table, "PEOPLE_DUPLICATED_ACROSS_CURRENT_PAGES") == 0
    && Under(table, "TASK_IDS_DUPLICATED_ACROSS_WINDOWS") == 0
  }

  /** People of a single window are on its page or not. */
  predicate PagesAddUp(table: Table) {
    Under(table, "CURRENT_PEOPLE_PAGE_WINDOW_ALIGNED_COUNT") +
    Under(table, "CURRENT_PEOPLE_PAGE_WINDOW_MISMATCH_COUNT") == Under(table, "PEOPLE_SINGLE_WINDOW_ANCHORED")
  }

  /** The keys in their order, for some number of windows that the table itself gives, and sums that agree. */
  predicate Trustworthy(table: Table) {
    && CategoriesAddUp(table) && NothingTwice(table) && PagesAddUp(table)
    && var windows := Under(table, "TASK_SEMANTIC_WINDOW_COUNT");
       windows >= 1 && KeysOf(table) == OrderTexts(windows)
  }

  lemma SumsChecked(table: Table)
    ensures Consistent(table) <==> CategoriesAddUp(table) && NothingTwice(table) && PagesAddUp(table)
  {
    hide Lookup;
    CategoryTexts(table);
    OtherCategoryTexts(table);
    TwiceTexts(table);
    PageTextsUnder(table);
  }

  lemma CategoryTexts(table: Table)
    ensures At(table, Unanchored) == Under(table, "PEOPLE_UNANCHORED")
    ensures At(table, SingleWindow) == Under(table, "PEOPLE_SINGLE_WINDOW_ANCHORED")
    ensures At(table, MultiWindow) == Under(table, "PEOPLE_MULTI_WINDOW_ANCHORED")
  {
    hide Lookup;
  }

  lemma OtherCategoryTexts(table: Table)
    ensures At(table, IncompleteAnchors) == Under(table, "PEOPLE_INCOMPLETE_ANCHORS")
    ensures At(table, UnmappedAnchors) == Under(table, "PEOPLE_UNMAPPED_ANCHORS")
  {
    hide Lookup;
  }

  lemma TwiceTexts(table: Table)
    ensures At(table, ActiveTotal) == Under(table, "ACTIVE_PERSON_TOTAL")
    ensures At(table, PeopleUnique) == Under(table, "PEOPLE_ENUMERATED_UNIQUE")
    ensures At(table, DuplicatedPeople) == Under(table, "PEOPLE_DUPLICATED_ACROSS_CURRENT_PAGES")
    ensures At(table, DuplicatedTasks) == Under(table, "TASK_IDS_DUPLICATED_ACROSS_WINDOWS")
  {
    hide Lookup;
  }

  lemma PageTextsUnder(table: Table)
    ensures At(table, Aligned) == Under(table, "CURRENT_PEOPLE_PAGE_WINDOW_ALIGNED_COUNT")
    ensures At(table, Mismatched) == Under(table, "CURRENT_PEOPLE_PAGE_WINDOW_MISMATCH_COUNT")
  {
    hide Lookup;
    AlignedText();
    MismatchText();
  }

  /** What fact lines are accepted: those of a trustworthy table, whatever zeros its numbers begin with. */
  lemma FactLinesAccepted(lines: seq<string>, table: Table)
    ensures ParseFactLines(lines) == Accepted(table) <==> ReadAll(lines, true) == Some(table) && Trustworthy(table)
  {
    hide Lookup, ReadAll, Consistent, CategoriesAddUp, NothingTwice, PagesAddUp, KeysOf, OrderTexts;
    SumsChecked(table);
    assert KeyText(WindowCount) == "TASK_SEMANTIC_WINDOW_COUNT";
  }

  /** What lines are accepted: they name nobody, report no block, and frame the fact lines as they must. */
  lemma LinesAccepted(lines: seq<string>, table: Table)
    ensures ParseRemoteLines(lines) == Accepted(table) <==>
      && (forall i | 0 <= i < |lines| :: !Identifies(lines[i]))
      && exists facts: seq<string> ::
           && lines == ["AUDIT_MARKER=started", "AUDIT_PREFLIGHT=pass", "AUDIT_READ_ONLY=on", "PRODUCTION_SHA_OK=true",
                        "ALEMBIC_0054_OK=true"] + facts + ["PROVIDER_NETWORK_CALLS=0", "AUDIT_TERMINAL=success"]
           && ReadAll(facts, true) == Some(table) && Trustworthy(table)
  {
    hide ReadAll, Trustworthy, Identifies, ParseFactLines, ParseBlocked, SuccessPrefix, SuccessSuffix;
    Frame();
    if 7 <= |lines| && lines[..5] == SuccessPrefix() && lines[|lines| - 2..] == SuccessSuffix() {
      var facts := lines[5..|lines| - 2];
      assert lines == SuccessPrefix() + facts + SuccessSuffix();
      FactLinesAccepted(facts, table);
      NotBlocked(facts + SuccessSuffix());
      assert lines == SuccessPrefix() + (facts + SuccessSuffix());
    }
    forall facts: seq<string> | lines == SuccessPrefix() + facts + SuccessSuffix()
      ensures 7 <= |lines| && lines[..5] == SuccessPrefix() && lines[|lines| - 2..] == SuccessSuffix()
      ensures lines[5..|lines| - 2] == facts
    {
    }
  }

  lemma Frame()
    ensures SuccessPrefix() == ["AUDIT_MARKER=started", "AUDIT_PREFLIGHT=pass", "AUDIT_READ_ONLY=on",
                                "PRODUCTION_SHA_OK=true", "ALEMBIC_0054_OK=true"]
    ensures SuccessSuffix() == ["PROVIDER_NETWORK_CALLS=0", "AUDIT_TERMINAL=success"]
    ensures |SuccessPrefix()| == 5 && |SuccessSuffix()| == 2
  {
  }
}
