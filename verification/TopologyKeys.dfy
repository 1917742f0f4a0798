/**
  The keys of the topology facts, their texts, and the order they are printed in.
*/
module TopologyKeys {
  import opened PythonText

  datatype Key =
    | UserCount
    | WindowCount
    | TaskTotal
    | TaskWindow(index: nat)
    | DuplicatedTasks
    | UnionCount
    | ActiveTotal
    | PagesEnumerated
    | PeopleUnique
    | DuplicatedPeople
    | Unanchored
    | SingleWindow
    | MultiWindow
    | IncompleteAnchors
    | UnmappedAnchors
    | RelevantTo(index: nat)
    | Memberships
    | MaxSpan
    | OneAnchor
    | MultipleAnchors
    | PageCount
    | Aligned
    | Mismatched

  function KeyText(k: Key): string {
    match k
    case TaskWindow(index) => "TASK_WINDOW_" + Decimal(index) + "_TASK_COUNT"
    case RelevantTo(index) => "PEOPLE_RELEVANT_TO_WINDOW_" + Decimal(index)
    case UserCount => "USER_COUNT"
    case WindowCount => "TASK_SEMANTIC_WINDOW_COUNT"
    case TaskTotal => "TASK_SEMANTIC_TASK_TOTAL"
    case _ => if EarlyKey(k) then EarlyText(k) else LateText(k)
  }

  predicate EarlyKey(k: Key) {
    k.DuplicatedTasks? || k.UnionCount? || k.ActiveTotal? || k.PagesEnumerated? || k.PeopleUnique? ||
    k.DuplicatedPeople? || k.Unanchored? || k.SingleWindow?
  }

  function EarlyText(k: Key): string {
    match k
    case DuplicatedTasks => "TASK_IDS_DUPLICATED_ACROSS_WINDOWS"
    case UnionCount => "TASK_WINDOW_UNION_UNIQUE_COUNT"
    case ActiveTotal => "ACTIVE_PERSON_TOTAL"
    case PagesEnumerated => "PEOPLE_PAGES_ENUMERATED"
    case PeopleUnique => "PEOPLE_ENUMERATED_UNIQUE"
    case DuplicatedPeople => "PEOPLE_DUPLICATED_ACROSS_CURRENT_PAGES"
    case Unanchored => "PEOPLE_UNANCHORED"
    case _ => "PEOPLE_SINGLE_WINDOW_ANCHORED"
  }

  function LateText(k: Key): string {
    match k
    case MultiWindow => "PEOPLE_MULTI_WINDOW_ANCHORED"
    case IncompleteAnchors => "PEOPLE_INCOMPLETE_ANCHORS"
    case UnmappedAnchors => "PEOPLE_UNMAPPED_ANCHORS"
    case Memberships => "PEOPLE_WINDOW_RELEVANCE_MEMBERSHIPS"
    case MaxSpan => "PEOPLE_MULTI_WINDOW_MAX_SPAN"
    case OneAnchor => "PEOPLE_WITH_ONE_TASK_ANCHOR"
    case MultipleAnchors => "PEOPLE_WITH_MULTIPLE_TASK_ANCHORS"
    case PageCount => "CURRENT_PEOPLE_PAGE_" + "COUNT"
    case Aligned => "CURRENT_PEOPLE_PAGE_" + "WINDOW_ALIGNED_COUNT"
    case _ => "CURRENT_PEOPLE_PAGE_" + "WINDOW_MISMATCH_COUNT"
  }

  /** The keys of facts over `n` task windows, in their order. */
  function Order(n: nat): seq<Key> {
    FirstKeys() + seq(n, i requires 0 <= i => TaskWindow(i)) + MiddleKeys() +
    seq(n, i requires 0 <= i => RelevantTo(i)) + LastKeys()
  }

  function FirstKeys(): seq<Key> {
    [UserCount, WindowCount, TaskTotal]
  }

  function MiddleKeys(): seq<Key> {
    [DuplicatedTasks, UnionCount, ActiveTotal, PagesEnumerated, PeopleUnique, DuplicatedPeople, Unanchored,
     SingleWindow,
     MultiWindow, IncompleteAnchors, UnmappedAnchors]
  }

  function LastKeys(): seq<Key> {
    [Memberships, MaxSpan, OneAnchor, MultipleAnchors, PageCount, Aligned, Mismatched]
  }

  // ----- the texts tell the keys apart -----

  predicate DigitAt(s: string, i: nat) {
    i < |s| && '0' <= s[i] <= '9'
  }

  /** The kind of a key, read off its text. */
  function Kind(s: string): nat {
    if DigitAt(s, 12) then 3
    else if DigitAt(s, 26) then 15
    else if |s| == 10 then 0
    else if |s| == 17 then 10
    else if |s| == 19 then 6
    else if |s| == 23 then (if s[7] == 'P' then 7 else 14)
    else if |s| == 24 then (if s[0] == 'T' then 2 else 8)
    else if |s| == 25 then (if s[0] == 'P' then 13 else 20)
    else if |s| == 26 then 1
    else if |s| == 27 then 18
    else if |s| == 28 then (if s[20] == 'A' then 12 else 17)
    else if |s| == 29 then 11
    else if |s| == 30 then 5
    else if |s| == 33 then 19
    else if |s| == 34 then 4
    else if |s| == 35 then 16
    else if |s| == 38 then 9
    else if |s| == 40 then 21
    else 22
  }

  function KindOf(k: Key): nat {
    match k
    case UserCount => 0
    case WindowCount => 1
    case TaskTotal => 2
    case TaskWindow(_) => 3
    case DuplicatedTasks => 4
    case UnionCount => 5
    case ActiveTotal => 6
    case PagesEnumerated => 7
    case PeopleUnique => 8
    case DuplicatedPeople => 9
    case Unanchored => 10
    case SingleWindow => 11
    case MultiWindow => 12
    case IncompleteAnchors => 13
    case UnmappedAnchors => 14
    case RelevantTo(_) => 15
    case Memberships => 16
    case MaxSpan => 17
    case OneAnchor => 18
    case MultipleAnchors => 19
    case PageCount => 20
    case Aligned => 21
    case Mismatched => 22
  }

  lemma WindowTotalTexts()
    ensures Upper("USER_COUNT") && Kind("USER_COUNT") == 0
    ensures Upper("TASK_SEMANTIC_WINDOW_COUNT") && Kind("TASK_SEMANTIC_WINDOW_COUNT") == 1
    ensures Upper("TASK_SEMANTIC_TASK_TOTAL") && Kind("TASK_SEMANTIC_TASK_TOTAL") == 2
  {
  }

  lemma DuplicatedTaskTexts()
    ensures Upper("TASK_IDS_DUPLICATED_ACROSS_WINDOWS") && Kind("TASK_IDS_DUPLICATED_ACROSS_WINDOWS") == 4
  {
  }

  lemma UnionTexts()
    ensures Upper("TASK_WINDOW_UNION_UNIQUE_COUNT") && Kind("TASK_WINDOW_UNION_UNIQUE_COUNT") == 5
  {
  }

  lemma PeopleTotalTexts()
    ensures Upper("ACTIVE_PERSON_TOTAL") && Kind("ACTIVE_PERSON_TOTAL") == 6
    ensures Upper("PEOPLE_PAGES_ENUMERATED") && Kind("PEOPLE_PAGES_ENUMERATED") == 7
    ensures Upper("PEOPLE_ENUMERATED_UNIQUE") && Kind("PEOPLE_ENUMERATED_UNIQUE") == 8
  {
  }

  lemma DuplicateTexts()
    ensures Upper("PEOPLE_DUPLICATED_ACROSS_CURRENT_PAGES") && Kind("PEOPLE_DUPLICATED_ACROSS_CURRENT_PAGES") == 9
    ensures Upper("PEOPLE_UNANCHORED") && Kind("PEOPLE_UNANCHORED") == 10
  {
  }

  lemma AnchoredTexts()
    ensures Upper("PEOPLE_SINGLE_WINDOW_ANCHORED") && Kind("PEOPLE_SINGLE_WINDOW_ANCHORED") == 11
    ensures Upper("PEOPLE_MULTI_WINDOW_ANCHORED") && Kind("PEOPLE_MULTI_WINDOW_ANCHORED") == 12
  {
  }

  lemma UnmappedTexts()
    ensures Upper("PEOPLE_INCOMPLETE_ANCHORS") && Kind("PEOPLE_INCOMPLETE_ANCHORS") == 13
    ensures Upper("PEOPLE_UNMAPPED_ANCHORS") && Kind("PEOPLE_UNMAPPED_ANCHORS") == 14
  {
  }

  lemma MembershipTexts()
    ensures Upper("PEOPLE_WINDOW_RELEVANCE_MEMBERSHIPS") && Kind("PEOPLE_WINDOW_RELEVANCE_MEMBERSHIPS") == 16
    ensures Upper("PEOPLE_MULTI_WINDOW_MAX_SPAN") && Kind("PEOPLE_MULTI_WINDOW_MAX_SPAN") == 17
  {
  }

  lemma AnchorCountTexts()
    ensures Upper("PEOPLE_WITH_ONE_TASK_ANCHOR") && Kind("PEOPLE_WITH_ONE_TASK_ANCHOR") == 18
    ensures Upper("PEOPLE_WITH_MULTIPLE_TASK_ANCHORS") && Kind("PEOPLE_WITH_MULTIPLE_TASK_ANCHORS") == 19
  {
  }

  lemma PageTexts()
    ensures Upper("CURRENT_PEOPLE_PAGE_" + "COUNT") && Kind("CURRENT_PEOPLE_PAGE_" + "COUNT") == 20
    ensures Upper("CURRENT_PEOPLE_PAGE_" + "WINDOW_ALIGNED_COUNT") &&
            Upper("CURRENT_PEOPLE_PAGE_" + "WINDOW_MISMATCH_COUNT")
    ensures Kind("CURRENT_PEOPLE_PAGE_" + "WINDOW_ALIGNED_COUNT") == 21
    ensures Kind("CURRENT_PEOPLE_PAGE_" + "WINDOW_MISMATCH_COUNT") == 22
  {
    PageParts();
    PageKinds("COUNT");
    PageKinds("WINDOW_ALIGNED_COUNT");
    PageKinds("WINDOW_MISMATCH_COUNT");
  }

  lemma PageParts()
    ensures Upper("CURRENT_PEOPLE_PAGE_") && Upper("COUNT")
    ensures Upper("WINDOW_ALIGNED_COUNT") && Upper("WINDOW_MISMATCH_COUNT")
    ensures "CURRENT_PEOPLE_PAGE_"[12] == 'L' && "CURRENT_PEOPLE_PAGE_"[0] == 'C' && "CURRENT_PEOPLE_PAGE_"[7] == '_'
    ensures "WINDOW_ALIGNED_COUNT"[6] == '_' && "WINDOW_MISMATCH_COUNT"[6] == '_'
  {
  }

  lemma PageKinds(rest: string)
    requires Upper(rest) && (|rest| == 5 || (|rest| > 6 && rest[6] == '_'))
    requires |rest| == 5 || |rest| == 20 || |rest| == 21
    ensures Upper("CURRENT_PEOPLE_PAGE_" + rest)
    ensures Kind("CURRENT_PEOPLE_PAGE_" + rest) == (if |rest| == 5 then 20 else if |rest| == 20 then 21 else 22)
  {
    PageParts();
    var prefix := "CURRENT_PEOPLE_PAGE_";
    var text := prefix + rest;
    assert text[12] == prefix[12] && text[0] == prefix[0];
    assert |rest| > 6 ==> text[26] == rest[6];
  }

  lemma DecimalDigits(n: nat)
    ensures Decimal(n) != [] && Upper(Decimal(n)) && '0' <= Decimal(n)[0] <= '9'
  {
  }

  lemma WindowText(index: nat)
    ensures Upper(KeyText(TaskWindow(index))) && Kind(KeyText(TaskWindow(index))) == 3
  {
    DecimalDigits(index);
    assert Upper("TASK_WINDOW_") && Upper("_TASK_COUNT");
    assert KeyText(TaskWindow(index))[12] == Decimal(index)[0];
  }

  lemma RelevanceText(index: nat)
    ensures Upper(KeyText(RelevantTo(index))) && Kind(KeyText(RelevantTo(index))) == 15
  {
    DecimalDigits(index);
    var prefix := "PEOPLE_RELEVANT_TO_WINDOW_";
    assert Upper(prefix) && prefix[12] == 'A';
    var text := KeyText(RelevantTo(index));
    assert text[12] == prefix[12] && text[26] == Decimal(index)[0];
  }

  lemma EarlyKind(k: Key)
    requires EarlyKey(k)
    ensures Upper(EarlyText(k)) && Kind(EarlyText(k)) == KindOf(k)
  {
    hide Upper, Kind;
    DuplicatedTaskTexts(); UnionTexts(); PeopleTotalTexts(); DuplicateTexts(); AnchoredTexts();
  }

  lemma LateKind(k: Key)
    requires KindOf(k) > 11 && !k.RelevantTo?
    ensures Upper(LateText(k)) && Kind(LateText(k)) == KindOf(k)
  {
    hide Upper, Kind;
    AnchoredTexts(); UnmappedTexts(); MembershipTexts(); AnchorCountTexts(); PageTexts();
  }
  lemma KeyKind(k: Key)
    ensures Upper(KeyText(k)) && Kind(KeyText(k)) == KindOf(k)
  {
    hide Upper, Kind, Decimal, EarlyText, LateText;
    match k {
      case TaskWindow(index) => WindowText(index);
      case RelevantTo(index) => RelevanceText(index);
      case _ =>
        if EarlyKey(k) {
          EarlyKind(k);
        } else if KindOf(k) > 3 {
          LateKind(k);
        } else {
          WindowTotalTexts();
        }
    }
  }

  /** Different keys have different texts. */
  lemma KeyTextInjective(a: Key, b: Key)
    requires KeyText(a) == KeyText(b)
    ensures a == b
  {
    hide Upper, Kind, Decimal;
    KeyKind(a);
    KeyKind(b);
    if a.TaskWindow? {
      SameWindow(a.index, b.index);
    } else if a.RelevantTo? {
      SameRelevance(a.index, b.index);
    }
  }

  lemma SameWindow(a: nat, b: nat)
    requires KeyText(TaskWindow(a)) == KeyText(TaskWindow(b))
    ensures a == b
  {
    hide Decimal;
    var s, t := KeyText(TaskWindow(a)), KeyText(TaskWindow(b));
    assert s[12..|s| - 11] == Decimal(a) && t[12..|t| - 11] == Decimal(b);
    DecimalInjective(a, b);
  }

  lemma SameRelevance(a: nat, b: nat)
    requires KeyText(RelevantTo(a)) == KeyText(RelevantTo(b))
    ensures a == b
  {
    hide Decimal;
    assert KeyText(RelevantTo(a))[26..] == Decimal(a) && KeyText(RelevantTo(b))[26..] == Decimal(b);
    DecimalInjective(a, b);
  }

  /** Where a key stands in the order. */
  function Position(n: nat, k: Key): int {
    match k
    case TaskWindow(index) => 3 + index
    case RelevantTo(index) => 14 + n + index
    case _ => KindOf(k) + (if KindOf(k) < 3 then 0 else if KindOf(k) < 15 then n - 1 else 2 * n - 2)
  }

  lemma Lengths()
    ensures |MiddleKeys()| == 11 && |LastKeys()| == 7
  {
  }

  lemma BeforePosition()
    ensures KindOf(UserCount) == 0 && KindOf(WindowCount) == 1 && KindOf(TaskTotal) == 2
  {
  }

  lemma BetweenPosition(j: nat)
    requires j < |MiddleKeys()|
    ensures KindOf(MiddleKeys()[j]) == 4 + j && !MiddleKeys()[j].TaskWindow? && !MiddleKeys()[j].RelevantTo?
  {
  }

  lemma AfterPosition(j: nat)
    requires j < |LastKeys()|
    ensures KindOf(LastKeys()[j]) == 16 + j && !LastKeys()[j].TaskWindow? && !LastKeys()[j].RelevantTo?
  {
  }

  lemma OrderPosition(n: nat, i: nat)
    requires i < |Order(n)|
    ensures Position(n, Order(n)[i]) == i
  {
    hide MiddleKeys, LastKeys, KindOf;
    BeforePosition();
    assert |MiddleKeys()| == 11 && |LastKeys()| == 7 by {
      Lengths();
    }
    if i < 3 {
    } else if i < 3 + n {
      assert Order(n)[i] == TaskWindow(i - 3);
    } else if i < 14 + n {
      assert Order(n)[i] == MiddleKeys()[i - 3 - n];
      BetweenPosition(i - 3 - n);
    } else if i < 14 + 2 * n {
      assert Order(n)[i] == RelevantTo(i - 14 - n);
    } else {
      assert Order(n)[i] == LastKeys()[i - 14 - 2 * n];
      AfterPosition(i - 14 - 2 * n);
    }
  }

  /** Every key, and every window key of a window there is, stands in the order. */
  lemma KeyInOrder(n: nat, k: Key)
    requires k.TaskWindow? || k.RelevantTo? ==> k.index < n
    ensures k in Order(n)
  {
    var kind := KindOf(k);
    if k.TaskWindow? {
      assert Order(n)[3 + k.index] == k;
    } else if k.RelevantTo? {
      assert Order(n)[14 + n + k.index] == k;
    } else if kind < 3 {
      assert Order(n)[kind] == k;
    } else if kind < 15 {
      assert MiddleKeys()[kind - 4] == k;
      assert Order(n)[kind - 1 + n] == k;
    } else {
      assert LastKeys()[kind - 16] == k;
      assert Order(n)[kind - 2 + 2 * n] == k;
    }
  }

  /** The generated keys are pairwise distinct, for any number of windows. */
  lemma OrderDistinct(n: nat, i: nat, j: nat)
    requires i < j < |Order(n)|
    ensures Order(n)[i] != Order(n)[j] && KeyText(Order(n)[i]) != KeyText(Order(n)[j])
  {
    hide KeyText;
    OrderPosition(n, i);
    OrderPosition(n, j);
    if KeyText(Order(n)[i]) == KeyText(Order(n)[j]) {
      KeyTextInjective(Order(n)[i], Order(n)[j]);
    }
  }
}
