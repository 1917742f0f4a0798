/**
  The sanitizer of audit payloads: bounded values without secrets, and how far a second pass
  changes what a first one left.
*/
module AuditSanitizer {

  /** What metadata is made of; `Other` is any further object, by its text. */
  datatype Value =
    | Null
    | Bool(b: bool)
    | Int(i: int)
    | Float(x: real)
    | Str(s: string)
    | Bytes(size: nat)
    | Dict(entries: map<string, Value>)
    | List(items: seq<Value>)
    | Other(text: string)

  const MAX_DEPTH: nat := 12
  const MAX_TEXT: nat := 32000
  const MAX_ITEMS: nat := 200

  /** Outside knowledge: which keys name secrets, and the lower case of a character. */
  datatype Rules = Rules(secret: string -> bool, lower: char -> string)

  function Lowered(s: string, lower: char -> string): string {
    if s == [] then [] else Lowered(s[..|s| - 1], lower) + lower(s[|s| - 1])
  }

  function Markers(): seq<string> {
    ["sk-", "bearer ", "authorization:"]
  }

  predicate OccursAt(s: string, part: string, at: nat) {
    at + |part| <= |s| && forall i | 0 <= i < |part| :: s[at + i] == part[i]
  }

  predicate Contains(s: string, part: string) {
    exists at | 0 <= at <= |s| :: OccursAt(s, part, at)
  }

  predicate LooksSensitive(s: string, lower: char -> string) {
    exists m | m in Markers() :: Contains(Lowered(s, lower), m)
  }

  const REDACTED: string := "[redacted]"
  const TRUNCATED: string := "[truncated-depth]"

  function SanitizeText(s: string, rules: Rules): string {
    if LooksSensitive(s, rules.lower) then REDACTED
    else if |s| > MAX_TEXT then s[..MAX_TEXT] + "\U{2026}"
    else s
  }

  function Sanitize(v: Value, depth: nat, rules: Rules): Value
    decreases MAX_DEPTH + 1 - depth
  {
    if depth > MAX_DEPTH then Str(TRUNCATED)
    else
      match v
      case Null => v
      case Bool(_) => v
      case Int(_) => v
      case Float(_) => v
      case Str(s) => Str(SanitizeText(s, rules))
      case Bytes(size) => Dict(map["byte_size" := Int(size)])
      case Dict(entries) =>
        Dict(map key | key in entries ::
               if rules.secret(key) then Str(REDACTED) else Sanitize(entries[key], depth + 1, rules))
      case List(items) =>
        List(seq(if |items| > MAX_ITEMS then MAX_ITEMS else |items|,
                 i requires 0 <= i < |items| => Sanitize(items[i], depth + 1, rules)))
      case Other(text) => Sanitize(Str(text), depth + 1, rules)
  }

  // ----- bounds -----

  /** No deeper than `n`, no list over 200 items, no text over 32001 characters, no bytes and no other objects. */
  ghost predicate Bounded(v: Value, n: nat)
    decreases n
  {
    match v
    case Str(s) => |s| <= MAX_TEXT + 1
    case Bytes(_) => false
    case Other(_) => false
    case Dict(entries) => n > 0 && forall key | key in entries :: Bounded(entries[key], n - 1)
    case List(items) => n > 0 && |items| <= MAX_ITEMS && forall i | 0 <= i < |items| :: Bounded(items[i], n - 1)
    case _ => true
  }

  lemma {:induction false} BoundedMore(v: Value, n: nat)
    requires Bounded(v, n)
    ensures Bounded(v, n + 1)
    decreases n
  {
    if v.Dict? {
      forall key | key in v.entries ensures Bounded(v.entries[key], n) {
        BoundedMore(v.entries[key], n - 1);
      }
    } else if v.List? {
      forall i | 0 <= i < |v.items| ensures Bounded(v.items[i], n) {
        BoundedMore(v.items[i], n - 1);
      }
    }
  }

  function Room(depth: nat): nat {
    if depth > MAX_DEPTH then 0 else MAX_DEPTH + 1 - depth
  }

  /** Sanitized values are bounded: at most thirteen levels from the top. */
  lemma {:induction false} SanitizedBounded(v: Value, depth: nat, rules: Rules)
    ensures Bounded(Sanitize(v, depth, rules), Room(depth))
    decreases MAX_DEPTH + 1 - depth
  {
    hide SanitizeText;
    if depth <= MAX_DEPTH {
      match v {
        case Str(s) => TextBounded(s, rules);
        case Dict(entries) => DictBounded(entries, depth, rules);
        case List(items) => ListBounded(items, depth, rules);
        case Other(text) =>
          SanitizedBounded(Str(text), depth + 1, rules);
          if depth < MAX_DEPTH {
            BoundedMore(Sanitize(Str(text), depth + 1, rules), Room(depth + 1));
          }
        case _ =>
      }
    }
  }

  lemma TextBounded(s: string, rules: Rules)
    ensures |SanitizeText(s, rules)| <= MAX_TEXT + 1
  {
    hide LooksSensitive;
  }

  lemma DictBounded(entries: map<string, Value>, depth: nat, rules: Rules)
    requires depth <= MAX_DEPTH
    ensures Bounded(Sanitize(Dict(entries), depth, rules), Room(depth))
    decreases MAX_DEPTH + 1 - depth, 0
  {
    hide SanitizeText;
    var r := Sanitize(Dict(entries), depth, rules);
    forall key | key in r.entries ensures Bounded(r.entries[key], Room(depth) - 1) {
      if !rules.secret(key) {
        SanitizedBounded(entries[key], depth + 1, rules);
      }
    }
  }

  lemma ListBounded(items: seq<Value>, depth: nat, rules: Rules)
    requires depth <= MAX_DEPTH
    ensures Bounded(Sanitize(List(items), depth, rules), Room(depth))
    decreases MAX_DEPTH + 1 - depth, 0
  {
    hide SanitizeText;
    var r := Sanitize(List(items), depth, rules);
    forall i | 0 <= i < |r.items| ensures Bounded(r.items[i], Room(depth) - 1) {
      SanitizedBounded(items[i], depth + 1, rules);
    }
  }

  // ----- secrets -----

  /** Lower case is what it is for the characters of the sanitizer's own texts. */
  ghost predicate Sane(rules: Rules) {
    && (forall c: char | 'a' <= c <= 'z' || c == '[' || c == ']' || c == '-' :: rules.lower(c) == [c])
    && rules.lower('\U{2026}') == "\U{2026}"
    && !rules.secret("byte_size")
  }

  lemma {:induction false} LoweredSelf(s: string, lower: char -> string)
    requires forall i | 0 <= i < |s| :: lower(s[i]) == [s[i]]
    ensures Lowered(s, lower) == s
  {
    if s != [] {
      LoweredSelf(s[..|s| - 1], lower);
    }
  }

  lemma OwnTextsAreLower(rules: Rules)
    requires Sane(rules)
    ensures Lowered(REDACTED, rules.lower) == REDACTED && Lowered(TRUNCATED, rules.lower) == TRUNCATED
  {
    OwnCharacters();
    LoweredSelf(REDACTED, rules.lower);
    LoweredSelf(TRUNCATED, rules.lower);
  }

  predicate OwnCharacter(c: char) {
    'a' <= c <= 'z' || c == '[' || c == ']' || c == '-'
  }

  lemma OwnCharacters()
    ensures forall i | 0 <= i < |REDACTED| :: OwnCharacter(REDACTED[i]) && REDACTED[i] != '-'
    ensures forall i | 0 <= i < |TRUNCATED| :: OwnCharacter(TRUNCATED[i])
    ensures forall i | 0 < i < |TRUNCATED| && TRUNCATED[i] == '-' :: TRUNCATED[i - 1] == 'd'
  {
  }

  lemma NoMarkerWithin(s: string, m: string, i: nat, c: char)
    requires i < |m| && m[i] == c && c !in s
    ensures !Contains(s, m)
  {
    forall k | 0 <= k <= |s| ensures !OccursAt(s, m, k) {
      if k + |m| <= |s| {
        assert s[k + i] != m[i];
      }
    }
  }

  lemma MarkerLetters()
    ensures "sk-"[2] == '-' && "sk-"[1] == 'k' && |"sk-"| == 3 && "bearer "[6] == ' ' && "authorization:"[13] == ':'
  {
  }

  /** The sanitizer's own texts carry no marker. */
  lemma OwnTextsHarmless(rules: Rules)
    requires Sane(rules)
    ensures !LooksSensitive(REDACTED, rules.lower) && !LooksSensitive(TRUNCATED, rules.lower)
  {
    OwnTextsAreLower(rules);
    OwnCharacters();
    MarkerLetters();
    assert ' ' !in REDACTED && ':' !in REDACTED && '-' !in REDACTED;
    assert ' ' !in TRUNCATED && ':' !in TRUNCATED;
    NoMarkerWithin(REDACTED, "sk-", 2, '-');
    NoMarkerWithin(REDACTED, "bearer ", 6, ' ');
    NoMarkerWithin(REDACTED, "authorization:", 13, ':');
    NoMarkerWithin(TRUNCATED, "bearer ", 6, ' ');
    NoMarkerWithin(TRUNCATED, "authorization:", 13, ':');
    forall k | 0 <= k <= |TRUNCATED| ensures !OccursAt(TRUNCATED, "sk-", k) {
      if k + 3 <= |TRUNCATED| {
        assert TRUNCATED[k + 2] != "sk-"[2] || TRUNCATED[k + 1] != "sk-"[1];
      }
    }
  }

  lemma {:induction false} LoweredPrefix(s: string, n: nat, lower: char -> string)
    requires n <= |s|
    ensures Lowered(s[..n], lower) <= Lowered(s, lower)
    decreases |s| - n
  {
    if n == |s| {
      assert s[..n] == s;
    } else {
      LoweredPrefix(s, n + 1, lower);
      assert s[..n + 1][..n] == s[..n];
    }
  }

  /** A cut text has a marker only if the whole one has. */
  lemma CutHarmless(s: string, n: nat, rules: Rules)
    requires Sane(rules) && n <= |s| && !LooksSensitive(s, rules.lower)
    ensures !LooksSensitive(s[..n] + "\U{2026}", rules.lower)
  {
    hide Contains;
    var dots := "\U{2026}";
    var cut := s[..n] + dots;
    var low, whole := Lowered(s[..n], rules.lower), Lowered(s, rules.lower);
    LoweredPrefix(s, n, rules.lower);
    assert cut[..|cut| - 1] == s[..n] && Lowered(cut, rules.lower) == low + dots;
    MarkersPlain();
    forall m | m in Markers() ensures !Contains(low + dots, m) {
      assert !Contains(whole, m);
      NotInCut(low, whole, m);
    }
  }

  lemma NotInCut(low: string, whole: string, m: string)
    requires low <= whole && !Contains(whole, m) && m != [] && m[|m| - 1] != '\U{2026}'
    ensures !Contains(low + "\U{2026}", m)
  {
    var cut := low + "\U{2026}";
    forall k | 0 <= k <= |cut| ensures !OccursAt(cut, m, k) {
      if k + |m| <= |low| {
        assert !OccursAt(whole, m, k);
      } else if k + |m| == |cut| {
        assert cut[k + (|m| - 1)] != m[|m| - 1];
      }
    }
  }

  lemma MarkersPlain()
    ensures forall m | m in Markers() :: m != [] && m[|m| - 1] != '\U{2026}'
  {
  }

  /** No text in the value carries a marker. */
  ghost predicate Harmless(v: Value, rules: Rules) {
    match v
    case Str(s) => !LooksSensitive(s, rules.lower)
    case Dict(entries) => forall key | key in entries :: Harmless(entries[key], rules)
    case List(items) => forall i | 0 <= i < |items| :: Harmless(items[i], rules)
    case _ => true
  }

  lemma TextHarmless(s: string, rules: Rules)
    requires Sane(rules)
    ensures !LooksSensitive(SanitizeText(s, rules), rules.lower)
    ensures SanitizeText(SanitizeText(s, rules), rules) == SanitizeText(s, rules)
  {
    hide LooksSensitive;
    OwnTextsHarmless(rules);
    if !LooksSensitive(s, rules.lower) && |s| > MAX_TEXT {
      CutHarmless(s, MAX_TEXT, rules);
      var cut := s[..MAX_TEXT] + "\U{2026}";
      assert cut[..MAX_TEXT] == s[..MAX_TEXT];
    }
  }

  /** Sanitizing leaves no text with a marker. */
  lemma {:induction false} SanitizedHarmless(v: Value, depth: nat, rules: Rules)
    requires Sane(rules)
    ensures Harmless(Sanitize(v, depth, rules), rules)
    decreases MAX_DEPTH + 1 - depth
  {
    hide LooksSensitive, SanitizeText, Sane;
    OwnTextsHarmless(rules);
    if depth <= MAX_DEPTH {
      match v {
        case Str(s) => TextHarmless(s, rules);
        case Dict(entries) =>
          var r := Sanitize(v, depth, rules);
          forall key | key in r.entries ensures Harmless(r.entries[key], rules) {
            if !rules.secret(key) {
              SanitizedHarmless(entries[key], depth + 1, rules);
            }
          }
        case List(items) =>
          var r := Sanitize(v, depth, rules);
          forall i | 0 <= i < |r.items| ensures Harmless(r.items[i], rules) {
            SanitizedHarmless(items[i], depth + 1, rules);
          }
        case Other(text) => SanitizedHarmless(Str(text), depth + 1, rules);
        case _ =>
      }
    }
  }

  // ----- what is kept -----

  /** What the sanitizer has nothing to do on: text is unmarked and short, or cut already. */
  ghost predicate Untainted(v: Value, depth: nat, rules: Rules) {
    if depth > MAX_DEPTH then v == Str(TRUNCATED)
    else
      match v
      case Str(s) =>
        && !LooksSensitive(s, rules.lower)
        && (|s| <= MAX_TEXT || (|s| == MAX_TEXT + 1 && s[MAX_TEXT] == '\U{2026}'))
      case Bytes(_) => false
      case Other(_) => false
      case Dict(entries) =>
        forall key | key in entries ::
          if rules.secret(key) then entries[key] == Str(REDACTED) else Untainted(entries[key], depth + 1, rules)
      case List(items) =>
        |items| <= MAX_ITEMS && forall i | 0 <= i < |items| :: Untainted(items[i], depth + 1, rules)
      case _ => true
  }

  /** A text is kept exactly if it has no marker and is short, or was cut before. */
  lemma TextKept(s: string, rules: Rules)
    requires Sane(rules)
    ensures SanitizeText(s, rules) == s <==> Untainted(Str(s), 0, rules)
    ensures LooksSensitive(s, rules.lower) ==> SanitizeText(s, rules) == "[redacted]"
    ensures !LooksSensitive(s, rules.lower) && |s| > 32000 ==> SanitizeText(s, rules)[..32000] == s[..32000]
  {
    hide LooksSensitive;
    OwnTextsHarmless(rules);
    var cut := s[..if |s| > MAX_TEXT then MAX_TEXT else |s|] + "\U{2026}";
    if |s| == MAX_TEXT + 1 && s[MAX_TEXT] == '\U{2026}' {
      assert s == cut;
    }
  }

  lemma {:induction false} LoweredConcat(a: string, b: string, lower: char -> string)
    ensures Lowered(a + b, lower) == Lowered(a, lower) + Lowered(b, lower)
    decreases |b|
  {
    if b == [] {
      assert a + b == a;
    } else {
      var n := |b| - 1;
      assert (a + b)[..|a| + n] == a + b[..n];
      LoweredConcat(a, b[..n], lower);
    }
  }

  /** A marker anywhere in a text, in whatever case, redacts all of it. */
  lemma MarkedRedacted(before: string, marker: string, after: string, rules: Rules)
    requires Lowered(marker, rules.lower) in {"sk-", "bearer ", "authorization:"}
    ensures SanitizeText(before + marker + after, rules) == "[redacted]"
  {
    var low := Lowered(marker, rules.lower);
    LoweredConcat(before + marker, after, rules.lower);
    LoweredConcat(before, marker, rules.lower);
    assert OccursAt(Lowered(before + marker + after, rules.lower), low, |Lowered(before, rules.lower)|);
    assert low in Markers();
  }

  /** A value is kept exactly if there is nothing to do on it anywhere. */
  lemma {:induction false} SanitizedSelf(v: Value, depth: nat, rules: Rules)
    requires Sane(rules)
    ensures Sanitize(v, depth, rules) == v <==> Untainted(v, depth, rules)
    decreases MAX_DEPTH + 1 - depth
  {
    hide LooksSensitive, SanitizeText, REDACTED, TRUNCATED;
    if depth <= MAX_DEPTH {
      match v {
        case Str(s) => TextKept(s, rules);
        case Dict(entries) => DictKept(entries, depth, rules);
        case List(items) =>
          forall i | 0 <= i < |items| ensures Sanitize(items[i], depth + 1, rules) == items[i] <==>
            Untainted(items[i], depth + 1, rules)
          {
            SanitizedSelf(items[i], depth + 1, rules);
          }
        case _ =>
      }
    }
  }

  lemma DictKept(entries: map<string, Value>, depth: nat, rules: Rules)
    requires Sane(rules) && depth <= MAX_DEPTH
    ensures Sanitize(Dict(entries), depth, rules) == Dict(entries) <==> Untainted(Dict(entries), depth, rules)
    decreases MAX_DEPTH + 1 - depth, 0
  {
    hide LooksSensitive, SanitizeText, REDACTED, TRUNCATED;
    var once := Sanitize(Dict(entries), depth, rules);
    assert once.entries.Keys == entries.Keys;
    forall key | key in entries
      ensures once.entries[key] == entries[key] <==>
              if rules.secret(key) then entries[key] == Str(REDACTED) else Untainted(entries[key], depth + 1, rules)
    {
      if !rules.secret(key) {
        SanitizedSelf(entries[key], depth + 1, rules);
      }
    }
  }

  // ----- a second pass -----

  /** Bytes that the sanitizer meets at the last level it enters. */
  ghost predicate BytesAtTheEdge(v: Value, depth: nat, rules: Rules)
    decreases MAX_DEPTH + 1 - depth
  {
    && depth <= MAX_DEPTH
    && match v
       case Bytes(_) => depth == MAX_DEPTH
       case Dict(entries) =>
         exists key :: key in entries && !rules.secret(key) && BytesAtTheEdge(entries[key], depth + 1, rules)
       case List(items) =>
         exists i :: 0 <= i < |items| && i < MAX_ITEMS && BytesAtTheEdge(items[i], depth + 1, rules)
       case _ => false
  }

  lemma SecondByteSize(size: nat, depth: nat, rules: Rules)
    requires !rules.secret("byte_size") && depth <= MAX_DEPTH
    ensures
      var once := Dict(map["byte_size" := Int(size)]);
      Sanitize(once, depth, rules) == (if depth == MAX_DEPTH then Dict(map["byte_size" := Str(TRUNCATED)]) else once)
  {
    var once := Dict(map["byte_size" := Int(size)]);
    var twice := Sanitize(once, depth, rules);
    assert twice.entries["byte_size"] == Sanitize(Int(size), depth + 1, rules);
  }

  /** Sanitizing is idempotent exactly when no bytes sit at depth twelve. */
  lemma {:induction false} SecondPass(v: Value, depth: nat, rules: Rules)
    requires Sane(rules)
    ensures Sanitize(Sanitize(v, depth, rules), depth, rules) == Sanitize(v, depth, rules) <==>
            !BytesAtTheEdge(v, depth, rules)
    decreases MAX_DEPTH + 1 - depth
  {
    hide LooksSensitive, SanitizeText, REDACTED;
    if depth <= MAX_DEPTH {
      match v {
        case Str(s) => TextHarmless(s, rules);
        case Bytes(size) => SecondByteSize(size, depth, rules);
        case Dict(entries) => SecondPassDict(entries, depth, rules);
        case List(items) => SecondPassList(items, depth, rules);
        case Other(text) => SecondPassText(text, depth, rules);
        case _ =>
      }
    }
  }

  /** A sanitized text stays as it is at any level that is entered. */
  lemma SecondPassText(text: string, depth: nat, rules: Rules)
    requires Sane(rules) && depth <= MAX_DEPTH
    ensures Sanitize(Sanitize(Other(text), depth, rules), depth, rules) == Sanitize(Other(text), depth, rules)
  {
    hide LooksSensitive;
    TextHarmless(text, rules);
    OwnTextsHarmless(rules);
    assert |TRUNCATED| <= MAX_TEXT;
  }

  lemma SecondPassDict(entries: map<string, Value>, depth: nat, rules: Rules)
    requires Sane(rules) && depth <= MAX_DEPTH
    ensures Sanitize(Sanitize(Dict(entries), depth, rules), depth, rules) == Sanitize(Dict(entries), depth, rules) <==>
            !BytesAtTheEdge(Dict(entries), depth, rules)
    decreases MAX_DEPTH + 1 - depth, 0
  {
    hide LooksSensitive, SanitizeText, REDACTED;
    var once := Sanitize(Dict(entries), depth, rules);
    var twice := Sanitize(once, depth, rules);
    assert twice.entries.Keys == once.entries.Keys == entries.Keys;
    forall key | key in entries
      ensures twice.entries[key] == once.entries[key] <==>
              rules.secret(key) || !BytesAtTheEdge(entries[key], depth + 1, rules)
    {
      if !rules.secret(key) {
        assert once.entries[key] == Sanitize(entries[key], depth + 1, rules);
        SecondPass(entries[key], depth + 1, rules);
      }
    }
  }

  lemma SecondPassList(items: seq<Value>, depth: nat, rules: Rules)
    requires Sane(rules) && depth <= MAX_DEPTH
    ensures Sanitize(Sanitize(List(items), depth, rules), depth, rules) == Sanitize(List(items), depth, rules) <==>
            !BytesAtTheEdge(List(items), depth, rules)
    decreases MAX_DEPTH + 1 - depth, 0
  {
    hide LooksSensitive, SanitizeText;
    var once := Sanitize(List(items), depth, rules);
    var twice := Sanitize(once, depth, rules);
    forall i | 0 <= i < |once.items|
      ensures twice.items[i] == once.items[i] <==> !BytesAtTheEdge(items[i], depth + 1, rules)
    {
      SecondPass(items[i], depth + 1, rules);
    }
    assert |twice.items| == |once.items|;
  }

  /** Three bytes inside `n` lists. */
  function Nested(n: nat): Value {
    if n == 0 then Bytes(3) else List([Nested(n - 1)])
  }

  lemma {:induction false} NestedEdge(n: nat, depth: nat, rules: Rules)
    requires depth <= MAX_DEPTH
    ensures BytesAtTheEdge(Nested(n), depth, rules) <==> depth + n == MAX_DEPTH
    decreases n
  {
    if n > 0 {
      var items := Nested(n).items;
      assert items[0] == Nested(n - 1);
      if depth < MAX_DEPTH {
        NestedEdge(n - 1, depth + 1, rules);
      }
      assert BytesAtTheEdge(items[0], depth + 1, rules) <==> depth + n == MAX_DEPTH;
    }
  }

  /** Bytes inside twelve lists are sanitized anew by a second pass; inside any other number they stay. */
  lemma NestedTwice(n: nat, rules: Rules)
    requires Sane(rules)
    ensures Sanitize(Sanitize(Nested(n), 0, rules), 0, rules) != Sanitize(Nested(n), 0, rules) <==> n == 12
  {
    hide Sanitize, Nested, BytesAtTheEdge;
    SecondPass(Nested(n), 0, rules);
    NestedEdge(n, 0, rules);
  }
}
