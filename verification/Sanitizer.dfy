/** The recursive sanitizer of error details (apps-script/src/01_Utils.gs). */
module Sanitizer {
  import opened Prelude

  /** JavaScript text is a sequence of 16-bit units. */
  type CodeUnit = n: int | 0 <= n < 0x1_0000

  type Units = seq<CodeUnit>

  datatype Numeric = Finite(n: real) | NotANumber | Infinite(negative: bool)

  /**
   A JavaScript value; `Other` is anything else, by its `String(...)` text. An object's keys are its own, in order.
   */
  datatype Value =
    | Null
    | Undefined
    | Text(s: Units)
    | Number(n: Numeric)
    | Boolean(b: bool)
    | List(items: seq<Value>)
    | Object(fields: seq<(Units, Value)>)
    | Other(text: Units)

  function Ascii(s: string): (units: Units)
    requires forall k :: 0 <= k < |s| ==> s[k] <= '~'
    ensures |units| == |s|
  {
    seq(|s|, k requires 0 <= k < |s| => s[k] as int)
  }

  const MAX_DEPTH: nat := 4
  const MAX_ITEMS: nat := 20
  const MAX_FIELDS: nat := 50
  const MAX_TEXT: nat := 500
  const REDACTED: Value := Text(Ascii("[redacted]"))
  const TRUNCATED: Value := Text(Ascii("[truncated]"))
  const PROTO: Units := Ascii("__proto__")

  // ---------------------------------------------------------------- the sensitive pattern

  /** Ignoring case: no unit beyond ASCII counts as an ASCII letter. */
  function Fold(c: CodeUnit): CodeUnit {
    if 'A' as int <= c <= 'Z' as int then c + 32 else c
  }

  /** From its `k`th letter on, `word` is spelled at position `at`, whatever the case of its letters. */
  predicate Spelled(s: Units, at: nat, word: string, k: nat)
    requires k <= |word|
    decreases |word| - k
  {
    k == |word| || (at < |s| && Fold(s[at]) == word[k] as int && Spelled(s, at + 1, word, k + 1))
  }

  predicate OccursAt(s: Units, at: nat, word: string) {
    Spelled(s, at, word, 0)
  }

  predicate Contains(s: Units, word: string) {
    exists at :: 0 <= at <= |s| && OccursAt(s, at, word)
  }

  predicate IsLineEnd(c: CodeUnit) {
    c == 0xA || c == 0xD || c == 0x2028 || c == 0x2029
  }

  /** `first.?second`: nothing or one unit that does not end a line between the two. */
  predicate ContainsPair(s: Units, first: string, second: string) {
    exists at :: 0 <= at <= |s| && OccursAt(s, at, first) &&
      (OccursAt(s, at + |first|, second)
       || (at + |first| < |s| && !IsLineEnd(s[at + |first|]) && OccursAt(s, at + |first| + 1, second)))
  }

  predicate Sensitive(key: Units) {
    || Contains(key, "token") || Contains(key, "secret") || Contains(key, "authorization")
    || ContainsPair(key, "api", "key") || ContainsPair(key, "upload", "url")
    || Contains(key, "body") || Contains(key, "content") || Contains(key, "base64") || Contains(key, "binary")
    || ContainsPair(key, "file", "data")
  }

  /** The alternatives of the pattern, where `.?` stands for at most one unit that does not end a line. */
  const PATTERNS: seq<string> := [
    "token", "secret", "authorization", "api.?key", "upload.?url", "body", "content", "base64", "binary", "file.?data"]

  /** An alternative, from its `k`th character on, matches at a position, without regard to case. */
  predicate Matches(s: Units, at: nat, pattern: string, k: nat)
    requires k <= |pattern|
    decreases |pattern| - k
  {
    if k == |pattern| then at <= |s|
    else if k + 1 < |pattern| && pattern[k] == '.' && pattern[k + 1] == '?' then
      || Matches(s, at, pattern, k + 2)
      || (at < |s| && !IsLineEnd(s[at]) && Matches(s, at + 1, pattern, k + 2))
    else at < |s| && Fold(s[at]) == pattern[k] as int && Matches(s, at + 1, pattern, k + 1)
  }

  /** `word` stands in the pattern at `off`, without any wildcard. */
  predicate StandsAt(pattern: string, off: nat, word: string) {
    off + |word| <= |pattern| && forall k :: 0 <= k < |word| ==> word[k] != '.' && pattern[off + k] == word[k]
  }

  lemma {:induction false} WordMatches(s: Units, at: nat, pattern: string, off: nat, word: string, k: nat)
    requires StandsAt(pattern, off, word) && k <= |word|
    ensures Matches(s, at, pattern, off + k) <==>
              Spelled(s, at, word, k) && Matches(s, at + (|word| - k), pattern, off + |word|)
    decreases |word| - k
  {
    if k < |word| {
      assert word[k] != '.' && pattern[off + k] == word[k];
      WordMatches(s, at + 1, pattern, off, word, k + 1);
    }
  }

  lemma {:induction false} SpelledInside(s: Units, at: nat, word: string, k: nat)
    requires k <= |word| && Spelled(s, at, word, k) && at <= |s|
    ensures at + (|word| - k) <= |s|
    decreases |word| - k
  {
    if k < |word| {
      SpelledInside(s, at + 1, word, k + 1);
    }
  }

  predicate MatchesHere(s: Units, at: nat, pattern: string) {
    Matches(s, at, pattern, 0)
  }

  predicate MatchesSomewhere(s: Units, pattern: string) {
    exists at :: 0 <= at <= |s| && MatchesHere(s, at, pattern)
  }

  lemma WordIsContained(s: Units, word: string)
    requires word != "" && StandsAt(word, 0, word)
    ensures Contains(s, word) <==> MatchesSomewhere(s, word)
  {
    forall at: nat | at <= |s|
      ensures MatchesHere(s, at, word) <==> OccursAt(s, at, word)
    {
      WordMatches(s, at, word, 0, word, 0);
      if OccursAt(s, at, word) {
        SpelledInside(s, at, word, 0);
      }
    }
  }

  /** The two words around the wildcard. */
  predicate IsPair(pattern: string, first: string, second: string) {
    && first != "" && second != "" && |pattern| == |first| + 2 + |second|
    && StandsAt(pattern, 0, first) && StandsAt(pattern, |first| + 2, second)
    && pattern[|first|] == '.' && pattern[|first| + 1] == '?'
  }

  lemma TailMatches(s: Units, at: nat, pattern: string, first: string, second: string)
    requires IsPair(pattern, first, second) && at <= |s|
    ensures Matches(s, at, pattern, |first| + 2) <==> OccursAt(s, at, second)
  {
    WordMatches(s, at, pattern, |first| + 2, second, 0);
    if OccursAt(s, at, second) {
      SpelledInside(s, at, second, 0);
    }
  }

  lemma PairMatches(s: Units, at: nat, pattern: string, first: string, second: string)
    requires IsPair(pattern, first, second) && at <= |s|
    ensures MatchesHere(s, at, pattern) <==>
              && OccursAt(s, at, first)
              && (OccursAt(s, at + |first|, second)
                  || (at + |first| < |s| && !IsLineEnd(s[at + |first|]) && OccursAt(s, at + |first| + 1, second)))
  {
    WordMatches(s, at, pattern, 0, first, 0);
    if OccursAt(s, at, first) {
      SpelledInside(s, at, first, 0);
      TailMatches(s, at + |first|, pattern, first, second);
      if at + |first| < |s| {
        TailMatches(s, at + |first| + 1, pattern, first, second);
      }
    }
  }

  lemma PairIsContained(s: Units, pattern: string, first: string, second: string)
    requires IsPair(pattern, first, second)
    ensures ContainsPair(s, first, second) <==> MatchesSomewhere(s, pattern)
  {
    forall at: nat | at <= |s|
      ensures MatchesHere(s, at, pattern) <==>
                && OccursAt(s, at, first)
                && (OccursAt(s, at + |first|, second)
                    || (at + |first| < |s| && !IsLineEnd(s[at + |first|]) && OccursAt(s, at + |first| + 1, second)))
    {
      PairMatches(s, at, pattern, first, second);
    }
  }

  /** A key is sensitive exactly if one of the alternatives matches somewhere in it. */
  lemma SensitiveExactly(key: Units)
    ensures Sensitive(key) <==> exists k :: 0 <= k < |PATTERNS| && MatchesSomewhere(key, PATTERNS[k])
  {
    assert PATTERNS[0] == "token" && PATTERNS[1] == "secret" && PATTERNS[2] == "authorization";
    assert PATTERNS[3] == "api.?key" && PATTERNS[4] == "upload.?url" && PATTERNS[5] == "body";
    assert PATTERNS[6] == "content" && PATTERNS[7] == "base64" && PATTERNS[8] == "binary";
    assert PATTERNS[9] == "file.?data";
    WordIsContained(key, "token");
    WordIsContained(key, "secret");
    WordIsContained(key, "authorization");
    WordIsContained(key, "body");
    WordIsContained(key, "content");
    WordIsContained(key, "base64");
    WordIsContained(key, "binary");
    PairIsContained(key, "api.?key", "api", "key");
    PairIsContained(key, "upload.?url", "upload", "url");
    PairIsContained(key, "file.?data", "file", "data");
  }

  // ---------------------------------------------------------------- the sanitizer

  /** The beginning of a text, all of it if it is short. */
  function Cut(s: Units): Units {
    s[..Min(MAX_TEXT, |s|)]
  }

  function Sanitize(v: Value, depth: nat): Value
    decreases v
  {
    if v.Null? || v.Undefined? then Null
    else if depth > MAX_DEPTH then TRUNCATED
    else match v
      case List(items) =>
        List(seq(Min(MAX_ITEMS, |items|), k requires 0 <= k < Min(MAX_ITEMS, |items|) => Sanitize(items[k], depth + 1)))
      case Object(fields) => Object(CleanFields(v, Min(MAX_FIELDS, |fields|), depth))
      case Text(s) => Text(Cut(s))
      case Other(text) => Text(Cut(text))
      case _ => v
  }

  /** The clean object after its first `n` keys. Assigning to `__proto__` creates no property of that name. */
  function CleanFields(v: Value, n: nat, depth: nat): seq<(Units, Value)>
    requires v.Object? && n <= |v.fields|
    decreases v, n
  {
    if n == 0 then []
    else
      var (key, value) := v.fields[n - 1];
      assert v.fields[n - 1] in v.fields;
      CleanFields(v, n - 1, depth) +
      if key == PROTO then []
      else [(key, if Sensitive(key) then REDACTED else Sanitize(value, depth + 1))]
  }

  /** `sanitizeErrorDetails_`: recursion that fills a fresh array or object in a loop. */
  method SanitizeErrorDetails(value: Value, depth: nat) returns (r: Value)
    ensures r == Sanitize(value, depth)
    decreases value, 1
  {
    if value.Null? || value.Undefined? {
      return Null;
    }
    if depth > MAX_DEPTH {
      return TRUNCATED;
    }
    match value {
      case List(_) => r := SanitizeItems(value, depth);
      case Object(_) => r := SanitizeFields(value, depth);
      case Text(s) => r := Text(Cut(s));
      case Other(text) => r := Text(Cut(text));
      case _ => r := value;
    }
  }

  method SanitizeItems(value: Value, depth: nat) returns (r: Value)
    requires value.List? && depth <= MAX_DEPTH
    ensures r == Sanitize(value, depth)
    decreases value, 0
  {
    var copy: seq<Value> := [];
    for i := 0 to Min(MAX_ITEMS, |value.items|)
      invariant |copy| == i
      invariant forall k :: 0 <= k < i ==> copy[k] == Sanitize(value.items[k], depth + 1)
    {
      var item := SanitizeErrorDetails(value.items[i], depth + 1);
      copy := copy + [item];
    }
    r := List(copy);
  }

  method SanitizeFields(value: Value, depth: nat) returns (r: Value)
    requires value.Object? && depth <= MAX_DEPTH
    ensures r == Sanitize(value, depth)
    decreases value, 0
  {
    var clean: seq<(Units, Value)> := [];
    for i := 0 to Min(MAX_FIELDS, |value.fields|)
      invariant clean == CleanFields(value, i, depth)
    {
      var (key, field) := value.fields[i];
      assert value.fields[i] in value.fields;
      var cleanField := REDACTED;
      if !Sensitive(key) {
        cleanField := SanitizeErrorDetails(field, depth + 1);
      }
      if key != PROTO {
        clean := clean + [(key, cleanField)];
      }
    }
    r := Object(clean);
  }

  // ---------------------------------------------------------------- what its results look like

  /** No object at any depth keeps a value under a sensitive key. */
  predicate NothingSensitive(v: Value)
    decreases v
  {
    match v
    case List(items) => forall k :: 0 <= k < |items| ==> NothingSensitive(items[k])
    case Object(fields) =>
      forall k :: 0 <= k < |fields| ==>
          (Sensitive(fields[k].0) ==> fields[k].1 == Text(Ascii("[redacted]"))) && NothingSensitive(fields[k].1)
    case _ => true
  }

  /** What becomes of a value without parts, and of anything below the depth bound. */
  lemma LeavesBecome(v: Value, depth: nat)
    ensures v == Null || v == Undefined ==> Sanitize(v, depth) == Null
    ensures v != Null && v != Undefined && depth > 4 ==> Sanitize(v, depth) == Text(Ascii("[truncated]"))
    ensures depth <= 4 && (v.Text? || v.Other?) ==>
              var text := if v.Text? then v.s else v.text;
              Sanitize(v, depth) == Text(if |text| <= 500 then text else text[..500])
    ensures depth <= 4 && (v.Number? || v.Boolean?) ==> Sanitize(v, depth) == v
  {
  }

  /** At most `levels` containers inside one another, none of them wider than the bounds, and no long text. */
  predicate Bounded(v: Value, levels: nat)
    decreases v
  {
    match v
    case List(items) =>
      levels > 0 && |items| <= 20 && forall k :: 0 <= k < |items| ==> Bounded(items[k], levels - 1)
    case Object(fields) =>
      levels > 0 && |fields| <= 50 && forall k :: 0 <= k < |fields| ==> Bounded(fields[k].1, levels - 1)
    case Text(s) => |s| <= 500
    case Other(_) => false
    case _ => true
  }

  /** The values the sanitizer has no reason to change at this depth. */
  predicate Clean(v: Value, depth: nat)
    decreases v
  {
    match v
    case Null => true
    case Undefined => false
    case Other(_) => false
    case Text(s) => if depth > MAX_DEPTH then v == TRUNCATED else |s| <= MAX_TEXT
    case List(items) =>
      depth <= MAX_DEPTH && |items| <= MAX_ITEMS && forall k :: 0 <= k < |items| ==> Clean(items[k], depth + 1)
    case Object(fields) =>
      && depth <= MAX_DEPTH && |fields| <= MAX_FIELDS
      && forall k :: 0 <= k < |fields| ==> CleanField(v, k, depth)
    case _ => depth <= MAX_DEPTH
  }

  predicate CleanField(v: Value, k: nat, depth: nat)
    requires v.Object? && k < |v.fields|
    decreases v, 0
  {
    var (key, value) := v.fields[k];
    assert v.fields[k] in v.fields;
    && key != PROTO
    && if Sensitive(key) then value == REDACTED else Clean(value, depth + 1)
  }

  lemma {:induction false} FieldsAreClean(v: Value, n: nat, depth: nat)
    requires v.Object? && n <= |v.fields| && depth <= MAX_DEPTH
    ensures |CleanFields(v, n, depth)| <= n
    ensures var w := Object(CleanFields(v, n, depth)); forall k :: 0 <= k < |w.fields| ==> CleanField(w, k, depth)
    decreases v, n
  {
    if n > 0 {
      var before, after := Object(CleanFields(v, n - 1, depth)), Object(CleanFields(v, n, depth));
      FieldsAreClean(v, n - 1, depth);
      assert v.fields[n - 1] in v.fields;
      SanitizedIsClean(v.fields[n - 1].1, depth + 1);
      forall k | 0 <= k < |after.fields|
        ensures CleanField(after, k, depth)
      {
        if k < |before.fields| {
          assert CleanField(before, k, depth);
        }
      }
    }
  }

  /** Whatever goes in, what comes out is clean. */
  lemma {:induction false} SanitizedIsClean(v: Value, depth: nat)
    ensures Clean(Sanitize(v, depth), depth)
    decreases v
  {
    if depth <= MAX_DEPTH {
      match v
      case List(items) =>
        forall k | 0 <= k < Min(MAX_ITEMS, |items|)
          ensures Clean(Sanitize(v, depth).items[k], depth + 1)
        {
          SanitizedIsClean(items[k], depth + 1);
        }
      case Object(fields) =>
        FieldsAreClean(v, Min(MAX_FIELDS, |fields|), depth);
      case _ =>
    }
  }

  lemma {:induction false} CleanFieldsAreKept(v: Value, n: nat, depth: nat)
    requires Clean(v, depth) && v.Object? && n <= |v.fields|
    ensures CleanFields(v, n, depth) == v.fields[..n]
    decreases v, n
  {
    if n > 0 {
      CleanFieldsAreKept(v, n - 1, depth);
      assert CleanField(v, n - 1, depth);
      assert v.fields[n - 1] in v.fields;
      if !Sensitive(v.fields[n - 1].0) {
        CleanIsKept(v.fields[n - 1].1, depth + 1);
      }
      assert v.fields[..n] == v.fields[..n - 1] + [v.fields[n - 1]];
    }
  }

  lemma {:induction false} CleanIsKept(v: Value, depth: nat)
    requires Clean(v, depth)
    ensures Sanitize(v, depth) == v
    decreases v
  {
    match v
    case List(items) =>
      forall k | 0 <= k < |items|
        ensures Sanitize(items[k], depth + 1) == items[k]
      {
        CleanIsKept(items[k], depth + 1);
      }
      assert Sanitize(v, depth).items == items;
    case Object(fields) =>
      CleanFieldsAreKept(v, |fields|, depth);
      assert fields[..|fields|] == fields;
    case _ =>
  }

  /** The sanitizer changes exactly what is not clean, so sanitizing again changes nothing. */
  lemma SanitizerIsAProjection(v: Value, depth: nat)
    ensures Sanitize(v, depth) == v <==> Clean(v, depth)
    ensures Sanitize(Sanitize(v, depth), depth) == Sanitize(v, depth)
  {
    SanitizedIsClean(v, depth);
    CleanIsKept(Sanitize(v, depth), depth);
    if Clean(v, depth) {
      CleanIsKept(v, depth);
    }
  }

  lemma {:induction false} CleanIsBounded(v: Value, depth: nat)
    requires Clean(v, depth) && depth <= MAX_DEPTH + 1
    ensures NothingSensitive(v) && Bounded(v, MAX_DEPTH + 1 - depth)
    decreases v
  {
    match v
    case List(items) =>
      forall k | 0 <= k < |items|
        ensures NothingSensitive(items[k]) && Bounded(items[k], MAX_DEPTH - depth)
      {
        CleanIsBounded(items[k], depth + 1);
      }
    case Object(fields) =>
      forall k | 0 <= k < |fields|
        ensures NothingSensitive(fields[k].1) && Bounded(fields[k].1, MAX_DEPTH - depth)
        ensures Sensitive(fields[k].0) ==> fields[k].1 == REDACTED
      {
        assert CleanField(v, k, depth) && fields[k] in fields;
        if !Sensitive(fields[k].0) {
          CleanIsBounded(fields[k].1, depth + 1);
        }
      }
    case _ =>
  }

  /** For every value: nothing sensitive survives at any depth, and the depth, width and text bounds hold everywhere. */
  lemma SanitizedIsSafe(v: Value)
    ensures NothingSensitive(Sanitize(v, 0)) && Bounded(Sanitize(v, 0), 5)
  {
    SanitizedIsClean(v, 0);
    CleanIsBounded(Sanitize(v, 0), 0);
  }

  // ---------------------------------------------------------------- what survives

  /** The value under a key among an object's first `n` fields, as a lookup finds it. */
  function FindIn(fields: seq<(Units, Value)>, n: nat, key: Units): Option<Value>
    requires n <= |fields|
  {
    if n == 0 then None
    else if FindIn(fields, n - 1, key).Some? then FindIn(fields, n - 1, key)
    else if fields[n - 1].0 == key then Some(fields[n - 1].1)
    else None
  }

  function Find(fields: seq<(Units, Value)>, key: Units): Option<Value> {
    FindIn(fields, |fields|, key)
  }

  function SanitizedField(found: Option<Value>, key: Units, depth: nat): Option<Value> {
    if found.None? then None else Some(if Sensitive(key) then REDACTED else Sanitize(found.value, depth + 1))
  }

  lemma {:induction false} FindPrefix(fields: seq<(Units, Value)>, more: seq<(Units, Value)>, n: nat, key: Units)
    requires n <= |fields|
    ensures FindIn(fields + more, n, key) == FindIn(fields, n, key)
  {
    if n > 0 {
      FindPrefix(fields, more, n - 1, key);
    }
  }

  lemma FindAppend(fields: seq<(Units, Value)>, last: (Units, Value), key: Units)
    ensures Find(fields + [last], key) ==
            if Find(fields, key).Some? then Find(fields, key) else if last.0 == key then Some(last.1) else None
  {
    FindPrefix(fields, [last], |fields|, key);
  }

  /** What the clean object holds for its `n`th key. */
  lemma OneMoreField(v: Value, n: nat, depth: nat, key: Units)
    requires v.Object? && 0 < n <= |v.fields| && key != PROTO
    ensures var before, field := Find(CleanFields(v, n - 1, depth), key), v.fields[n - 1];
            Find(CleanFields(v, n, depth), key) ==
            if before.Some? then before else if field.0 == key then SanitizedField(Some(field.1), key, depth) else None
  {
    var (name, value) := v.fields[n - 1];
    assert v.fields[n - 1] in v.fields;
    var before := CleanFields(v, n - 1, depth);
    if name == PROTO {
      assert CleanFields(v, n, depth) == before;
    } else {
      var field := (name, if Sensitive(name) then REDACTED else Sanitize(value, depth + 1));
      assert CleanFields(v, n, depth) == before + [field];
      FindAppend(before, field, key);
    }
  }

  /** Looking a key up in the clean object and sanitizing what the original object holds under it come to the same. */
  lemma {:induction false} LookupCommutes(v: Value, n: nat, depth: nat, key: Units)
    requires v.Object? && n <= |v.fields| && key != PROTO
    ensures Find(CleanFields(v, n, depth), key) == SanitizedField(FindIn(v.fields, n, key), key, depth)
  {
    if n > 0 {
      LookupCommutes(v, n - 1, depth, key);
      OneMoreField(v, n, depth, key);
    }
  }

  datatype Hop = Index(i: nat) | Key(key: Units)

  function Child(v: Value, hop: Hop): Option<Value> {
    if hop.Index? && v.List? && hop.i < |v.items| then Some(v.items[hop.i])
    else if hop.Key? && v.Object? then Find(v.fields, hop.key)
    else None
  }

  function At(v: Value, path: seq<Hop>): Option<Value>
    decreases |path|
  {
    if path == [] then Some(v)
    else if Child(v, path[0]).None? then None
    else At(Child(v, path[0]).value, path[1..])
  }

  /** The hop stays within the width bounds and off sensitive keys. */
  predicate Shown(v: Value, hop: Hop) {
    && (hop.Index? ==> hop.i < 20)
    && (hop.Key? ==> hop.key != Ascii("__proto__") && !Sensitive(hop.key))
    && (hop.Key? && v.Object? ==> FindIn(v.fields, Min(50, |v.fields|), hop.key) == Find(v.fields, hop.key))
  }

  predicate PathShown(v: Value, path: seq<Hop>)
    decreases |path|
  {
    path == [] || (Shown(v, path[0]) && (Child(v, path[0]).Some? ==> PathShown(Child(v, path[0]).value, path[1..])))
  }

  lemma ChildCommutes(v: Value, hop: Hop, depth: nat)
    requires depth <= MAX_DEPTH && Shown(v, hop)
    ensures Child(Sanitize(v, depth), hop) ==
            if Child(v, hop).None? then None else Some(Sanitize(Child(v, hop).value, depth + 1))
  {
    if v.Object? && hop.Key? {
      LookupCommutes(v, Min(MAX_FIELDS, |v.fields|), depth, hop.key);
    }
  }

  /**
   Nothing else is lost: along every path that stays within the bounds and off sensitive keys, the sanitized value holds
   what the original holds there, itself sanitized at its depth, and holds nothing where the original holds nothing.
   */
  lemma {:induction false} ShownValuesSurvive(v: Value, path: seq<Hop>, depth: nat)
    requires depth + |path| <= 5 && PathShown(v, path)
    ensures At(Sanitize(v, depth), path) ==
            if At(v, path).None? then None else Some(Sanitize(At(v, path).value, depth + |path|))
    decreases |path|
  {
    if path != [] {
      ChildCommutes(v, path[0], depth);
      if Child(v, path[0]).Some? {
        ShownValuesSurvive(Child(v, path[0]).value, path[1..], depth + 1);
      }
    }
  }
}
