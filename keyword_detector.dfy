/**
 * The title classifier of backend/services/keyword_detector.py.
 *
 * `re.search(r'\b' + re.escape(k) + r'\b', text, re.IGNORECASE)` is modelled
 * on ASCII: a word character is a letter, a digit or `_`, and IGNORECASE
 * compares characters after ASCII lower-casing.
 */
module KeywordDetector {
  import opened Wrappers
  import opened StringOrder

  /** The canonical vocabulary, in the source's order. */
  const AI_KEYWORDS: seq<string> := [
    "chatgpt", "gpt-4", "gpt-3", "openai", "claude", "anthropic",
    "gemini", "bard", "llm", "large language model", "artificial intelligence",
    "machine learning", "deep learning", "neural network", "transformer",
    "diffusion", "midjourney", "stable diffusion", "dalle", "dall-e"
  ]

  /**
   * One entry of the alias table: the pattern `\b(alt1|alt2|...)\b` and the
   * canonical labels it adds. `\bllms?\b` has a match exactly where `\bllm\b`
   * or `\bllms\b` has one, so it is written as the alternatives "llm", "llms".
   */
  datatype VariantRule = VariantRule(alternatives: seq<string>, adds: seq<string>)

  const VARIANT_MAP: seq<VariantRule> := [
    VariantRule(["llm", "llms"], ["llm", "large language model"]),
    VariantRule(["ml"], ["machine learning"]),
    VariantRule(["dall-e"], ["dall-e", "dalle"])
  ]

  /** The vocabulary as `sorted()` orders it. */
  const SORTED_AI_KEYWORDS: seq<string> := [
    "anthropic", "artificial intelligence", "bard", "chatgpt", "claude",
    "dall-e", "dalle", "deep learning", "diffusion", "gemini", "gpt-3", "gpt-4",
    "large language model", "llm", "machine learning", "midjourney",
    "neural network", "openai", "stable diffusion", "transformer"
  ]

  /** `\w` on ASCII. */
  predicate IsWordChar(c: char) {
    ('a' <= c <= 'z') || ('A' <= c <= 'Z') || ('0' <= c <= '9') || c == '_'
  }

  /** ASCII lower-casing, as IGNORECASE applies it. */
  function Lower(c: char): char {
    if 'A' <= c <= 'Z' then (c as int + 32) as char else c
  }

  /** `\b` at position `p`: a word character on exactly one side of `p`. */
  predicate BoundaryAt(s: string, p: nat)
    requires p <= |s|
  {
    (0 < p && IsWordChar(s[p - 1])) != (p < |s| && IsWordChar(s[p]))
  }

  /** `\b<lit>\b` matches `s` at index `i`, ignoring case. */
  predicate MatchesAt(s: string, lit: string, i: nat) {
    && i + |lit| <= |s|
    && BoundaryAt(s, i)
    && (forall j :: 0 <= j < |lit| ==> Lower(s[i + j]) == Lower(lit[j]))
    && BoundaryAt(s, i + |lit|)
  }

  /** `re.search(r'\b<lit>\b', s, re.IGNORECASE)` finds a match. */
  predicate Search(s: string, lit: string) {
    exists i: nat :: i + |lit| <= |s| && MatchesAt(s, lit, i)
  }

  predicate RuleMatches(s: string, rule: VariantRule) {
    exists alt :: alt in rule.alternatives && Search(s, alt)
  }

  /** Labels found by the direct loop (source lines 44-51). */
  function DirectKeywords(s: string): set<string> {
    set k | k in AI_KEYWORDS && Search(s, k)
  }

  /** The labels that one alias rule adds when it matches: those that are canonical. */
  function RuleAdds(s: string, rule: VariantRule): set<string> {
    if RuleMatches(s, rule) then set k | k in rule.adds && k in AI_KEYWORDS else {}
  }

  /** Labels added by the alias loop (source lines 58-64) over `rules`. */
  function VariantKeywords(s: string, rules: seq<VariantRule>): set<string> {
    if rules == [] then {}
    else VariantKeywords(s, rules[..|rules| - 1]) + RuleAdds(s, rules[|rules| - 1])
  }

  /** An alias label is found when some rule that lists it matches. */
  lemma {:induction false} VariantKeywordsMember(s: string, rules: seq<VariantRule>, k: string)
    ensures k in VariantKeywords(s, rules)
            <==> exists r :: r in rules && RuleMatches(s, r) && k in r.adds && k in AI_KEYWORDS
  {
    if rules != [] {
      var init := rules[..|rules| - 1];
      VariantKeywordsMember(s, init, k);
      assert rules == init + [rules[|rules| - 1]];
    }
  }

  function FoundKeywords(s: string): set<string> {
    DirectKeywords(s) + VariantKeywords(s, VARIANT_MAP)
  }

  /** The elements of `xs` that lie in `keep`, in the order of `xs`. */
  function KeepIn(xs: seq<string>, keep: set<string>): (r: seq<string>)
    ensures forall x :: x in r <==> x in xs && x in keep
    ensures StrictlySorted(xs) ==> StrictlySorted(r)
  {
    if xs == [] then []
    else
      var rest := KeepIn(xs[1..], keep);
      assert StrictlySorted(xs) ==> StrictlySorted(xs[1..]) by {
        if StrictlySorted(xs) {
          forall i, j | 0 <= i < j < |xs| - 1 ensures Less(xs[1..][i], xs[1..][j]) {
            assert xs[1..][i] == xs[i + 1] && xs[1..][j] == xs[j + 1];
          }
        }
      }
      if xs[0] in keep then
        assert StrictlySorted(xs) ==> StrictlySorted([xs[0]] + rest) by {
          if StrictlySorted(xs) {
            forall y | y in rest ensures Less(xs[0], y) {
              var j :| 0 <= j < |xs[1..]| && xs[1..][j] == y;
              assert xs[j + 1] == y;
            }
            forall i, j | 0 <= i < j < |rest| + 1 ensures Less(([xs[0]] + rest)[i], ([xs[0]] + rest)[j]) {
              if i == 0 {
                assert rest[j - 1] in rest;
              } else {
                assert ([xs[0]] + rest)[i] == rest[i - 1] && ([xs[0]] + rest)[j] == rest[j - 1];
              }
            }
          }
        }
        [xs[0]] + rest
      else rest
  }

  /** The sorted vocabulary lists the canonical keywords. */
  lemma SortedVocabularyMembers()
    ensures forall k :: k in SORTED_AI_KEYWORDS <==> k in AI_KEYWORDS
  {
  }

  /** The first ten keywords of the sorted vocabulary are in order. */
  lemma SortedVocabularyLow(i: nat)
    requires 0 < i < 10
    ensures Less(SORTED_AI_KEYWORDS[i - 1], SORTED_AI_KEYWORDS[i])
  {
  }

  /** The last eleven keywords of the sorted vocabulary are in order. */
  lemma SortedVocabularyHigh(i: nat)
    requires 10 <= i < |SORTED_AI_KEYWORDS|
    ensures Less(SORTED_AI_KEYWORDS[i - 1], SORTED_AI_KEYWORDS[i])
  {
  }

  lemma SortedVocabulary()
    ensures StrictlySorted(SORTED_AI_KEYWORDS)
    ensures forall k :: k in SORTED_AI_KEYWORDS <==> k in AI_KEYWORDS
  {
    var s := SORTED_AI_KEYWORDS;
    forall i | 0 < i < |s| ensures Less(s[i - 1], s[i]) {
      if i < 10 {
        SortedVocabularyLow(i);
      } else {
        SortedVocabularyHigh(i);
      }
    }
    AdjacentLessSorted(s);
    SortedVocabularyMembers();
  }

  /** The canonical labels of `found`, in sorted order. */
  function SortedLabels(found: set<string>): (r: seq<string>)
    ensures StrictlySorted(r)
    ensures forall k :: k in r <==> k in found && k in AI_KEYWORDS
  {
    SortedVocabulary();
    KeepIn(SORTED_AI_KEYWORDS, found)
  }

  lemma FoundAreCanonical(s: string)
    ensures forall k :: k in FoundKeywords(s) ==> k in AI_KEYWORDS
  {
    forall k | k in VariantKeywords(s, VARIANT_MAP) ensures k in AI_KEYWORDS {
      VariantKeywordsMember(s, VARIANT_MAP, k);
    }
  }

  /**
   * What `find_ai_keywords(text)` returns: the found canonical labels,
   * sorted and without duplicates; nothing for `None` or "".
   */
  function KeywordsOf(text: Option<string>): (r: seq<string>)
    ensures StrictlySorted(r)
    ensures forall k :: k in r <==> text.Some? && text.value != "" && k in FoundKeywords(text.value)
    ensures forall k :: k in r ==> k in AI_KEYWORDS
    ensures text == None || text == Some("") ==> r == []
  {
    if text.None? || text.value == "" then []
    else
      FoundAreCanonical(text.value);
      SortedLabels(FoundKeywords(text.value))
  }

  /** The direct loop after its first `n` keywords. */
  function DirectUpTo(s: string, vocab: seq<string>, n: nat): set<string>
    requires n <= |vocab|
  {
    set k | k in vocab[..n] && Search(s, k)
  }

  lemma DirectUpToStep(s: string, vocab: seq<string>, n: nat)
    requires n < |vocab|
    ensures DirectUpTo(s, vocab, n + 1)
            == DirectUpTo(s, vocab, n) + (if Search(s, vocab[n]) then {vocab[n]} else {})
  {
    assert vocab[..n + 1] == vocab[..n] + [vocab[n]];
  }

  /** The inner alias loop (source lines 61-64): add the rule's labels that are in `vocab`. */
  method AddRuleLabels(found: set<string>, rule: VariantRule, vocab: seq<string>) returns (found': set<string>)
    ensures found' == found + (set k | k in rule.adds && k in vocab)
  {
    found' := found;
    for a := 0 to |rule.adds|
      invariant found' == found + (set k | k in rule.adds[..a] && k in vocab)
    {
      var added := rule.adds[a];
      assert rule.adds[..a + 1] == rule.adds[..a] + [added];
      if added in vocab {
        found' := found' + {added};
      }
    }
    assert rule.adds[..|rule.adds|] == rule.adds;
  }

  /** The direct loop (source lines 44-51) over the keywords of `vocab`. */
  method DirectPass(s: string, vocab: seq<string>) returns (found: set<string>)
    ensures found == set k | k in vocab && Search(s, k)
  {
    found := {};
    for n := 0 to |vocab|
      invariant found == DirectUpTo(s, vocab, n)
    {
      DirectUpToStep(s, vocab, n);
      var keyword := vocab[n];
      if Search(s, keyword) {
        found := found + {keyword};
      }
    }
    assert vocab[..|vocab|] == vocab;
  }

  /** The alias loop (source lines 58-64) over `rules`, adding to `found`. */
  method AliasPass(s: string, found: set<string>, rules: seq<VariantRule>) returns (found': set<string>)
    ensures found' == found + VariantKeywords(s, rules)
  {
    found' := found;
    for v := 0 to |rules|
      invariant found' == found + VariantKeywords(s, rules[..v])
    {
      assert rules[..v + 1][..v] == rules[..v];
      var rule := rules[v];
      if RuleMatches(s, rule) {
        found' := AddRuleLabels(found', rule, AI_KEYWORDS);
      }
    }
    assert rules[..|rules|] == rules;
  }

  /**
   * `find_ai_keywords` as the source computes it: a set filled by the direct
   * loop and then by the alias loop, returned as `sorted(list(set))`.
   */
  method FindAiKeywords(text: Option<string>) returns (r: seq<string>)
    ensures r == KeywordsOf(text)
  {
    if text.None? || text.value == "" {
      return [];
    }
    var s := text.value;
    var found := DirectPass(s, AI_KEYWORDS);
    found := AliasPass(s, found, VARIANT_MAP);
    r := SortedList(found);
    SortedListingUnique(r, KeywordsOf(text));
  }

  /** A matching alias rule contributes each canonical label it lists. */
  lemma AliasAdds(s: string, rule: VariantRule, k: string)
    requires rule in VARIANT_MAP && RuleMatches(s, rule) && k in rule.adds
    ensures k in AI_KEYWORDS && k in VariantKeywords(s, VARIANT_MAP)
  {
    VariantKeywordsMember(s, VARIANT_MAP, k);
  }

  /** Neither a keyword nor an alias can match the empty text. */
  lemma NothingInEmptyText()
    ensures FoundKeywords("") == {}
  {
    forall k ensures k !in VariantKeywords("", VARIANT_MAP) {
      VariantKeywordsMember("", VARIANT_MAP, k);
    }
  }

  /** Found labels exist exactly when a keyword occurs as a whole word or an alias pattern matches. */
  lemma SomeKeywordFound(text: Option<string>)
    ensures |KeywordsOf(text)| > 0 <==>
              text.Some? && (DirectKeywords(text.value) != {}
                             || exists rule :: rule in VARIANT_MAP && RuleMatches(text.value, rule))
  {
    if text.Some? {
      var s := text.value;
      forall rule | rule in VARIANT_MAP && RuleMatches(s, rule)
        ensures rule.adds[0] in FoundKeywords(s)
      {
        AliasAdds(s, rule, rule.adds[0]);
      }
      if s == "" {
        NothingInEmptyText();
      }
      if |KeywordsOf(text)| > 0 {
        var k := KeywordsOf(text)[0];
        assert k in FoundKeywords(s);
        VariantKeywordsMember(s, VARIANT_MAP, k);
      }
    }
  }

  /** `is_ai_related(text)`: `find_ai_keywords(text)` is non-empty. */
  function IsAiRelated(text: Option<string>): (r: bool)
    ensures r <==> text.Some? && (DirectKeywords(text.value) != {}
                                  || exists rule :: rule in VARIANT_MAP && RuleMatches(text.value, rule))
  {
    SomeKeywordFound(text);
    |KeywordsOf(text)| > 0
  }

  // ----- Word boundaries -----

  /** `lit` occurs at `i`, ignoring case, with a non-word character or the string's edge on each side. */
  predicate OccursAsWord(s: string, lit: string, i: nat) {
    && i + |lit| <= |s|
    && (forall j :: 0 <= j < |lit| ==> Lower(s[i + j]) == Lower(lit[j]))
    && (i == 0 || !IsWordChar(s[i - 1]))
    && (i + |lit| == |s| || !IsWordChar(s[i + |lit|]))
  }

  predicate WordAtBothEnds(lit: string) {
    |lit| > 0 && IsWordChar(lit[0]) && IsWordChar(lit[|lit| - 1])
  }

  lemma LowerKeepsWordness(c: char)
    ensures IsWordChar(Lower(c)) == IsWordChar(c)
  {
  }

  /**
   * For a literal that begins and ends with a word character, `\b<lit>\b`
   * matches exactly where the literal stands between non-word characters or
   * string edges.
   */
  lemma MatchIffWholeWord(s: string, lit: string, i: nat)
    requires WordAtBothEnds(lit)
    ensures MatchesAt(s, lit, i) <==> OccursAsWord(s, lit, i)
  {
    if i + |lit| <= |s| && forall j :: 0 <= j < |lit| ==> Lower(s[i + j]) == Lower(lit[j]) {
      LowerKeepsWordness(s[i]);
      LowerKeepsWordness(lit[0]);
      LowerKeepsWordness(s[i + |lit| - 1]);
      LowerKeepsWordness(lit[|lit| - 1]);
      assert Lower(s[i]) == Lower(lit[0]);
      assert Lower(s[i + |lit| - 1]) == Lower(lit[|lit| - 1]);
    }
  }

  lemma VocabularyIsWordDelimited()
    ensures forall k :: k in AI_KEYWORDS ==> WordAtBothEnds(k)
    ensures forall rule, alt :: rule in VARIANT_MAP && alt in rule.alternatives ==> WordAtBothEnds(alt)
  {
    forall i | 0 <= i < |AI_KEYWORDS| ensures WordAtBothEnds(AI_KEYWORDS[i]) {
    }
  }

  /** The labels that some alias rule can add. */
  const ALIAS_LABELS: set<string> := {"llm", "large language model", "machine learning", "dall-e", "dalle"}

  /**
   * A canonical keyword that no alias adds is returned exactly when it occurs
   * as a whole word, ignoring case.
   */
  lemma {:induction false} DirectKeywordIff(s: string, k: string)
    requires k in AI_KEYWORDS && k !in ALIAS_LABELS
    ensures k in KeywordsOf(Some(s)) <==> exists i: nat :: OccursAsWord(s, k, i)
  {
    VocabularyIsWordDelimited();
    VariantKeywordsMember(s, VARIANT_MAP, k);
    assert k !in VariantKeywords(s, VARIANT_MAP) by {
      forall rule | rule in VARIANT_MAP ensures k !in rule.adds {
      }
    }
    if exists i: nat :: OccursAsWord(s, k, i) {
      var i: nat :| OccursAsWord(s, k, i);
      MatchIffWholeWord(s, k, i);
    }
    if Search(s, k) {
      var i: nat :| i + |k| <= |s| && MatchesAt(s, k, i);
      MatchIffWholeWord(s, k, i);
    }
  }

  /** Also for the alias labels: a whole-word occurrence is always returned. */
  lemma WholeWordIsFound(s: string, k: string, i: nat)
    requires k in AI_KEYWORDS && OccursAsWord(s, k, i)
    ensures k in KeywordsOf(Some(s))
  {
    VocabularyIsWordDelimited();
    MatchIffWholeWord(s, k, i);
  }

  // ----- The alias table -----

  /** A whole-word "llm" or "llms", in any case, adds both "llm" and "large language model". */
  lemma LlmAlias(s: string, i: nat)
    requires OccursAsWord(s, "llm", i) || OccursAsWord(s, "llms", i)
    ensures "llm" in KeywordsOf(Some(s)) && "large language model" in KeywordsOf(Some(s))
  {
    var rule := VARIANT_MAP[0];
    if OccursAsWord(s, "llm", i) {
      MatchIffWholeWord(s, "llm", i);
      assert Search(s, rule.alternatives[0]);
    } else {
      MatchIffWholeWord(s, "llms", i);
      assert Search(s, rule.alternatives[1]);
    }
    assert rule in VARIANT_MAP && RuleMatches(s, rule);
    AliasAdds(s, rule, "llm");
    AliasAdds(s, rule, "large language model");
  }

  /** A whole-word "ml", in any case, adds "machine learning". */
  lemma MlAlias(s: string, i: nat)
    requires OccursAsWord(s, "ml", i)
    ensures "machine learning" in KeywordsOf(Some(s))
  {
    var rule := VARIANT_MAP[1];
    MatchIffWholeWord(s, "ml", i);
    assert Search(s, rule.alternatives[0]);
    assert rule in VARIANT_MAP && RuleMatches(s, rule);
    AliasAdds(s, rule, rule.adds[0]);
  }

  /** A whole-word "dall-e", in any case, adds both "dall-e" and "dalle". */
  lemma DallEAlias(s: string, i: nat)
    requires OccursAsWord(s, "dall-e", i)
    ensures "dall-e" in KeywordsOf(Some(s)) && "dalle" in KeywordsOf(Some(s))
  {
    var rule := VARIANT_MAP[2];
    MatchIffWholeWord(s, "dall-e", i);
    assert Search(s, rule.alternatives[0]);
    assert rule in VARIANT_MAP && RuleMatches(s, rule);
    AliasAdds(s, rule, rule.adds[0]);
    AliasAdds(s, rule, rule.adds[1]);
  }
}
