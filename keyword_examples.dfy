/**
 * Two titles worked out through the model: "LLMs", which only the
 * `llms?` alias rule recognises, and "HTML", where `ml` sits inside a word.
 */
module KeywordExamples {
  import opened Wrappers
  import opened StringOrder
  import opened KeywordDetector

  /** The result for a non-empty text whose found labels are known. */
  lemma KeywordsOfIs(s: string, r: seq<string>)
    requires s != "" && StrictlySorted(r)
    requires forall x :: x in r <==> x in FoundKeywords(s)
    ensures KeywordsOf(Some(s)) == r
  {
    SortedListingUnique(KeywordsOf(Some(s)), r);
  }

  /** A pattern longer than the text cannot match it. */
  lemma NoMatchInShorter(s: string, lit: string)
    requires |lit| > |s|
    ensures !Search(s, lit)
  {
  }

  /** Only the keywords of at most four characters can occur in a four-character text. */
  lemma ShortVocabulary(k: string)
    requires k in AI_KEYWORDS && |k| <= 4
    ensures k == "bard" || k == "llm"
  {
  }

  lemma NoKeywordInLlms()
    ensures DirectKeywords("LLMs") == {}
  {
    var s := "LLMs";
    forall k | k in AI_KEYWORDS ensures !Search(s, k) {
      if |k| <= |s| {
        ShortVocabulary(k);
        assert !BoundaryAt(s, 3) && !BoundaryAt(s, 1);
        assert !MatchesAt(s, "bard", 0) by { assert Lower(s[0]) != Lower("bard"[0]); }
      } else {
        NoMatchInShorter(s, k);
      }
    }
  }

  lemma OnlyLlmRuleMatchesLlms()
    ensures RuleMatches("LLMs", VARIANT_MAP[0])
    ensures !RuleMatches("LLMs", VARIANT_MAP[1]) && !RuleMatches("LLMs", VARIANT_MAP[2])
  {
    var s := "LLMs";
    assert VARIANT_MAP[1].alternatives == ["ml"] && VARIANT_MAP[2].alternatives == ["dall-e"];
    assert !BoundaryAt(s, 1) && !BoundaryAt(s, 2);
    assert !MatchesAt(s, "ml", 2) by { assert Lower(s[3]) != 'l'; }
    NoMatchInShorter(s, "dall-e");
    assert MatchesAt(s, "llms", 0);
    assert Search(s, "llms");
    assert VARIANT_MAP[0].alternatives[1] == "llms";
  }

  /** The alias pass over three rules is the union of what each adds. */
  lemma ThreeRules(s: string, rules: seq<VariantRule>)
    requires |rules| == 3
    ensures VariantKeywords(s, rules) == RuleAdds(s, rules[0]) + RuleAdds(s, rules[1]) + RuleAdds(s, rules[2])
  {
    assert rules[..2][..1] == rules[..1] && rules[..1][..0] == [];
    assert VariantKeywords(s, rules[..1]) == RuleAdds(s, rules[0]);
    assert VariantKeywords(s, rules[..2]) == RuleAdds(s, rules[0]) + RuleAdds(s, rules[1]);
  }

  lemma LlmsAliases()
    ensures VariantKeywords("LLMs", VARIANT_MAP) == {"llm", "large language model"}
  {
    var s := "LLMs";
    OnlyLlmRuleMatchesLlms();
    ThreeRules(s, VARIANT_MAP);
    assert "llm" in AI_KEYWORDS && "large language model" in AI_KEYWORDS;
    assert RuleAdds(s, VARIANT_MAP[0]) == {"llm", "large language model"};
  }

  /** "LLMs" does not contain the keyword "llm" as a word, yet the alias adds it. */
  lemma LlmsExample()
    ensures !Search("LLMs", "llm")
    ensures KeywordsOf(Some("LLMs")) == ["large language model", "llm"]
  {
    NoKeywordInLlms();
    LlmsAliases();
    var r := ["large language model", "llm"];
    assert Less(r[0], r[1]);
    KeywordsOfIs("LLMs", r);
  }

  lemma NoKeywordInHtml()
    ensures DirectKeywords("HTML") == {}
  {
    var s := "HTML";
    forall k | k in AI_KEYWORDS ensures !Search(s, k) {
      if |k| <= |s| {
        ShortVocabulary(k);
        assert !BoundaryAt(s, 1);
        assert !MatchesAt(s, k, 0) by { assert Lower(s[0]) != Lower(k[0]); }
      } else {
        NoMatchInShorter(s, k);
      }
    }
  }

  lemma NoAliasInHtml()
    ensures VariantKeywords("HTML", VARIANT_MAP) == {}
  {
    var s := "HTML";
    assert !BoundaryAt(s, 1) && !BoundaryAt(s, 2) && !BoundaryAt(s, 3);
    assert !MatchesAt(s, "llm", 0) && !MatchesAt(s, "llms", 0) && !MatchesAt(s, "ml", 0) by {
      assert Lower(s[0]) == 'h' && "llm"[0] == 'l' && "llms"[0] == 'l' && "ml"[0] == 'm';
    }
    NoMatchInShorter(s, "dall-e");
    forall rule | rule in VARIANT_MAP ensures !RuleMatches(s, rule) {
    }
    forall k ensures k !in VariantKeywords(s, VARIANT_MAP) {
      VariantKeywordsMember(s, VARIANT_MAP, k);
    }
  }

  /** Boundary safety: the letters "ml" inside "HTML" are not the abbreviation "ML". */
  lemma HtmlExample()
    ensures KeywordsOf(Some("HTML")) == []
  {
    NoKeywordInHtml();
    NoAliasInHtml();
    var r := KeywordsOf(Some("HTML"));
    assert FoundKeywords("HTML") == {};
    if r != [] {
      HeadIsElement(r);
      assert false;
    }
  }
}
