/** The ingestion test scenario, proved about the model for any two titles. */
module TasksExamples {
  import opened Wrappers
  import opened HackerNews
  import opened Models
  import opened CacheBackend
  import opened IngestionSpec
  import KeywordDetector

  function Item(id: int, title: string): RawItem {
    RawItem(id, Some(title), None, Some(10), Some(5), Some("user"), Some(0))
  }

  /** Ids 1 and 2 are fetched with the given titles, any other id yields nothing. */
  function ScenarioFetch(title1: string, title2: string): int -> FetchOutcome {
    id => if id == 1 then Responded(Body(Some(Item(1, title1))))
          else if id == 2 then Responded(Body(Some(Item(2, title2))))
          else Responded(Body(None))
  }

  lemma ScenarioFetched(title1: string, title2: string, netloc: string -> string)
    ensures var f := ScenarioFetch(title1, title2);
      && Fetched(f(1), netloc).Some? && Fetched(f(1), netloc).value.id == 1 && Fetched(f(1), netloc).value.fields.title == title1
      && Fetched(f(1), netloc).value.keywords == KeywordDetector.KeywordsOf(Some(title1))
      && Fetched(f(1), netloc).value.fields.isAiRelated == KeywordDetector.IsAiRelated(Some(title1))
      && Fetched(f(2), netloc).Some? && Fetched(f(2), netloc).value.id == 2 && Fetched(f(2), netloc).value.fields.title == title2
      && Fetched(f(3), netloc).None?
  {
    var f := ScenarioFetch(title1, title2);
    assert f(1) == Responded(Body(Some(Item(1, title1))));
    assert GetStoryDetails(Body(Some(Item(1, title1))), netloc).Some?;
    assert f(2) == Responded(Body(Some(Item(2, title2))));
    assert GetStoryDetails(Body(Some(Item(2, title2))), netloc).Some?;
    assert f(3) == Responded(Body(None));
  }

  lemma ScenarioFetches(title1: string, title2: string, netloc: string -> string)
    ensures var results := Successes([1, 2, 3], ScenarioFetch(title1, title2), netloc);
      && |results| == 2
      && results[0].id == 1 && results[0].fields.title == title1
      && results[0].keywords == KeywordDetector.KeywordsOf(Some(title1))
      && results[0].fields.isAiRelated == KeywordDetector.IsAiRelated(Some(title1))
      && results[1].id == 2 && results[1].fields.title == title2
    ensures Failures([1, 2, 3], ScenarioFetch(title1, title2), netloc) == 1
  {
    var f := ScenarioFetch(title1, title2);
    ScenarioFetched(title1, title2, netloc);
    var p1 := Fetched(f(1), netloc).value;
    var p2 := Fetched(f(2), netloc).value;
    assert [1, 2, 3][..2] == [1, 2] && [1, 2][..1] == [1] && [1][..0] == [];
    assert Successes([1], f, netloc) == [p1];
    assert Successes([1, 2], f, netloc) == [p1, p2];
    assert Successes([1, 2, 3], f, netloc) == [p1, p2];
    assert Failures([1, 2], f, netloc) == 0;
  }

  /**
   * Story 1 is already stored and the fetch of story 3 yields nothing. The run
   * reports two processed, two new, none updated and one failed fetch; story 1
   * takes the new title and keeps the time it was first fetched.
   */
  lemma ReingestScenario(s: Store, entries: map<string, CacheValue>, supportsPattern: bool,
                         title1: string, title2: string, netloc: string -> string, now: int)
    requires Valid(s) && 1 in s.stories && 2 !in s.stories
    ensures var st := Run(s, entries, supportsPattern, RunInputs(Body([1, 2, 3]), ScenarioFetch(title1, title2), now, None), netloc);
      && st.result == Success(2, 2, 0, 1)
      && 1 in st.store.stories && 2 in st.store.stories
      && st.store.stories[1].title == title1 && st.store.stories[2].title == title2
      && st.store.stories[1].fetchedAt == s.stories[1].fetchedAt
      && st.store.stories[2].fetchedAt == now
  {
    var f := ScenarioFetch(title1, title2);
    assert GetTopStories(Body([1, 2, 3]), TOP_STORIES_LIMIT) == [1, 2, 3];
    ScenarioFetches(title1, title2, netloc);
    var results := Successes([1, 2, 3], f, netloc);
    var rows := RowsOf(results);
    ApplyRowsFields(s, rows, now, 0);
    ApplyRowsFields(s, rows, now, 1);
    ApplyRowsKeys(s, rows, now);
    assert rows[0].id == 1 && rows[1].id == 2;
    ApplyRowsTimes(s, rows, now, 1);
    ApplyRowsTimes(s, rows, now, 2);
    ApplyMentionsSet(ApplyRows(s, rows, now), MentionsOf(results));
  }

  /**
   * In the same scenario story 1 is AI-related exactly when its new title has
   * a keyword, and its mentions become its earlier ones plus one per keyword
   * of the new title; a story stored without mentions ends with exactly those.
   */
  lemma ReingestMentions(s: Store, entries: map<string, CacheValue>, supportsPattern: bool,
                         title1: string, title2: string, netloc: string -> string, now: int)
    requires Valid(s) && 1 in s.stories && 2 !in s.stories
    ensures var st := Run(s, entries, supportsPattern, RunInputs(Body([1, 2, 3]), ScenarioFetch(title1, title2), now, None), netloc);
      && 1 in st.store.stories
      && st.store.stories[1].isAiRelated == KeywordDetector.IsAiRelated(Some(title1))
      && forall k :: KeywordMention(k, 1) in st.store.mentions <==>
           KeywordMention(k, 1) in s.mentions || k in KeywordDetector.KeywordsOf(Some(title1))
  {
    var env := RunInputs(Body([1, 2, 3]), ScenarioFetch(title1, title2), now, None);
    assert GetTopStories(Body([1, 2, 3]), TOP_STORIES_LIMIT) == [1, 2, 3];
    ScenarioFetches(title1, title2, netloc);
    ReingestScenario(s, entries, supportsPattern, title1, title2, netloc, now);
    RunStoresRecord(s, entries, supportsPattern, env, netloc, 0);
  }
}
