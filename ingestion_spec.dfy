/**
 * What one ingestion run does, stated on values: which ids yield a record,
 * what the batch writes to the store and to the cache, and what the run
 * reports. The methods in `Tasks` are proved to do exactly this.
 */
module IngestionSpec {
  import opened Wrappers
  import KeywordDetector
  import opened HackerNews
  import opened Models
  import opened CacheBackend

  /** What the worker for one id ended with: an exception, or the client's response. */
  datatype FetchOutcome = Raised | Responded(response: Response<Option<RawItem>>)

  /** The record of one story, ready for the store and the cache. */
  datatype Prepared = Prepared(id: int, fields: StoryFields, cacheData: Details, keywords: seq<string>)

  /** One entry of the upsert list: the key and the column values. */
  datatype Row = Row(id: int, fields: StoryFields)

  /** A store call that raises: the `atCall`-th call of the transaction, counted from 0. */
  datatype Fault = Fault(atCall: nat, message: string)

  datatype RunResult =
    | Success(processedStories: nat, newStories: nat, updatedStories: nat, failedFetches: nat)
    | Failure(reason: string)

  datatype RunState = RunState(result: RunResult, store: Store, cache: map<string, CacheValue>)

  /** The world one run sees: the ranking response, each id's fetch, the clock, and a store fault if any. */
  datatype RunInputs = RunInputs(
    topStories: Response<seq<int>>,
    detailsOf: int -> FetchOutcome,
    now: int,
    fault: Option<Fault>)

  const NO_IDS_REASON := "No story IDs retrieved"
  const DB_FAILURE_PREFIX := "Database transaction failed: "

  // ----- Fetching -----

  /** `_fetch_and_process_story_details` after the client call: classify the title and split the record. */
  function PrepareStory(details: Option<Details>): (r: Option<Prepared>)
    ensures r.None? <==> details.None?
    ensures r.Some? ==>
      var d := details.value;
      && r.value.id == d.id
      && r.value.cacheData == d
      && r.value.keywords == KeywordDetector.KeywordsOf(Some(d.title))
      && r.value.fields == StoryFields(d.title, Some(d.url), d.domain, d.score, d.commentsCount,
                                       d.author, d.timestamp, KeywordDetector.IsAiRelated(Some(d.title)))
      && (r.value.fields.isAiRelated <==> |r.value.keywords| > 0)
  {
    match details
    case None => None
    case Some(d) =>
      var keywords := if d.title != "" then KeywordDetector.KeywordsOf(Some(d.title)) else [];
      Some(Prepared(
        d.id,
        StoryFields(d.title, Some(d.url), d.domain, d.score, d.commentsCount, d.author, d.timestamp, |keywords| > 0),
        d,
        keywords))
  }

  /** The record one worker contributes, or none when it failed. */
  function Fetched(outcome: FetchOutcome, netloc: string -> string): Option<Prepared> {
    match outcome
    case Raised => None
    case Responded(response) => PrepareStory(GetStoryDetails(response, netloc))
  }

  /** The records of the ids that were fetched, in ranking order. */
  function Successes(ids: seq<int>, detailsOf: int -> FetchOutcome, netloc: string -> string): seq<Prepared> {
    if ids == [] then []
    else
      var earlier := Successes(ids[..|ids| - 1], detailsOf, netloc);
      match Fetched(detailsOf(ids[|ids| - 1]), netloc)
      case Some(p) => earlier + [p]
      case None => earlier
  }

  /** The number of ids whose worker raised or returned nothing. */
  function Failures(ids: seq<int>, detailsOf: int -> FetchOutcome, netloc: string -> string): nat {
    if ids == [] then 0
    else Failures(ids[..|ids| - 1], detailsOf, netloc) + if Fetched(detailsOf(ids[|ids| - 1]), netloc).None? then 1 else 0
  }

  /** Every id is either a success or a failed fetch. */
  lemma {:induction false} FetchAccounting(ids: seq<int>, detailsOf: int -> FetchOutcome, netloc: string -> string)
    ensures |Successes(ids, detailsOf, netloc)| + Failures(ids, detailsOf, netloc) == |ids|
  {
    if ids != [] {
      FetchAccounting(ids[..|ids| - 1], detailsOf, netloc);
    }
  }

  /** A record comes from the fetch of some id of the ranking. */
  lemma {:induction false} SuccessesFromIds(ids: seq<int>, detailsOf: int -> FetchOutcome, netloc: string -> string, p: Prepared)
    requires p in Successes(ids, detailsOf, netloc)
    ensures exists i :: 0 <= i < |ids| && Fetched(detailsOf(ids[i]), netloc) == Some(p)
  {
    var n := |ids| - 1;
    var earlier := Successes(ids[..n], detailsOf, netloc);
    if p in earlier {
      SuccessesFromIds(ids[..n], detailsOf, netloc, p);
      var i :| 0 <= i < n && Fetched(detailsOf(ids[..n][i]), netloc) == Some(p);
      assert ids[..n][i] == ids[i];
    } else {
      assert Fetched(detailsOf(ids[n]), netloc) == Some(p);
    }
  }

  /** A failed fetch does not stop the others: every fetched record is collected. */
  lemma {:induction false} SuccessesComplete(ids: seq<int>, detailsOf: int -> FetchOutcome, netloc: string -> string, i: nat)
    requires i < |ids| && Fetched(detailsOf(ids[i]), netloc).Some?
    ensures Fetched(detailsOf(ids[i]), netloc).value in Successes(ids, detailsOf, netloc)
  {
    var n := |ids| - 1;
    if i < n {
      assert ids[..n][i] == ids[i];
      SuccessesComplete(ids[..n], detailsOf, netloc, i);
    }
  }

  // ----- Staging -----

  /** The upsert list: one row per record, in the order the records were collected. */
  function RowsOf(results: seq<Prepared>): seq<Row> {
    seq(|results|, i requires 0 <= i < |results| => Row(results[i].id, results[i].fields))
  }

  /** The mentions one record contributes: each of its keywords with its id. */
  function MentionsFor(p: Prepared): seq<KeywordMention> {
    seq(|p.keywords|, i requires 0 <= i < |p.keywords| => KeywordMention(p.keywords[i], p.id))
  }

  /** The mention list: every found keyword of every record, record by record. */
  function MentionsOf(results: seq<Prepared>): seq<KeywordMention> {
    if results == [] then [] else MentionsOf(results[..|results| - 1]) + MentionsFor(results[|results| - 1])
  }

  /** One record's mentions are its found keywords, each with its id. */
  lemma MentionsForMembers(p: Prepared, m: KeywordMention)
    ensures m in MentionsFor(p) <==> m.storyId == p.id && m.keyword in p.keywords
  {
    if m in MentionsFor(p) {
      var i :| 0 <= i < |MentionsFor(p)| && MentionsFor(p)[i] == m;
      assert m.keyword == p.keywords[i];
    }
    if m.storyId == p.id && m.keyword in p.keywords {
      var i :| 0 <= i < |p.keywords| && p.keywords[i] == m.keyword;
      assert MentionsFor(p)[i] == m;
    }
  }

  lemma {:induction false} MentionsOfMembers(results: seq<Prepared>, m: KeywordMention)
    ensures m in MentionsOf(results) <==> exists p :: p in results && m.storyId == p.id && m.keyword in p.keywords
  {
    if results != [] {
      var n := |results| - 1;
      var earlier, last := results[..n], results[n];
      MentionsOfMembers(earlier, m);
      MentionsForMembers(last, m);
      assert MentionsOf(results) == MentionsOf(earlier) + MentionsFor(last);
      assert forall p :: p in results <==> p in earlier || p == last by {
        assert results == earlier + [last];
      }
    }
  }

  /** Staging one more record extends each list and makes one more cache write. */
  lemma StagingStep(entries: map<string, CacheValue>, results: seq<Prepared>, i: nat)
    requires i < |results|
    ensures RowsOf(results[..i + 1]) == RowsOf(results[..i]) + [Row(results[i].id, results[i].fields)]
    ensures MentionsOf(results[..i + 1]) == MentionsOf(results[..i]) + MentionsFor(results[i])
    ensures StagedCache(entries, results[..i + 1])
      == StagedCache(entries, results[..i])[StoryKey(results[i].id) := StoryRecord(results[i].cacheData)]
  {
    assert results[..i + 1][..i] == results[..i];
  }

  /** The cache after the staging loop: `story_<id>` set to each record in turn. */
  function StagedCache(entries: map<string, CacheValue>, results: seq<Prepared>): map<string, CacheValue> {
    if results == [] then entries
    else
      var last := results[|results| - 1];
      StagedCache(entries, results[..|results| - 1])[StoryKey(last.id) := StoryRecord(last.cacheData)]
  }

  /** Staging adds one `story_` key per record and keeps every key it found. */
  lemma {:induction false} StagedCacheKeys(entries: map<string, CacheValue>, results: seq<Prepared>)
    ensures forall k :: k in StagedCache(entries, results) <==>
      k in entries || exists p :: p in results && k == StoryKey(p.id)
  {
    if results != [] {
      var n := |results| - 1;
      StagedCacheKeys(entries, results[..n]);
      assert forall p :: p in results <==> p in results[..n] || p == results[n] by {
        assert results == results[..n] + [results[n]];
      }
    }
  }

  /** Staging changes no entry outside the `story_` keys. */
  lemma {:induction false} StagedCacheOthers(entries: map<string, CacheValue>, results: seq<Prepared>, k: string)
    requires !IsPrefix(STORY_KEY_PREFIX, k)
    ensures k in StagedCache(entries, results) <==> k in entries
    ensures k in entries ==> StagedCache(entries, results)[k] == entries[k]
  {
    if results != [] {
      StagedCacheOthers(entries, results[..|results| - 1], k);
    }
  }

  /** Staging under an arbitrary key function, for reasoning that needs only the function's values. */
  function StagedUnder<K>(entries: map<K, CacheValue>, results: seq<Prepared>, key: int -> K): map<K, CacheValue> {
    if results == [] then entries
    else
      var last := results[|results| - 1];
      StagedUnder(entries, results[..|results| - 1], key)[key(last.id) := StoryRecord(last.cacheData)]
  }

  lemma {:induction false} StagedUnderStoryKey(entries: map<string, CacheValue>, results: seq<Prepared>)
    ensures StagedUnder(entries, results, StoryKey) == StagedCache(entries, results)
  {
    if results != [] {
      StagedUnderStoryKey(entries, results[..|results| - 1]);
    }
  }

  lemma {:induction false} LatestUnder<K>(entries: map<K, CacheValue>, results: seq<Prepared>, i: nat, key: int -> K)
    requires i < |results|
    requires forall j :: i < j < |results| ==> key(results[j].id) != key(results[i].id)
    ensures key(results[i].id) in StagedUnder(entries, results, key)
    ensures StagedUnder(entries, results, key)[key(results[i].id)] == StoryRecord(results[i].cacheData)
    decreases |results|
  {
    var n := |results| - 1;
    if i < n {
      var earlier := results[..n];
      assert earlier[i] == results[i];
      forall j | i < j < |earlier| ensures key(earlier[j].id) != key(earlier[i].id) {
        assert earlier[j] == results[j];
      }
      LatestUnder(entries, earlier, i, key);
    }
  }

  /** After staging, a story's key holds the last record fetched for that id. */
  lemma StagedCacheLatest(entries: map<string, CacheValue>, results: seq<Prepared>, i: nat)
    requires i < |results|
    requires forall j :: i < j < |results| ==> results[j].id != results[i].id
    ensures StoryKey(results[i].id) in StagedCache(entries, results)
    ensures StagedCache(entries, results)[StoryKey(results[i].id)] == StoryRecord(results[i].cacheData)
  {
    forall j | i < j < |results| ensures StoryKey(results[j].id) != StoryKey(results[i].id) {
      StoryKeysDiffer(results[j].id, results[i].id);
    }
    StagedUnderStoryKey(entries, results);
    LatestUnder(entries, results, i, StoryKey);
  }

  /** The last staging write touches only its own key. */
  lemma StagedCacheStep(entries: map<string, CacheValue>, results: seq<Prepared>, k: string)
    requires |results| > 0 && k != StoryKey(results[|results| - 1].id)
    ensures k in StagedCache(entries, results) <==> k in StagedCache(entries, results[..|results| - 1])
    ensures k in StagedCache(entries, results) ==> StagedCache(entries, results)[k] == StagedCache(entries, results[..|results| - 1])[k]
  {
  }

  // ----- The transaction -----

  /** A domain the code treats as present: not `None` and not empty. */
  predicate HasDomain(f: StoryFields) {
    f.domain.Some? && f.domain.value != ""
  }

  /** One pass of the upsert loop: the story, then, for a story with a domain, that domain's count. */
  function ApplyRow(s: Store, row: Row, now: int): Store {
    var t := UpsertStory(s, row.id, row.fields, now);
    if HasDomain(row.fields) then IncrementDomain(EnsureDomain(t, row.fields.domain.value), row.fields.domain.value)
    else t
  }

  function ApplyRows(s: Store, rows: seq<Row>, now: int): Store {
    if rows == [] then s else ApplyRow(ApplyRows(s, rows[..|rows| - 1], now), rows[|rows| - 1], now)
  }

  function ApplyMentions(s: Store, ms: seq<KeywordMention>): Store {
    if ms == [] then s else AddMention(ApplyMentions(s, ms[..|ms| - 1]), ms[|ms| - 1])
  }

  /** The store after a committed transaction. */
  function Ingested(s: Store, rows: seq<Row>, ms: seq<KeywordMention>, now: int): Store {
    ApplyMentions(ApplyRows(s, rows, now), ms)
  }

  /** Store calls one row makes: the upsert, and get-or-create plus increment for a domain. */
  function RowCalls(row: Row): nat {
    if HasDomain(row.fields) then 3 else 1
  }

  function RowsCalls(rows: seq<Row>): nat {
    if rows == [] then 0 else RowsCalls(rows[..|rows| - 1]) + RowCalls(rows[|rows| - 1])
  }

  /** Every store call of the transaction, the mentions' get-or-create calls last. */
  function StoreCalls(rows: seq<Row>, ms: seq<KeywordMention>): nat {
    RowsCalls(rows) + |ms|
  }

  /** Whether the fault strikes one of the first `calls` store calls. */
  predicate Strikes(fault: Option<Fault>, calls: nat) {
    fault.Some? && fault.value.atCall < calls
  }

  lemma {:induction false} RowsCallsPrefix(rows: seq<Row>, i: nat)
    requires i <= |rows|
    ensures RowsCalls(rows[..i]) <= RowsCalls(rows)
  {
    if i < |rows| {
      var n := |rows| - 1;
      assert rows[..i] == rows[..n][..i];
      RowsCallsPrefix(rows[..n], i);
    } else {
      assert rows[..i] == rows;
    }
  }

  function RowIds(rows: seq<Row>): set<int> {
    set r | r in rows :: r.id
  }

  /** The number of rows whose domain is `d`. */
  function DomainHits(rows: seq<Row>, d: string): nat {
    if rows == [] then 0
    else DomainHits(rows[..|rows| - 1], d) + if rows[|rows| - 1].fields.domain == Some(d) then 1 else 0
  }

  /** The upsert loop adds the batch's ids, leaves other stories alone and never touches mentions. */
  lemma {:induction false} ApplyRowsKeys(s: Store, rows: seq<Row>, now: int)
    ensures ApplyRows(s, rows, now).stories.Keys == s.stories.Keys + RowIds(rows)
    ensures forall id :: id in s.stories && id !in RowIds(rows) ==> ApplyRows(s, rows, now).stories[id] == s.stories[id]
    ensures ApplyRows(s, rows, now).mentions == s.mentions
  {
    if rows != [] {
      var n := |rows| - 1;
      ApplyRowsKeys(s, rows[..n], now);
      assert RowIds(rows) == RowIds(rows[..n]) + {rows[n].id} by {
        assert rows == rows[..n] + [rows[n]];
      }
    }
  }

  /** A batch story sits under its id, was updated now, and keeps its first-fetch time. */
  lemma {:induction false} ApplyRowsTimes(s: Store, rows: seq<Row>, now: int, id: int)
    requires id in ApplyRows(s, rows, now).stories
    requires Valid(s) || id !in s.stories
    ensures ApplyRows(s, rows, now).stories[id].fetchedAt == if id in s.stories then s.stories[id].fetchedAt else now
    ensures ApplyRows(s, rows, now).stories[id].id == id
    ensures id in RowIds(rows) ==> ApplyRows(s, rows, now).stories[id].updatedAt == now
  {
    if rows != [] {
      var n := |rows| - 1;
      var prev := ApplyRows(s, rows[..n], now);
      if id != rows[n].id {
        ApplyRowsTimes(s, rows[..n], now, id);
        assert RowIds(rows) == RowIds(rows[..n]) + {rows[n].id} by {
          assert rows == rows[..n] + [rows[n]];
        }
      } else if id in prev.stories {
        ApplyRowsTimes(s, rows[..n], now, id);
      } else {
        ApplyRowsKeys(s, rows[..n], now);
      }
    }
  }

  /** A batch story holds the column values of the last row with its id. */
  lemma {:induction false} ApplyRowsFields(s: Store, rows: seq<Row>, now: int, i: nat)
    requires i < |rows|
    requires forall j :: i < j < |rows| ==> rows[j].id != rows[i].id
    ensures rows[i].id in ApplyRows(s, rows, now).stories
    ensures StoryFieldsOf(ApplyRows(s, rows, now).stories[rows[i].id]) == rows[i].fields
  {
    var n := |rows| - 1;
    if i < n {
      assert rows[..n][i] == rows[i];
      ApplyRowsFields(s, rows[..n], now, i);
    }
  }

  /** Each row with domain `d` raises `d`'s count by one, creating the row at zero first. */
  lemma {:induction false} ApplyRowsDomains(s: Store, rows: seq<Row>, now: int)
    ensures forall d :: d != "" ==> DomainCount(ApplyRows(s, rows, now), d) == DomainCount(s, d) + DomainHits(rows, d)
    ensures forall d :: d != "" ==> (d in ApplyRows(s, rows, now).domainCounts <==> d in s.domainCounts || DomainHits(rows, d) > 0)
    ensures "" in ApplyRows(s, rows, now).domainCounts <==> "" in s.domainCounts
    ensures DomainCount(ApplyRows(s, rows, now), "") == DomainCount(s, "")
  {
    if rows != [] {
      ApplyRowsDomains(s, rows[..|rows| - 1], now);
    }
  }

  /** The mention loop adds exactly the listed pairs; a pair already stored is not duplicated. */
  lemma {:induction false} ApplyMentionsSet(s: Store, ms: seq<KeywordMention>)
    ensures ApplyMentions(s, ms).mentions == s.mentions + set m | m in ms
    ensures ApplyMentions(s, ms).stories == s.stories && ApplyMentions(s, ms).domainCounts == s.domainCounts
  {
    if ms != [] {
      var n := |ms| - 1;
      ApplyMentionsSet(s, ms[..n]);
      assert (set m | m in ms) == (set m | m in ms[..n]) + {ms[n]} by {
        assert ms == ms[..n] + [ms[n]];
      }
    }
  }

  lemma {:induction false} ApplyRowsValid(s: Store, rows: seq<Row>, now: int)
    requires Valid(s)
    ensures Valid(ApplyRows(s, rows, now))
  {
    if rows != [] {
      ApplyRowsValid(s, rows[..|rows| - 1], now);
    }
  }

  lemma {:induction false} ApplyMentionsValid(s: Store, ms: seq<KeywordMention>)
    requires Valid(s)
    requires forall m :: m in ms ==> m.storyId in s.stories
    ensures Valid(ApplyMentions(s, ms))
  {
    if ms != [] {
      var n := |ms| - 1;
      ApplyMentionsValid(s, ms[..n]);
      ApplyMentionsSet(s, ms[..n]);
    }
  }

  /** Every mention of the batch refers to a story of the batch. */
  lemma MentionsReferToRows(results: seq<Prepared>)
    ensures forall m :: m in MentionsOf(results) ==> m.storyId in RowIds(RowsOf(results))
  {
    forall m | m in MentionsOf(results) ensures m.storyId in RowIds(RowsOf(results)) {
      MentionsOfMembers(results, m);
      var p :| p in results && m.storyId == p.id && m.keyword in p.keywords;
      var i :| 0 <= i < |results| && results[i] == p;
      assert RowsOf(results)[i].id == m.storyId;
    }
  }

  /** A committed batch keeps the store's keys and references intact. */
  lemma IngestedValid(s: Store, rows: seq<Row>, ms: seq<KeywordMention>, now: int)
    requires Valid(s)
    requires forall m :: m in ms ==> m.storyId in RowIds(rows)
    ensures Valid(Ingested(s, rows, ms, now))
  {
    ApplyRowsValid(s, rows, now);
    ApplyRowsKeys(s, rows, now);
    ApplyMentionsValid(ApplyRows(s, rows, now), ms);
  }

  // ----- Cache invalidation -----

  const STORIES_LIST_KEY := "stories_list"
  const AI_KEYWORDS_KEY := "ai_keywords"
  const TOP_DOMAINS_KEY := "top_domains"
  const STORIES_LIST_PREFIX := "stories_list_"
  const TOP_DOMAINS_PREFIX := "top_domains_limit_"

  /** The cache after the invalidation step of a successful run. */
  function Invalidated(entries: map<string, CacheValue>, supportsPattern: bool): map<string, CacheValue> {
    if supportsPattern then
      WithoutPrefix(WithoutPrefix(WithoutPrefix(entries, STORIES_LIST_PREFIX), STORY_KEY_PREFIX) - {AI_KEYWORDS_KEY}, TOP_DOMAINS_PREFIX)
    else
      entries - {STORIES_LIST_KEY, AI_KEYWORDS_KEY, TOP_DOMAINS_KEY}
  }

  /** Invalidation removes exactly the listed keys, and changes no value it keeps. */
  lemma InvalidatedKeys(entries: map<string, CacheValue>, supportsPattern: bool)
    ensures forall k :: k in Invalidated(entries, supportsPattern) ==> k in entries && Invalidated(entries, supportsPattern)[k] == entries[k]
    ensures supportsPattern ==> forall k :: k in Invalidated(entries, supportsPattern) <==>
      k in entries && k != AI_KEYWORDS_KEY
      && !IsPrefix(STORIES_LIST_PREFIX, k) && !IsPrefix(STORY_KEY_PREFIX, k) && !IsPrefix(TOP_DOMAINS_PREFIX, k)
    ensures !supportsPattern ==> forall k :: k in Invalidated(entries, supportsPattern) <==>
      k in entries && k != STORIES_LIST_KEY && k != AI_KEYWORDS_KEY && k != TOP_DOMAINS_KEY
  {
  }

  /** As written, the pattern branch keeps the plain list and domain keys the read API uses. */
  lemma PatternKeepsPlainKeys(entries: map<string, CacheValue>)
    ensures STORIES_LIST_KEY in entries ==> STORIES_LIST_KEY in Invalidated(entries, true)
    ensures TOP_DOMAINS_KEY in entries ==> TOP_DOMAINS_KEY in Invalidated(entries, true)
  {
    assert !IsPrefix(STORIES_LIST_PREFIX, STORIES_LIST_KEY);
    assert !IsPrefix(STORY_KEY_PREFIX, STORIES_LIST_KEY) by { assert STORIES_LIST_KEY[4] != STORY_KEY_PREFIX[4]; }
    assert !IsPrefix(TOP_DOMAINS_PREFIX, TOP_DOMAINS_KEY);
    assert !IsPrefix(STORY_KEY_PREFIX, TOP_DOMAINS_KEY) by { assert TOP_DOMAINS_KEY[0] != STORY_KEY_PREFIX[0]; }
  }

  // ----- The whole run -----

  /** `fetch_top_stories_logic`: the result, the store and the cache after one run. */
  function Run(s: Store, entries: map<string, CacheValue>, supportsPattern: bool, env: RunInputs, netloc: string -> string): (st: RunState)
    ensures st.result.Failure? ==> st.store == s
    ensures st.result.Success? ==>
      && st.result.newStories == st.result.processedStories
      && st.result.updatedStories == 0
      && st.result.processedStories + st.result.failedFetches == |GetTopStories(env.topStories, TOP_STORIES_LIMIT)|
  {
    var ids := GetTopStories(env.topStories, TOP_STORIES_LIMIT);
    if ids == [] then RunState(Failure(NO_IDS_REASON), s, entries)
    else
      var results := Successes(ids, env.detailsOf, netloc);
      var staged := StagedCache(entries, results);
      var rows := RowsOf(results);
      var ms := MentionsOf(results);
      if Strikes(env.fault, StoreCalls(rows, ms)) then
        RunState(Failure(DB_FAILURE_PREFIX + env.fault.value.message), s, staged)
      else
        FetchAccounting(ids, env.detailsOf, netloc);
        RunState(Success(|rows|, |rows|, 0, Failures(ids, env.detailsOf, netloc)),
                 Ingested(s, rows, ms, env.now),
                 Invalidated(staged, supportsPattern))
  }

  /** No ids: the run fails at once and touches neither the store nor the cache. */
  lemma RunWithoutIds(s: Store, entries: map<string, CacheValue>, supportsPattern: bool, env: RunInputs, netloc: string -> string)
    requires GetTopStories(env.topStories, TOP_STORIES_LIMIT) == []
    ensures Run(s, entries, supportsPattern, env, netloc) == RunState(Failure(NO_IDS_REASON), s, entries)
  {
  }

  /**
   * A store fault rolls the whole transaction back, yet the `story_` entries
   * written before it stay in the cache; other entries keep their values.
   */
  lemma RunRollsBack(s: Store, entries: map<string, CacheValue>, supportsPattern: bool, env: RunInputs, netloc: string -> string)
    requires Run(s, entries, supportsPattern, env, netloc).result.Failure?
    ensures var st := Run(s, entries, supportsPattern, env, netloc);
      && st.store == s
      && (st.result.reason == NO_IDS_REASON || (env.fault.Some? && st.result.reason == DB_FAILURE_PREFIX + env.fault.value.message))
      && (forall p :: p in Successes(GetTopStories(env.topStories, TOP_STORIES_LIMIT), env.detailsOf, netloc) ==> StoryKey(p.id) in st.cache)
      && (forall k :: k in entries && !IsPrefix(STORY_KEY_PREFIX, k) ==> k in st.cache && st.cache[k] == entries[k])
  {
    var ids := GetTopStories(env.topStories, TOP_STORIES_LIMIT);
    var results := Successes(ids, env.detailsOf, netloc);
    StagedCacheKeys(entries, results);
    forall k | k in entries && !IsPrefix(STORY_KEY_PREFIX, k) ensures k in StagedCache(entries, results) && StagedCache(entries, results)[k] == entries[k] {
      StagedCacheOthers(entries, results, k);
    }
  }

  /** A successful run keeps the store valid. */
  lemma RunValid(s: Store, entries: map<string, CacheValue>, supportsPattern: bool, env: RunInputs, netloc: string -> string)
    requires Valid(s)
    ensures Valid(Run(s, entries, supportsPattern, env, netloc).store)
  {
    var ids := GetTopStories(env.topStories, TOP_STORIES_LIMIT);
    var results := Successes(ids, env.detailsOf, netloc);
    MentionsReferToRows(results);
    IngestedValid(s, RowsOf(results), MentionsOf(results), env.now);
  }

  /** A successful run commits the staged batch and invalidates the staged cache. */
  lemma RunCommits(s: Store, entries: map<string, CacheValue>, supportsPattern: bool, env: RunInputs, netloc: string -> string)
    requires Run(s, entries, supportsPattern, env, netloc).result.Success?
    ensures var results := Successes(GetTopStories(env.topStories, TOP_STORIES_LIMIT), env.detailsOf, netloc);
      && Run(s, entries, supportsPattern, env, netloc).store == Ingested(s, RowsOf(results), MentionsOf(results), env.now)
      && Run(s, entries, supportsPattern, env, netloc).cache == Invalidated(StagedCache(entries, results), supportsPattern)
  {
  }

  /**
   * After a successful run each found (keyword, story) pair is stored once,
   * earlier mentions stay, and every domain count rose by the batch's
   * stories with that domain, whether or not the story was new.
   */
  lemma RunEffects(s: Store, entries: map<string, CacheValue>, supportsPattern: bool, env: RunInputs, netloc: string -> string)
    requires Run(s, entries, supportsPattern, env, netloc).result.Success?
    ensures var st := Run(s, entries, supportsPattern, env, netloc);
      var results := Successes(GetTopStories(env.topStories, TOP_STORIES_LIMIT), env.detailsOf, netloc);
      && (forall m :: m in st.store.mentions <==>
            m in s.mentions || exists p :: p in results && m.storyId == p.id && m.keyword in p.keywords)
      && (forall d :: d != "" ==> DomainCount(st.store, d) == DomainCount(s, d) + DomainHits(RowsOf(results), d))
      && st.cache == Invalidated(StagedCache(entries, results), supportsPattern)
  {
    var ids := GetTopStories(env.topStories, TOP_STORIES_LIMIT);
    var results := Successes(ids, env.detailsOf, netloc);
    var rows := RowsOf(results);
    var ms := MentionsOf(results);
    RunCommits(s, entries, supportsPattern, env, netloc);
    ApplyRowsKeys(s, rows, env.now);
    ApplyRowsDomains(s, rows, env.now);
    ApplyMentionsSet(ApplyRows(s, rows, env.now), ms);
    forall m ensures m in MentionsOf(results) <==> exists p :: p in results && m.storyId == p.id && m.keyword in p.keywords {
      MentionsOfMembers(results, m);
    }
  }

  /**
   * After a successful run every id whose fetch yielded a record has that
   * record's story stored, with each of its found keywords mentioned.
   */
  lemma RunStoresFetched(s: Store, entries: map<string, CacheValue>, supportsPattern: bool, env: RunInputs,
                         netloc: string -> string, i: nat)
    requires Run(s, entries, supportsPattern, env, netloc).result.Success?
    requires var ids := GetTopStories(env.topStories, TOP_STORIES_LIMIT);
      i < |ids| && Fetched(env.detailsOf(ids[i]), netloc).Some?
    ensures var p := Fetched(env.detailsOf(GetTopStories(env.topStories, TOP_STORIES_LIMIT)[i]), netloc).value;
      var st := Run(s, entries, supportsPattern, env, netloc);
      && p.id in st.store.stories
      && forall k :: k in p.keywords ==> KeywordMention(k, p.id) in st.store.mentions
  {
    var ids := GetTopStories(env.topStories, TOP_STORIES_LIMIT);
    var results := Successes(ids, env.detailsOf, netloc);
    var rows := RowsOf(results);
    var ms := MentionsOf(results);
    var p := Fetched(env.detailsOf(ids[i]), netloc).value;
    SuccessesComplete(ids, env.detailsOf, netloc, i);
    RunCommits(s, entries, supportsPattern, env, netloc);
    var j :| 0 <= j < |results| && results[j] == p;
    assert rows[j] in rows && rows[j].id == p.id;
    ApplyRowsKeys(s, rows, env.now);
    ApplyMentionsSet(ApplyRows(s, rows, env.now), ms);
    forall k | k in p.keywords ensures KeywordMention(k, p.id) in ms {
      MentionsOfMembers(results, KeywordMention(k, p.id));
    }
  }

  /** A committed record whose id no other record shares is stored with its values and its mentions. */
  lemma IngestedRecord(s: Store, results: seq<Prepared>, now: int, j: nat)
    requires j < |results| && forall i :: 0 <= i < |results| && i != j ==> results[i].id != results[j].id
    ensures var t := Ingested(s, RowsOf(results), MentionsOf(results), now);
      && results[j].id in t.stories
      && StoryFieldsOf(t.stories[results[j].id]) == results[j].fields
      && forall k :: KeywordMention(k, results[j].id) in t.mentions <==>
           KeywordMention(k, results[j].id) in s.mentions || k in results[j].keywords
  {
    var rows := RowsOf(results);
    var ms := MentionsOf(results);
    var p := results[j];
    ApplyRowsFields(s, rows, now, j);
    ApplyRowsKeys(s, rows, now);
    ApplyMentionsSet(ApplyRows(s, rows, now), ms);
    forall k ensures KeywordMention(k, p.id) in ms <==> k in p.keywords {
      MentionsOfMembers(results, KeywordMention(k, p.id));
      if KeywordMention(k, p.id) in ms {
        var q :| q in results && p.id == q.id && k in q.keywords;
        var i :| 0 <= i < |results| && results[i] == q;
        assert i == j;
      }
    }
  }

  /**
   * After a successful run a record whose id no other record shares is stored
   * with its column values, and its story's mentions are the earlier ones plus
   * one per keyword found in its title.
   */
  lemma RunStoresRecord(s: Store, entries: map<string, CacheValue>, supportsPattern: bool, env: RunInputs,
                        netloc: string -> string, j: nat)
    requires Run(s, entries, supportsPattern, env, netloc).result.Success?
    requires var results := Successes(GetTopStories(env.topStories, TOP_STORIES_LIMIT), env.detailsOf, netloc);
      j < |results| && forall i :: 0 <= i < |results| && i != j ==> results[i].id != results[j].id
    ensures var p := Successes(GetTopStories(env.topStories, TOP_STORIES_LIMIT), env.detailsOf, netloc)[j];
      var st := Run(s, entries, supportsPattern, env, netloc);
      && p.id in st.store.stories
      && StoryFieldsOf(st.store.stories[p.id]) == p.fields
      && forall k :: KeywordMention(k, p.id) in st.store.mentions <==> KeywordMention(k, p.id) in s.mentions || k in p.keywords
  {
    var results := Successes(GetTopStories(env.topStories, TOP_STORIES_LIMIT), env.detailsOf, netloc);
    RunCommits(s, entries, supportsPattern, env, netloc);
    IngestedRecord(s, results, env.now, j);
  }

  /**
   * Committing the same batch twice stores the same mentions as once, but
   * counts each domain twice: the run is not idempotent.
   */
  lemma ReplayCountsTwice(s: Store, rows: seq<Row>, ms: seq<KeywordMention>, now: int, d: string)
    requires d != ""
    ensures Ingested(Ingested(s, rows, ms, now), rows, ms, now).mentions == Ingested(s, rows, ms, now).mentions
    ensures DomainCount(Ingested(Ingested(s, rows, ms, now), rows, ms, now), d) == DomainCount(s, d) + 2 * DomainHits(rows, d)
  {
    var once := Ingested(s, rows, ms, now);
    ApplyRowsKeys(s, rows, now);
    ApplyMentionsSet(ApplyRows(s, rows, now), ms);
    ApplyRowsKeys(once, rows, now);
    ApplyMentionsSet(ApplyRows(once, rows, now), ms);
    ApplyRowsDomains(s, rows, now);
    ApplyRowsDomains(once, rows, now);
  }
}
