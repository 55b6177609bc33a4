/**
 * The ingestion run as the code performs it: the fetch loop with its failure
 * counter, the staging loop that builds the upsert and mention lists and
 * writes each record to the cache, the transaction with its rollback, and the
 * cache invalidation. Each method is proved to do what `IngestionSpec` says.
 */
module Tasks {
  import opened Wrappers
  import opened HackerNews
  import opened Models
  import opened CacheBackend
  import opened IngestionSpec

  /**
   * The fetch loop. Workers run one per id in any order; here they are taken
   * in ranking order, which fixes the order of the results.
   */
  method FetchAll(ids: seq<int>, detailsOf: int -> FetchOutcome, netloc: string -> string)
    returns (results: seq<Prepared>, failed: nat)
    ensures results == Successes(ids, detailsOf, netloc)
    ensures failed == Failures(ids, detailsOf, netloc)
  {
    results, failed := [], 0;
    for i := 0 to |ids|
      invariant results == Successes(ids[..i], detailsOf, netloc)
      invariant failed == Failures(ids[..i], detailsOf, netloc)
    {
      assert ids[..i + 1][..i] == ids[..i];
      match detailsOf(ids[i])
      case Raised =>
        failed := failed + 1;
      case Responded(response) =>
        var data := PrepareStory(GetStoryDetails(response, netloc));
        if data.Some? {
          results := results + [data.value];
        } else {
          failed := failed + 1;
        }
    }
    assert ids[..|ids|] == ids;
  }

  /** The inner staging loop: one mention per keyword found in the record. */
  method AppendMentions(mentions: seq<KeywordMention>, p: Prepared) returns (ms: seq<KeywordMention>)
    ensures ms == mentions + MentionsFor(p)
  {
    ms := mentions;
    for k := 0 to |p.keywords|
      invariant ms == mentions + MentionsFor(p)[..k]
    {
      assert MentionsFor(p)[..k + 1] == MentionsFor(p)[..k] + [KeywordMention(p.keywords[k], p.id)];
      ms := ms + [KeywordMention(p.keywords[k], p.id)];
    }
    assert MentionsFor(p)[..|p.keywords|] == MentionsFor(p);
  }

  /** The staging loop: the upsert list, the mention list, and a cache write per record. */
  method StageBatch(results: seq<Prepared>, cache: Cache) returns (rows: seq<Row>, mentions: seq<KeywordMention>)
    modifies cache
    ensures rows == RowsOf(results) && mentions == MentionsOf(results)
    ensures cache.entries == StagedCache(old(cache.entries), results)
  {
    rows, mentions := [], [];
    for i := 0 to |results|
      invariant rows == RowsOf(results[..i])
      invariant mentions == MentionsOf(results[..i])
      invariant cache.entries == StagedCache(old(cache.entries), results[..i])
    {
      var p := results[i];
      StagingStep(old(cache.entries), results, i);
      rows := rows + [Row(p.id, p.fields)];
      mentions := AppendMentions(mentions, p);
      cache.Set(StoryKey(p.id), StoryRecord(p.cacheData));
    }
    assert results[..|results|] == results;
  }

  /** Whether the store call numbered `call` raises. */
  predicate RaisesAt(fault: Option<Fault>, call: nat) {
    fault.Some? && fault.value.atCall == call
  }

  /** Leaving the transaction by an exception: the store goes back to its state at the start. */
  method Abort(db: Database, saved: Store, fault: Option<Fault>) returns (failure: Option<string>)
    requires fault.Some?
    modifies db
    ensures db.Value() == saved
    ensures failure == Some(DB_FAILURE_PREFIX + fault.value.message)
  {
    db.Restore(saved);
    failure := Some(DB_FAILURE_PREFIX + fault.value.message);
  }

  /**
   * The story loop of the transaction. Every upserted story counts as new:
   * the code tests the pair that `update_or_create` returns, and a non-empty
   * pair is always true, so the `created` flag inside it is never consulted.
   */
  method PersistRows(db: Database, saved: Store, rows: seq<Row>, now: int, fault: Option<Fault>)
    returns (failure: Option<string>, newCount: nat, updatedCount: int, processed: nat)
    requires db.Value() == saved
    modifies db
    ensures Strikes(fault, RowsCalls(rows)) ==>
      failure == Some(DB_FAILURE_PREFIX + fault.value.message) && db.Value() == saved
    ensures !Strikes(fault, RowsCalls(rows)) ==>
      && failure.None?
      && db.Value() == ApplyRows(saved, rows, now)
      && processed == |rows| && newCount == |rows| && updatedCount == 0
  {
    var calls: nat := 0;
    failure, newCount, updatedCount, processed := None, 0, 0, 0;
    for i := 0 to |rows|
      invariant calls == RowsCalls(rows[..i])
      invariant db.Value() == ApplyRows(saved, rows[..i], now)
      invariant processed == i && newCount == i && updatedCount == 0
      invariant !Strikes(fault, calls)
    {
      var row := rows[i];
      assert rows[..i + 1][..i] == rows[..i];
      RowsCallsPrefix(rows, i + 1);
      if RaisesAt(fault, calls) {
        failure := Abort(db, saved, fault);
        return;
      }
      var created := db.UpdateOrCreate(row.id, row.fields, now);
      calls := calls + 1;
      var pairIsTrue := true;
      if pairIsTrue {
        newCount := newCount + 1;
        if HasDomain(row.fields) {
          var d := row.fields.domain.value;
          if RaisesAt(fault, calls) {
            failure := Abort(db, saved, fault);
            return;
          }
          db.DomainGetOrCreate(d);
          calls := calls + 1;
          if RaisesAt(fault, calls) {
            failure := Abort(db, saved, fault);
            return;
          }
          db.DomainIncrement(d);
          calls := calls + 1;
        }
      } else {
        updatedCount := updatedCount + 1;
      }
      processed := processed + 1;
    }
    assert rows[..|rows|] == rows;
  }

  /** The mention loop of the transaction, whose first store call is numbered `start`. */
  method PersistMentions(db: Database, saved: Store, mentions: seq<KeywordMention>, start: nat, fault: Option<Fault>)
    returns (failure: Option<string>)
    requires !Strikes(fault, start)
    modifies db
    ensures Strikes(fault, start + |mentions|) ==>
      failure == Some(DB_FAILURE_PREFIX + fault.value.message) && db.Value() == saved
    ensures !Strikes(fault, start + |mentions|) ==>
      failure.None? && db.Value() == ApplyMentions(old(db.Value()), mentions)
  {
    ghost var base := db.Value();
    var calls := start;
    failure := None;
    for j := 0 to |mentions|
      invariant calls == start + j
      invariant db.Value() == ApplyMentions(base, mentions[..j])
      invariant !Strikes(fault, calls)
    {
      assert mentions[..j + 1][..j] == mentions[..j];
      if RaisesAt(fault, calls) {
        failure := Abort(db, saved, fault);
        return;
      }
      db.MentionGetOrCreate(mentions[j]);
      calls := calls + 1;
    }
    assert mentions[..|mentions|] == mentions;
  }

  /** The transaction: the story loop, then the mention loop, rolled back as a whole on an exception. */
  method PersistBatch(db: Database, rows: seq<Row>, mentions: seq<KeywordMention>, now: int, fault: Option<Fault>)
    returns (failure: Option<string>, newCount: nat, updatedCount: int, processed: nat)
    modifies db
    ensures Strikes(fault, StoreCalls(rows, mentions)) ==>
      failure == Some(DB_FAILURE_PREFIX + fault.value.message) && db.Value() == old(db.Value())
    ensures !Strikes(fault, StoreCalls(rows, mentions)) ==>
      && failure.None?
      && db.Value() == Ingested(old(db.Value()), rows, mentions, now)
      && processed == |rows| && newCount == |rows| && updatedCount == 0
  {
    var saved := db.Value();
    failure, newCount, updatedCount, processed := PersistRows(db, saved, rows, now, fault);
    if failure.Some? {
      return;
    }
    failure := PersistMentions(db, saved, mentions, RowsCalls(rows), fault);
  }

  /** The invalidation step: by pattern where the backend can, by fixed key otherwise. */
  method InvalidateCache(cache: Cache)
    modifies cache
    ensures cache.entries == Invalidated(old(cache.entries), cache.supportsPattern)
  {
    if cache.supportsPattern {
      cache.DeletePattern(STORIES_LIST_PREFIX);
      cache.DeletePattern(STORY_KEY_PREFIX);
      cache.Delete(AI_KEYWORDS_KEY);
      cache.DeletePattern(TOP_DOMAINS_PREFIX);
    } else {
      cache.Delete(STORIES_LIST_KEY);
      cache.Delete(AI_KEYWORDS_KEY);
      cache.Delete(TOP_DOMAINS_KEY);
    }
  }

  /** `fetch_top_stories_logic`: one run against the store and the cache. */
  method FetchTopStoriesLogic(db: Database, cache: Cache, env: RunInputs, netloc: string -> string)
    returns (r: RunResult)
    modifies db, cache
    ensures RunState(r, db.Value(), cache.entries) ==
      Run(old(db.Value()), old(cache.entries), cache.supportsPattern, env, netloc)
  {
    var ids := GetTopStories(env.topStories, TOP_STORIES_LIMIT);
    if ids == [] {
      return Failure(NO_IDS_REASON);
    }
    var results, failed := FetchAll(ids, env.detailsOf, netloc);
    var rows, mentions := StageBatch(results, cache);
    var failure, newCount, updatedCount, processed := PersistBatch(db, rows, mentions, env.now, env.fault);
    if failure.Some? {
      return Failure(failure.value);
    }
    InvalidateCache(cache);
    r := Success(processed, newCount, updatedCount, failed);
  }
}
