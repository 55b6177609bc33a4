/**
 * The relational store: stories keyed by their Hacker News id, keyword
 * mentions unique per (keyword, story) pair and cascading with their story,
 * and per-domain story counts unique per domain. The ORM calls the ingestion
 * run makes are given here as functions on a store value and as methods of a
 * `Database` object that holds the three tables and changes them in place.
 * Times (`fetchedAt`, `updatedAt`, `timestamp`) are opaque integers; the
 * clock reading of an ORM call is its `now` argument.
 */
module Models {
  import opened Wrappers

  datatype Story = Story(
    id: int,
    title: string,
    url: Option<string>,
    domain: Option<string>,
    score: int,
    commentsCount: int,
    author: string,
    timestamp: int,
    fetchedAt: int,
    updatedAt: int,
    isAiRelated: bool)

  /** The column values an upsert writes; every column but the key and the two automatic times. */
  datatype StoryFields = StoryFields(
    title: string,
    url: Option<string>,
    domain: Option<string>,
    score: int,
    commentsCount: int,
    author: string,
    timestamp: int,
    isAiRelated: bool)

  datatype KeywordMention = KeywordMention(keyword: string, storyId: int)

  /**
   * The three tables. A map keyed by id or domain and a set of pairs make the
   * primary key, the unique domain and the unique (keyword, story) pair hold
   * by construction.
   */
  datatype Store = Store(
    stories: map<int, Story>,
    domainCounts: map<string, nat>,
    mentions: set<KeywordMention>)

  /** Each row sits under its own id, and every mention refers to a stored story. */
  ghost predicate Valid(s: Store) {
    && (forall id :: id in s.stories ==> s.stories[id].id == id)
    && (forall m :: m in s.mentions ==> m.storyId in s.stories)
  }

  function EmptyStore(): (s: Store)
    ensures Valid(s) && s.stories == map[] && s.domainCounts == map[] && s.mentions == {}
  {
    Store(map[], map[], {})
  }

  /** The count a domain has, zero when it has no row. */
  function DomainCount(s: Store, d: string): nat {
    if d in s.domainCounts then s.domainCounts[d] else 0
  }

  /** The row an upsert leaves: the new column values, `updatedAt` now, `fetchedAt` kept from an existing row. */
  function Upserted(s: Store, id: int, f: StoryFields, now: int): (st: Story)
    ensures st.id == id && st.updatedAt == now
    ensures st.fetchedAt == if id in s.stories then s.stories[id].fetchedAt else now
    ensures StoryFieldsOf(st) == f
  {
    var fetched := if id in s.stories then s.stories[id].fetchedAt else now;
    Story(id, f.title, f.url, f.domain, f.score, f.commentsCount, f.author, f.timestamp, fetched, now, f.isAiRelated)
  }

  /** The column values of a stored row. */
  function StoryFieldsOf(st: Story): StoryFields {
    StoryFields(st.title, st.url, st.domain, st.score, st.commentsCount, st.author, st.timestamp, st.isAiRelated)
  }

  /** `Story.objects.update_or_create(id=id, defaults=f)`: one row under `id`, nothing else touched. */
  function UpsertStory(s: Store, id: int, f: StoryFields, now: int): (t: Store)
    ensures id in t.stories && t.stories[id] == Upserted(s, id, f, now)
    ensures t.stories.Keys == s.stories.Keys + {id}
    ensures forall k :: k in s.stories && k != id ==> t.stories[k] == s.stories[k]
    ensures t.domainCounts == s.domainCounts && t.mentions == s.mentions
    ensures Valid(s) ==> Valid(t)
  {
    s.(stories := s.stories[id := Upserted(s, id, f, now)])
  }

  /** `DomainStats.objects.get_or_create(domain=d, defaults={'count': 0})`. */
  function EnsureDomain(s: Store, d: string): (t: Store)
    ensures t.domainCounts.Keys == s.domainCounts.Keys + {d}
    ensures forall e :: DomainCount(t, e) == DomainCount(s, e)
    ensures t.stories == s.stories && t.mentions == s.mentions
    ensures Valid(s) ==> Valid(t)
  {
    if d in s.domainCounts then s else s.(domainCounts := s.domainCounts[d := 0])
  }

  /** `DomainStats.objects.filter(domain=d).update(count=F('count') + 1)`: no row, no change. */
  function IncrementDomain(s: Store, d: string): (t: Store)
    ensures t.domainCounts.Keys == s.domainCounts.Keys
    ensures d in s.domainCounts ==> DomainCount(t, d) == DomainCount(s, d) + 1
    ensures forall e :: e != d || d !in s.domainCounts ==> DomainCount(t, e) == DomainCount(s, e)
    ensures t.stories == s.stories && t.mentions == s.mentions
    ensures Valid(s) ==> Valid(t)
  {
    if d in s.domainCounts then s.(domainCounts := s.domainCounts[d := s.domainCounts[d] + 1]) else s
  }

  /** `KeywordMention.objects.get_or_create(keyword=k, story_id=id)`: the pair exists once afterwards. */
  function AddMention(s: Store, m: KeywordMention): (t: Store)
    ensures t.mentions == s.mentions + {m}
    ensures t.stories == s.stories && t.domainCounts == s.domainCounts
    ensures Valid(s) && m.storyId in s.stories ==> Valid(t)
  {
    s.(mentions := s.mentions + {m})
  }

  /** Deleting a story removes its mentions with it (`on_delete=CASCADE`). */
  function DeleteStory(s: Store, id: int): (t: Store)
    ensures t.stories.Keys == s.stories.Keys - {id}
    ensures forall k :: k in t.stories ==> t.stories[k] == s.stories[k]
    ensures forall m :: m in t.mentions <==> m in s.mentions && m.storyId != id
    ensures t.domainCounts == s.domainCounts
    ensures Valid(s) ==> Valid(t)
  {
    Store(s.stories - {id}, s.domainCounts, set m | m in s.mentions && m.storyId != id)
  }

  /** The three tables as one object that the ingestion run changes in place. */
  class Database {
    var stories: map<int, Story>
    var domainCounts: map<string, nat>
    var mentions: set<KeywordMention>

    function Value(): Store
      reads this
    {
      Store(stories, domainCounts, mentions)
    }

    constructor (initial: Store)
      ensures Value() == initial
    {
      stories, domainCounts, mentions := initial.stories, initial.domainCounts, initial.mentions;
    }

    /** Returns the `created` flag of the ORM call: whether no row had this id. */
    method UpdateOrCreate(id: int, f: StoryFields, now: int) returns (created: bool)
      modifies this
      ensures created == (id !in old(stories))
      ensures Value() == UpsertStory(old(Value()), id, f, now)
    {
      created := id !in stories;
      stories := stories[id := Upserted(Value(), id, f, now)];
    }

    method DomainGetOrCreate(d: string)
      modifies this
      ensures Value() == EnsureDomain(old(Value()), d)
    {
      if d !in domainCounts {
        domainCounts := domainCounts[d := 0];
      }
    }

    method DomainIncrement(d: string)
      modifies this
      ensures Value() == IncrementDomain(old(Value()), d)
    {
      if d in domainCounts {
        domainCounts := domainCounts[d := domainCounts[d] + 1];
      }
    }

    method MentionGetOrCreate(m: KeywordMention)
      modifies this
      ensures Value() == AddMention(old(Value()), m)
    {
      mentions := mentions + {m};
    }

    /** Puts back a state saved earlier: the rollback of an aborted transaction. */
    method Restore(saved: Store)
      modifies this
      ensures Value() == saved
    {
      stories, domainCounts, mentions := saved.stories, saved.domainCounts, saved.mentions;
    }
  }
}
