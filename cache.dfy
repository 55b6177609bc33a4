/**
 * The shared key-value cache. Entries are stored under string keys; a story
 * record written by the ingestion run is kept as its own value, entries that
 * the read API writes are opaque. `supportsPattern` says whether the backend
 * offers `delete_pattern`, which removes every key a glob matches; the globs
 * used here are all of the form `<prefix>*`.
 */
module CacheBackend {
  import opened HackerNews

  datatype CacheValue = StoryRecord(details: Details) | Opaque(payload: string)

  predicate IsPrefix(p: string, k: string) {
    |p| <= |k| && k[..|p|] == p
  }

  /** The entries left after removing every key that starts with `p`. */
  function WithoutPrefix(entries: map<string, CacheValue>, p: string): (e: map<string, CacheValue>)
    ensures forall k :: k in e <==> k in entries && !IsPrefix(p, k)
    ensures forall k :: k in e ==> e[k] == entries[k]
  {
    map k | k in entries && !IsPrefix(p, k) :: entries[k]
  }

  class Cache {
    var entries: map<string, CacheValue>
    const supportsPattern: bool

    constructor (supportsPattern: bool, initial: map<string, CacheValue>)
      ensures this.supportsPattern == supportsPattern && entries == initial
    {
      this.supportsPattern := supportsPattern;
      entries := initial;
    }

    /** `cache.set(key, value)`; the entry's time to live is not modelled. */
    method Set(key: string, value: CacheValue)
      modifies this
      ensures entries == old(entries)[key := value]
    {
      entries := entries[key := value];
    }

    /** `cache.delete(key)`: deleting a missing key is not an error. */
    method Delete(key: string)
      modifies this
      ensures entries == old(entries) - {key}
    {
      entries := entries - {key};
    }

    /** `cache.delete_pattern(p + "*")`. */
    method DeletePattern(p: string)
      requires supportsPattern
      modifies this
      ensures entries == WithoutPrefix(old(entries), p)
    {
      entries := WithoutPrefix(entries, p);
    }
  }

  function DigitChar(d: nat): (c: char)
    requires d < 10
    ensures '0' <= c <= '9'
  {
    "0123456789"[d]
  }

  /** The decimal digits of a natural number, as Python's `str` writes them. */
  function NatString(n: nat): (s: string)
    ensures |s| >= 1 && forall i :: 0 <= i < |s| ==> '0' <= s[i] <= '9'
    ensures (|s| == 1) == (n < 10)
  {
    if n < 10 then [DigitChar(n)] else NatString(n / 10) + [DigitChar(n % 10)]
  }

  /** `str(n)` for an integer: a minus sign before the digits of a negative one. */
  function IntString(n: int): (s: string)
    ensures |s| >= 1
    ensures s[0] == '-' <==> n < 0
  {
    if n < 0 then "-" + NatString(-n) else NatString(n)
  }

  lemma DigitCharInjective(a: nat, b: nat)
    requires a < 10 && b < 10 && DigitChar(a) == DigitChar(b)
    ensures a == b
  {
  }

  lemma {:induction false} NatStringInjective(a: nat, b: nat)
    requires NatString(a) == NatString(b)
    ensures a == b
  {
    var s := NatString(a);
    if a >= 10 && b >= 10 {
      assert NatString(a / 10) == s[..|s| - 1] == NatString(b / 10);
      NatStringInjective(a / 10, b / 10);
      DigitCharInjective(a % 10, b % 10);
    } else if a < 10 && b < 10 {
      DigitCharInjective(a, b);
    }
  }

  /** Distinct ids are written as distinct strings. */
  lemma IntStringInjective(a: int, b: int)
    requires IntString(a) == IntString(b)
    ensures a == b
  {
    if a < 0 {
      assert NatString(-a) == IntString(a)[1..] == NatString(-b);
      NatStringInjective(-a, -b);
    } else {
      NatStringInjective(a, b);
    }
  }

  const STORY_KEY_PREFIX := "story_"

  /** The key `story_<id>` under which a fetched record is cached. */
  function StoryKey(id: int): string {
    STORY_KEY_PREFIX + IntString(id)
  }

  /** Every story key falls under the `story_*` pattern. */
  lemma StoryKeyHasPrefix(id: int)
    ensures IsPrefix(STORY_KEY_PREFIX, StoryKey(id))
  {
  }

  /** Each story has its own cache key. */
  lemma StoryKeyInjective(a: int, b: int)
    requires StoryKey(a) == StoryKey(b)
    ensures a == b
  {
    assert IntString(a) == StoryKey(a)[|STORY_KEY_PREFIX|..] == IntString(b);
    IntStringInjective(a, b);
  }

  lemma StoryKeysDiffer(a: int, b: int)
    requires a != b
    ensures StoryKey(a) != StoryKey(b)
  {
    if StoryKey(a) == StoryKey(b) {
      StoryKeyInjective(a, b);
    }
  }
}
