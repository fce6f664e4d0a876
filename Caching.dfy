/**
 * The cache side of the service: the TTL setting, the PSR-6 cache item with its two expiry
 * setters, a map-backed pool, and the key under which a service caches a response.
 */
module Caching {
  import opened Wrappers
  import opened PhpValues

  /** A relative lifetime: seconds, or a `DateInterval` given by its ISO 8601 duration text. */
  datatype Lifetime = Seconds(n: int) | Interval(spec: string)

  /** The service's `$ttl`: null (caching off), an int, a `DateInterval`, or a
      `DateTimeInterface` given as a Unix timestamp. */
  datatype Ttl = NoTtl | TtlSeconds(n: int) | TtlInterval(spec: string) | TtlAt(timestamp: int)

  /** The lifetime `cacheItem` passes to `expiresAfter` (an int or a DateInterval ttl). */
  function RelativeExpiry(ttl: Ttl): Option<Lifetime> {
    match ttl
    case TtlSeconds(n) => Some(Seconds(n))
    case TtlInterval(spec) => Some(Interval(spec))
    case _ => None
  }

  /** The instant `cacheItem` passes to `expiresAt` (a DateTime ttl; null for none). */
  function AbsoluteExpiry(ttl: Ttl): Option<int> {
    if ttl.TtlAt? then Some(ttl.timestamp) else None
  }

  /** Never both expiry modes; exactly one of them whenever a ttl is set, and it carries the ttl's value. */
  lemma ExpiryModesExclusive(ttl: Ttl)
    ensures !(RelativeExpiry(ttl).Some? && AbsoluteExpiry(ttl).Some?)
    ensures RelativeExpiry(ttl).Some? || AbsoluteExpiry(ttl).Some? <==> ttl != NoTtl
    ensures ttl.TtlSeconds? ==> RelativeExpiry(ttl) == Some(Seconds(ttl.n))
    ensures ttl.TtlInterval? ==> RelativeExpiry(ttl) == Some(Interval(ttl.spec))
    ensures ttl.TtlAt? ==> AbsoluteExpiry(ttl) == Some(ttl.timestamp)
  {
  }

  /** What the pool keeps for a key. */
  datatype Entry = Entry(value: string, expiresAt: Option<int>, expiresAfter: Option<Lifetime>)

  /** A PSR-6 cache item. Each expiry setter records its own value; clearing the other one
      is up to the caller. */
  class Item {
    const key: string
    var value: string
    var isHit: bool
    var expiresAt: Option<int>
    var expiresAfter: Option<Lifetime>

    constructor (key: string, value: string, isHit: bool, expiresAt: Option<int>, expiresAfter: Option<Lifetime>)
      ensures this.key == key && this.value == value && this.isHit == isHit
      ensures this.expiresAt == expiresAt && this.expiresAfter == expiresAfter
    {
      this.key := key;
      this.value := value;
      this.isHit := isHit;
      this.expiresAt := expiresAt;
      this.expiresAfter := expiresAfter;
    }

    /** The item as the pool stores it. */
    function Snapshot(): Entry
      reads this
    {
      Entry(value, expiresAt, expiresAfter)
    }

    method ExpiresAt(at: Option<int>)
      modifies this
      ensures expiresAt == at
      ensures value == old(value) && isHit == old(isHit) && expiresAfter == old(expiresAfter)
    {
      expiresAt := at;
    }

    method ExpiresAfter(after: Option<Lifetime>)
      modifies this
      ensures expiresAfter == after
      ensures value == old(value) && isHit == old(isHit) && expiresAt == old(expiresAt)
    {
      expiresAfter := after;
    }
  }

  /** A PSR-6 pool backed by a map; `saved` logs the keys of every save, in order. */
  class Pool {
    var entries: map<string, Entry>
    ghost var saved: seq<string>

    constructor ()
      ensures entries == map[] && saved == []
    {
      entries := map[];
      saved := [];
    }

    /** `getItem`: a fresh item, a hit holding the stored entry or an empty miss. */
    method GetItem(key: string) returns (item: Item)
      ensures fresh(item) && item.key == key
      ensures item.isHit <==> key in entries
      ensures key in entries ==> item.Snapshot() == entries[key]
      ensures key !in entries ==> item.Snapshot() == Entry("", None, None)
    {
      if key in entries {
        var e := entries[key];
        item := new Item(key, e.value, true, e.expiresAt, e.expiresAfter);
      } else {
        item := new Item(key, "", false, None, None);
      }
    }

    method Save(item: Item)
      modifies this
      ensures entries == old(entries)[item.key := item.Snapshot()]
      ensures saved == old(saved) + [item.key]
    {
      entries := entries[item.key := item.Snapshot()];
      saved := saved + [item.key];
    }

    method DeleteItem(key: string)
      modifies this
      ensures entries == old(entries) - {key}
      ensures saved == old(saved)
    {
      entries := entries - {key};
    }
  }

  /** The mode tag of a cache key. */
  function ModeTag(rest: bool): (t: string)
    ensures |t| == 4
  {
    if rest then "rest" else "soap"
  }

  /** The cache key for a lookup key: the key, the protocol tag, then the service's short
      name without "Service", lower-cased. */
  function CacheKey(uuid: string, rest: bool, shortName: string): (k: string)
    ensures |k| == |uuid| + 4 + |Stem(shortName)|
    ensures k[..|uuid|] == uuid && k[|uuid|..|uuid| + 4] == ModeTag(rest)
    ensures k[|uuid| + 4..] == LowerAscii(Stem(shortName))
  {
    uuid + ModeTag(rest) + LowerAscii(Stem(shortName))
  }

  /** Within one service, different lookup keys or different protocols never share a cache key. */
  lemma CacheKeyInjective(u1: string, r1: bool, u2: string, r2: bool, shortName: string)
    requires CacheKey(u1, r1, shortName) == CacheKey(u2, r2, shortName)
    ensures u1 == u2 && r1 == r2
  {
    var k := CacheKey(u1, r1, shortName);
    assert |u1| == |u2|;
    assert u1 == k[..|u1|] == u2;
    assert ModeTag(r1) == k[|u1|..|u1| + 4] == ModeTag(r2);
  }
}
