/**
 * `AbstractService`'s instance state and its stateful operations: method routing, the
 * cache lookup, storing and removing cache items, the ttl/cache accessors and the
 * current-service walk over an entity graph.
 */
module Services {
  import opened Wrappers
  import opened PhpValues
  import opened Errors
  import opened Routing
  import opened Caching
  import opened Entities

  /** The PostNL client a service belongs to; the service reads its mode on every call. */
  class PostNL {
    var mode: ApiMode

    constructor (mode: ApiMode)
      ensures this.mode == mode
    {
      this.mode := mode;
    }
  }

  /** A lookup key as handed to `retrieveCachedItem`: a string, or anything else. */
  datatype CacheId = StringId(s: string) | NonStringId

  class Service {
    const postnl: PostNL
    const info: ServiceInfo
    var cache: Pool?
    var ttl: Ttl

    constructor (postnl: PostNL, info: ServiceInfo, cache: Pool?, ttl: Ttl)
      ensures this.postnl == postnl && this.info == info && this.cache == cache && this.ttl == ttl
    {
      this.postnl := postnl;
      this.info := info;
      this.cache := cache;
      this.ttl := ttl;
    }

    /** `__call($name, $args)`: which declared method the call is forwarded to.
        `methods` are the names the concrete class declares. */
    method Call(name: string, methods: set<string>) returns (r: Result<string, ServiceError>)
      ensures r == ResolveMethod(name, UsesRest(postnl.mode, info.kind), methods, info.calledClass)
    {
      r := ResolveMethod(name, UsesRest(postnl.mode, info.kind), methods, info.calledClass);
    }

    /** `retrieveCachedItem($uuid)`: no item for a non-string key; otherwise the pool is
        asked for the derived key, but only when a pool and a ttl are both set. */
    method RetrieveCachedItem(uuid: CacheId) returns (item: Item?)
      ensures item != null <==> uuid.StringId? && cache != null && ttl != NoTtl
      ensures item != null ==> fresh(item)
      ensures item != null ==> item.key == CacheKey(uuid.s, UsesRest(postnl.mode, info.kind), info.shortName)
      ensures item != null ==> (item.isHit <==> item.key in cache.entries)
      ensures item != null && item.isHit ==> item.Snapshot() == cache.entries[item.key]
    {
      if !uuid.StringId? {
        return null;
      }
      var key := uuid.s;
      key := key + (if UsesRest(postnl.mode, info.kind) then "rest" else "soap");
      key := key + LowerAscii(Stem(info.shortName));
      item := null;
      if cache != null && ttl != NoTtl {
        item := cache.GetItem(key);
      }
    }

    /** `cacheItem($item)`: clear the other expiry mode, set the one the ttl calls for,
        and save the item once. The source requires a pool to be set. */
    method CacheItem(item: Item)
      requires cache != null
      modifies item, cache
      ensures item.expiresAfter == RelativeExpiry(ttl) && item.expiresAt == AbsoluteExpiry(ttl)
      ensures !(item.expiresAt.Some? && item.expiresAfter.Some?)
      ensures item.expiresAt.Some? || item.expiresAfter.Some? <==> ttl != NoTtl
      ensures item.value == old(item.value) && item.isHit == old(item.isHit)
      ensures cache.entries == old(cache.entries)[item.key := item.Snapshot()]
      ensures cache.saved == old(cache.saved) + [item.key]
    {
      if ttl.TtlInterval? || ttl.TtlSeconds? {
        item.ExpiresAt(None);
        item.ExpiresAfter(RelativeExpiry(ttl));
      } else {
        item.ExpiresAfter(None);
        item.ExpiresAt(AbsoluteExpiry(ttl));
      }
      ExpiryModesExclusive(ttl);
      cache.Save(item);
    }

    /** `removeCachedItem($item)`: delete the item's key from the pool. */
    method RemoveCachedItem(item: Item)
      requires cache != null
      modifies cache
      ensures cache.entries == old(cache.entries) - {item.key}
      ensures item.key !in cache.entries
      ensures cache.saved == old(cache.saved)
    {
      cache.DeleteItem(item.key);
    }

    method GetTtl() returns (t: Ttl)
      ensures t == ttl
    {
      t := ttl;
    }

    /** `setTtl($ttl)`, returning the service itself. */
    method SetTtl(t: Ttl) returns (self: Service)
      modifies this
      ensures ttl == t && cache == old(cache) && self == this
    {
      ttl := t;
      self := this;
    }

    method GetCache() returns (c: Pool?)
      ensures c == cache
    {
      c := cache;
    }

    /** `setCache($cache)`, returning the service itself. */
    method SetCache(c: Pool?) returns (self: Service)
      modifies this
      ensures cache == c && ttl == old(ttl) && self == this
    {
      cache := c;
      self := this;
    }

    /** `setService($object)`: false for a non-entity; otherwise tag the entity with this
        service's name and walk its relevant properties, tagging every entity found
        directly or in an array, recursively. Exactly the reached entities change. */
    method SetService(graph: EntityGraph, v: Value) returns (ok: bool)
      requires graph.Valid()
      requires v.EntityRef? ==> v.id in graph.shapes
      modifies graph`current
      ensures graph.Valid()
      ensures ok <==> v.EntityRef?
      ensures !v.EntityRef? ==> graph.current == old(graph.current)
      ensures v.EntityRef? ==>
        graph.current == Mark(old(graph.current), graph.Reach(v.id, Stem(info.shortName)), Stem(info.shortName))
      decreases if v.EntityRef? && v.id in graph.rank then graph.rank[v.id] else 0, 3
    {
      if !v.EntityRef? {
        return false;
      }
      var id := v.id;
      var service := Stem(info.shortName);
      graph.SetCurrentService(id, service);
      var names := graph.RelevantProperties(id, service);
      TagProperties(graph, id, names, service);
      MarkThenMark(old(graph.current), {id}, graph.ReachNames(id, names, service), service);
      ok := true;
    }

    /** The outer `foreach` over the relevant property names of entity `id`. */
    method TagProperties(graph: EntityGraph, id: Id, names: seq<string>, service: string)
      requires graph.Valid() && id in graph.shapes && graph.ShapesValid()
      requires service == Stem(info.shortName)
      modifies graph`current
      ensures graph.Valid()
      ensures graph.current == Mark(old(graph.current), graph.ReachNames(id, names, service), service)
      decreases graph.rank[id], 2
    {
      var i := 0;
      while i < |names|
        invariant 0 <= i <= |names|
        invariant graph.Valid()
        invariant graph.current == Mark(old(graph.current), graph.ReachNames(id, names[..i], service), service)
      {
        ghost var before := graph.ReachNames(id, names[..i], service);
        var item := graph.PropertyValue(id, names[i]);
        TagValue(graph, id, item, service);
        MarkThenMark(old(graph.current), before, graph.ReachValue(id, item, service), service);
        assert names[..i + 1][..i] == names[..i];
        assert graph.ReachNames(id, names[..i + 1], service) == before + graph.ReachValue(id, item, service);
        i := i + 1;
      }
      assert names[..i] == names;
    }

    /** One property value of entity `id` in the walk: an entity is walked, each entity
        element of an array is walked, anything else is skipped. */
    method TagValue(graph: EntityGraph, id: Id, item: Value, service: string)
      requires graph.Valid() && id in graph.shapes && graph.ShapesValid() && Below(graph.rank, id, item)
      requires service == Stem(info.shortName)
      modifies graph`current
      ensures graph.Valid()
      ensures graph.current == Mark(old(graph.current), graph.ReachValue(id, item, service), service)
      decreases graph.rank[id], 1
    {
      match item {
        case EntityRef(_) =>
          var _ := SetService(graph, item);
        case ListOf(children) =>
          TagItems(graph, id, children, service);
        case Scalar =>
          assert old(graph.current) == Mark(old(graph.current), {}, service);
      }
    }

    /** The inner `foreach` over an array property: each entity element is walked in turn. */
    method TagItems(graph: EntityGraph, id: Id, children: seq<Value>, service: string)
      requires graph.Valid() && id in graph.shapes && graph.ShapesValid() && Below(graph.rank, id, ListOf(children))
      requires service == Stem(info.shortName)
      modifies graph`current
      ensures graph.Valid()
      ensures graph.current == Mark(old(graph.current), graph.ReachItems(id, children, service), service)
      decreases graph.rank[id], 0
    {
      var j := 0;
      while j < |children|
        invariant 0 <= j <= |children|
        invariant graph.Valid()
        invariant graph.current == Mark(old(graph.current), graph.ReachItems(id, children[..j], service), service)
      {
        ghost var sofar := graph.ReachItems(id, children[..j], service);
        assert children[..j + 1][..j] == children[..j];
        assert Below(graph.rank, id, ListOf(children[..j + 1]));
        ghost var next := graph.ReachItems(id, children[..j + 1], service);
        if children[j].EntityRef? {
          var _ := SetService(graph, children[j]);
          assert next == sofar + graph.Reach(children[j].id, service);
          MarkThenMark(old(graph.current), sofar, graph.Reach(children[j].id, service), service);
        } else {
          assert next == sofar;
        }
        j := j + 1;
      }
      assert children[..j] == children;
    }
  }
}
