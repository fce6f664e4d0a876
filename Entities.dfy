/**
 * The entity objects a service serialises. Each entity has a `currentService` tag, a
 * per-service list of its relevant properties (`$defaultProperties`) and property values
 * that may hold further entities or arrays of them. Objects are identified by `Id`, so
 * entities shared between parents are one entity, updated in place.
 */
module Entities {

  type Id = nat

  /** What a property getter returns. */
  datatype Value =
    | EntityRef(id: Id)       // an AbstractEntity
    | ListOf(items: seq<Value>)  // a PHP array
    | Scalar                  // anything else, null included

  /** An entity's class-level defaults (service => property names) and its property values. */
  datatype EntityShape = EntityShape(defaultProperties: map<string, seq<string>>, values: map<string, Value>)

  /** Every entity `v` refers to directly, or as an element of an array, ranks below `parent`. */
  ghost predicate Below(rank: map<Id, nat>, parent: Id, v: Value)
    requires parent in rank
  {
    match v
    case EntityRef(c) => c in rank && rank[c] < rank[parent]
    case ListOf(items) =>
      forall i :: 0 <= i < |items| && items[i].EntityRef? ==> items[i].id in rank && rank[items[i].id] < rank[parent]
    case Scalar => true
  }

  /** `Mark(m, ids, service)`: the tags `m` with every entity in `ids` set to `service`. */
  function Mark(current: map<Id, string>, ids: set<Id>, service: string): (r: map<Id, string>)
    ensures r.Keys == current.Keys
    ensures forall x :: x in current && x in ids ==> r[x] == service
    ensures forall x :: x in current && x !in ids ==> r[x] == current[x]
  {
    map x | x in current :: if x in ids then service else current[x]
  }

  lemma MarkThenMark(current: map<Id, string>, a: set<Id>, b: set<Id>, service: string)
    ensures Mark(Mark(current, a, service), b, service) == Mark(current, a + b, service)
  {
  }

  /** Tagging the same entities twice is tagging them once. */
  lemma MarkIdempotent(current: map<Id, string>, ids: set<Id>, service: string)
    ensures Mark(Mark(current, ids, service), ids, service) == Mark(current, ids, service)
  {
    MarkThenMark(current, ids, ids, service);
    assert ids + ids == ids;
  }

  /** The entity objects in memory and their current-service tags. The ghost `rank`
      witnesses that no entity contains itself, so every walk ends. */
  class EntityGraph {
    const shapes: map<Id, EntityShape>
    ghost const rank: map<Id, nat>
    var current: map<Id, string>

    ghost predicate ShapesValid() {
      && rank.Keys == shapes.Keys
      && forall id, name :: id in shapes && name in shapes[id].values ==> Below(rank, id, shapes[id].values[name])
    }

    ghost predicate Valid()
      reads this
    {
      ShapesValid() && current.Keys == shapes.Keys
    }

    constructor (shapes: map<Id, EntityShape>, ghost rank: map<Id, nat>, current: map<Id, string>)
      requires rank.Keys == shapes.Keys && current.Keys == shapes.Keys
      requires forall id, name :: id in shapes && name in shapes[id].values ==> Below(rank, id, shapes[id].values[name])
      ensures Valid()
      ensures this.shapes == shapes && this.rank == rank && this.current == current
    {
      this.shapes := shapes;
      this.rank := rank;
      this.current := current;
    }

    /** `array_keys($defaultProperties[$service])`; an entity without defaults for the
        service yields none (PHP warns and the loop does not run). */
    function RelevantProperties(id: Id, service: string): seq<string>
      requires id in shapes
    {
      if service in shapes[id].defaultProperties then shapes[id].defaultProperties[service] else []
    }

    /** `$object->{'get'.$name}()`: the property's value, null when it has none. */
    function PropertyValue(id: Id, name: string): (v: Value)
      requires ShapesValid() && id in shapes
      ensures Below(rank, id, v)
    {
      if name in shapes[id].values then shapes[id].values[name] else Scalar
    }

    /** `$object->setCurrentService($service)` */
    method SetCurrentService(id: Id, service: string)
      requires Valid() && id in shapes
      modifies this`current
      ensures Valid()
      ensures current == Mark(old(current), {id}, service)
    {
      current := current[id := service];
    }

    // ------------------------------------------------------------ what a walk reaches

    /** The entities `setService` tags starting from `id`: the entity itself and everything
        reached through its relevant properties, directly or as array elements. */
    ghost function Reach(id: Id, service: string): set<Id>
      requires ShapesValid() && id in shapes
      decreases rank[id], 3
    {
      {id} + ReachNames(id, RelevantProperties(id, service), service)
    }

    ghost function ReachNames(id: Id, names: seq<string>, service: string): set<Id>
      requires ShapesValid() && id in shapes
      decreases rank[id], 2, |names|
    {
      if names == [] then {}
      else ReachNames(id, names[..|names| - 1], service) + ReachValue(id, PropertyValue(id, names[|names| - 1]), service)
    }

    ghost function ReachValue(id: Id, v: Value, service: string): set<Id>
      requires ShapesValid() && id in shapes && Below(rank, id, v)
      decreases rank[id], 1
    {
      match v
      case EntityRef(c) => Reach(c, service)
      case ListOf(items) => ReachItems(id, items, service)
      case Scalar => {}
    }

    ghost function ReachItems(id: Id, items: seq<Value>, service: string): set<Id>
      requires ShapesValid() && id in shapes && Below(rank, id, ListOf(items))
      decreases rank[id], 0, |items|
    {
      if items == [] then {}
      else
        var last := items[|items| - 1];
        ReachItems(id, items[..|items| - 1], service) + (if last.EntityRef? then Reach(last.id, service) else {})
    }

    /** Everything a walk reaches is an entity of the graph. */
    lemma {:induction false} ReachInGraph(id: Id, service: string)
      requires ShapesValid() && id in shapes
      ensures Reach(id, service) <= shapes.Keys
      decreases rank[id], 3
    {
      ReachNamesInGraph(id, RelevantProperties(id, service), service);
    }

    lemma {:induction false} ReachNamesInGraph(id: Id, names: seq<string>, service: string)
      requires ShapesValid() && id in shapes
      ensures ReachNames(id, names, service) <= shapes.Keys
      decreases rank[id], 2, |names|
    {
      if names != [] {
        ReachNamesInGraph(id, names[..|names| - 1], service);
        var v := PropertyValue(id, names[|names| - 1]);
        match v
        case EntityRef(c) => ReachInGraph(c, service);
        case ListOf(items) => ReachItemsInGraph(id, items, service);
        case Scalar =>
      }
    }

    lemma {:induction false} ReachItemsInGraph(id: Id, items: seq<Value>, service: string)
      requires ShapesValid() && id in shapes && Below(rank, id, ListOf(items))
      ensures ReachItems(id, items, service) <= shapes.Keys
      decreases rank[id], 0, |items|
    {
      if items != [] {
        ReachItemsInGraph(id, items[..|items| - 1], service);
        var last := items[|items| - 1];
        if last.EntityRef? {
          ReachInGraph(last.id, service);
        }
      }
    }

    /** Every entity found under one of the relevant properties of `id`, directly or as an
        array element, is reached with everything it reaches. */
    lemma {:induction false} ReachCoversProperties(id: Id, service: string, k: nat)
      requires ShapesValid() && id in shapes && k < |RelevantProperties(id, service)|
      ensures ReachValue(id, PropertyValue(id, RelevantProperties(id, service)[k]), service) <= Reach(id, service)
    {
      ReachNamesCovers(id, RelevantProperties(id, service), k, service);
    }

    lemma {:induction false} ReachNamesCovers(id: Id, names: seq<string>, k: nat, service: string)
      requires ShapesValid() && id in shapes && k < |names|
      ensures ReachValue(id, PropertyValue(id, names[k]), service) <= ReachNames(id, names, service)
      decreases |names|
    {
      if k < |names| - 1 {
        ReachNamesCovers(id, names[..|names| - 1], k, service);
      }
    }

    /** An entity element of an array property is reached with everything it reaches. */
    lemma {:induction false} ReachItemsCovers(id: Id, items: seq<Value>, k: nat, service: string)
      requires ShapesValid() && id in shapes && Below(rank, id, ListOf(items))
      requires k < |items| && items[k].EntityRef?
      ensures Reach(items[k].id, service) <= ReachItems(id, items, service)
      decreases |items|
    {
      if k < |items| - 1 {
        ReachItemsCovers(id, items[..|items| - 1], k, service);
      }
    }
  }
}
