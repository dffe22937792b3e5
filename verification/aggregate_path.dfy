/**
 * `AggregatePath`: a property path inside an aggregate, resolved against the
 * mapping context. A root path carries the aggregate root's type; any other
 * path carries a non-empty property path.
 *
 * The mapping context (`RelationalMappingContext`) is modelled as a pure
 * lookup from types to persistent entities: a type without an entry (a
 * simple type such as `String`) has no persistent entity. A persistent
 * property is modelled by the facts about it the core reads: its owner type,
 * its actual type (the element type of a collection), the reverse column name
 * and key column it reports, and the type of its qualifier column.
 */
module AggregatePaths {
  import opened Errors
  import opened SqlIdentifiers

  type TypeId = nat

  datatype Property = Property(
    name: string,
    owner: TypeId,
    actualType: TypeId,
    reverseColumnName: SqlIdentifier,
    keyColumn: Option<SqlIdentifier>,
    qualifierColumnType: Option<TypeId>)

  datatype Entity = Entity(entityType: TypeId, idProperty: Option<Property>) {

    predicate HasIdProperty() {
      idProperty.Some?
    }

    /** `getRequiredIdProperty()`: throws `IllegalStateException` on an entity without `@Id`. */
    function GetRequiredIdProperty(): Result<Property> {
      if idProperty.Some? then Ok(idProperty.value) else Err(IllegalState("Required identifier property not found"))
    }
  }

  datatype MappingContext = MappingContext(entities: map<TypeId, Entity>) {

    function GetPersistentEntity(t: TypeId): Option<Entity> {
      if t in entities then Some(entities[t]) else None
    }

    function GetRequiredPersistentEntity(t: TypeId): Result<Entity> {
      if t in entities then Ok(entities[t]) else Err(MappingFailure("Couldn't find PersistentEntity for type"))
    }
  }

  type PropertyPath = p: seq<Property> | |p| > 0 witness [Property("", 0, 0, Empty, None, None)]

  datatype AggregatePath =
    | Root(context: MappingContext, rootType: TypeId)
    | Nested(context: MappingContext, path: PropertyPath)

  function LeafProperty(path: PropertyPath): Property {
    path[|path| - 1]
  }

  /** `isRoot()`: there is no property path. */
  predicate IsRoot(p: AggregatePath)
    ensures IsRoot(p) <==> GetLength(p) == 0
  {
    p.Root?
  }

  /** `getLength()`: 0 for the root, else the number of properties on the path. */
  function GetLength(p: AggregatePath): (r: nat)
    ensures r == 0 <==> p.Root?
    ensures p.Nested? ==> r == |p.path|
  {
    if p.Root? then 0 else |p.path|
  }

  /** `matches(path)`: a root path matches the empty path, any other path an equal one. */
  function Matches(p: AggregatePath, other: seq<Property>): (r: bool)
    ensures r <==> GetLength(p) == |other| && (p.Nested? ==> p.path == other)
  {
    if p.Root? then other == [] else p.path == other
  }

  /** `getReverseColumnName()`: the leaf property's; a root path has none. */
  function GetReverseColumnName(p: AggregatePath): (r: Result<SqlIdentifier>)
    ensures r.Err? <==> p.Root?
    ensures r.Err? ==> r.error.IllegalState?
    ensures r.Ok? ==> r.value == LeafProperty(p.path).reverseColumnName
  {
    if p.Root? then Err(IllegalState("Empty paths don't have a reverse column name"))
    else Ok(LeafProperty(p.path).reverseColumnName)
  }

  /**
   * `getParentPath()`: undefined on a root path; the root path of the leaf
   * property's owner type for a one-segment path; otherwise the path one
   * segment shorter.
   */
  function GetParentPath(p: AggregatePath): (r: Result<AggregatePath>)
    ensures r.Err? <==> p.Root?
    ensures r.Err? ==> r.error.IllegalState?
    ensures r.Ok? ==> GetLength(r.value) == GetLength(p) - 1 && r.value.context == p.context
    ensures r.Ok? && GetLength(p) == 1 ==> r.value == Root(p.context, p.path[0].owner)
    ensures r.Ok? && GetLength(p) > 1 ==> r.value.Nested? && p.path == r.value.path + [LeafProperty(p.path)]
  {
    if p.Root? then Err(IllegalState("The parent path of a root path is not defined."))
    else if |p.path| == 1 then Ok(Root(p.context, LeafProperty(p.path).owner))
    else Ok(Nested(p.context, p.path[..|p.path| - 1]))
  }

  /**
   * `getLeafEntity()`: the root's entity, which must exist; for any other
   * path the entity of the leaf property's actual type, if there is one.
   */
  function GetLeafEntity(p: AggregatePath): (r: Result<Option<Entity>>)
    ensures p.Nested? ==> r == Ok(p.context.GetPersistentEntity(LeafProperty(p.path).actualType))
    ensures p.Root? ==> (r.Ok? <==> p.rootType in p.context.entities)
    ensures p.Root? && r.Ok? ==> r.value == Some(p.context.entities[p.rootType])
  {
    if p.Root? then
      var e :- p.context.GetRequiredPersistentEntity(p.rootType);
      Ok(Some(e))
    else Ok(p.context.GetPersistentEntity(LeafProperty(p.path).actualType))
  }

  /** `hasIdProperty()`: the leaf entity exists and has an `@Id` property. */
  function HasIdProperty(p: AggregatePath): (r: Result<bool>)
    ensures p.Nested? ==> r.Ok?
    ensures r == Ok(true) <==> GetRequiredLeafEntity(p).Ok? && GetRequiredLeafEntity(p).value.HasIdProperty()
    ensures r.Err? ==> GetRequiredLeafEntity(p).Err? && r.error == GetRequiredLeafEntity(p).error
    ensures p.Root? && GetRequiredLeafEntity(p).Err? ==> r.Err?
  {
    var e :- GetLeafEntity(p);
    Ok(e.Some? && e.value.HasIdProperty())
  }

  /**
   * `getIdDefiningParentPath()`: from the parent up, the first ancestor that
   * is the root or whose leaf entity has an `@Id` property.
   */
  function GetIdDefiningParentPath(p: AggregatePath): (r: Result<AggregatePath>)
    ensures r.Err? <==> p.Root?
    ensures r.Err? ==> r.error.IllegalState?
    ensures r.Ok? ==> GetLength(r.value) < GetLength(p) && r.value.context == p.context
    ensures r.Ok? ==> IsIdDefining(r.value)
    decreases GetLength(p)
  {
    var parent :- GetParentPath(p);
    // For a non-root path the leaf-entity lookup cannot fail.
    if parent.Root? || HasIdProperty(parent) == Ok(true) then Ok(parent)
    else GetIdDefiningParentPath(parent)
  }

  /** A path a child table's foreign key can reference: the root, or a path to an entity with an id. */
  predicate IsIdDefining(a: AggregatePath) {
    a.Root? || HasIdProperty(a) == Ok(true)
  }

  /**
   * `getRequiredLeafEntity()`: the leaf entity, or `IllegalStateException`
   * when the leaf's actual type has no persistent entity.
   */
  function GetRequiredLeafEntity(p: AggregatePath): (r: Result<Entity>)
    ensures p.Nested? ==> (r.Ok? <==> LeafProperty(p.path).actualType in p.context.entities)
    ensures p.Nested? && r.Ok? ==> r.value == p.context.entities[LeafProperty(p.path).actualType]
    ensures p.Nested? && r.Err? ==> r.error.IllegalState?
    ensures p.Root? ==> r == p.context.GetRequiredPersistentEntity(p.rootType)
  {
    var e :- GetLeafEntity(p);
    if e.None? then
      if p.Root? then Err(IllegalState("Couldn't resolve leaf PersistentEntity absent path"))
      else Err(IllegalState("Couldn't resolve leaf PersistentEntity for type"))
    else Ok(e.value)
  }

  /** `getRequiredIdProperty()`: the `@Id` property of the leaf entity, which must exist. */
  function GetRequiredIdProperty(p: AggregatePath): (r: Result<Property>)
    ensures r.Ok? <==> GetRequiredLeafEntity(p).Ok? && GetRequiredLeafEntity(p).value.HasIdProperty()
    ensures r.Ok? ==> GetRequiredLeafEntity(p).value.idProperty == Some(r.value)
    ensures r.Err? ==>
      if GetRequiredLeafEntity(p).Err? then r.error == GetRequiredLeafEntity(p).error else r.error.IllegalState?
  {
    if p.Root? then
      var e :- p.context.GetRequiredPersistentEntity(p.rootType);
      e.GetRequiredIdProperty()
    else
      var e :- GetRequiredLeafEntity(p);
      e.GetRequiredIdProperty()
  }

  /** `getQualifierColumn()`: the empty identifier for a root path, else the leaf's key column. */
  function GetQualifierColumn(p: AggregatePath): (r: Option<SqlIdentifier>)
    ensures p.Root? ==> r == Some(Empty)
    ensures p.Nested? ==> r == LeafProperty(p.path).keyColumn
  {
    if p.Root? then Some(Empty) else LeafProperty(p.path).keyColumn
  }

  /** `getQualifierColumnType()`: none for a root path, else the leaf's. */
  function GetQualifierColumnType(p: AggregatePath): (r: Option<TypeId>)
    ensures p.Root? ==> r == None
    ensures p.Nested? ==> r == LeafProperty(p.path).qualifierColumnType
  {
    if p.Root? then None else LeafProperty(p.path).qualifierColumnType
  }

  // ---------------------------------------------------------------------
  // Ancestors

  /**
   * The ancestor `k` segments up, in closed form: the path itself, a prefix,
   * or, `GetLength(p)` segments up, the root of the first property's owner.
   */
  function Ancestor(p: AggregatePath, k: nat): (a: AggregatePath)
    requires k <= GetLength(p)
    ensures GetLength(a) == GetLength(p) - k && a.context == p.context
  {
    if k == 0 then p
    else if k == |p.path| then Root(p.context, p.path[0].owner)
    else Nested(p.context, p.path[..|p.path| - k])
  }

  /** `getParentPath()` applied `k` times. */
  function ParentChain(p: AggregatePath, k: nat): Result<AggregatePath>
    decreases k
  {
    if k == 0 then Ok(p)
    else
      var parent :- GetParentPath(p);
      ParentChain(parent, k - 1)
  }

  lemma AncestorOfAncestor(p: AggregatePath, j: nat, k: nat)
    requires j + k <= GetLength(p)
    ensures Ancestor(Ancestor(p, j), k) == Ancestor(p, j + k)
  {
    if j > 0 && k > 0 && j + k < |p.path| {
      assert p.path[..|p.path| - j][..|p.path| - j - k] == p.path[..|p.path| - j - k];
    }
  }

  lemma ParentIsAncestor(p: AggregatePath)
    requires p.Nested?
    ensures GetParentPath(p) == Ok(Ancestor(p, 1))
  {
  }

  /**
   * Taking the parent `k` times gives the ancestor `k` segments up, so a path
   * of length `n` reaches a root in exactly `n` steps and never earlier, and
   * one step more fails.
   */
  lemma {:induction false} ParentChainReachesRoot(p: AggregatePath, k: nat)
    requires k <= GetLength(p)
    ensures ParentChain(p, k) == Ok(Ancestor(p, k))
    ensures ParentChain(p, k).value.Root? <==> k == GetLength(p)
    ensures k == GetLength(p) ==> ParentChain(p, k + 1).Err?
    decreases k
  {
    if k == 0 {
      if p.Root? {
        assert GetParentPath(p).Err?;
      }
    } else {
      ParentIsAncestor(p);
      var parent := Ancestor(p, 1);
      ParentChainReachesRoot(parent, k - 1);
      AncestorOfAncestor(p, 1, k - 1);
      if k == GetLength(p) {
        assert ParentChain(p, k + 1) == ParentChain(parent, k);
      }
    }
  }

  /**
   * `getIdDefiningParentPath()` returns the nearest strict ancestor that is
   * the root or has an id: every ancestor strictly between is id-less.
   */
  lemma {:induction false} IdDefiningParentIsNearest(p: AggregatePath) returns (k: nat)
    requires p.Nested?
    ensures 1 <= k <= GetLength(p)
    ensures GetIdDefiningParentPath(p) == Ok(Ancestor(p, k))
    ensures IsIdDefining(Ancestor(p, k))
    ensures forall j :: 1 <= j < k ==> !IsIdDefining(Ancestor(p, j))
    decreases GetLength(p)
  {
    ParentIsAncestor(p);
    var parent := Ancestor(p, 1);
    if parent.Root? || HasIdProperty(parent) == Ok(true) {
      k := 1;
    } else {
      var k' := IdDefiningParentIsNearest(parent);
      k := k' + 1;
      AncestorOfAncestor(p, 1, k');
      forall j | 1 <= j < k ensures !IsIdDefining(Ancestor(p, j)) {
        if j > 1 {
          AncestorOfAncestor(p, 1, j - 1);
        }
      }
    }
  }
}

/**
 * The aggregate of `AggregatePathUnitTests`: `DummyEntity` (with an id) holds
 * `Second` values directly, embedded and in a list, and a `WithId` entity;
 * `Second` holds two `Third`s, `Third` a `String`.
 */
module AggregatePathExample {
  import opened Errors
  import opened SqlIdentifiers
  import opened AggregatePaths

  const DummyType: TypeId := 0
  const SecondType: TypeId := 1
  const ThirdType: TypeId := 2
  const WithIdType: TypeId := 3
  const LongType: TypeId := 4
  const StringType: TypeId := 5

  function Prop(name: string, owner: TypeId, actualType: TypeId): Property {
    Property(name, owner, actualType, Unquoted(name), None, None)
  }

  const EntityId := Prop("entityId", DummyType, LongType)
  const WithIdId := Prop("withIdId", WithIdType, LongType)
  const SecondProp := Prop("second", DummyType, SecondType)
  const Second2Prop := Prop("second2", DummyType, SecondType)
  const SecondListProp := Prop("secondList", DummyType, SecondType)
  const WithIdProp := Prop("withId", DummyType, WithIdType)
  const ThirdProp := Prop("third", SecondType, ThirdType)
  const Third2Prop := Prop("third2", SecondType, ThirdType)
  const ValueProp := Prop("value", ThirdType, StringType)
  const WithIdSecondProp := Prop("second", WithIdType, SecondType)

  const Context := MappingContext(map[
    DummyType := Entity(DummyType, Some(EntityId)),
    SecondType := Entity(SecondType, None),
    ThirdType := Entity(ThirdType, None),
    WithIdType := Entity(WithIdType, Some(WithIdId))])

  /** Below a one-segment path into an id-less entity the search continues up to the root. */
  lemma ThroughIdLessEntities(first: Property, middle: Property, leaf: Property)
    requires first.owner == DummyType && middle.owner == first.actualType
    requires first.actualType == SecondType && middle.actualType == ThirdType
    ensures GetIdDefiningParentPath(Nested(Context, [first, middle, leaf])) == Ok(Root(Context, DummyType))
  {
    var p := Nested(Context, [first, middle, leaf]);
    assert [first, middle, leaf][..2] == [first, middle];
    assert [first, middle][..1] == [first];
    var one := Nested(Context, [first]);
    var two := Nested(Context, [first, middle]);
    assert GetParentPath(p) == Ok(two);
    assert HasIdProperty(two) == Ok(false);
    assert GetParentPath(two) == Ok(one);
    assert HasIdProperty(one) == Ok(false);
    assert GetIdDefiningParentPath(one) == Ok(Root(Context, DummyType));
  }

  /** Paths below `second`, `second2` or `secondList` take their id from the aggregate root. */
  lemma IdDefiningPathIsRootWithoutIntermediateId()
    ensures GetIdDefiningParentPath(Nested(Context, [SecondProp, Third2Prop, ValueProp])) == Ok(Root(Context, DummyType))
    ensures GetIdDefiningParentPath(Nested(Context, [SecondProp, ThirdProp, ValueProp])) == Ok(Root(Context, DummyType))
    ensures GetIdDefiningParentPath(Nested(Context, [SecondListProp, Third2Prop, ValueProp])) == Ok(Root(Context, DummyType))
    ensures GetIdDefiningParentPath(Nested(Context, [SecondListProp, ThirdProp, ValueProp])) == Ok(Root(Context, DummyType))
    ensures GetIdDefiningParentPath(Nested(Context, [Second2Prop, Third2Prop, ValueProp])) == Ok(Root(Context, DummyType))
    ensures GetIdDefiningParentPath(Nested(Context, [Second2Prop, ThirdProp, ValueProp])) == Ok(Root(Context, DummyType))
  {
    ThroughIdLessEntities(SecondProp, Third2Prop, ValueProp);
    ThroughIdLessEntities(SecondProp, ThirdProp, ValueProp);
    ThroughIdLessEntities(SecondListProp, Third2Prop, ValueProp);
    ThroughIdLessEntities(SecondListProp, ThirdProp, ValueProp);
    ThroughIdLessEntities(Second2Prop, Third2Prop, ValueProp);
    ThroughIdLessEntities(Second2Prop, ThirdProp, ValueProp);
  }

  lemma StopsAtWithId(middle: Property, leaf: Property)
    requires middle.owner == SecondType && middle.actualType == ThirdType
    ensures GetIdDefiningParentPath(Nested(Context, [WithIdProp, WithIdSecondProp, middle, leaf])) == Ok(Nested(Context, [WithIdProp]))
  {
    var p := Nested(Context, [WithIdProp, WithIdSecondProp, middle, leaf]);
    assert [WithIdProp, WithIdSecondProp, middle, leaf][..3] == [WithIdProp, WithIdSecondProp, middle];
    assert [WithIdProp, WithIdSecondProp, middle][..2] == [WithIdProp, WithIdSecondProp];
    assert [WithIdProp, WithIdSecondProp][..1] == [WithIdProp];
    var one := Nested(Context, [WithIdProp]);
    var two := Nested(Context, [WithIdProp, WithIdSecondProp]);
    var three := Nested(Context, [WithIdProp, WithIdSecondProp, middle]);
    assert GetParentPath(p) == Ok(three);
    assert HasIdProperty(three) == Ok(false);
    assert GetParentPath(three) == Ok(two);
    assert HasIdProperty(two) == Ok(false);
    assert GetParentPath(two) == Ok(one);
    assert HasIdProperty(one) == Ok(true);
    assert GetIdDefiningParentPath(two) == Ok(one);
    assert GetIdDefiningParentPath(three) == Ok(one);
  }

  /** Below `withId` the nearest id-defining ancestor is the `withId` path itself. */
  lemma IdDefiningPathStopsAtEntityWithId()
    ensures GetIdDefiningParentPath(Nested(Context, [WithIdProp, WithIdSecondProp, Third2Prop, ValueProp])) == Ok(Nested(Context, [WithIdProp]))
    ensures GetIdDefiningParentPath(Nested(Context, [WithIdProp, WithIdSecondProp, ThirdProp, ValueProp])) == Ok(Nested(Context, [WithIdProp]))
  {
    StopsAtWithId(Third2Prop, ValueProp);
    StopsAtWithId(ThirdProp, ValueProp);
  }

  lemma RootAndNonRootPaths()
    ensures IsRoot(Root(Context, DummyType))
    ensures !IsRoot(Nested(Context, [EntityId]))
    ensures GetRequiredIdProperty(Root(Context, DummyType)) == Ok(EntityId)
    ensures GetRequiredLeafEntity(Nested(Context, [EntityId])).Err?
  {
  }
}
