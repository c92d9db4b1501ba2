/** The lazy many-to-many promise of src/Relation/Pivoted/PivotedPromise.php: unresolved while it
    holds the ORM, resolved (and memoised) once it has loaded the related entities and their pivot
    rows. Building and running the scoped query is the ORM's business and is represented by the
    rows the ORM's loader yields. */
module PivotedPromise {
  import opened Php
  import opened Wrappers
  import opened RelationOptions
  import HeapNode

  /** A loaded entity; entities are told apart by identity, as in an SplObjectStorage. */
  class Entity {
    constructor ()
    {
    }
  }

  /** One row of the loaded result: the pivot row's data and the related entity it leads to. */
  datatype PivotedRow = PivotedRow(pivot: map<string, Value>, entity: Entity)

  /** The ORM as the promise uses it: whether it provides sources, and the (pivot, entity) rows
      its loaders yield for a target role, relation schema and inner key value. */
  datatype Orm = Orm(isSourceProvider: bool, loadPivoted: (string, Schema, Value) -> seq<PivotedRow>)

  datatype OrmError = SourceProviderRequired

  /** The resolved value: the related entities in load order, and the pivot entity of each. */
  datatype PivotedStorage = PivotedStorage(elements: seq<Entity>, pivotData: map<Entity, HeapNode.Made>)

  /** The elements of `rows`, in order. */
  function Elements(rows: seq<PivotedRow>): seq<Entity>
    decreases |rows|
  {
    if rows == [] then [] else Elements(rows[..|rows| - 1]) + [rows[|rows| - 1].entity]
  }

  /** The pivot map of `rows`: each entity to the pivot entity made of its row; a later row of the
      same entity replaces an earlier one. */
  function PivotMap(rows: seq<PivotedRow>, throughRole: string): map<Entity, HeapNode.Made>
    decreases |rows|
  {
    if rows == [] then map[]
    else
      var last := rows[|rows| - 1];
      PivotMap(rows[..|rows| - 1], throughRole)[last.entity := HeapNode.Made(throughRole, last.pivot, HeapNode.Managed)]
  }

  /** The elements keep the order in which the rows were loaded, one element per row. */
  lemma {:induction false} ElementsInOrder(rows: seq<PivotedRow>)
    ensures |Elements(rows)| == |rows|
    ensures forall i :: 0 <= i < |rows| ==> Elements(rows)[i] == rows[i].entity
    decreases |rows|
  {
    if rows != [] {
      ElementsInOrder(rows[..|rows| - 1]);
    }
  }

  /** Every element has exactly one pivot entry, and nothing else has one. */
  lemma {:induction false} PivotMapKeys(rows: seq<PivotedRow>, throughRole: string)
    ensures PivotMap(rows, throughRole).Keys == set r | r in rows :: r.entity
    decreases |rows|
  {
    if rows != [] {
      var init := rows[..|rows| - 1];
      PivotMapKeys(init, throughRole);
      assert rows == init + [rows[|rows| - 1]];
      assert (set r | r in rows :: r.entity) == (set r | r in init :: r.entity) + {rows[|rows| - 1].entity};
    }
  }

  /** Row `i` is the last row of its entity. */
  predicate LastOfEntity(rows: seq<PivotedRow>, i: int)
    requires 0 <= i < |rows|
  {
    forall j :: i < j < |rows| ==> rows[j].entity != rows[i].entity
  }

  /** The pivot entry of an entity is made of the pivot row of that entity's last row. */
  lemma {:induction false} PivotMapHoldsLastPivot(rows: seq<PivotedRow>, throughRole: string, i: int)
    requires 0 <= i < |rows| && LastOfEntity(rows, i)
    ensures rows[i].entity in PivotMap(rows, throughRole)
    ensures PivotMap(rows, throughRole)[rows[i].entity] == HeapNode.Made(throughRole, rows[i].pivot, HeapNode.Managed)
    decreases |rows|
  {
    var init := rows[..|rows| - 1];
    if i < |rows| - 1 {
      assert LastOfEntity(init, i) by {
        forall j | i < j < |init|
          ensures init[j].entity != init[i].entity
        {
          assert init[j] == rows[j] && init[i] == rows[i];
        }
      }
      PivotMapHoldsLastPivot(init, throughRole, i);
      assert init[i] == rows[i];
    }
  }

  class PivotedPromise {
    /** The ORM while unresolved, None once resolved. */
    var orm: Option<Orm>
    const target: string
    const relationSchema: Schema
    const innerKey: Value
    var resolved: Option<PivotedStorage>

    /** A promise holds the ORM exactly until it holds its resolved value. */
    ghost predicate Valid()
      reads this
    {
      orm.None? <==> resolved.Some?
    }

    constructor (orm: Orm, target: string, relationSchema: Schema, innerKey: Value)
      ensures Valid() && !Loaded()
      ensures this.orm == Some(orm) && resolved == None
      ensures this.target == target && this.relationSchema == relationSchema && this.innerKey == innerKey
    {
      this.orm := Some(orm);
      this.target := target;
      this.relationSchema := relationSchema;
      this.innerKey := innerKey;
      resolved := None;
    }

    /** `__loaded()`: the promise has been resolved, that is it holds its resolved value. */
    predicate Loaded(): (r: bool)
      reads this
      ensures Valid() ==> (r <==> resolved.Some?)
    {
      orm.None?
    }

    /** `__role()`: the role of the entities the promise resolves to. */
    function Role(): (r: string)
      ensures r == target
    {
      target
    }

    /** The scope of the promise: the relation's inner key bound to the parent's key value. */
    function Scope(): (r: map<string, Value>)
      ensures r.Keys == {Define(relationSchema, INNER_KEY)} && r[Define(relationSchema, INNER_KEY)] == innerKey
    {
      map[Define(relationSchema, INNER_KEY) := innerKey]
    }

    /** Resolves the promise. Once resolved it returns the stored value and loads nothing; an ORM
        that provides no sources is refused and the promise stays unresolved; otherwise the loaded
        rows become the elements and the pivot map, are stored, and the ORM is dropped. */
    method Resolve() returns (r: Result<PivotedStorage, OrmError>)
      requires Valid()
      modifies this
      ensures Valid()
      ensures old(orm).None? ==> unchanged(this) && r == Ok(old(resolved).value)
      ensures old(orm).Some? && !old(orm).value.isSourceProvider ==> unchanged(this) && r == Err(SourceProviderRequired)
      ensures old(orm).Some? && old(orm).value.isSourceProvider ==>
                var rows := old(orm).value.loadPivoted(target, relationSchema, innerKey);
                && Loaded()
                && r == Ok(PivotedStorage(Elements(rows), PivotMap(rows, Define(relationSchema, THOUGH_ENTITY))))
                && resolved == Some(r.value)
    {
      if orm.None? {
        return Ok(resolved.value);
      }
      if !orm.value.isSourceProvider {
        return Err(SourceProviderRequired);
      }
      var rows := orm.value.loadPivoted(target, relationSchema, innerKey);
      var throughRole := Define(relationSchema, THOUGH_ENTITY);
      var elements: seq<Entity> := [];
      var pivotData: map<Entity, HeapNode.Made> := map[];
      var i := 0;
      while i < |rows|
        invariant 0 <= i <= |rows|
        invariant elements == Elements(rows[..i])
        invariant pivotData == PivotMap(rows[..i], throughRole)
      {
        assert rows[..i + 1][..i] == rows[..i];
        pivotData := pivotData[rows[i].entity := HeapNode.Made(throughRole, rows[i].pivot, HeapNode.Managed)];
        elements := elements + [rows[i].entity];
        i := i + 1;
      }
      assert rows[..|rows|] == rows;
      resolved := Some(PivotedStorage(elements, pivotData));
      orm := None;
      r := Ok(resolved.value);
    }
  }

  /** Resolving twice: the second call returns what the first stored. */
  method ResolveTwice(p: PivotedPromise) returns (first: Result<PivotedStorage, OrmError>, second: Result<PivotedStorage, OrmError>)
    requires p.Valid()
    modifies p
    ensures second == first
  {
    first := p.Resolve();
    second := p.Resolve();
  }
}
