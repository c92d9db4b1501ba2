/** The morphed has-many relation of src/Relation/Morphed/MorphedHasManyRelation.php: a has-many
    relation whose related rows also carry the parent's alias (its role) in a morph key column.
    The parent has-many relation, the ORM and the repository are not part of this model; what is
    modelled is what this class adds on top of them. */
module MorphedHasMany {
  import opened Php
  import opened Wrappers
  import opened RelationOptions

  /** What the relation reads of an entity's state: its alias and its current data. */
  datatype EntityState = EntityState(alias: string, data: map<string, Value>)

  /** The value of `key` in an entity's state, null when absent. */
  function FetchKey(state: EntityState, key: string): Value
  {
    if key in state.data then state.data[key] else Null
  }

  /** A lazy-load promise: when resolved, the repository of `role` is asked for the rows that
      match `scope`. */
  datatype Promise = Promise(scope: map<string, Value>, role: string)

  /** A collection that resolves its promise on first access. */
  datatype CollectionPromise = CollectionPromise(promise: Promise)

  /** The pair `initPromise` returns: the collection to put in the entity, and its promise. */
  datatype Initial = Initial(collection: Option<CollectionPromise>, promise: Option<Promise>)

  /** The store command the parent relation queues for a related entity; of it, only the
      context this relation writes into is modelled. */
  class StoreCommand {
    var context: map<string, Value>

    constructor (context: map<string, Value>)
      ensures this.context == context
    {
      this.context := context;
    }
  }

  class MorphedHasManyRelation {
    /** The related role. */
    const target: string
    const innerKey: string
    const outerKey: string
    const morphKey: string

    /** The inner and outer keys are set by the parent relation from the same schema; the morph
        key is the schema's MORPH_KEY option and never changes afterwards. */
    constructor (target: string, schema: Schema)
      ensures this.target == target
      ensures innerKey == Define(schema, INNER_KEY) && outerKey == Define(schema, OUTER_KEY)
      ensures morphKey == Define(schema, MORPH_KEY)
    {
      this.target := target;
      innerKey := Define(schema, INNER_KEY);
      outerKey := Define(schema, OUTER_KEY);
      morphKey := Define(schema, MORPH_KEY);
    }

    /** The lazy collection of a parent with state `state`: nothing when the parent's inner key is
        empty; otherwise a promise scoped to the parent's key and alias, and a collection over that
        same promise. */
    function InitPromise(state: EntityState): (r: Initial)
      ensures r.collection.None? <==> Empty(FetchKey(state, innerKey))
      ensures r.promise.None? <==> r.collection.None?
      ensures r.collection.Some? ==> r.collection.value.promise == r.promise.value
      ensures r.promise.Some? ==> r.promise.value.role == target
      ensures r.promise.Some? ==> r.promise.value.scope.Keys == {outerKey, morphKey}
      ensures r.promise.Some? ==> r.promise.value.scope[morphKey] == Str(state.alias)
      ensures r.promise.Some? && outerKey != morphKey ==>
                r.promise.value.scope[outerKey] == FetchKey(state, innerKey)
    {
      var key := FetchKey(state, innerKey);
      if Empty(key) then Initial(None, None)
      else
        var pr := Promise(map[outerKey := key, morphKey := Str(state.alias)], target);
        Initial(Some(CollectionPromise(pr)), Some(pr))
    }

    /** The related entity must be told the parent's alias when its morph key does not loosely
        equal it already (PHP `!=`). */
    predicate NeedsMorphKey(parent: EntityState, related: EntityState)
    {
      !LooseEquals(FetchKey(related, morphKey), Str(parent.alias))
    }

    /** The store command's context after the fix-up: the parent's alias under the morph key when
        it is needed, and nothing else changed. */
    function FixedContext(context: map<string, Value>, parent: EntityState, related: EntityState): (r: map<string, Value>)
      ensures forall k :: k != morphKey ==> (k in r <==> k in context)
      ensures forall k :: k != morphKey && k in context ==> r[k] == context[k]
      ensures NeedsMorphKey(parent, related) ==> morphKey in r && r[morphKey] == Str(parent.alias)
      ensures !NeedsMorphKey(parent, related) ==> r == context
    {
      if NeedsMorphKey(parent, related) then context[morphKey := Str(parent.alias)] else context
    }

    /** Queues the store of `related` under `parent`: `store` is the command the parent relation
        queued for it, and it is that same command that is returned, with its context fixed up. */
    method QueueStore(parent: EntityState, related: EntityState, store: StoreCommand) returns (r: StoreCommand)
      modifies store
      ensures r == store
      ensures store.context == FixedContext(old(store.context), parent, related)
    {
      if NeedsMorphKey(parent, related) {
        store.context := store.context[morphKey := Str(parent.alias)];
      }
      r := store;
    }

    /** After the fix-up the parent's alias reaches the related entity one way or the other:
        either the command's context carries it under the morph key, or the entity's own morph
        value already loosely equals it. */
    lemma FixUpCoversAlias(context: map<string, Value>, parent: EntityState, related: EntityState)
      ensures var r := FixedContext(context, parent, related);
        || (morphKey in r && r[morphKey] == Str(parent.alias))
        || LooseEquals(FetchKey(related, morphKey), Str(parent.alias))
    {
    }
  }

  /** The loose comparison decides the fix-up: a related entity without a morph value, or with
      another alias, is fixed; one already holding the alias, or a value PHP 7 finds loosely
      equal to it (the integer 0 against a non-numeric alias), is not. */
  lemma NeedsMorphKeyExamples(rel: MorphedHasManyRelation, m: map<string, Value>)
    ensures rel.NeedsMorphKey(EntityState("user", m), EntityState("comment", map[]))
    ensures rel.NeedsMorphKey(EntityState("user", m), EntityState("comment", map[rel.morphKey := Str("post")]))
    ensures !rel.NeedsMorphKey(EntityState("user", m), EntityState("comment", map[rel.morphKey := Str("user")]))
    ensures !rel.NeedsMorphKey(EntityState("user", m), EntityState("comment", map[rel.morphKey := Int(0)]))
  {
    LetterFirst("user");
    LetterFirst("post");
  }
}
