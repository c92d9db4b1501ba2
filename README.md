# Cycle ORM command, heap, relation and selector contracts in Dafny

This project models the small, self-contained pieces of a PHP data-mapper ORM that sit around its
unit-of-work engine, and proves what each of them promises:

- the no-op command `Nil` of the command graph (always ready, never executed, empty context, every
  mutator a no-op);
- the cycle guard of heap traversal (`VisitorTrait`), a set of visited relation branches that only
  grows;
- the context-carrier protocol of heap nodes in its smallest form, as tests/ORM/StateTest.php
  exercises it: a value registered on one node is forwarded into another node's data under another
  key, at once when it is already present, otherwise on a later `register`;
- the morphed has-many relation: the lazy-load scope `{outerKey: innerKey, morphKey: alias}` and the
  morph-key fix-up of the store command;
- the pivoted lazy promise, an unresolved-then-resolved state machine whose resolution builds the
  element list and the element-to-pivot map and memoises them;
- the singular parser node's `push`: missing parent, null key, or one mount into the parent;
- relation chains (`"a.b.c"` split at the first dot, options only to the tail);
- the selector `Select`: how `load`/`with` expand relation arrays into `loadRelation` requests, how
  `__call` routes aggregations, `count`, `limit`, `offset`, `constrain`, `wherePK` and `fetchOne`.

One module per source file (`NilCommand`, `Visitor`, `HeapNode`, `MorphedHasMany`,
`PivotedPromise`, `SingularNode`, `Chain`, `Select`), plus `Wrappers` (Option, Result, Outcome),
`RelationOptions` (the option keys of src/Relation.php that are read: MORPH_KEY = 29,
OUTER_KEY = 32, INNER_KEY = 33, THOUGH_ENTITY = 52) and `Php` (the PHP 7 semantics the branches
depend on: `empty()`, loose `==`/`!=`, the `(int)` cast and `strtoupper`).

Code that changes objects in place is modelled with classes whose methods state the whole new
state (`Visitor`, `Node`, `StoreCommand`, `PivotedPromise`, `SingularNode`, `ParentNode`,
`LoaderLog`, `Select`). The loops of the source (the pivot rows of `__resolve`, the relation
arrays of `load` and `with`) are `while` loops with invariants, specified by recursive functions
(`Elements`, `PivotMap`, `LoadList`, `WithList`) whose properties are proved as lemmas. The heap
node's forward cascade, which the assertions of tests/ORM/StateTest.php require, stands for no loop
of the source shown here; it is modelled the same way (`Node.CopyAlong`, specified by `PushAll`). The pure code (`Nil`, `isChain`, routing, `initPromise`, `fetchOne`) is functions.

Collaborators that are not part of the model are parameters:
- the rows the ORM's loaders yield for a pivoted promise (`Orm.loadPivoted`);
- the command the parent has-many relation queues (`QueueStore`'s `store`);
- the loader the head of a chain hands back (`child`) and the one its tail hands back (`nested`);
- what a query builder answers (`answer`, `aggregate`);
- the rows `fetchOne`'s query fetches (`data`);
- the parent of a parser node, seen only through the mounts it receives.

`Nil::isExecuted()` returns false, so the model's `IsExecuted` is false even after `Execute`.

`with(array, options)` ignores the caller's options: the loop variable reuses the name `$options`,
so plain names are joined with `[]` and keyed entries with their own options only, whereas
`load(array, options)` merges the caller's options into every entry. The model keeps this
asymmetry as written (`LoadAndWithAgree` states it).

The heap node's own source is not part of this model; its behaviour is taken from the assertions
of tests/ORM/StateTest.php. Where those are silent, the model chooses:
- `register` writes the node's own key and copies the value one hop along every link on that key;
- `forward` copies at once when the key is present or `trigger` is set, copying null when the key
  is absent.

## Model

| member | source | states |
|---|---|---|
| `NilCommand.CallChangesNothing` | src/Command/Branch/Nil.php:23-81 | no call (a required `waitContext`, `register` with any flags, `execute`, `complete`, `rollBack`) changes what is observable: ready, not executed, empty context |
| `NilCommand.ObservationAfterAnyCalls` | src/Command/Branch/Nil.php:30-57 | after any sequence of calls, `isReady()` is true, `isExecuted()` is false (even after `execute()`), `getContext()` is empty |
| `Visitor.Visitor.constructor` | src/Heap/Traits/VisitorTrait.php:18 | a fresh visitor has visited no branch |
| `Visitor.Visitor.Visited` | src/Heap/Traits/VisitorTrait.php:26-29 | the answer is true exactly when the branch is in the visited set; nothing changes |
| `Visitor.Visitor.MarkVisited` | src/Heap/Traits/VisitorTrait.php:36-39 | the new set is the old one with the branch added |
| `Visitor.Marked` | src/Heap/Traits/VisitorTrait.php:38 | after marking, the branch is visited and every other branch keeps its answer |
| `Visitor.MarkIdempotent` | src/Heap/Traits/VisitorTrait.php:38 | marking twice gives the same set as marking once |
| `Visitor.MarkAllExactly` | src/Heap/Traits/VisitorTrait.php:15-40 | over any series of marks the set only grows, and a branch is visited exactly when it was there before or was marked |
| `Visitor.MarkAllOrderIrrelevant` | src/Heap/Traits/VisitorTrait.php:36-39 | the order of the marks does not matter |
| `Visitor.GuardScenario` | src/Heap/Traits/VisitorTrait.php:18-39 | fresh: not visited; after marking `b`: visited, a second mark leaves the set as it was, another branch is still not visited |
| `Php.Empty` | src/Relation/Morphed/MorphedHasManyRelation.php:39 | PHP `empty()` holds of exactly null, false, 0, "" and "0" |
| `Php.LooseEquals` | src/Relation/Morphed/MorphedHasManyRelation.php:67 | PHP 7 loose `==`: null equals exactly null, false, 0 and ""; a non-numeric string equals another string only when they are identical |
| `Php.LooseEqualsReflexive` | src/Relation/Morphed/MorphedHasManyRelation.php:67 | loose `==` holds between a value and itself |
| `Php.LooseEqualsSymmetric` | src/Relation/Morphed/MorphedHasManyRelation.php:67 | loose `==` does not depend on the order of its operands |
| `Php.LooseEqualsNotTransitive` | src/Relation/Morphed/MorphedHasManyRelation.php:67 | loose `==` is not transitive: null == 0, 0 == "abc", null != "abc" |
| `Php.IntCast` | src/Select.php:118 | the `(int)` cast gives 0 for every empty value and the number a string of digits denotes |
| `Php.Upper` | src/Select.php:151 | `strtoupper` keeps the length and upper-cases each ASCII letter, position by position |
| `HeapNode.Node.constructor` | tests/ORM/StateTest.php:19 | a node starts with the given status, data and role and no links |
| `HeapNode.Node.GetData` | tests/ORM/StateTest.php:23 | `getData()` reads the node's current data, as the register and forward calls before it left it |
| `HeapNode.Node.Register` | tests/ORM/StateTest.php:17-35 | the node stores the value under its key, the target of every link on that key gets it under the link's target key, nothing else changes, no link changes |
| `HeapNode.Node.CopyAlong` | tests/ORM/StateTest.php:26-35 | each node reached by a link on the key gets the value under exactly the target keys of those links; no link changes |
| `HeapNode.Node.Forward` | tests/ORM/StateTest.php:26-55 | the link is appended; a later register of the key writes the target key; the value is copied at once when present (or when triggered), otherwise the target is untouched |
| `HeapNode.PushAllIsPut` | tests/ORM/StateTest.php:26-35 | writing along the links one at a time sets exactly the target keys those links name, whatever their order |
| `HeapNode.TestPush` | tests/ORM/StateTest.php:17-24 | registering `user_id` = 1 on an empty node gives data `{user_id: 1}` |
| `HeapNode.TestForward` | tests/ORM/StateTest.php:26-35 | a forward installed before `register('id', 1)` gives the child `{user_id: 1}` |
| `HeapNode.TestForwardDefault` | tests/ORM/StateTest.php:37-45 | a parent already holding `id` = 1 copies it into the child on `forward` |
| `HeapNode.TestForwardDefaultTrigger` | tests/ORM/StateTest.php:47-55 | the same copy happens with the trigger flag set |
| `MorphedHasMany.MorphedHasManyRelation.constructor` | src/Relation/Morphed/MorphedHasManyRelation.php:30-34 | the morph key is the schema's MORPH_KEY option, fixed at construction beside the inner and outer keys |
| `MorphedHasMany.MorphedHasManyRelation.InitPromise` | src/Relation/Morphed/MorphedHasManyRelation.php:36-54 | no collection and no promise exactly when the parent's inner key is PHP-empty; otherwise the promise's scope has exactly the keys outerKey and morphKey, binds the morph key to the parent's alias and, when the two keys differ, the outer key to the inner key value (with equal keys the later entry of the array literal, the alias, wins), and the collection wraps that same promise |
| `MorphedHasMany.MorphedHasManyRelation.FixedContext` | src/Relation/Morphed/MorphedHasManyRelation.php:67-69 | the alias is written under the morph key exactly when the related entity's morph value is loosely unequal to it; no other key changes |
| `MorphedHasMany.MorphedHasManyRelation.QueueStore` | src/Relation/Morphed/MorphedHasManyRelation.php:63-72 | the command returned is the one the parent relation queued, with its context fixed up |
| `MorphedHasMany.MorphedHasManyRelation.FixUpCoversAlias` | src/Relation/Morphed/MorphedHasManyRelation.php:63-72 | after the fix-up, whatever the queued context held, either the context carries the parent's alias under the morph key or the related entity's own morph value already loosely equals it |
| `MorphedHasMany.MorphedHasManyRelation.NeedsMorphKeyExamples` | src/Relation/Morphed/MorphedHasManyRelation.php:67 | missing or different morph values are fixed; the alias itself, and 0 against a non-numeric alias (PHP 7 loose comparison), are not |
| `PivotedPromise.PivotedPromise.constructor` | src/Relation/Pivoted/PivotedPromise.php:49-55 | a new promise holds the ORM, is not loaded and has no resolved value |
| `PivotedPromise.PivotedPromise.Loaded` | src/Relation/Pivoted/PivotedPromise.php:60-63 | the promise reads as loaded exactly when it holds its resolved value |
| `PivotedPromise.PivotedPromise.Role` | src/Relation/Pivoted/PivotedPromise.php:68-71 | the role is the target the promise was made for |
| `PivotedPromise.PivotedPromise.Scope` | src/Relation/Pivoted/PivotedPromise.php:76-81 | the scope binds the relation's INNER_KEY option, and only it, to the inner key value |
| `PivotedPromise.PivotedPromise.Resolve` | src/Relation/Pivoted/PivotedPromise.php:86-145 | once resolved it returns the stored value and changes nothing; an ORM that is not a source provider is refused and the promise stays unresolved; otherwise the elements and pivot map of the loaded rows are stored, the ORM is dropped and the promise reads as loaded |
| `PivotedPromise.ResolveTwice` | src/Relation/Pivoted/PivotedPromise.php:88-90 | a second resolution returns what the first returned |
| `PivotedPromise.ElementsInOrder` | src/Relation/Pivoted/PivotedPromise.php:129-139 | the elements list has one entry per loaded row, in load order |
| `PivotedPromise.PivotMapKeys` | src/Relation/Pivoted/PivotedPromise.php:129-141 | the entities with a pivot entry are exactly the elements |
| `PivotedPromise.PivotMapHoldsLastPivot` | src/Relation/Pivoted/PivotedPromise.php:131-136 | an element's pivot entry is the THOUGH_ENTITY made, managed, of the pivot row of its last row |
| `SingularNode.PushStep` | src/Parser/SingularNode.php:40-57 | refused exactly when there is no parent, whatever the row; dropped exactly when there is a parent and the inner key is null or absent; otherwise one mount under the outer key with the inner key value as criteria |
| `SingularNode.SingularNode.constructor` | src/Parser/SingularNode.php:29-35 | stores the columns, the inner key and the outer key, uses the primary key as duplicate criteria, has no parent |
| `SingularNode.SingularNode.Push` | src/Parser/SingularNode.php:40-57 | throws the parser error without mounting when the parent is missing; otherwise returns normally and the parent receives the one mount `PushStep` names, or none |
| `SingularNode.PushScenario` | src/Parser/SingularNode.php:46-56 | of a row with a null key and a row with a key, both pushes return normally; the first is dropped and only the second reaches the parent, as a single mount |
| `Chain.FirstDot` | src/Select/Traits/ChainTrait.php:42 | `strpos` of the dot: none exactly when there is no dot, else the index of the first dot |
| `Chain.IsChain` | src/Select/Traits/ChainTrait.php:24-27 | a relation is a chain if and only if it contains a dot |
| `Chain.Split` | src/Select/Traits/ChainTrait.php:42-54 | the head has no dot and head + "." + tail is the chain |
| `Chain.SplitUnique` | src/Select/Traits/ChainTrait.php:42-54 | any dot-free head and tail that make up the chain are the split |
| `Chain.ChainCallsMeaning` | src/Select/Traits/ChainTrait.php:45-54 | the head is requested from this loader with empty options; only the tail gets the caller's options; both get the join and load flags unchanged; no tail request when the child cannot chain |
| `Chain.LoadChain` | src/Select/Traits/ChainTrait.php:40-55 | issues exactly those requests; returns the nested loader, or the LoaderException with its message when the child is not an AbstractLoader |
| `Select.Route` | src/Select.php:151 | a call goes to a fresh builder exactly when its upper-cased name is one of AVG, MIN, MAX, SUM, COUNT |
| `Select.RouteIgnoresCase` | src/Select.php:151 | routing does not depend on the case of the method name |
| `Select.RouteCount` | src/Select.php:151-155 | `count` and `Sum` go to a fresh builder |
| `Select.RouteWhere` | src/Select.php:151-158 | `where` and `counts` go to the shared builder |
| `Select.Returned` | src/Select.php:155-163 | the selector itself is returned exactly when the shared builder answered with the builder; otherwise the answer is passed through, an aggregation's always |
| `Select.LoadEntryOptions` | src/Select.php:230-238 | a plain name is loaded with the caller's options; a keyed entry with its own options over the caller's, its own keys winning |
| `Select.LoadListAt` | src/Select.php:230-238 | an array is loaded entry by entry, in order, one request per entry |
| `Select.WithListAt` | src/Select.php:321-329 | an array is joined entry by entry, in order, names with `[]` and keyed entries with their own options |
| `Select.LoadAndWithAgree` | src/Select.php:222-332 | `load` and `with` request the same relations in the same order, `load` with join false and load true, `with` the reverse; `with` of an array ignores the caller's options |
| `Select.Select.constructor` | src/Select.php:54-59 | a new selector has issued no request and its query is untouched |
| `Select.Select.SetConstrain` | src/Select.php:67-72 | sets the loader's constrain and returns the selector; nothing else changes |
| `Select.Select.Limit` | src/Select.php:124-130 | sets the limit and also makes the query distinct |
| `Select.Select.Offset` | src/Select.php:135-140 | sets the offset only |
| `Select.Select.Call` | src/Select.php:149-164 | an aggregation is sent, with its name and arguments, to a fresh builder, leaves the shared query and the loader unchanged, and returns that builder's answer; any other call is sent to the shared builder, and the selector itself is returned when it answers with the builder |
| `Select.Select.WherePK` | src/Select.php:100-103 | a `where` on the primary key, sent to the shared builder; the selector is returned when the builder answers with itself, otherwise the declared `self` return fails with a TypeError; no setting of the query (distinct, limit, offset, constrain) and no loader request changes |
| `Select.Select.CountColumn` | src/Select.php:111-116 | with no column the counted column is `DISTINCT(pk)` |
| `Select.Select.Count` | src/Select.php:111-119 | a fresh builder is asked to count the given column, or `DISTINCT(pk)` when none is given; its answer is returned cast to int; the shared query and the loader are unchanged |
| `Select.Select.Load` | src/Select.php:222-241 | one name: one request with the caller's options, join false, load true; an array: the requests `LoadList` lists; the query is unchanged |
| `Select.Select.With` | src/Select.php:313-332 | one name: one request with the caller's options, join true, load false; an array: the requests `WithList` lists; the query is unchanged |
| `Select.Select.FetchOne` | src/Select.php:342-351 | no entity exactly when the first fetched row is missing or empty; otherwise the managed entity of the target made of that row |

## Left out

- The unit-of-work engine (transaction, command execution loop, rollback) and the Node, Insert and
  HasManyRelation classes: they are not part of this model, only the contracts around them are.
- The heap node's `fresh` and `stream` arguments of `register`/`forward`, and its `status`
  transitions: the tests give them no behaviour.
- HeapNode.Node.Register: a forwarded value is written one hop only; a target's own links are not
  followed again, so a chain or cycle of forwards is not modelled.
- Php.LooseEquals: numeric strings are modelled in integer form only (no fractions, exponents or
  trailing whitespace); floats are not modelled; PHP 8's changed int-to-string rule is not modelled.
- Php.IntCast: PHP's 64-bit integer range (saturation of large numeric strings) is not modelled.
- Select.Select.Call: a `distinct()` call sent through `__call` is recorded as a builder call; the
  `distinct` field tracks only the flag `limit()` sets directly, so it is not the query's full
  distinct state.
- Chain.LoadChain: a name without a dot is not modelled; `strpos` would return false and
  `substr` would raise a TypeError under strict types, but callers pass only chains.
- Php.Upper: only ASCII letters are upper-cased; locale-dependent case mapping is not modelled.
- `SingularNode.SingularNode.Attach` stands for the two fields a parent's linking sets on its child.
  The rest of the base parser node (row parsing, duplicate detection, `mount` itself) is not part of
  this model.
- The repository closure of `initPromise`, and the query building, `RootNode` parsing and
  `Iterator` hydration of `__resolve`: foreign calls, represented by the promise's role and by the
  rows `Orm.loadPivoted` yields.
- `Select`'s SQL side (`buildQuery`, `sqlStatement`, `fetchData`, `fetchAll`, `getIterator`,
  `getBuilder`), `__clone` and `__destruct`: thin wrappers over the loader and database layers.
- Option values in loader options are scalars; nested option arrays (such as `where` conditions)
  are not represented.
- SingularNode.PushStep: a row without the inner key reads as null and is dropped; the "Undefined
  index" notice PHP raises for the missing key is not modelled.
- The tests that run SQL against database drivers, the schema renderer test, the insert command
  test and the driver subclasses: they exercise code that is not part of this model.
