/** The entity selector of src/Select.php: it asks its root loader to load or join relations,
    forwards query-builder calls, and turns fetched rows into an entity. The loader, the query
    builders and the database are not part of this model: the loader is represented by the
    requests it receives, the shared query by the calls it receives and by its distinct, limit
    and offset settings, and the builders' and the database's answers are parameters. */
module Select {
  import opened Php
  import opened Wrappers
  import opened Chain
  import HeapNode

  /** One element of a relation array: a value that is a relation name, or a relation name (the
      key) with its own options (the value). */
  datatype Entry = Name(relation: string) | WithOptions(relation: string, options: Options)

  /** The first argument of `load` and `with`: one relation name, or an array of entries. */
  datatype Relations = One(relation: string) | Many(entries: seq<Entry>)

  /** The builder a call goes to: a fresh one over a newly built query, or the shared one. */
  datatype BuilderKind = Fresh | Shared

  datatype BuilderCall = BuilderCall(builder: BuilderKind, name: string, arguments: seq<Value>)

  /** What a builder call returns: the builder itself, or a value. */
  datatype Answer = QueryBuilder | Plain(value: Value)

  /** What `__call` returns: the selector itself, or the builder's answer. */
  datatype CallResult = Itself | Passed(answer: Answer)

  /** The TypeError PHP raises when a method declared to return the selector returns something
      else. */
  datatype ReturnTypeError = NotSelf(answer: Answer)

  /** An opaque constrain object. */
  datatype Constrain = Constrain(id: nat)

  const AGGREGATES: seq<string> := ["AVG", "MIN", "MAX", "SUM", "COUNT"]

  /** Aggregations, named in any case, go to a fresh builder; everything else to the shared one. */
  function Route(name: string): (r: BuilderKind)
    ensures r == Fresh <==> Upper(name) in {"AVG", "MIN", "MAX", "SUM", "COUNT"}
  {
    if Upper(name) in AGGREGATES then Fresh else Shared
  }

  lemma UpperIdempotent(s: string)
    ensures Upper(Upper(s)) == Upper(s)
  {
  }

  /** Routing does not depend on the case of the name. */
  lemma RouteIgnoresCase(name: string)
    ensures Route(Upper(name)) == Route(name)
  {
    UpperIdempotent(name);
  }

  lemma RouteCount()
    ensures Route("count") == Fresh && Route("Sum") == Fresh
  {
    assert Upper("count") == "COUNT";
    assert Upper("Sum") == "SUM";
  }

  lemma RouteWhere()
    ensures Route("where") == Shared && Route("counts") == Shared
  {
    assert Upper("where") == "WHERE";
    assert |Upper("counts")| == 6;
  }

  /** The result of `__call`: an aggregation returns the fresh builder's answer as it is; a call
      on the shared builder that answers with the builder returns the selector instead. */
  function Returned(kind: BuilderKind, answer: Answer): (r: CallResult)
    ensures r == Itself <==> kind == Shared && answer == QueryBuilder
    ensures r != Itself ==> r == Passed(answer)
  {
    if kind == Shared && answer == QueryBuilder then Itself else Passed(answer)
  }

  /** The request `load` issues for one entry: a name gets the caller's options; a keyed entry its
      own options over the caller's (PHP `$subOption + $options`: its own keys win). */
  function LoadEntry(e: Entry, options: Options): LoadRequest
  {
    match e
    case Name(relation) => LoadRequest(relation, options, false, true)
    case WithOptions(relation, sub) => LoadRequest(relation, options + sub, false, true)
  }

  /** The request `with` issues for one entry: the caller's options play no part. */
  function WithEntry(e: Entry): LoadRequest
  {
    match e
    case Name(relation) => LoadRequest(relation, map[], true, false)
    case WithOptions(relation, own) => LoadRequest(relation, own, true, false)
  }

  function LoadList(entries: seq<Entry>, options: Options): seq<LoadRequest>
    decreases |entries|
  {
    if entries == [] then []
    else LoadList(entries[..|entries| - 1], options) + [LoadEntry(entries[|entries| - 1], options)]
  }

  function WithList(entries: seq<Entry>): seq<LoadRequest>
    decreases |entries|
  {
    if entries == [] then [] else WithList(entries[..|entries| - 1]) + [WithEntry(entries[|entries| - 1])]
  }

  /** The requests `load(relation, options)` sends to the root loader. */
  function LoadRequests(relation: Relations, options: Options): seq<LoadRequest>
  {
    match relation
    case One(name) => [LoadRequest(name, options, false, true)]
    case Many(entries) => LoadList(entries, options)
  }

  /** The requests `with(relation, options)` sends to the root loader. */
  function WithRequests(relation: Relations, options: Options): seq<LoadRequest>
  {
    match relation
    case One(name) => [LoadRequest(name, options, true, false)]
    case Many(entries) => WithList(entries)
  }

  /** An array is loaded entry by entry, in order, one request per entry. */
  lemma {:induction false} LoadListAt(entries: seq<Entry>, options: Options)
    ensures |LoadList(entries, options)| == |entries|
    ensures forall i :: 0 <= i < |entries| ==> LoadList(entries, options)[i] == LoadEntry(entries[i], options)
    decreases |entries|
  {
    if entries != [] {
      LoadListAt(entries[..|entries| - 1], options);
    }
  }

  lemma {:induction false} WithListAt(entries: seq<Entry>)
    ensures |WithList(entries)| == |entries|
    ensures forall i :: 0 <= i < |entries| ==> WithList(entries)[i] == WithEntry(entries[i])
    decreases |entries|
  {
    if entries != [] {
      WithListAt(entries[..|entries| - 1]);
    }
  }

  /** The options of each `load` request: the entry's own keys win; every other key of the
      caller's options is kept; and a plain name gets exactly the caller's options. */
  lemma LoadEntryOptions(e: Entry, options: Options)
    ensures var o := LoadEntry(e, options).options;
      && (e.Name? ==> o == options)
      && (e.WithOptions? ==> o.Keys == e.options.Keys + options.Keys)
      && (e.WithOptions? ==> forall k :: k in e.options ==> o[k] == e.options[k])
      && (e.WithOptions? ==> forall k :: k in options && k !in e.options ==> o[k] == options[k])
  {
  }

  /** `load` and `with` request the same relations in the same order; `load` loads without
      joining, `with` joins without loading, and `with` of an array ignores the caller's
      options. */
  lemma LoadAndWithAgree(entries: seq<Entry>, options: Options, other: Options)
    ensures |LoadRequests(Many(entries), options)| == |WithRequests(Many(entries), other)| == |entries|
    ensures forall i :: 0 <= i < |entries| ==>
      var l := LoadRequests(Many(entries), options)[i];
      var w := WithRequests(Many(entries), other)[i];
      && l.relation == w.relation == entries[i].relation
      && !l.join && l.load && w.join && !w.load
    ensures WithRequests(Many(entries), options) == WithRequests(Many(entries), other)
  {
    LoadListAt(entries, options);
    WithListAt(entries);
    assert LoadRequests(Many(entries), options) == LoadList(entries, options);
    assert WithRequests(Many(entries), other) == WithList(entries) == WithRequests(Many(entries), options);
  }

  class Select {
    /** The primary key and the role of the root loader. */
    const pk: string
    const target: string
    /** The requests sent to the root loader, in order. */
    var requests: seq<LoadRequest>
    /** The calls sent to the shared builder, in order. */
    var builderCalls: seq<BuilderCall>
    /** The calls sent to the fresh builders of aggregations, in order. */
    var freshCalls: seq<BuilderCall>
    /** The distinct flag `limit()` sets on the query directly; a `distinct()` call sent through
        `__call` is recorded in `builderCalls` instead. */
    var distinct: bool
    var limit: Option<int>
    var offset: Option<int>
    var constrain: Option<Constrain>

    constructor (pk: string, target: string)
      ensures this.pk == pk && this.target == target
      ensures requests == [] && builderCalls == [] && freshCalls == [] && !distinct
      ensures limit == None && offset == None && constrain == None
    {
      this.pk, this.target := pk, target;
      requests, builderCalls, freshCalls := [], [], [];
      distinct, limit, offset, constrain := false, None, None, None;
    }

    /** The state of the shared query: everything but the loader requests and the aggregations. */
    ghost function Query(): (seq<BuilderCall>, bool, Option<int>, Option<int>, Option<Constrain>)
      reads this
    {
      (builderCalls, distinct, limit, offset, constrain)
    }

    method SetConstrain(c: Option<Constrain>) returns (r: Select)
      modifies this
      ensures r == this && constrain == c
      ensures requests == old(requests) && builderCalls == old(builderCalls) && freshCalls == old(freshCalls)
      ensures distinct == old(distinct) && limit == old(limit) && offset == old(offset)
    {
      constrain := c;
      r := this;
    }

    /** A limit also makes the query distinct. */
    method Limit(n: int) returns (r: Select)
      modifies this
      ensures r == this && distinct && limit == Some(n)
      ensures requests == old(requests) && builderCalls == old(builderCalls) && freshCalls == old(freshCalls)
      ensures offset == old(offset) && constrain == old(constrain)
    {
      distinct := true;
      limit := Some(n);
      r := this;
    }

    method Offset(n: int) returns (r: Select)
      modifies this
      ensures r == this && offset == Some(n)
      ensures requests == old(requests) && builderCalls == old(builderCalls) && freshCalls == old(freshCalls)
      ensures distinct == old(distinct) && limit == old(limit) && constrain == old(constrain)
    {
      offset := Some(n);
      r := this;
    }

    /** `__call`: `answer` is what the builder the call goes to returns. An aggregation goes to a
        fresh builder and leaves the selector as it was; any other call reaches the shared
        builder. */
    method Call(name: string, arguments: seq<Value>, answer: Answer) returns (r: CallResult)
      modifies this
      ensures Route(name) == Fresh ==> builderCalls == old(builderCalls)
      ensures Route(name) == Fresh ==> freshCalls == old(freshCalls) + [BuilderCall(Fresh, name, arguments)]
      ensures Route(name) == Shared ==> builderCalls == old(builderCalls) + [BuilderCall(Shared, name, arguments)]
      ensures Route(name) == Shared ==> freshCalls == old(freshCalls)
      ensures r == Returned(Route(name), answer)
      ensures requests == old(requests) && distinct == old(distinct)
      ensures limit == old(limit) && offset == old(offset) && constrain == old(constrain)
    {
      if Upper(name) in AGGREGATES {
        freshCalls := freshCalls + [BuilderCall(Fresh, name, arguments)];
        return Passed(answer);
      }
      builderCalls := builderCalls + [BuilderCall(Shared, name, arguments)];
      if answer == QueryBuilder {
        return Itself;
      }
      r := Passed(answer);
    }

    /** `wherePK(id)`: a `where` on the primary key, on the shared builder. The method is declared
        to return the selector, so an answer other than the builder fails that return type. */
    method WherePK(id: Value, answer: Answer) returns (r: Result<Select, ReturnTypeError>)
      modifies this
      ensures builderCalls == old(builderCalls) + [BuilderCall(Shared, "where", [Str(pk), id])]
      ensures answer == QueryBuilder ==> r == Ok(this)
      ensures answer != QueryBuilder ==> r == Err(NotSelf(answer))
      ensures requests == old(requests) && freshCalls == old(freshCalls)
      ensures distinct == old(distinct) && limit == old(limit) && offset == old(offset) && constrain == old(constrain)
    {
      assert Upper("where") == "WHERE";
      var c := Call("where", [Str(pk), id], answer);
      if c == Itself {
        r := Ok(this);
      } else {
        r := Err(NotSelf(answer));
      }
    }

    /** The column `count` counts: the given one, or the distinct primary key. */
    function CountColumn(column: Option<string>): (c: string)
      ensures column.Some? ==> c == column.value
      ensures column.None? ==> c == "DISTINCT(" + pk + ")"
    {
      if column.None? then "DISTINCT(" + pk + ")" else column.value
    }

    /** `count(column)`: an aggregation, so a fresh builder (answering `aggregate`) counts the
        column, the distinct primary key when none is given, and the selector's own query is left
        as it was; the answer is cast to an integer. */
    method Count(column: Option<string>, aggregate: Value) returns (n: int)
      modifies this
      ensures n == IntCast(aggregate)
      ensures freshCalls == old(freshCalls) + [BuilderCall(Fresh, "count", [Str(CountColumn(column))])]
      ensures Query() == old(Query()) && requests == old(requests)
    {
      var c := CountColumn(column);
      assert Upper("count") == "COUNT";
      var r := Call("count", [Str(c)], Plain(aggregate));
      n := IntCast(r.answer.value);
    }

    method LoadRelation(request: LoadRequest)
      modifies this
      ensures requests == old(requests) + [request]
      ensures Query() == old(Query()) && freshCalls == old(freshCalls)
    {
      requests := requests + [request];
    }

    /** `load`: one name is loaded without join with the caller's options; an array entry by entry,
        as `LoadRequests` lists. */
    method Load(relation: Relations, options: Options) returns (r: Select)
      modifies this
      ensures r == this
      ensures requests == old(requests) + LoadRequests(relation, options)
      ensures Query() == old(Query()) && freshCalls == old(freshCalls)
      decreases if relation.One? then 0 else 1
    {
      r := this;
      match relation
      case One(name) =>
        LoadRelation(LoadRequest(name, options, false, true));
      case Many(entries) =>
        var i := 0;
        while i < |entries|
          invariant 0 <= i <= |entries|
          invariant requests == old(requests) + LoadList(entries[..i], options)
          invariant Query() == old(Query()) && freshCalls == old(freshCalls)
        {
          assert entries[..i + 1][..i] == entries[..i];
          match entries[i] {
            case Name(name) =>
              var _ := Load(One(name), options);
            case WithOptions(name, sub) =>
              var _ := Load(One(name), options + sub);
          }
          i := i + 1;
        }
        assert entries[..|entries|] == entries;
    }

    /** `with`: one name is joined without loading with the caller's options; an array entry by
        entry, as `WithRequests` lists. */
    method With(relation: Relations, options: Options) returns (r: Select)
      modifies this
      ensures r == this
      ensures requests == old(requests) + WithRequests(relation, options)
      ensures Query() == old(Query()) && freshCalls == old(freshCalls)
      decreases if relation.One? then 0 else 1
    {
      r := this;
      match relation
      case One(name) =>
        LoadRelation(LoadRequest(name, options, true, false));
      case Many(entries) =>
        var i := 0;
        while i < |entries|
          invariant 0 <= i <= |entries|
          invariant requests == old(requests) + WithList(entries[..i])
          invariant Query() == old(Query()) && freshCalls == old(freshCalls)
        {
          assert entries[..i + 1][..i] == entries[..i];
          match entries[i] {
            case Name(name) =>
              var _ := With(One(name), map[]);
            case WithOptions(name, own) =>
              var _ := With(One(name), own);
          }
          i := i + 1;
        }
        assert entries[..|entries|] == entries;
    }

    /** `fetchOne`: `data` is what the query on a copy of the selector fetches; no entity when its
        first row is missing or empty, otherwise the managed entity made of that row. */
    function FetchOne(data: seq<map<string, Value>>): (r: Option<HeapNode.Made>)
      ensures r.None? <==> |data| == 0 || data[0] == map[]
      ensures r.Some? ==> r.value == HeapNode.Made(target, data[0], HeapNode.Managed)
    {
      if |data| == 0 || data[0] == map[] then None else Some(HeapNode.Made(target, data[0], HeapNode.Managed))
    }
  }
}
