/** Relation chains of src/Select/Traits/ChainTrait.php: a relation name "a.b.c" asks the loader
    to load "a" and the loader of "a" to load "b.c". The loaders themselves are not part of this
    model; they are represented by the log of `loadRelation` calls they receive and by the loader
    the first call hands back. */
module Chain {
  import opened Php
  import opened Wrappers

  /** Loader options (the PHP options array). */
  type Options = map<string, Value>

  /** One `loadRelation(relation, options, join, load)` request. */
  datatype LoadRequest = LoadRequest(relation: string, options: Options, join: bool, load: bool)

  /** A loader: its identity, its class name, and whether it is an AbstractLoader. */
  datatype LoaderRef = LoaderRef(id: nat, className: string, isAbstractLoader: bool)

  /** A request received by a loader. */
  datatype LoadCall = LoadCall(loader: LoaderRef, request: LoadRequest)

  datatype LoaderError = ChainUnsupported(message: string)

  /** The position of the first dot in `s`, as `strpos` finds it. */
  function FirstDot(s: string): (r: Option<nat>)
    ensures r.None? <==> '.' !in s
    ensures r.Some? ==> r.value < |s| && s[r.value] == '.' && '.' !in s[..r.value]
  {
    if s == [] then None
    else if s[0] == '.' then Some(0)
    else match FirstDot(s[1..])
      case None => None
      case Some(p) =>
        assert s[1..][..p] == s[1..p + 1];
        Some(p + 1)
  }

  /** A relation name is a chain exactly when it contains a dot. */
  predicate IsChain(relation: string): (r: bool)
    ensures r <==> '.' in relation
  {
    FirstDot(relation).Some?
  }

  /** The chain split at its first dot into the head relation and the rest. */
  function Split(chain: string): (r: (string, string))
    requires IsChain(chain)
    ensures '.' !in r.0
    ensures r.0 + "." + r.1 == chain
  {
    var p := FirstDot(chain).value;
    assert chain == chain[..p] + "." + chain[p + 1..];
    (chain[..p], chain[p + 1..])
  }

  /** The split is the only way to write the chain as a dot-free head, a dot and a tail. */
  lemma SplitUnique(chain: string, head: string, tail: string)
    requires '.' !in head && head + "." + tail == chain
    ensures IsChain(chain) && Split(chain) == (head, tail)
  {
    assert chain[|head|] == '.';
    assert '.' in chain;
    var p := FirstDot(chain).value;
    assert p == |head|;
    assert chain[..p] == head;
    assert chain[p + 1..] == tail;
  }

  function ChainMessage(className: string): string
  {
    "Loader '" + className + "' does not support chain relation loading"
  }

  /** The requests `loadChain` issues: the head to this loader with empty options, then, when the
      loader it got back is an AbstractLoader, the tail to that loader with the caller's options;
      both with the caller's join and load flags. */
  function ChainCalls(self: LoaderRef, chain: string, options: Options, join: bool, load: bool, child: LoaderRef): seq<LoadCall>
    requires IsChain(chain)
  {
    var (head, tail) := Split(chain);
    [LoadCall(self, LoadRequest(head, map[], join, load))]
      + (if child.isAbstractLoader then [LoadCall(child, LoadRequest(tail, options, join, load))] else [])
  }

  /** What a chain request comes to: the head (dot-free) and the tail put back together give the
      chain; only the tail sees the caller's options; the tail is never requested from a loader
      that cannot chain. */
  lemma ChainCallsMeaning(self: LoaderRef, chain: string, options: Options, join: bool, load: bool, child: LoaderRef)
    requires IsChain(chain)
    ensures var calls := ChainCalls(self, chain, options, join, load, child);
      && |calls| == (if child.isAbstractLoader then 2 else 1)
      && calls[0].loader == self && '.' !in calls[0].request.relation && calls[0].request.options == map[]
      && (forall c :: c in calls ==> c.request.join == join && c.request.load == load)
      && (child.isAbstractLoader ==>
            calls[1].loader == child && calls[1].request.options == options
            && calls[0].request.relation + "." + calls[1].request.relation == chain)
  {
  }

  /** The loader tree, as the log of requests its loaders receive. */
  class LoaderLog {
    var calls: seq<LoadCall>

    constructor ()
      ensures calls == []
    {
      calls := [];
    }

    method LoadRelation(loader: LoaderRef, request: LoadRequest)
      modifies this
      ensures calls == old(calls) + [LoadCall(loader, request)]
    {
      calls := calls + [LoadCall(loader, request)];
    }
  }

  /** `loadChain` on loader `self`: `child` is the loader the head request hands back and `nested`
      the one the tail request hands back. A child that cannot chain is an error, after the head
      request and before any tail request. */
  method LoadChain(log: LoaderLog, self: LoaderRef, chain: string, options: Options, join: bool, load: bool,
                   child: LoaderRef, nested: LoaderRef) returns (r: Result<LoaderRef, LoaderError>)
    requires IsChain(chain)
    modifies log
    ensures log.calls == old(log.calls) + ChainCalls(self, chain, options, join, load, child)
    ensures child.isAbstractLoader ==> r == Ok(nested)
    ensures !child.isAbstractLoader ==> r == Err(ChainUnsupported(ChainMessage(child.className)))
  {
    var position := FirstDot(chain).value;
    log.LoadRelation(self, LoadRequest(chain[..position], map[], join, load));
    if !child.isAbstractLoader {
      return Err(ChainUnsupported(ChainMessage(child.className)));
    }
    log.LoadRelation(child, LoadRequest(chain[position + 1..], options, join, load));
    r := Ok(nested);
  }
}
