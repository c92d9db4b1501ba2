/** The cycle guard of src/Heap/Traits/VisitorTrait.php: the set of relation branches a traversal
    has already descended. */
module Visitor {

  class Visitor {
    /** The keys of the private `$visited` array; their values are always null and carry nothing. */
    var visited: set<string>

    constructor ()
      ensures visited == {}
    {
      visited := {};
    }

    /** Whether `branch` was visited; changes nothing. */
    method Visited(branch: string) returns (r: bool)
      ensures r <==> branch in visited
    {
      r := branch in visited;
    }

    /** Records `branch` as visited; every other branch keeps its answer. */
    method MarkVisited(branch: string)
      modifies this
      ensures visited == Marked(old(visited), branch)
    {
      visited := visited + {branch};
    }
  }

  /** The visited set after `markVisited(branch)`. */
  function Marked(visited: set<string>, branch: string): (r: set<string>)
    ensures branch in r
    ensures forall c :: c != branch ==> (c in r <==> c in visited)
  {
    visited + {branch}
  }

  /** Marking twice gives the same set as marking once. */
  lemma MarkIdempotent(visited: set<string>, branch: string)
    ensures Marked(Marked(visited, branch), branch) == Marked(visited, branch)
  {
  }

  /** The visited set after the branches of `marks` are marked in order, starting from `visited`. */
  function MarkAll(visited: set<string>, marks: seq<string>): set<string>
    decreases marks
  {
    if marks == [] then visited else MarkAll(Marked(visited, marks[0]), marks[1..])
  }

  /** The set only grows, and what it gains is exactly the marked branches: on a fresh visitor,
      a branch reads as visited after a series of `markVisited` calls if and only if one of them
      marked it. */
  lemma {:induction false} MarkAllExactly(visited: set<string>, marks: seq<string>)
    ensures visited <= MarkAll(visited, marks)
    ensures forall b :: b in MarkAll(visited, marks) <==> b in visited || b in marks
    decreases marks
  {
    if marks != [] {
      MarkAllExactly(Marked(visited, marks[0]), marks[1..]);
    }
  }

  /** The order in which branches are marked does not matter. */
  lemma {:induction false} MarkAllOrderIrrelevant(visited: set<string>, marks: seq<string>, other: seq<string>)
    requires multiset(marks) == multiset(other)
    ensures MarkAll(visited, marks) == MarkAll(visited, other)
  {
    MarkAllExactly(visited, marks);
    MarkAllExactly(visited, other);
    forall b
      ensures b in marks <==> b in other
    {
      assert b in marks <==> b in multiset(marks);
      assert b in other <==> b in multiset(other);
    }
  }

  /** A traversal with the guard: fresh, nothing is visited; after marking `b`, `b` is visited,
      and marking it again does not change the set. */
  method GuardScenario(b: string, c: string) returns (before: bool, after: bool, other: bool)
    requires c != b
    ensures !before && after && !other
  {
    var v := new Visitor();
    before := v.Visited(b);
    v.MarkVisited(b);
    after := v.Visited(b);
    var once := v.visited;
    v.MarkVisited(b);
    assert v.visited == once;
    other := v.Visited(c);
  }
}
