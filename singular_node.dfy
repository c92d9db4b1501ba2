/** The parser node of src/Parser/SingularNode.php: a node of the row-parsing tree that hands each
    parsed row to its parent, to be mounted under the parent's entry whose key matches. The base
    node (columns, container, parent link) and the parent's `mount` are not part of this model;
    the parent is represented by the log of the mounts it receives. */
module SingularNode {
  import opened Php
  import opened Wrappers

  /** One `mount(container, key, criteria, data)` call received by a parent node. */
  datatype Mount = Mount(container: string, key: string, criteria: Value, data: map<string, Value>)

  datatype ParserError = ParentMissing(message: string)

  const PARENT_MISSING: string := "Unable to register data tree, parent is missing"

  /** A parent node, as seen through the mounts it receives. */
  class ParentNode {
    var mounts: seq<Mount>

    constructor ()
      ensures mounts == []
    {
      mounts := [];
    }

    method MountRow(container: string, key: string, criteria: Value, data: map<string, Value>)
      modifies this
      ensures mounts == old(mounts) + [Mount(container, key, criteria, data)]
    {
      mounts := mounts + [Mount(container, key, criteria, data)];
    }
  }

  /** What `push` does with a row: refuse it, drop it, or mount it. */
  datatype Step = Refuse(error: ParserError) | Skip | MountAs(m: Mount)

  /** The value of the inner key in a row; an absent key reads as null. */
  function InnerValue(data: map<string, Value>, innerKey: string): Value
  {
    if innerKey in data then data[innerKey] else Null
  }

  /** The step `push` takes: a missing parent is refused before anything else is looked at; a row
      whose inner key is null is dropped; any other row is mounted under the outer key with the
      inner key's value as the criteria. */
  function PushStep(hasParent: bool, container: string, innerKey: string, outerKey: string, data: map<string, Value>): (r: Step)
    ensures !hasParent <==> r == Refuse(ParentMissing(PARENT_MISSING))
    ensures r == Skip <==> hasParent && InnerValue(data, innerKey) == Null
    ensures r.MountAs? ==> r.m == Mount(container, outerKey, InnerValue(data, innerKey), data) && r.m.criteria != Null
  {
    if !hasParent then Refuse(ParentMissing(PARENT_MISSING))
    else if InnerValue(data, innerKey) == Null then Skip
    else MountAs(Mount(container, outerKey, InnerValue(data, innerKey), data))
  }

  class SingularNode {
    const columns: seq<string>
    /** The column that tells duplicate rows apart. */
    const duplicateCriteria: string
    const innerKey: string
    const outerKey: string
    var parent: ParentNode?
    /** The name under which the parent links this node. */
    var container: string

    constructor (columns: seq<string>, primaryKey: string, innerKey: string, outerKey: string)
      ensures this.columns == columns && duplicateCriteria == primaryKey
      ensures this.innerKey == innerKey && this.outerKey == outerKey
      ensures parent == null
    {
      this.columns := columns;
      this.outerKey := outerKey;
      duplicateCriteria := primaryKey;
      this.innerKey := innerKey;
      parent := null;
      container := "";
    }

    /** The two fields a parent sets on a node it links under `container`. */
    method Attach(p: ParentNode, container: string)
      modifies this
      ensures parent == p && this.container == container
    {
      parent := p;
      this.container := container;
    }

    /** Pushes a parsed row to the parent: the parent receives at most one mount, exactly the one
        `PushStep` names, and the row is refused only when there is no parent. */
    method Push(data: map<string, Value>) returns (r: Outcome<ParserError>)
      modifies parent
      ensures var step := PushStep(parent != null, container, innerKey, outerKey, data);
        && (step.Refuse? ==> r == Fail(step.error))
        && (!step.Refuse? ==> r == Pass)
        && (step.MountAs? ==> parent.mounts == old(parent.mounts) + [step.m])
        && (step.Skip? ==> parent.mounts == old(parent.mounts))
    {
      if parent == null {
        return Fail(ParentMissing(PARENT_MISSING));
      }
      if InnerValue(data, innerKey) == Null {
        return Pass;
      }
      parent.MountRow(container, outerKey, InnerValue(data, innerKey), data);
      r := Pass;
    }
  }

  /** Of two rows pushed through a node linked to a parent, the one with a null key is dropped
      without an error, and the other reaches the parent as a single mount. */
  method PushScenario(id: int) returns (p: ParentNode, dropped: Outcome<ParserError>, r: Outcome<ParserError>)
    ensures dropped == Pass && r == Pass
    ensures p.mounts == [Mount("comments", "id", Int(id), map["user_id" := Int(id)])]
  {
    p := new ParentNode();
    var n := new SingularNode(["id", "user_id"], "id", "user_id", "id");
    n.Attach(p, "comments");
    dropped := n.Push(map["user_id" := Null]);
    r := n.Push(map["user_id" := Int(id)]);
  }
}
