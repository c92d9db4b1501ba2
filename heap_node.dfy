/** The entity state node that tests/ORM/StateTest.php exercises: a node holds the last known
    column data of one entity, and `forward` links one of its keys to a key of another node, so
    that a value registered under the first is copied into the second. The Node class itself is
    not part of this model; what is modelled is the behaviour those tests assert. */
module HeapNode {
  import opened Php

  datatype Status = New | Managed | ScheduledDelete | Deleted

  /** An entity as the ORM makes it from a role, its column data and the status of its node. */
  datatype Made = Made(role: string, data: map<string, Value>, status: Status)

  /** A forward link: a value registered under `key` is copied to `target` under `targetKey`. */
  datatype Link = Link(key: string, target: Node, targetKey: string)

  /** `m` with every key of `keys` set to `v`. */
  function Put(m: map<string, Value>, keys: set<string>, v: Value): (r: map<string, Value>)
    ensures r.Keys == m.Keys + keys
    ensures forall k :: k in keys ==> r[k] == v
    ensures forall k :: k in m && k !in keys ==> r[k] == m[k]
  {
    map k | k in m.Keys + keys :: if k in keys then v else m[k]
  }

  lemma PutOneMore(m: map<string, Value>, keys: set<string>, k: string, v: Value)
    ensures Put(m, keys, v)[k := v] == Put(m, keys + {k}, v)
  {
  }

  lemma PutOne(m: map<string, Value>, k: string, v: Value)
    ensures Put(m, {k}, v) == m[k := v]
  {
  }

  /** The target keys of `n` that the links of `links` on `key` write. */
  ghost function Pushed(links: seq<Link>, key: string, n: Node): set<string>
    decreases |links|
  {
    if links == [] then {}
    else
      var l := links[|links| - 1];
      Pushed(links[..|links| - 1], key, n) + (if l.key == key && l.target == n then {l.targetKey} else {})
  }

  /** `m` after the links of `links` on `key` that point at `n` have each written `v`, in order. */
  ghost function PushAll(links: seq<Link>, key: string, n: Node, m: map<string, Value>, v: Value): map<string, Value>
    decreases |links|
  {
    if links == [] then m
    else
      var l := links[|links| - 1];
      var before := PushAll(links[..|links| - 1], key, n, m, v);
      if l.key == key && l.target == n then before[l.targetKey := v] else before
  }

  /** Writing along the links one by one sets exactly the keys `Pushed` names, whatever the order. */
  lemma {:induction false} PushAllIsPut(links: seq<Link>, key: string, n: Node, m: map<string, Value>, v: Value)
    ensures PushAll(links, key, n, m, v) == Put(m, Pushed(links, key, n), v)
    decreases |links|
  {
    if links != [] {
      var l := links[|links| - 1];
      var init := links[..|links| - 1];
      PushAllIsPut(init, key, n, m, v);
      if l.key == key && l.target == n {
        PutOneMore(m, Pushed(init, key, n), l.targetKey, v);
      }
    }
  }

  lemma PushedOne(l: Link, key: string, n: Node)
    ensures Pushed([l], key, n) == if l.key == key && l.target == n then {l.targetKey} else {}
  {
    assert [l][..0] == [];
  }

  /** One more link: the last link writes its target key on its target, if it is on `key`. */
  lemma PushAllStep(links: seq<Link>, i: nat, key: string, n: Node, m: map<string, Value>, v: Value)
    requires i < |links|
    ensures PushAll(links[..i + 1], key, n, m, v) ==
      if links[i].key == key && links[i].target == n then PushAll(links[..i], key, n, m, v)[links[i].targetKey := v]
      else PushAll(links[..i], key, n, m, v)
  {
    assert links[..i + 1][..i] == links[..i];
  }

  class Node {
    const status: Status
    const role: string
    var data: map<string, Value>
    /** The forward links installed on this node, in installation order. */
    var links: seq<Link>

    constructor (status: Status, data: map<string, Value>, role: string)
      ensures this.status == status && this.data == data && this.role == role
      ensures links == []
    {
      this.status, this.data, this.role := status, data, role;
      links := [];
    }

    /** `getData()`: the column data the node last holds, as register and forward left it. */
    function GetData(): (r: map<string, Value>)
      reads this
      ensures r == data
    {
      data
    }

    ghost function Targets(): set<Node>
      reads this
    {
      set l | l in links :: l.target
    }

    /** Keys of `n` that registering under `key` writes, on this node's current links; this node's
        own `key` is one of them when `n` is this node. */
    ghost function Written(key: string, n: Node): set<string>
      reads this
    {
      (if n == this then {key} else {}) + Pushed(links, key, n)
    }

    /** Stores `value` under `key` and copies it along every link on `key` into its target. Every
        node it touches gets exactly the keys in `Written`; no link changes. */
    method Register(key: string, value: Value)
      modifies this, Targets()
      ensures links == old(links)
      ensures data == Put(old(data), old(Written(key, this)), value)
      ensures forall n :: n in old(Targets()) ==> n.links == old(n.links)
      ensures forall n :: n in old(Targets()) ==> n.data == Put(old(n.data), old(Written(key, n)), value)
    {
      CopyAlong(key, value);
      data := data[key := value];
      PutOneMore(old(data), Pushed(links, key, this), key, value);
    }

    /** The copies along the links on `key`, before the node's own write. */
    method CopyAlong(key: string, value: Value)
      modifies this, Targets()
      ensures links == old(links)
      ensures forall n :: n in old(Targets()) + {this} ==> n.links == old(n.links)
      ensures forall n :: n in old(Targets()) + {this} ==> n.data == Put(old(n.data), Pushed(links, key, n), value)
    {
      ghost var nodes := Targets() + {this};
      var i := 0;
      while i < |links|
        invariant 0 <= i <= |links|
        invariant links == old(links)
        invariant forall n :: n in nodes ==> n.links == old(n.links)
        invariant forall n :: n in nodes ==> n.data == PushAll(links[..i], key, n, old(n.data), value)
      {
        var l := links[i];
        assert l.target in nodes;
        if l.key == key {
          l.target.data := l.target.data[l.targetKey := value];
        }
        forall n | n in nodes
          ensures n.data == PushAll(links[..i + 1], key, n, old(n.data), value)
        {
          PushAllStep(links, i, key, n, old(n.data), value);
        }
        i := i + 1;
      }
      assert links[..|links|] == links;
      forall n | n in nodes
        ensures n.data == Put(old(n.data), Pushed(links, key, n), value)
      {
        PushAllIsPut(links, key, n, old(n.data), value);
      }
    }

    /** Installs a link from `key` to `targetKey` of `target`. When this node already holds `key`
        (or `trigger` asks for it) the current value, null if absent, is copied at once. */
    method Forward(key: string, target: Node, targetKey: string, trigger: bool)
      modifies this, target
      ensures links == old(links) + [Link(key, target, targetKey)]
      ensures target != this ==> target.links == old(target.links)
      ensures trigger || key in old(data) ==>
        target.data == old(target.data)[targetKey := if key in old(data) then old(data)[key] else Null]
      ensures !(trigger || key in old(data)) ==> target.data == old(target.data)
      ensures target != this ==> data == old(data)
      ensures targetKey in Written(key, target)
    {
      links := links + [Link(key, target, targetKey)];
      assert links[..|links| - 1] == old(links);
      if trigger || key in data {
        var v := if key in data then data[key] else Null;
        target.data := target.data[targetKey := v];
      }
    }
  }

  /** testPush: registering on a node with empty data stores the value. */
  method TestPush() returns (s: Node)
    ensures s.GetData() == map["user_id" := Int(1)]
  {
    s := new Node(Managed, map[], "parent");
    s.Register("user_id", Int(1));
  }

  /** testForward: a value registered after the link is installed reaches the child. */
  method TestForward() returns (s: Node, c: Node)
    ensures c.GetData() == map["user_id" := Int(1)]
    ensures s.GetData() == map["id" := Int(1)]
  {
    s := new Node(Managed, map[], "parent");
    c := new Node(Managed, map[], "child");
    s.Forward("id", c, "user_id", false);
    assert s.Written("id", c) == {"user_id"} && s.Written("id", s) == {"id"} by {
      assert s.links == [Link("id", c, "user_id")] && s != c;
      PushedOne(Link("id", c, "user_id"), "id", c);
      PushedOne(Link("id", c, "user_id"), "id", s);
    }
    s.Register("id", Int(1));
    PutOne(map[], "user_id", Int(1));
    PutOne(map[], "id", Int(1));
  }

  /** testForwardDefault: a value already held is copied as soon as the link is installed. */
  method TestForwardDefault() returns (c: Node)
    ensures c.GetData() == map["user_id" := Int(1)]
  {
    var s := new Node(Managed, map["id" := Int(1)], "parent");
    c := new Node(Managed, map[], "child");
    s.Forward("id", c, "user_id", false);
  }

  /** testForwardDefaultTrigger: the same with the trigger flag set. */
  method TestForwardDefaultTrigger() returns (c: Node)
    ensures c.GetData() == map["user_id" := Int(1)]
  {
    var s := new Node(Managed, map["id" := Int(1)], "parent");
    c := new Node(Managed, map[], "child");
    s.Forward("id", c, "user_id", true);
  }
}
