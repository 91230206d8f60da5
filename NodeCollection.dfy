/**
 * A collection of map nodes that keeps, beside the list of all nodes, one list per node
 * kind (layers, groups, entities, brushes, patches), all in insertion order.
 */
module Nodes {

  datatype NodeKind = World | Layer | Group | Entity | Brush | Patch

  /** A node of the map; two values are the same node iff they are equal. */
  datatype Node = Node(id: nat, kind: NodeKind)

  /** The nodes of `s` of kind `k`, in their order in `s`. */
  function OfKind(s: seq<Node>, k: NodeKind): (r: seq<Node>)
    ensures |r| <= |s|
    ensures forall i :: 0 <= i < |r| ==> r[i].kind == k
  {
    if s == [] then []
    else if s[0].kind == k then [s[0]] + OfKind(s[1..], k)
    else OfKind(s[1..], k)
  }

  /** What `std::remove` followed by `erase` leaves of `s`: every copy of `n` gone, the rest in order. */
  function Without(s: seq<Node>, n: Node): (r: seq<Node>)
    ensures |r| <= |s|
  {
    if s == [] then []
    else if s[0] == n then Without(s[1..], n)
    else [s[0]] + Without(s[1..], n)
  }

  /** `s` with every node that occurs in `ns` removed, the survivors in their original order. */
  function WithoutAll(s: seq<Node>, ns: seq<Node>): (r: seq<Node>)
    ensures |r| <= |s|
  {
    if s == [] then []
    else if s[0] in ns then WithoutAll(s[1..], ns)
    else [s[0]] + WithoutAll(s[1..], ns)
  }

  predicate NoWorld(s: seq<Node>) {
    forall i :: 0 <= i < |s| ==> s[i].kind != World
  }

  /** The nodes of `s` that are not the world, in order. */
  function NotWorld(s: seq<Node>): seq<Node> {
    if s == [] then []
    else if s[0].kind == World then NotWorld(s[1..])
    else [s[0]] + NotWorld(s[1..])
  }

  lemma {:induction false} OfKindAppend(s: seq<Node>, t: seq<Node>, k: NodeKind)
    ensures OfKind(s + t, k) == OfKind(s, k) + OfKind(t, k)
  {
    if s == [] {
      assert s + t == t;
    } else {
      assert (s + t)[1..] == s[1..] + t;
      OfKindAppend(s[1..], t, k);
    }
  }

  lemma OfKindSnoc(s: seq<Node>, n: Node, k: NodeKind)
    ensures OfKind(s + [n], k) == if n.kind == k then OfKind(s, k) + [n] else OfKind(s, k)
  {
    OfKindAppend(s, [n], k);
  }

  lemma {:induction false} NotWorldAppend(s: seq<Node>, t: seq<Node>)
    ensures NotWorld(s + t) == NotWorld(s) + NotWorld(t)
  {
    if s == [] {
      assert s + t == t;
    } else {
      assert (s + t)[1..] == s[1..] + t;
      NotWorldAppend(s[1..], t);
    }
  }

  lemma {:induction false} OfKindOfNotWorld(s: seq<Node>, k: NodeKind)
    requires k != World
    ensures OfKind(NotWorld(s), k) == OfKind(s, k)
  {
    if s != [] {
      OfKindOfNotWorld(s[1..], k);
    }
  }

  /** Removing a node and selecting a kind can be done in either order. */
  lemma {:induction false} OfKindWithout(s: seq<Node>, n: Node, k: NodeKind)
    ensures OfKind(Without(s, n), k) == Without(OfKind(s, k), n)
  {
    if s != [] {
      OfKindWithout(s[1..], n, k);
    }
  }

  /** Removing a node that is not there changes nothing. */
  lemma {:induction false} WithoutAbsent(s: seq<Node>, n: Node)
    requires n !in s
    ensures Without(s, n) == s
  {
    if s != [] {
      WithoutAbsent(s[1..], n);
    }
  }

  lemma {:induction false} NotInOfKind(s: seq<Node>, n: Node, k: NodeKind)
    requires n.kind != k
    ensures n !in OfKind(s, k)
  {
  }

  /** Removing the nodes of `ns + [n]` is removing those of `ns`, then `n`. */
  lemma {:induction false} WithoutAllSnoc(s: seq<Node>, ns: seq<Node>, n: Node)
    ensures WithoutAll(s, ns + [n]) == Without(WithoutAll(s, ns), n)
  {
    if s != [] {
      WithoutAllSnoc(s[1..], ns, n);
    }
  }

  lemma {:induction false} WithoutAllNone(s: seq<Node>)
    ensures WithoutAll(s, []) == s
  {
    if s != [] {
      WithoutAllNone(s[1..]);
    }
  }

  /** A node survives `WithoutAll` iff it was there and is not one of the removed ones. */
  lemma {:induction false} WithoutAllMembers(s: seq<Node>, ns: seq<Node>, x: Node)
    ensures x in WithoutAll(s, ns) <==> x in s && x !in ns
  {
    if s != [] {
      WithoutAllMembers(s[1..], ns, x);
      assert x in s <==> x == s[0] || x in s[1..];
    }
  }

  lemma {:induction false} WithoutKeepsNoWorld(s: seq<Node>, n: Node)
    requires NoWorld(s)
    ensures NoWorld(Without(s, n))
  {
    if s != [] {
      WithoutKeepsNoWorld(s[1..], n);
    }
  }

  /** Selecting a kind keeps nothing iff no node has that kind. */
  lemma {:induction false} OfKindEmpty(s: seq<Node>, k: NodeKind)
    ensures OfKind(s, k) == [] <==> forall i :: 0 <= i < |s| ==> s[i].kind != k
  {
    if s != [] {
      OfKindEmpty(s[1..], k);
      assert forall i :: 1 <= i < |s| ==> s[i] == s[1..][i - 1];
    }
  }

  /** Selecting a kind keeps every node iff every node has that kind. */
  lemma {:induction false} OfKindKeepsAll(s: seq<Node>, k: NodeKind)
    ensures |OfKind(s, k)| == |s| <==> forall i :: 0 <= i < |s| ==> s[i].kind == k
  {
    if s != [] {
      OfKindKeepsAll(s[1..], k);
      if s[0].kind != k {
        assert |OfKind(s, k)| < |s|;
      } else {
        forall i | 1 <= i < |s| && (forall j :: 0 <= j < |s[1..]| ==> s[1..][j].kind == k)
          ensures s[i].kind == k
        {
          assert s[i] == s[1..][i - 1];
        }
      }
    }
  }

  /** A list without the world splits into the five kinds, so its length is the sum of theirs. */
  lemma {:induction false} KindsPartition(s: seq<Node>)
    requires NoWorld(s)
    ensures |s| == |OfKind(s, Layer)| + |OfKind(s, Group)| + |OfKind(s, Entity)|
                 + |OfKind(s, Brush)| + |OfKind(s, Patch)|
  {
    if s != [] {
      KindsPartition(s[1..]);
    }
  }

  class NodeCollection {
    var nodes: seq<Node>
    var layers: seq<Node>
    var groups: seq<Node>
    var entities: seq<Node>
    var brushes: seq<Node>
    var patches: seq<Node>

    /** The list kept for kind `k`; the world has none. */
    function Typed(k: NodeKind): seq<Node>
      reads this
    {
      match k
      case World => []
      case Layer => layers
      case Group => groups
      case Entity => entities
      case Brush => brushes
      case Patch => patches
    }

    /** Every typed list is the list of all nodes restricted to its kind, and the world is never listed. */
    ghost predicate Valid()
      reads this
    {
      && NoWorld(nodes)
      && layers == OfKind(nodes, Layer)
      && groups == OfKind(nodes, Group)
      && entities == OfKind(nodes, Entity)
      && brushes == OfKind(nodes, Brush)
      && patches == OfKind(nodes, Patch)
    }

    constructor ()
      ensures Valid() && nodes == []
      ensures forall k :: Typed(k) == []
    {
      nodes, layers, groups, entities, brushes, patches := [], [], [], [], [], [];
    }

    function Empty(): (b: bool)
      reads this
      requires Valid()
      ensures b <==> layers == [] && groups == [] && entities == [] && brushes == [] && patches == []
    {
      KindsPartition(nodes);
      nodes == []
    }

    function NodeCount(): (n: nat)
      reads this
      requires Valid()
      ensures n == |layers| + |groups| + |entities| + |brushes| + |patches|
    {
      KindsPartition(nodes);
      |nodes|
    }

    /** The number of nodes of kind `k` (the layer, group, entity, brush and patch counts). */
    function Count(k: NodeKind): (n: nat)
      reads this
      requires Valid()
      requires k != World
      ensures n == |OfKind(nodes, k)|
    {
      |Typed(k)|
    }

    /** `hasLayers` and its siblings: some node of kind `k` is in the collection. */
    function Has(k: NodeKind): (b: bool)
      reads this
      requires Valid()
      requires k != World
      ensures b <==> exists i :: 0 <= i < |nodes| && nodes[i].kind == k
    {
      OfKindEmpty(nodes, k);
      Typed(k) != []
    }

    /** `hasOnlyLayers` and its siblings: the collection is not empty and every node has kind `k`. */
    function HasOnly(k: NodeKind): (b: bool)
      reads this
      requires Valid()
      requires k != World
      ensures b <==> nodes != [] && forall i :: 0 <= i < |nodes| ==> nodes[i].kind == k
    {
      OfKindKeepsAll(nodes, k);
      !Empty() && NodeCount() == Count(k)
    }

    /** Appends `n` to the list of all nodes and to the list of its kind; the world is ignored. */
    method AddNode(n: Node)
      requires Valid()
      modifies this
      ensures Valid()
      ensures n.kind == World ==> nodes == old(nodes) && forall k :: Typed(k) == old(Typed(k))
      ensures n.kind != World ==> nodes == old(nodes) + [n]
      ensures n.kind != World ==> Typed(n.kind) == old(Typed(n.kind)) + [n]
      ensures forall k :: k != n.kind ==> Typed(k) == old(Typed(k))
    {
      OfKindSnoc(nodes, n, Layer);
      OfKindSnoc(nodes, n, Group);
      OfKindSnoc(nodes, n, Entity);
      OfKindSnoc(nodes, n, Brush);
      OfKindSnoc(nodes, n, Patch);
      match n.kind
      case World =>
      case Layer =>
        nodes := nodes + [n];
        layers := layers + [n];
      case Group =>
        nodes := nodes + [n];
        groups := groups + [n];
      case Entity =>
        nodes := nodes + [n];
        entities := entities + [n];
      case Brush =>
        nodes := nodes + [n];
        brushes := brushes + [n];
      case Patch =>
        nodes := nodes + [n];
        patches := patches + [n];
    }

    /** `AddNode` applied to each of `ns` in order. */
    method AddNodes(ns: seq<Node>)
      requires Valid()
      modifies this
      ensures Valid()
      ensures nodes == old(nodes) + NotWorld(ns)
      ensures forall k :: k != World ==> Typed(k) == old(Typed(k)) + OfKind(ns, k)
    {
      var i := 0;
      while i < |ns|
        invariant 0 <= i <= |ns|
        invariant Valid()
        invariant nodes == old(nodes) + NotWorld(ns[..i])
      {
        AddNode(ns[i]);
        NotWorldAppend(ns[..i], [ns[i]]);
        assert ns[..i + 1] == ns[..i] + [ns[i]];
        i := i + 1;
      }
      assert ns[..i] == ns;
      forall k | k != World
        ensures Typed(k) == old(Typed(k)) + OfKind(ns, k)
      {
        OfKindAppend(old(nodes), NotWorld(ns), k);
        OfKindOfNotWorld(ns, k);
      }
    }

    /** Removes every copy of `n` from the list of all nodes and from the list of its kind. */
    method RemoveOne(n: Node)
      requires Valid()
      modifies this
      ensures Valid()
      ensures nodes == Without(old(nodes), n)
    {
      WithoutKeepsNoWorld(nodes, n);
      forall k | k != World
        ensures OfKind(Without(nodes, n), k) == if k == n.kind then Without(Typed(k), n) else Typed(k)
      {
        OfKindWithout(nodes, n, k);
        if k != n.kind {
          NotInOfKind(nodes, n, k);
          WithoutAbsent(OfKind(nodes, k), n);
        }
      }
      match n.kind
      case World =>
        assert n !in nodes;
        WithoutAbsent(nodes, n);
      case Layer =>
        nodes := Without(nodes, n);
        layers := Without(layers, n);
      case Group =>
        nodes := Without(nodes, n);
        groups := Without(groups, n);
      case Entity =>
        nodes := Without(nodes, n);
        entities := Without(entities, n);
      case Brush =>
        nodes := Without(nodes, n);
        brushes := Without(brushes, n);
      case Patch =>
        nodes := Without(nodes, n);
        patches := Without(patches, n);
    }

    /** Removes every copy of every node of `ns`; the remaining nodes keep their relative order. */
    method RemoveNodes(ns: seq<Node>)
      requires Valid()
      modifies this
      ensures Valid()
      ensures nodes == WithoutAll(old(nodes), ns)
      ensures forall k :: k != World ==> Typed(k) == OfKind(WithoutAll(old(nodes), ns), k)
    {
      WithoutAllNone(nodes);
      var i := 0;
      while i < |ns|
        invariant 0 <= i <= |ns|
        invariant Valid()
        invariant nodes == WithoutAll(old(nodes), ns[..i])
      {
        RemoveOne(ns[i]);
        WithoutAllSnoc(old(nodes), ns[..i], ns[i]);
        assert ns[..i + 1] == ns[..i] + [ns[i]];
        i := i + 1;
      }
      assert ns[..i] == ns;
    }

    /** Removes every copy of `n`, as `RemoveNodes([n])` does. */
    method RemoveNode(n: Node)
      requires Valid()
      modifies this
      ensures Valid()
      ensures nodes == Without(old(nodes), n)
      ensures nodes == WithoutAll(old(nodes), [n])
    {
      WithoutAllSnoc(nodes, [], n);
      WithoutAllNone(nodes);
      assert [] + [n] == [n];
      RemoveNodes([n]);
    }

    method Clear()
      requires Valid()
      modifies this
      ensures Valid() && nodes == []
      ensures forall k :: Typed(k) == []
    {
      nodes, layers, groups, entities, brushes, patches := [], [], [], [], [], [];
    }
  }
}
