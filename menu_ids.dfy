/** `getMenuIds`: the ids of a menu forest, flattened. */
module MenuIds {

  /**
   * A menu node; only `id` and `children` matter to the flattening. A node
   * without a `children` property is a node whose `children` is empty: the
   * flattening treats the two alike.
   */
  datatype Menu = Menu(id: int, children: seq<Menu>)

  /** Pre-order listing: each node's id, then its subtree, then its later siblings. */
  function PreOrder(ms: seq<Menu>): seq<int>
    decreases ms
  {
    if ms == [] then []
    else
      var m := ms[0];
      assert m in ms;
      [m.id] + PreOrder(m.children) + PreOrder(ms[1..])
  }

  /** The ids of a node's descendants, in pre-order. */
  function SubtreeIds(m: Menu): seq<int> {
    PreOrder(m.children)
  }

  /** The number of nodes of a forest. */
  function NodeCount(ms: seq<Menu>): nat
    decreases ms
  {
    if ms == [] then 0
    else
      var m := ms[0];
      assert m in ms;
      1 + NodeCount(m.children) + NodeCount(ms[1..])
  }

  /** `getMenuIds`: push each id, then recurse into a non-empty `children`. */
  method GetMenuIds(menus: seq<Menu>) returns (ids: seq<int>)
    ensures ids == PreOrder(menus)
    decreases menus
  {
    ids := [];
    var k := 0;
    while k < |menus|
      invariant 0 <= k <= |menus|
      invariant ids == PreOrder(menus[..k])
    {
      var item := menus[k];
      assert item in menus;
      ids := ids + [item.id];
      if |item.children| > 0 {
        var sub := GetMenuIds(item.children);
        ids := ids + sub;
      }
      PreOrderConcat(menus[..k], [item]);
      assert menus[..k + 1] == menus[..k] + [item];
      k := k + 1;
    }
    assert menus[..k] == menus;
  }

  /** Flattening distributes over concatenation of forests. */
  lemma {:induction false} PreOrderConcat(a: seq<Menu>, b: seq<Menu>)
    ensures PreOrder(a + b) == PreOrder(a) + PreOrder(b)
    decreases a
  {
    if a == [] {
      assert a + b == b;
    } else {
      assert (a + b)[0] == a[0];
      assert (a + b)[1..] == a[1..] + b;
      PreOrderConcat(a[1..], b);
    }
  }

  /** Exactly one id per node. */
  lemma {:induction false} PreOrderLength(ms: seq<Menu>)
    ensures |PreOrder(ms)| == NodeCount(ms)
    decreases ms
  {
    if ms != [] {
      var m := ms[0];
      assert m in ms;
      PreOrderLength(m.children);
      PreOrderLength(ms[1..]);
    }
  }

  /** A node's id comes immediately before its subtree, and the siblings follow. */
  lemma PreOrderCons(m: Menu, rest: seq<Menu>)
    ensures PreOrder([m] + rest) == [m.id] + SubtreeIds(m) + PreOrder(rest)
  {
    assert ([m] + rest)[0] == m;
    assert ([m] + rest)[1..] == rest;
  }

  /** A node with no children contributes only its own id. */
  lemma LeafContributesOwnId(m: Menu)
    requires m.children == []
    ensures PreOrder([m]) == [m.id]
  {
    PreOrderCons(m, []);
  }
}
