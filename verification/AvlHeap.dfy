/** The node operations of legacy/src/avlutils.c on linked nodes, each proved to compute what
    AvlTree says. A ghost shape records which nodes hang where. */
module AvlHeap {
  import opened Common
  import opened AvlTree

  class AvlNode<T> {
    var key: int
    var data: T
    var left: AvlNode?<T>
    var right: AvlNode?<T>

    constructor (key: int, data: T)
      ensures this.key == key && this.data == data && left == null && right == null
    {
      this.key, this.data := key, data;
      left, right := null, null;
    }
  }

  datatype Shape<T> = Nil | At(node: AvlNode<T>, left: Shape<T>, right: Shape<T>)

  ghost function Nodes<T>(s: Shape<T>): set<AvlNode<T>> {
    match s
    case Nil => {}
    case At(n, l, r) => {n} + Nodes(l) + Nodes(r)
  }

  /** No node hangs in two places. */
  ghost predicate Apart<T>(s: Shape<T>) {
    match s
    case Nil => true
    case At(n, l, r) => n !in Nodes(l) && n !in Nodes(r) && Nodes(l) !! Nodes(r) && Apart(l) && Apart(r)
  }

  /** The links of the nodes are as the shape says. */
  ghost predicate Holds<T>(n: AvlNode?<T>, s: Shape<T>)
    reads Nodes(s)
  {
    (n == null <==> s.Nil?) &&
    (s.At? ==> n == s.node && Holds(s.node.left, s.left) && Holds(s.node.right, s.right))
  }

  ghost function Abs<T>(s: Shape<T>): Tree<T>
    reads Nodes(s)
  {
    match s
    case Nil => Leaf
    case At(n, l, r) => Node(Abs(l), n.key, n.data, Abs(r))
  }

  /** The nodes of shape s, linked as it says, hold the tree t. */
  ghost predicate Is<T>(n: AvlNode?<T>, s: Shape<T>, t: Tree<T>)
    reads Nodes(s)
  {
    forall k {:trigger Unfold(k)} :: Unfold(k) ==> Holds(n, s) && Apart(s) && Abs(s) == t
  }

  lemma Split<T>(n: AvlNode?<T>, s: Shape<T>, t: Tree<T>)
    requires Is(n, s, t)
    ensures n == null <==> t.Leaf?
    ensures n == null <==> s.Nil?
    ensures n != null ==> n == s.node && n.key == t.key && n.data == t.data
    ensures n != null ==> Is(n.left, s.left, t.left) && Is(n.right, s.right, t.right)
    ensures n != null ==> Nodes(s) == {n} + Nodes(s.left) + Nodes(s.right)
    ensures n != null ==> n !in Nodes(s.left) && n !in Nodes(s.right) && Nodes(s.left) !! Nodes(s.right)
    ensures n == null ==> Nodes(s) == {}
    ensures forall x :: x in Nodes(s) ==> allocated(x)
  {
    assert Unfold(0);
    NodesAllocated(s);
  }

  lemma {:induction false} NodesAllocated<T>(s: Shape<T>)
    ensures forall x :: x in Nodes(s) ==> allocated(x)
  {
    if s.At? {
      NodesAllocated(s.left);
      NodesAllocated(s.right);
    }
  }

  /** A node over two linked trees that share nothing. */
  lemma Join<T>(n: AvlNode<T>, l: Shape<T>, lt: Tree<T>, r: Shape<T>, rt: Tree<T>)
    requires Is(n.left, l, lt) && Is(n.right, r, rt)
    requires n !in Nodes(l) && n !in Nodes(r) && Nodes(l) !! Nodes(r)
    ensures Is(n, At(n, l, r), Node(lt, n.key, n.data, rt)) && Nodes(At(n, l, r)) == {n} + Nodes(l) + Nodes(r)
  {
    assert Unfold(0);
  }

  /** Three nodes and four sets of nodes that share nothing. */
  ghost predicate Strangers<T>(x: T, y: T, z: T, a: set<T>, b: set<T>, c: set<T>, d: set<T>) {
    x != y && x != z && y != z && {x, y, z} !! a + b + c + d && a !! b && c !! d && a + b !! c + d
  }

  lemma StrangersJoin<T>(x: T, y: T, z: T, a: set<T>, b: set<T>, c: set<T>, d: set<T>)
    requires Strangers(x, y, z, a, b, c, d)
    ensures var l, r := {y} + a + b, {z} + c + d;
      x !in l && x !in r && l !! r && {x} + l + r == {x, y, z} + a + b + c + d
  {
  }

  /** Two nodes over four linked trees, and a third over the two. */
  lemma JoinThree<T>(top: AvlNode<T>, low: AvlNode<T>, high: AvlNode<T>, a: Shape<T>, at: Tree<T>, b: Shape<T>, bt: Tree<T>,
                     c: Shape<T>, ct: Tree<T>, d: Shape<T>, dt: Tree<T>)
    requires top.left == low && top.right == high
    requires Is(low.left, a, at) && Is(low.right, b, bt) && Is(high.left, c, ct) && Is(high.right, d, dt)
    requires Strangers(top, low, high, Nodes(a), Nodes(b), Nodes(c), Nodes(d))
    ensures Is(top, At(top, At(low, a, b), At(high, c, d)),
               Node(Node(at, low.key, low.data, bt), top.key, top.data, Node(ct, high.key, high.data, dt)))
    ensures Nodes(At(top, At(low, a, b), At(high, c, d))) ==
            {top, low, high} + Nodes(a) + Nodes(b) + Nodes(c) + Nodes(d)
  {
    var l, r := At(low, a, b), At(high, c, d);
    var lt, rt := Node(at, low.key, low.data, bt), Node(ct, high.key, high.data, dt);
    assert Is(low, l, lt) && Nodes(l) == {low} + Nodes(a) + Nodes(b) by {
      Join(low, a, at, b, bt);
    }
    assert Is(high, r, rt) && Nodes(r) == {high} + Nodes(c) + Nodes(d) by {
      Join(high, c, ct, d, dt);
    }
    StrangersJoin(top, low, high, Nodes(a), Nodes(b), Nodes(c), Nodes(d));
    Join(top, l, lt, r, rt);
  }

  // ---- reading ----

  method SearchNodes<T>(root: AvlNode?<T>, key: int, ghost s: Shape<T>, ghost t: Tree<T>) returns (found: AvlNode?<T>)
    requires Is(root, s, t)
    ensures found == null <==> Find(t, key) == None
    ensures found != null ==> found in Nodes(s) && found.key == key && Find(t, key) == Some(found.data)
  {
    var current := root;
    ghost var c, ct := s, t;
    while current != null && current.key != key
      invariant Is(current, c, ct) && Nodes(c) <= Nodes(s) && Find(ct, key) == Find(t, key)
      decreases c
    {
      Split(current, c, ct);
      if key < current.key {
        current, c, ct := current.left, c.left, ct.left;
      } else {
        current, c, ct := current.right, c.right, ct.right;
      }
    }
    Split(current, c, ct);
    found := current;
  }

  function HeightOf<T>(n: AvlNode<T>, ghost s: Shape<T>, ghost t: Tree<T>): (h: int)
    requires Is(n, s, t)
    reads Nodes(s)
    ensures h == Height(t)
    decreases s
  {
    Split(n, s, t);
    Split(n.left, s.left, t.left);
    Split(n.right, s.right, t.right);
    var l := if n.left != null then HeightOf(n.left, s.left, t.left) else 0;
    var r := if n.right != null then HeightOf(n.right, s.right, t.right) else 0;
    if r > l then r + 1 else l + 1
  }

  function FactorOf<T>(n: AvlNode<T>, ghost s: Shape<T>, ghost t: Tree<T>): (f: int)
    requires Is(n, s, t)
    reads Nodes(s)
    ensures f == Factor(t)
  {
    Split(n, s, t);
    Split(n.left, s.left, t.left);
    Split(n.right, s.right, t.right);
    var l := if n.left != null then HeightOf(n.left, s.left, t.left) else 0;
    var r := if n.right != null then HeightOf(n.right, s.right, t.right) else 0;
    r - l
  }

  // ---- rotations ----

  method TurnLL<T>(n: AvlNode<T>, ghost s: Shape<T>, ghost t: Tree<T>) returns (root: AvlNode<T>, ghost u: Shape<T>)
    requires Is(n, s, t) && t.Node? && t.left.Node?
    modifies Nodes(s)
    ensures Is(root, u, RotateLL(t)) && Nodes(u) == Nodes(s)
  {
    Split(n, s, t);
    var b := n.left;
    ghost var bs := s.left;
    Split(b, bs, t.left);
    n.left := b.right;
    b.right := n;
    Join(n, bs.right, t.left.right, s.right, t.right);
    ghost var lower := At(n, bs.right, s.right);
    Join(b, bs.left, t.left.left, lower, Node(t.left.right, t.key, t.data, t.right));
    root, u := b, At(b, bs.left, lower);
  }

  method TurnRR<T>(n: AvlNode<T>, ghost s: Shape<T>, ghost t: Tree<T>) returns (root: AvlNode<T>, ghost u: Shape<T>)
    requires Is(n, s, t) && t.Node? && t.right.Node?
    modifies Nodes(s)
    ensures Is(root, u, RotateRR(t)) && Nodes(u) == Nodes(s)
  {
    Split(n, s, t);
    var b := n.right;
    ghost var bs := s.right;
    Split(b, bs, t.right);
    n.right := b.left;
    b.left := n;
    Join(n, s.left, t.left, bs.left, t.right.left);
    ghost var lower := At(n, s.left, bs.left);
    Join(b, lower, Node(t.left, t.key, t.data, t.right.left), bs.right, t.right.right);
    root, u := b, At(b, lower, bs.right);
  }

  lemma SplitLR<T>(n: AvlNode<T>, s: Shape<T>, t: Tree<T>)
    requires Is(n, s, t) && t.Node? && t.left.Node? && t.left.right.Node?
    ensures s.At? && s.left.At? && s.left.right.At? && n == s.node
    ensures n.left == s.left.node && n.left.right == s.left.right.node
    ensures var b, c, bs, cs := s.left.node, s.left.right.node, s.left, s.left.right;
      && Is(b.left, bs.left, t.left.left) && Is(c.left, cs.left, t.left.right.left)
      && Is(c.right, cs.right, t.left.right.right) && Is(n.right, s.right, t.right)
      && Strangers(c, b, n, Nodes(bs.left), Nodes(cs.left), Nodes(cs.right), Nodes(s.right))
      && Nodes(s) == {c, b, n} + Nodes(bs.left) + Nodes(cs.left) + Nodes(cs.right) + Nodes(s.right)
      && n.key == t.key && n.data == t.data && b.key == t.left.key && b.data == t.left.data
      && c.key == t.left.right.key && c.data == t.left.right.data
  {
    Split(n, s, t);
    Split(n.left, s.left, t.left);
    Split(n.left.right, s.left.right, t.left.right);
  }

  lemma SplitRL<T>(n: AvlNode<T>, s: Shape<T>, t: Tree<T>)
    requires Is(n, s, t) && t.Node? && t.right.Node? && t.right.left.Node?
    ensures s.At? && s.right.At? && s.right.left.At? && n == s.node
    ensures n.right == s.right.node && n.right.left == s.right.left.node
    ensures var b, c, bs, cs := s.right.node, s.right.left.node, s.right, s.right.left;
      && Is(n.left, s.left, t.left) && Is(c.left, cs.left, t.right.left.left)
      && Is(c.right, cs.right, t.right.left.right) && Is(b.right, bs.right, t.right.right)
      && Strangers(c, n, b, Nodes(s.left), Nodes(cs.left), Nodes(cs.right), Nodes(bs.right))
      && Nodes(s) == {c, n, b} + Nodes(s.left) + Nodes(cs.left) + Nodes(cs.right) + Nodes(bs.right)
      && n.key == t.key && n.data == t.data && b.key == t.right.key && b.data == t.right.data
      && c.key == t.right.left.key && c.data == t.right.left.data
  {
    Split(n, s, t);
    Split(n.right, s.right, t.right);
    Split(n.right.left, s.right.left, t.right.left);
  }

  method TurnLR<T>(n: AvlNode<T>, ghost s: Shape<T>, ghost t: Tree<T>) returns (root: AvlNode<T>, ghost u: Shape<T>)
    requires Is(n, s, t) && t.Node? && t.left.Node? && t.left.right.Node?
    modifies Nodes(s)
    ensures Is(root, u, RotateLR(t)) && Nodes(u) == Nodes(s)
  {
    SplitLR(n, s, t);
    var b := n.left;
    ghost var bs, bt := s.left, t.left;
    var c := b.right;
    ghost var cs, ct := bs.right, bt.right;
    n.left := c.right;
    b.right := c.left;
    c.left := b;
    c.right := n;
    JoinThree(c, b, n, bs.left, bt.left, cs.left, ct.left, cs.right, ct.right, s.right, t.right);
    root, u := c, At(c, At(b, bs.left, cs.left), At(n, cs.right, s.right));
  }

  method TurnRL<T>(n: AvlNode<T>, ghost s: Shape<T>, ghost t: Tree<T>) returns (root: AvlNode<T>, ghost u: Shape<T>)
    requires Is(n, s, t) && t.Node? && t.right.Node? && t.right.left.Node?
    modifies Nodes(s)
    ensures Is(root, u, RotateRL(t)) && Nodes(u) == Nodes(s)
  {
    SplitRL(n, s, t);
    var b := n.right;
    ghost var bs, bt := s.right, t.right;
    var c := b.left;
    ghost var cs, ct := bs.left, bt.left;
    n.right := c.left;
    b.left := c.right;
    c.right := b;
    c.left := n;
    JoinThree(c, n, b, s.left, t.left, cs.left, ct.left, cs.right, ct.right, bs.right, bt.right);
    root, u := c, At(c, At(n, s.left, cs.left), At(b, cs.right, bs.right));
  }

  // ---- balancing ----

  /** The rotation at one node. */
  method TurnNode<T>(n: AvlNode<T>, ghost s: Shape<T>, ghost t: Tree<T>) returns (root: AvlNode<T>, ghost u: Shape<T>)
    requires Is(n, s, t) && t.Node?
    modifies Nodes(s)
    ensures Is(root, u, Turn(t)) && Nodes(u) == Nodes(s)
  {
    Split(n, s, t);
    Split(n.left, s.left, t.left);
    Split(n.right, s.right, t.right);
    root, u := n, s;
    var f := FactorOf(n, s, t);
    if f >= 2 {
      var g := FactorOf(n.right, s.right, t.right);
      if g < 0 {
        root, u := TurnRL(n, s, t);
      } else {
        root, u := TurnRR(n, s, t);
      }
    }
    if f <= -2 {
      var g := FactorOf(n.left, s.left, t.left);
      if g > 0 {
        root, u := TurnLR(n, s, t);
      } else {
        root, u := TurnLL(n, s, t);
      }
    }
  }

  /** avlnode_balance. */
  method BalanceNodes<T>(n: AvlNode<T>, ghost s: Shape<T>, ghost t: Tree<T>) returns (root: AvlNode<T>, ghost u: Shape<T>)
    requires Is(n, s, t)
    modifies Nodes(s)
    ensures Is(root, u, Balance(t)) && Nodes(u) == Nodes(s)
    decreases t, 1
  {
    Split(n, s, t);
    u := BalanceLeft(n, s, t);
    u := BalanceRight(n, u, Node(Balance(t.left), t.key, t.data, t.right));
    root, u := TurnNode(n, u, Node(Balance(t.left), t.key, t.data, Balance(t.right)));
  }

  method BalanceLeft<T>(n: AvlNode<T>, ghost s: Shape<T>, ghost t: Tree<T>) returns (ghost u: Shape<T>)
    requires Is(n, s, t) && t.Node?
    modifies Nodes(s)
    ensures Is(n, u, Node(Balance(t.left), t.key, t.data, t.right)) && Nodes(u) == Nodes(s)
    decreases t.left, 2
  {
    Split(n, s, t);
    Split(n.left, s.left, t.left);
    Split(n.right, s.right, t.right);
    u := s;
    if n.left != null {
      var l;
      ghost var ls;
      l, ls := BalanceNodes(n.left, s.left, t.left);
      n.left := l;
      Join(n, ls, Balance(t.left), s.right, t.right);
      u := At(n, ls, s.right);
    }
  }

  method BalanceRight<T>(n: AvlNode<T>, ghost s: Shape<T>, ghost t: Tree<T>) returns (ghost u: Shape<T>)
    requires Is(n, s, t) && t.Node?
    modifies Nodes(s)
    ensures Is(n, u, Node(t.left, t.key, t.data, Balance(t.right))) && Nodes(u) == Nodes(s)
    decreases t.right, 2
  {
    Split(n, s, t);
    Split(n.left, s.left, t.left);
    Split(n.right, s.right, t.right);
    u := s;
    if n.right != null {
      var r;
      ghost var rs;
      r, rs := BalanceNodes(n.right, s.right, t.right);
      n.right := r;
      Join(n, s.left, t.left, rs, Balance(t.right));
      u := At(n, s.left, rs);
    }
  }

  // ---- insertion ----

  ghost function Top<T>(s: Shape<T>): AvlNode?<T> {
    if s.Nil? then null else s.node
  }

  ghost predicate SameShape<T>(s: Shape<T>, t: Tree<T>) {
    (s.Nil? <==> t.Leaf?) && (s.At? ==> SameShape(s.left, t.left) && SameShape(s.right, t.right))
  }

  /** Where the search for a missing key ends. */
  ghost function Spot<T>(s: Shape<T>, t: Tree<T>, key: int): (Shape<T>, Tree<T>)
    requires SameShape(s, t) && s.At?
  {
    if key < t.key then (if s.left.Nil? then (s, t) else Spot(s.left, t.left, key))
    else if s.right.Nil? then (s, t) else Spot(s.right, t.right, key)
  }

  /** The shape with a node added there. */
  ghost function Grown<T>(s: Shape<T>, t: Tree<T>, key: int, n: AvlNode<T>): Shape<T>
    requires SameShape(s, t)
  {
    if s.Nil? then At(n, Nil, Nil)
    else if key < t.key then At(s.node, Grown(s.left, t.left, key, n), s.right)
    else At(s.node, s.left, Grown(s.right, t.right, key, n))
  }

  /** As Is, but without looking at the node `last`. */
  ghost predicate Hole<T>(n: AvlNode?<T>, s: Shape<T>, t: Tree<T>, last: AvlNode<T>)
    reads Nodes(s) - {last}
  {
    && n == Top(s) && (s.Nil? <==> t.Leaf?)
    && (s.At? ==>
          && s.node !in Nodes(s.left) && s.node !in Nodes(s.right) && Nodes(s.left) !! Nodes(s.right)
          && (if s.node == last then Is(Top(s.left), s.left, t.left) && Is(Top(s.right), s.right, t.right)
              else
                && s.node.key == t.key && s.node.data == t.data
                && Hole(s.node.left, s.left, t.left, last) && Hole(s.node.right, s.right, t.right, last)))
  }

  lemma {:induction false} MakeHole<T>(n: AvlNode?<T>, s: Shape<T>, t: Tree<T>, last: AvlNode<T>)
    requires Is(n, s, t)
    ensures Hole(n, s, t, last) && SameShape(s, t)
    decreases s
  {
    Split(n, s, t);
    if n != null {
      Split(n.left, s.left, t.left);
      Split(n.right, s.right, t.right);
      MakeHole(n.left, s.left, t.left, last);
      MakeHole(n.right, s.right, t.right, last);
    }
  }

  lemma {:induction false} NoHole<T>(n: AvlNode?<T>, s: Shape<T>, t: Tree<T>, last: AvlNode<T>)
    requires Hole(n, s, t, last) && last !in Nodes(s)
    ensures Is(n, s, t)
    decreases s
  {
    if s.At? {
      NoHole(s.node.left, s.left, t.left, last);
      NoHole(s.node.right, s.right, t.right, last);
      Join(s.node, s.left, t.left, s.right, t.right);
    }
  }

  lemma {:induction false} SpotIn<T>(s: Shape<T>, t: Tree<T>, key: int)
    requires SameShape(s, t) && s.At?
    ensures Spot(s, t, key).0.At? && Spot(s, t, key).0.node in Nodes(s) && Spot(s, t, key).1.Node?
  {
    if key < t.key && s.left.At? {
      SpotIn(s.left, t.left, key);
    } else if key >= t.key && s.right.At? {
      SpotIn(s.right, t.right, key);
    }
  }

  lemma NewLeaf<T>(n: AvlNode<T>)
    requires n.left == null && n.right == null
    ensures Is(n, At(n, Nil, Nil), Node(Leaf, n.key, n.data, Leaf)) && Nodes(At(n, Nil, Nil)) == {n}
  {
    Join(n, Nil, Leaf, Nil, Leaf);
  }

  /** The node `last` with the new leaf on its free side. */
  ghost predicate Hooked<T>(last: AvlNode<T>, leaf: AvlNode<T>, s: Shape<T>, t: Tree<T>, key: int)
    reads last, leaf
  {
    && s.At? && t.Node? && last == s.node && last.key == t.key && last.data == t.data
    && leaf.key == key && leaf.left == null && leaf.right == null
    && last.left == (if key < t.key then leaf else Top(s.left))
    && last.right == (if key < t.key then Top(s.right) else leaf)
  }

  lemma {:induction false} FillHole<T>(n: AvlNode<T>, s: Shape<T>, t: Tree<T>, last: AvlNode<T>, leaf: AvlNode<T>, key: int)
    requires SameShape(s, t) && s.At? && Hole(n, s, t, last) && leaf !in Nodes(s) && key !in Keys(t)
    requires var spot := Spot(s, t, key); Hooked(last, leaf, spot.0, spot.1, key)
    ensures Is(n, Grown(s, t, key, leaf), Attach(t, key, leaf.data)) && Nodes(Grown(s, t, key, leaf)) == Nodes(s) + {leaf}
    decreases s
  {
    NewLeaf(leaf);
    var tip, tt := At(leaf, Nil, Nil), Node(Leaf, key, leaf.data, Leaf);
    if key < t.key {
      if s.left.Nil? {
        Join(n, tip, tt, s.right, t.right);
      } else {
        SpotIn(s.left, t.left, key);
        FillHole(n.left, s.left, t.left, last, leaf, key);
        NoHole(n.right, s.right, t.right, last);
        Join(n, Grown(s.left, t.left, key, leaf), Attach(t.left, key, leaf.data), s.right, t.right);
      }
    } else {
      if s.right.Nil? {
        Join(n, s.left, t.left, tip, tt);
      } else {
        SpotIn(s.right, t.right, key);
        FillHole(n.right, s.right, t.right, last, leaf, key);
        NoHole(n.left, s.left, t.left, last);
        Join(n, s.left, t.left, Grown(s.right, t.right, key, leaf), Attach(t.right, key, leaf.data));
      }
    }
  }

  /** The loop of avltree_insert: the node with the key, or the last one visited. */
  method Descend<T>(root: AvlNode?<T>, key: int, ghost s: Shape<T>, ghost t: Tree<T>)
    returns (last: AvlNode?<T>, found: bool)
    requires Is(root, s, t) && SameShape(s, t)
    ensures found <==> Find(t, key).Some?
    ensures !found ==> (last == null <==> root == null)
    ensures !found && root != null ==> s.At? && last == Top(Spot(s, t, key).0)
  {
    var next := root;
    last, found := null, false;
    ghost var c, ct := s, t;
    Split(root, s, t);
    while next != null
      invariant Is(next, c, ct) && SameShape(c, ct) && Find(ct, key) == Find(t, key)
      invariant last == null ==> next == root && c == s && ct == t
      invariant last != null ==> s.At?
      invariant last != null && c.At? ==> Spot(c, ct, key) == Spot(s, t, key)
      invariant last != null && c.Nil? ==> last == Top(Spot(s, t, key).0)
      decreases c
    {
      Split(next, c, ct);
      Split(next.left, c.left, ct.left);
      Split(next.right, c.right, ct.right);
      last := next;
      if key == next.key {
        found := true;
        return;
      }
      if key < next.key {
        next, c, ct := next.left, c.left, ct.left;
      } else {
        next, c, ct := next.right, c.right, ct.right;
      }
    }
    Split(next, c, ct);
  }

  /** avltree_insert. */
  method InsertKey<T>(root: AvlNode?<T>, key: int, data: T, ghost s: Shape<T>, ghost t: Tree<T>)
    returns (top: AvlNode?<T>, ghost u: Shape<T>)
    requires Is(root, s, t) && Ordered(t)
    modifies Nodes(s)
    ensures Is(top, u, Insert(t, key, data)) && fresh(Nodes(u) - Nodes(s))
  {
    top, u := root, s;
    Split(root, s, t);
    FindKeys(t, key);
    Shapes(root, s, t);
    var last, found := Descend(root, key, s, t);
    if found {
      return;
    }
    var n := new AvlNode(key, data);
    if last == null {
      NewLeaf(n);
      top, u := n, At(n, Nil, Nil);
      return;
    }
    SpotIn(s, t, key);
    u := Hook(root, last, n, s, t);
    top, u := BalanceNodes(root, u, Attach(t, key, data));
  }

  lemma Shapes<T>(n: AvlNode?<T>, s: Shape<T>, t: Tree<T>)
    requires Is(n, s, t)
    ensures SameShape(s, t)
  {
    Split(n, s, t);
    if n != null {
      MakeHole(n, s, t, n);
    }
  }

  /** Hang the new node on the free side of `last`. */
  method Hook<T>(root: AvlNode<T>, last: AvlNode<T>, n: AvlNode<T>, ghost s: Shape<T>, ghost t: Tree<T>)
    returns (ghost u: Shape<T>)
    requires Is(root, s, t) && SameShape(s, t) && s.At? && last == Top(Spot(s, t, n.key).0)
    requires n !in Nodes(s) && n.left == null && n.right == null && n.key !in Keys(t)
    modifies last
    ensures Is(root, u, Attach(t, n.key, n.data)) && Nodes(u) == Nodes(s) + {n}
  {
    var key := n.key;
    SpotIn(s, t, key);
    SpotLinked(root, s, t, key);
    MakeHole(root, s, t, last);
    if key < last.key {
      last.left := n;
    } else {
      last.right := n;
    }
    FillHole(root, s, t, last, n, key);
    u := Grown(s, t, key, n);
  }

  lemma {:induction false} SpotLinked<T>(n: AvlNode<T>, s: Shape<T>, t: Tree<T>, key: int)
    requires Is(n, s, t) && SameShape(s, t) && s.At? && key !in Keys(t)
    ensures var (ps, pt) := Spot(s, t, key);
      ps.At? && pt.Node? && ps.node in Nodes(s) && ps.node.key == pt.key && ps.node.data == pt.data &&
      ps.node.left == Top(ps.left) && ps.node.right == Top(ps.right) &&
      (if key < pt.key then ps.left.Nil? else ps.right.Nil?)
    decreases s
  {
    Split(n, s, t);
    Split(n.left, s.left, t.left);
    Split(n.right, s.right, t.right);
    if key < t.key && s.left.At? {
      SpotLinked(n.left, s.left, t.left, key);
    } else if key >= t.key && s.right.At? {
      SpotLinked(n.right, s.right, t.right, key);
    }
  }

  // ---- removal ----

  /** avlnode_ip: the rightmost node of the left side. */
  method LastNode<T>(n: AvlNode<T>, ghost s: Shape<T>, ghost t: Tree<T>) returns (ip: AvlNode<T>)
    requires Is(n, s, t) && t.Node?
    ensures (ip.key, ip.data) == Last(t)
  {
    ip := n;
    ghost var c, ct := s, t;
    Split(n, s, t);
    Split(n.right, s.right, t.right);
    while ip.right != null
      invariant Is(ip, c, ct) && c.At? && ct.Node? && Last(ct) == Last(t)
      invariant Is(ip.right, c.right, ct.right) && (ip.right == null <==> ct.right.Leaf?)
      decreases c
    {
      Split(ip, c, ct);
      ip, c, ct := ip.right, c.right, ct.right;
      Split(ip, c, ct);
      Split(ip.right, c.right, ct.right);
    }
    Split(ip, c, ct);
  }

  /** avlnode_remove. A node that is freed is no longer among the nodes of the result. */
  method RemoveKey<T>(n: AvlNode?<T>, key: int, ghost s: Shape<T>, ghost t: Tree<T>)
    returns (top: AvlNode?<T>, ghost u: Shape<T>)
    requires Is(n, s, t)
    modifies Nodes(s)
    ensures Is(top, u, Remove(t, key)) && Nodes(u) <= Nodes(s)
    decreases Size(t), 2
  {
    Split(n, s, t);
    if n == null {
      return null, s;
    }
    ghost var v;
    if key == n.key {
      top, u, v := RemoveHere(n, s, t);
    } else if key < n.key {
      top := n;
      u := RemoveLeft(n, key, s, t);
      v := Node(Remove(t.left, key), t.key, t.data, t.right);
    } else {
      top := n;
      u := RemoveRight(n, key, s, t);
      v := Node(t.left, t.key, t.data, Remove(t.right, key));
    }
    Split(top, u, v);
    if top != null {
      top, u := BalanceNodes(top, u, v);
    }
  }

  method RemoveLeft<T>(n: AvlNode<T>, key: int, ghost s: Shape<T>, ghost t: Tree<T>) returns (ghost u: Shape<T>)
    requires Is(n, s, t) && t.Node?
    modifies Nodes(s)
    ensures Is(n, u, Node(Remove(t.left, key), n.key, n.data, t.right)) && Nodes(u) <= Nodes(s)
    ensures n.key == old(n.key) && n.data == old(n.data)
    decreases Size(t.left), 3
  {
    Split(n, s, t);
    Split(n.left, s.left, t.left);
    Split(n.right, s.right, t.right);
    var l;
    ghost var ls;
    l, ls := RemoveKey(n.left, key, s.left, t.left);
    n.left := l;
    Join(n, ls, Remove(t.left, key), s.right, t.right);
    u := At(n, ls, s.right);
  }

  method RemoveRight<T>(n: AvlNode<T>, key: int, ghost s: Shape<T>, ghost t: Tree<T>) returns (ghost u: Shape<T>)
    requires Is(n, s, t) && t.Node?
    modifies Nodes(s)
    ensures Is(n, u, Node(t.left, n.key, n.data, Remove(t.right, key))) && Nodes(u) <= Nodes(s)
    ensures n.key == old(n.key) && n.data == old(n.data)
    decreases Size(t.right), 3
  {
    Split(n, s, t);
    Split(n.left, s.left, t.left);
    Split(n.right, s.right, t.right);
    var r;
    ghost var rs;
    r, rs := RemoveKey(n.right, key, s.right, t.right);
    n.right := r;
    Join(n, s.left, t.left, rs, Remove(t.right, key));
    u := At(n, s.left, rs);
  }

  /** avlnode_removenode; `v` is what is left before balancing. */
  method RemoveHere<T>(n: AvlNode<T>, ghost s: Shape<T>, ghost t: Tree<T>)
    returns (top: AvlNode?<T>, ghost u: Shape<T>, ghost v: Tree<T>)
    requires Is(n, s, t) && t.Node?
    modifies Nodes(s)
    ensures Is(top, u, v) && Nodes(u) <= Nodes(s) && Remove(t, t.key) == Balance(v)
    decreases Size(t), 1
  {
    Split(n, s, t);
    Split(n.left, s.left, t.left);
    Split(n.right, s.right, t.right);
    if n.left != null && n.right != null {
      var ip := LastNode(n.left, s.left, t.left);
      n.key := ip.key;
      n.data := ip.data;
      Join(n, s.left, t.left, s.right, t.right);
      ghost var swapped := Node(t.left, n.key, n.data, t.right);
      u := RemoveLeft(n, n.key, At(n, s.left, s.right), swapped);
      top, v := n, Node(Remove(t.left, n.key), n.key, n.data, t.right);
      return;
    }
    if n.left != null {
      top, u, v := n.left, s.left, t.left;
    } else {
      top, u, v := n.right, s.right, t.right;
    }
  }

  // ---- the tree object ----

  class AvlMap<T> {
    var root: AvlNode?<T>
    ghost var shape: Shape<T>
    ghost var tree: Tree<T>

    ghost predicate Valid()
      reads this, Nodes(shape)
    {
      Is(root, shape, tree) && Avl(tree)
    }

    constructor ()
      ensures Valid() && tree == Leaf
    {
      root, shape, tree := null, Nil, Leaf;
    }

    method Search(key: int) returns (found: AvlNode?<T>)
      requires Valid()
      ensures found == null <==> key !in Keys(tree)
      ensures found != null ==> found.key == key && Find(tree, key) == Some(found.data)
    {
      FindKeys(tree, key);
      found := SearchNodes(root, key, shape, tree);
    }

    method Insert(key: int, data: T)
      requires Valid()
      modifies this, Nodes(shape)
      ensures Valid() && fresh(Nodes(shape) - old(Nodes(shape))) && Keys(tree) == Keys(old(tree)) + {key}
      ensures forall q :: Find(tree, q) == if q == key && key !in Keys(old(tree)) then Some(data) else Find(old(tree), q)
    {
      InsertCorrect(tree, key, data);
      root, shape := InsertKey(root, key, data, shape, tree);
      tree := AvlTree.Insert(tree, key, data);
    }

    method Remove(key: int)
      requires Valid()
      modifies this, Nodes(shape)
      ensures Valid() && Nodes(shape) <= old(Nodes(shape)) && Keys(tree) == Keys(old(tree)) - {key}
      ensures forall q :: Find(tree, q) == if q == key then None else Find(old(tree), q)
    {
      RemoveCorrect(tree, key);
      root, shape := RemoveKey(root, key, shape, tree);
      tree := AvlTree.Remove(tree, key);
    }
  }
}
