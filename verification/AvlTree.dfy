/** Balanced search trees as values: what the node operations of legacy/src/avlutils.c compute. */
module AvlTree {
  import opened Common

  datatype Tree<T> = Leaf | Node(left: Tree<T>, key: int, data: T, right: Tree<T>)

  function Keys<T>(t: Tree<T>): set<int> {
    match t
    case Leaf => {}
    case Node(l, k, _, r) => Keys(l) + {k} + Keys(r)
  }

  ghost predicate Ordered<T>(t: Tree<T>) {
    match t
    case Leaf => true
    case Node(l, k, _, r) =>
      Ordered(l) && Ordered(r) && (forall x :: x in Keys(l) ==> x < k) && (forall x :: x in Keys(r) ==> k < x)
  }

  function Height<T>(t: Tree<T>): nat {
    match t
    case Leaf => 0
    case Node(l, _, _, r) => 1 + if Height(r) > Height(l) then Height(r) else Height(l)
  }

  /** Height of the right side minus height of the left side. */
  function Factor<T>(t: Tree<T>): int {
    match t
    case Leaf => 0
    case Node(l, _, _, r) => Height(r) - Height(l)
  }

  predicate Balanced<T>(t: Tree<T>) {
    t.Node? ==> -1 <= Factor(t) <= 1 && Balanced(t.left) && Balanced(t.right)
  }

  ghost predicate Avl<T>(t: Tree<T>) {
    Ordered(t) && Balanced(t)
  }

  /** The value a search finds. */
  function Find<T>(t: Tree<T>, key: int): Option<T> {
    match t
    case Leaf => None
    case Node(l, k, d, r) => if key == k then Some(d) else if key < k then Find(l, key) else Find(r, key)
  }

  /** Same keys with the same values, still in order. */
  ghost predicate SameContents<T>(t: Tree<T>, u: Tree<T>) {
    Ordered(u) && Keys(u) == Keys(t) && forall q :: Find(u, q) == Find(t, q)
  }

  // ---- rotations ----

  function RotateLL<T>(t: Tree<T>): Tree<T>
    requires t.Node? && t.left.Node?
  {
    var b := t.left;
    Node(b.left, b.key, b.data, Node(b.right, t.key, t.data, t.right))
  }

  function RotateLR<T>(t: Tree<T>): Tree<T>
    requires t.Node? && t.left.Node? && t.left.right.Node?
  {
    var b := t.left;
    var c := b.right;
    Node(Node(b.left, b.key, b.data, c.left), c.key, c.data, Node(c.right, t.key, t.data, t.right))
  }

  function RotateRL<T>(t: Tree<T>): Tree<T>
    requires t.Node? && t.right.Node? && t.right.left.Node?
  {
    var b := t.right;
    var c := b.left;
    Node(Node(t.left, t.key, t.data, c.left), c.key, c.data, Node(c.right, b.key, b.data, b.right))
  }

  function RotateRR<T>(t: Tree<T>): Tree<T>
    requires t.Node? && t.right.Node?
  {
    var b := t.right;
    Node(Node(t.left, t.key, t.data, b.left), b.key, b.data, b.right)
  }

  /** The rotation avlnode_balance chooses for a node whose sides are done. */
  function Turn<T>(t: Tree<T>): Tree<T>
    requires t.Node?
  {
    if Factor(t) >= 2 then (if Factor(t.right) < 0 then RotateRL(t) else RotateRR(t))
    else if Factor(t) <= -2 then (if Factor(t.left) > 0 then RotateLR(t) else RotateLL(t))
    else t
  }

  /** avlnode_balance: the whole tree, bottom up. */
  function Balance<T>(t: Tree<T>): Tree<T> {
    match t
    case Leaf => Leaf
    case Node(l, k, d, r) => Turn(Node(Balance(l), k, d, Balance(r)))
  }

  /** The two ways to arrange three subtrees around two keys. */
  function LeftHeavy<T>(a: Tree<T>, x: int, xd: T, b: Tree<T>, y: int, yd: T, c: Tree<T>): Tree<T> {
    Node(Node(a, x, xd, b), y, yd, c)
  }

  function RightHeavy<T>(a: Tree<T>, x: int, xd: T, b: Tree<T>, y: int, yd: T, c: Tree<T>): Tree<T> {
    Node(a, x, xd, Node(b, y, yd, c))
  }

  lemma ShiftOrdered<T>(a: Tree<T>, x: int, xd: T, b: Tree<T>, y: int, yd: T, c: Tree<T>)
    ensures Ordered(LeftHeavy(a, x, xd, b, y, yd, c)) <==> Ordered(RightHeavy(a, x, xd, b, y, yd, c))
    ensures Keys(LeftHeavy(a, x, xd, b, y, yd, c)) == Keys(RightHeavy(a, x, xd, b, y, yd, c))
  {
    var l, r := Node(a, x, xd, b), Node(b, y, yd, c);
    assert Keys(l) == Keys(a) + {x} + Keys(b) && Keys(r) == Keys(b) + {y} + Keys(c);
    assert x in Keys(l) && y in Keys(r);
    assert Ordered(Node(l, y, yd, c)) ==> x < y;
    assert Ordered(Node(a, x, xd, r)) ==> x < y;
  }

  lemma ShiftFind<T>(a: Tree<T>, x: int, xd: T, b: Tree<T>, y: int, yd: T, c: Tree<T>, q: int)
    requires x < y
    ensures Find(LeftHeavy(a, x, xd, b, y, yd, c), q) == Find(RightHeavy(a, x, xd, b, y, yd, c), q)
  {
    assert Find(Node(a, x, xd, b), q) == if q == x then Some(xd) else if q < x then Find(a, q) else Find(b, q);
    assert Find(Node(b, y, yd, c), q) == if q == y then Some(yd) else if q < y then Find(b, q) else Find(c, q);
  }

  lemma ToLeft<T>(a: Tree<T>, x: int, xd: T, b: Tree<T>, y: int, yd: T, c: Tree<T>)
    requires Ordered(RightHeavy(a, x, xd, b, y, yd, c))
    ensures SameContents(RightHeavy(a, x, xd, b, y, yd, c), LeftHeavy(a, x, xd, b, y, yd, c))
  {
    ShiftOrdered(a, x, xd, b, y, yd, c);
    assert y in Keys(Node(b, y, yd, c));
    forall q ensures Find(LeftHeavy(a, x, xd, b, y, yd, c), q) == Find(RightHeavy(a, x, xd, b, y, yd, c), q) {
      ShiftFind(a, x, xd, b, y, yd, c, q);
    }
  }

  lemma ToRight<T>(a: Tree<T>, x: int, xd: T, b: Tree<T>, y: int, yd: T, c: Tree<T>)
    requires Ordered(LeftHeavy(a, x, xd, b, y, yd, c))
    ensures SameContents(LeftHeavy(a, x, xd, b, y, yd, c), RightHeavy(a, x, xd, b, y, yd, c))
  {
    ShiftOrdered(a, x, xd, b, y, yd, c);
    assert x in Keys(Node(a, x, xd, b));
    forall q ensures Find(LeftHeavy(a, x, xd, b, y, yd, c), q) == Find(RightHeavy(a, x, xd, b, y, yd, c), q) {
      ShiftFind(a, x, xd, b, y, yd, c, q);
    }
  }

  /** Exchanging the sides of a node for sides with the same contents. */
  lemma SidesContents<T>(l: Tree<T>, k: int, d: T, r: Tree<T>, l': Tree<T>, r': Tree<T>)
    requires Ordered(Node(l, k, d, r)) && SameContents(l, l') && SameContents(r, r')
    ensures SameContents(Node(l, k, d, r), Node(l', k, d, r'))
  {
    var t, u := Node(l, k, d, r), Node(l', k, d, r');
    assert Keys(u) == Keys(l') + {k} + Keys(r') && Keys(t) == Keys(l) + {k} + Keys(r);
    forall q ensures Find(u, q) == Find(t, q) {
      assert Find(l', q) == Find(l, q) && Find(r', q) == Find(r, q);
    }
  }

  lemma TurnContents<T>(t: Tree<T>)
    requires t.Node? && Ordered(t)
    ensures SameContents(t, Turn(t))
  {
    if Factor(t) >= 2 {
      var b := t.right;
      if Factor(b) < 0 {
        var c := b.left;
        var turned := RightHeavy(c.left, c.key, c.data, c.right, b.key, b.data, b.right);
        ToRight(c.left, c.key, c.data, c.right, b.key, b.data, b.right);
        SidesContents(t.left, t.key, t.data, b, t.left, turned);
        ToLeft(t.left, t.key, t.data, c.left, c.key, c.data, turned.right);
      } else {
        ToLeft(t.left, t.key, t.data, b.left, b.key, b.data, b.right);
      }
    } else if Factor(t) <= -2 {
      var b := t.left;
      if Factor(b) > 0 {
        var c := b.right;
        var turned := LeftHeavy(b.left, b.key, b.data, c.left, c.key, c.data, c.right);
        ToLeft(b.left, b.key, b.data, c.left, c.key, c.data, c.right);
        SidesContents(b, t.key, t.data, t.right, turned, t.right);
        ToRight(turned.left, c.key, c.data, c.right, t.key, t.data, t.right);
      } else {
        ToRight(b.left, b.key, b.data, b.right, t.key, t.data, t.right);
      }
    }
  }

  lemma NodeHeight<T>(l: Tree<T>, k: int, d: T, r: Tree<T>)
    ensures Height(Node(l, k, d, r)) == 1 + (if Height(r) > Height(l) then Height(r) else Height(l))
    ensures Balanced(Node(l, k, d, r)) <==> Balanced(l) && Balanced(r) && -1 <= Height(r) - Height(l) <= 1
  {
  }

  lemma SingleLeft<T>(a: Tree<T>, x: int, xd: T, b: Tree<T>, y: int, yd: T, c: Tree<T>)
    requires Balanced(a) && Balanced(Node(b, y, yd, c)) && Height(Node(b, y, yd, c)) == Height(a) + 2
    requires Height(b) <= Height(c)
    ensures var t, u := RightHeavy(a, x, xd, b, y, yd, c), LeftHeavy(a, x, xd, b, y, yd, c);
      Balanced(u) && Height(t) - 1 <= Height(u) <= Height(t)
  {
    NodeHeight(b, y, yd, c);
    NodeHeight(a, x, xd, Node(b, y, yd, c));
    NodeHeight(a, x, xd, b);
    NodeHeight(Node(a, x, xd, b), y, yd, c);
  }

  lemma SingleRight<T>(a: Tree<T>, x: int, xd: T, b: Tree<T>, y: int, yd: T, c: Tree<T>)
    requires Balanced(c) && Balanced(Node(a, x, xd, b)) && Height(Node(a, x, xd, b)) == Height(c) + 2
    requires Height(b) <= Height(a)
    ensures var t, u := LeftHeavy(a, x, xd, b, y, yd, c), RightHeavy(a, x, xd, b, y, yd, c);
      Balanced(u) && Height(t) - 1 <= Height(u) <= Height(t)
  {
    NodeHeight(a, x, xd, b);
    NodeHeight(Node(a, x, xd, b), y, yd, c);
    NodeHeight(b, y, yd, c);
    NodeHeight(a, x, xd, Node(b, y, yd, c));
  }

  /** Four subtrees around three keys, the middle one on top. */
  lemma Double<T>(a: Tree<T>, x: int, xd: T, b: Tree<T>, y: int, yd: T, c: Tree<T>, z: int, zd: T, d: Tree<T>)
    requires Balanced(a) && Balanced(b) && Balanced(c) && Balanced(d) && Height(a) == Height(d)
    requires Height(a) - 1 <= Height(b) <= Height(a) && Height(a) - 1 <= Height(c) <= Height(a)
    ensures var u := Node(Node(a, x, xd, b), y, yd, Node(c, z, zd, d));
      Balanced(u) && Height(u) == Height(a) + 2
  {
    NodeHeight(a, x, xd, b);
    NodeHeight(c, z, zd, d);
    NodeHeight(Node(a, x, xd, b), y, yd, Node(c, z, zd, d));
  }

  lemma TurnRightSide<T>(t: Tree<T>)
    requires t.Node? && Balanced(t.left) && Balanced(t.right) && Factor(t) == 2
    ensures Balanced(Turn(t)) && Height(t) - 1 <= Height(Turn(t)) <= Height(t)
  {
    var b := t.right;
    NodeHeight(t.left, t.key, t.data, b);
    NodeHeight(b.left, b.key, b.data, b.right);
    if Factor(b) < 0 {
      var c := b.left;
      NodeHeight(c.left, c.key, c.data, c.right);
      Double(t.left, t.key, t.data, c.left, c.key, c.data, c.right, b.key, b.data, b.right);
    } else {
      SingleLeft(t.left, t.key, t.data, b.left, b.key, b.data, b.right);
    }
  }

  lemma TurnLeftSide<T>(t: Tree<T>)
    requires t.Node? && Balanced(t.left) && Balanced(t.right) && Factor(t) == -2
    ensures Balanced(Turn(t)) && Height(t) - 1 <= Height(Turn(t)) <= Height(t)
  {
    var b := t.left;
    NodeHeight(b, t.key, t.data, t.right);
    NodeHeight(b.left, b.key, b.data, b.right);
    if Factor(b) > 0 {
      var c := b.right;
      NodeHeight(c.left, c.key, c.data, c.right);
      Double(b.left, b.key, b.data, c.left, c.key, c.data, c.right, t.key, t.data, t.right);
    } else {
      SingleRight(b.left, b.key, b.data, b.right, t.key, t.data, t.right);
    }
  }

  /** A node off by at most two is put right, at the price of at most one level. */
  lemma TurnBalances<T>(t: Tree<T>)
    requires t.Node? && Balanced(t.left) && Balanced(t.right) && -2 <= Factor(t) <= 2
    ensures Balanced(Turn(t)) && Height(t) - 1 <= Height(Turn(t)) <= Height(t)
    ensures -1 <= Factor(t) <= 1 ==> Turn(t) == t
  {
    if Factor(t) == 2 {
      TurnRightSide(t);
    } else if Factor(t) == -2 {
      TurnLeftSide(t);
    }
  }

  lemma {:induction false} BalanceIdentity<T>(t: Tree<T>)
    requires Balanced(t)
    ensures Balance(t) == t
  {
    if t.Node? {
      BalanceIdentity(t.left);
      BalanceIdentity(t.right);
    }
  }

  // ---- insertion ----

  /** A new leaf where the search for the key ends; nothing if the key is there. */
  function Attach<T>(t: Tree<T>, key: int, data: T): Tree<T> {
    match t
    case Leaf => Node(Leaf, key, data, Leaf)
    case Node(l, k, d, r) =>
      if key == k then t
      else if key < k then Node(Attach(l, key, data), k, d, r)
      else Node(l, k, d, Attach(r, key, data))
  }

  /** avltree_insert: an existing key is left alone, otherwise the whole tree is balanced. */
  function Insert<T>(t: Tree<T>, key: int, data: T): Tree<T> {
    if Find(t, key).Some? then t
    else if t.Leaf? then Attach(t, key, data)
    else Balance(Attach(t, key, data))
  }

  lemma {:induction false} FindKeys<T>(t: Tree<T>, key: int)
    requires Ordered(t)
    ensures Find(t, key).Some? <==> key in Keys(t)
  {
    if t.Node? {
      FindKeys(t.left, key);
      FindKeys(t.right, key);
    }
  }

  lemma {:induction false} AttachContents<T>(t: Tree<T>, key: int, data: T)
    requires Ordered(t) && key !in Keys(t)
    ensures var u := Attach(t, key, data);
      Ordered(u) && Keys(u) == Keys(t) + {key} && forall q :: Find(u, q) == if q == key then Some(data) else Find(t, q)
  {
    if t.Node? {
      if key < t.key {
        AttachContents(t.left, key, data);
        FindKeys(t.right, key);
      } else {
        AttachContents(t.right, key, data);
        FindKeys(t.left, key);
      }
    }
  }

  lemma {:induction false} BalanceContents<T>(t: Tree<T>)
    requires Ordered(t)
    ensures SameContents(t, Balance(t))
  {
    if t.Node? {
      BalanceContents(t.left);
      BalanceContents(t.right);
      var u := Node(Balance(t.left), t.key, t.data, Balance(t.right));
      SidesContents(t.left, t.key, t.data, t.right, u.left, u.right);
      TurnContents(u);
    }
  }

  /** Balancing after one attachment restores balance everywhere, and the height grows by at most one. */
  /** One side has grown by a level at most. */
  lemma GrownLeft<T>(l: Tree<T>, k: int, d: T, r: Tree<T>, l': Tree<T>)
    requires Balanced(Node(l, k, d, r)) && Balanced(l') && Height(l) <= Height(l') <= Height(l) + 1
    ensures var t, u := Node(l, k, d, r), Turn(Node(l', k, d, r));
      Balanced(u) && Height(t) <= Height(u) <= Height(t) + 1
  {
    NodeHeight(l, k, d, r);
    NodeHeight(l', k, d, r);
    TurnBalances(Node(l', k, d, r));
  }

  lemma GrownRight<T>(l: Tree<T>, k: int, d: T, r: Tree<T>, r': Tree<T>)
    requires Balanced(Node(l, k, d, r)) && Balanced(r') && Height(r) <= Height(r') <= Height(r) + 1
    ensures var t, u := Node(l, k, d, r), Turn(Node(l, k, d, r'));
      Balanced(u) && Height(t) <= Height(u) <= Height(t) + 1
  {
    NodeHeight(l, k, d, r);
    NodeHeight(l, k, d, r');
    TurnBalances(Node(l, k, d, r'));
  }

  lemma AttachedLeft<T>(l: Tree<T>, k: int, d: T, r: Tree<T>, a: Tree<T>)
    requires Balanced(Node(l, k, d, r)) && Balanced(Balance(a)) && Height(l) <= Height(Balance(a)) <= Height(l) + 1
    ensures var t, u := Node(l, k, d, r), Balance(Node(a, k, d, r));
      Balanced(u) && Height(t) <= Height(u) <= Height(t) + 1
  {
    BalanceIdentity(r);
    GrownLeft(l, k, d, r, Balance(a));
  }

  lemma AttachedRight<T>(l: Tree<T>, k: int, d: T, r: Tree<T>, a: Tree<T>)
    requires Balanced(Node(l, k, d, r)) && Balanced(Balance(a)) && Height(r) <= Height(Balance(a)) <= Height(r) + 1
    ensures var t, u := Node(l, k, d, r), Balance(Node(l, k, d, a));
      Balanced(u) && Height(t) <= Height(u) <= Height(t) + 1
  {
    BalanceIdentity(l);
    GrownRight(l, k, d, r, Balance(a));
  }

  lemma {:induction false} AttachBalances<T>(t: Tree<T>, key: int, data: T)
    requires Balanced(t)
    ensures var u := Balance(Attach(t, key, data));
      Balanced(u) && Height(t) <= Height(u) <= Height(t) + 1
  {
    match t
    case Leaf =>
      assert Balance(Attach(t, key, data)) == Node(Leaf, key, data, Leaf);
    case Node(l, k, d, r) =>
      if key < k {
        AttachBalances(l, key, data);
        AttachedLeft(l, k, d, r, Attach(l, key, data));
      } else if key > k {
        AttachBalances(r, key, data);
        AttachedRight(l, k, d, r, Attach(r, key, data));
      } else {
        BalanceIdentity(t);
      }
  }

  /** Insertion keeps an AVL tree one, adds the key, and never overwrites. */
  lemma InsertCorrect<T>(t: Tree<T>, key: int, data: T)
    requires Avl(t)
    ensures var u := Insert(t, key, data);
      Avl(u) && Keys(u) == Keys(t) + {key} &&
      forall q :: Find(u, q) == if q == key && key !in Keys(t) then Some(data) else Find(t, q)
  {
    FindKeys(t, key);
    if key !in Keys(t) {
      AttachContents(t, key, data);
      AttachBalances(t, key, data);
      BalanceContents(Attach(t, key, data));
    }
  }

  // ---- removal ----

  /** The largest entry. */
  function Last<T>(t: Tree<T>): (int, T)
    requires t.Node?
  {
    if t.right.Leaf? then (t.key, t.data) else Last(t.right)
  }

  /** avlnode_remove with avlnode_removenode; every node on the way back is balanced. */
  function Remove<T>(t: Tree<T>, key: int): Tree<T>
    decreases Size(t)
  {
    match t
    case Leaf => Leaf
    case Node(l, k, d, r) =>
      if key < k then Balance(Node(Remove(l, key), k, d, r))
      else if key > k then Balance(Node(l, k, d, Remove(r, key)))
      else if l.Node? && r.Node? then
        var (k', d') := Last(l);
        Balance(Node(Remove(l, k'), k', d', r))
      else if l.Node? then Balance(l)
      else Balance(r)
  }

  function Size<T>(t: Tree<T>): nat {
    match t
    case Leaf => 0
    case Node(l, _, _, r) => 1 + Size(l) + Size(r)
  }

  lemma {:induction false} LastFacts<T>(t: Tree<T>)
    requires t.Node? && Ordered(t)
    ensures Last(t).0 in Keys(t) && Find(t, Last(t).0) == Some(Last(t).1)
    ensures forall x :: x in Keys(t) ==> x <= Last(t).0
  {
    if t.right.Node? {
      LastFacts(t.right);
    }
  }

  /** One node rebalanced over sides of which one has lost at most a level. */
  lemma BalanceNode<T>(l: Tree<T>, k: int, d: T, r: Tree<T>)
    requires Balanced(l) && Balanced(r) && -2 <= Height(r) - Height(l) <= 2
    ensures var t := Node(l, k, d, r); var u := Balance(t);
      u == Turn(t) && Balanced(u) && Height(t) - 1 <= Height(u) <= Height(t) && (-1 <= Factor(t) <= 1 ==> u == t)
  {
    BalanceIdentity(l);
    BalanceIdentity(r);
    TurnBalances(Node(l, k, d, r));
  }

  /** One side has lost a level at most; the key above it may be another one. */
  lemma ShrunkLeft<T>(l: Tree<T>, k: int, d: T, r: Tree<T>, l': Tree<T>, k': int, d': T)
    requires Balanced(Node(l, k, d, r)) && Balanced(l') && Height(l) - 1 <= Height(l') <= Height(l)
    ensures var t, u := Node(l, k, d, r), Balance(Node(l', k', d', r));
      Balanced(u) && Height(t) - 1 <= Height(u) <= Height(t)
  {
    NodeHeight(l, k, d, r);
    NodeHeight(l', k', d', r);
    BalanceNode(l', k', d', r);
  }

  lemma ShrunkRight<T>(l: Tree<T>, k: int, d: T, r: Tree<T>, r': Tree<T>)
    requires Balanced(Node(l, k, d, r)) && Balanced(r') && Height(r) - 1 <= Height(r') <= Height(r)
    ensures var t, u := Node(l, k, d, r), Balance(Node(l, k, d, r'));
      Balanced(u) && Height(t) - 1 <= Height(u) <= Height(t)
  {
    NodeHeight(l, k, d, r);
    NodeHeight(l, k, d, r');
    BalanceNode(l, k, d, r');
  }

  lemma {:induction false} RemoveBalances<T>(t: Tree<T>, key: int)
    requires Balanced(t)
    ensures Balanced(Remove(t, key)) && Height(t) - 1 <= Height(Remove(t, key)) <= Height(t)
    decreases Size(t)
  {
    match t
    case Leaf =>
    case Node(l, k, d, r) =>
      if key < k {
        RemoveBalances(l, key);
        ShrunkLeft(l, k, d, r, Remove(l, key), k, d);
      } else if key > k {
        RemoveBalances(r, key);
        ShrunkRight(l, k, d, r, Remove(r, key));
      } else if l.Node? && r.Node? {
        var last := Last(l);
        RemoveBalances(l, last.0);
        ShrunkLeft(l, k, d, r, Remove(l, last.0), last.0, last.1);
      } else {
        NodeHeight(l, k, d, r);
        BalanceIdentity(l);
        BalanceIdentity(r);
      }
  }

  /** The largest entry of the left side takes the place of the root. */
  lemma ReplaceRoot<T>(l: Tree<T>, k: int, d: T, r: Tree<T>, l': Tree<T>)
    requires Ordered(Node(l, k, d, r)) && l.Node?
    requires var last := Last(l).0;
      Ordered(l') && Keys(l') == Keys(l) - {last} && forall q :: Find(l', q) == if q == last then None else Find(l, q)
    ensures var t, u := Node(l, k, d, r), Node(l', Last(l).0, Last(l).1, r);
      Ordered(u) && Keys(u) == Keys(t) - {k} && forall q :: Find(u, q) == if q == k then None else Find(t, q)
  {
    LastFacts(l);
    var last := Last(l);
    var t, u := Node(l, k, d, r), Node(l', last.0, last.1, r);
    forall q ensures Find(u, q) == if q == k then None else Find(t, q) {
      FindKeys(l, q);
      FindKeys(r, q);
    }
  }

  /** `u` is `t` without a key. */
  ghost predicate Lost<T>(t: Tree<T>, u: Tree<T>, key: int) {
    Ordered(u) && Keys(u) == Keys(t) - {key} && forall q :: Find(u, q) == if q == key then None else Find(t, q)
  }

  lemma LostLeft<T>(l: Tree<T>, k: int, d: T, r: Tree<T>, l': Tree<T>, key: int)
    requires Ordered(Node(l, k, d, r)) && key < k && Lost(l, l', key)
    ensures Lost(Node(l, k, d, r), Node(l', k, d, r), key)
  {
    FindKeys(r, key);
  }

  lemma LostRight<T>(l: Tree<T>, k: int, d: T, r: Tree<T>, r': Tree<T>, key: int)
    requires Ordered(Node(l, k, d, r)) && key > k && Lost(r, r', key)
    ensures Lost(Node(l, k, d, r), Node(l, k, d, r'), key)
  {
    FindKeys(l, key);
  }

  /** The root has one child at most. */
  lemma LostRoot<T>(l: Tree<T>, k: int, d: T, r: Tree<T>)
    requires Ordered(Node(l, k, d, r)) && (l.Leaf? || r.Leaf?)
    ensures Lost(Node(l, k, d, r), if l.Node? then l else r, k)
  {
    var t, u := Node(l, k, d, r), if l.Node? then l else r;
    forall q ensures Find(u, q) == if q == k then None else Find(t, q) {
      FindKeys(l, q);
      FindKeys(r, q);
    }
  }

  lemma LostBalance<T>(t: Tree<T>, u: Tree<T>, key: int)
    requires Lost(t, u, key)
    ensures Lost(t, Balance(u), key)
  {
    BalanceContents(u);
  }

  lemma {:induction false} RemoveContents<T>(t: Tree<T>, key: int)
    requires Ordered(t)
    ensures Lost(t, Remove(t, key), key)
    decreases Size(t)
  {
    match t
    case Leaf =>
    case Node(l, k, d, r) =>
      if key < k {
        RemoveContents(l, key);
        LostLeft(l, k, d, r, Remove(l, key), key);
        LostBalance(t, Node(Remove(l, key), k, d, r), key);
      } else if key > k {
        RemoveContents(r, key);
        LostRight(l, k, d, r, Remove(r, key), key);
        LostBalance(t, Node(l, k, d, Remove(r, key)), key);
      } else if l.Node? && r.Node? {
        var last := Last(l);
        RemoveContents(l, last.0);
        ReplaceRoot(l, k, d, r, Remove(l, last.0));
        LostBalance(t, Node(Remove(l, last.0), last.0, last.1, r), key);
      } else {
        LostRoot(l, k, d, r);
        LostBalance(t, if l.Node? then l else r, key);
      }
  }

  /** Removal keeps an AVL tree one and takes away exactly the key. */
  lemma RemoveCorrect<T>(t: Tree<T>, key: int)
    requires Avl(t)
    ensures var u := Remove(t, key);
      Avl(u) && Keys(u) == Keys(t) - {key} && forall q :: Find(u, q) == if q == key then None else Find(t, q)
  {
    RemoveBalances(t, key);
    RemoveContents(t, key);
  }

  // ---- whole runs ----

  datatype Op<T> = Put(key: int, data: T) | Delete(key: int)

  function Run<T>(ops: seq<Op<T>>): Tree<T> {
    if ops == [] then Leaf
    else
      var t := Run(ops[..|ops| - 1]);
      match ops[|ops| - 1]
      case Put(k, d) => Insert(t, k, d)
      case Delete(k) => Remove(t, k)
  }

  /** The same operations on a finite map. */
  function MapRun<T>(ops: seq<Op<T>>): map<int, T> {
    if ops == [] then map[]
    else
      var m := MapRun(ops[..|ops| - 1]);
      match ops[|ops| - 1]
      case Put(k, d) => if k in m then m else m[k := d]
      case Delete(k) => m - {k}
  }

  /** Every run of insertions and removals yields an AVL tree that agrees with the map. */
  lemma {:induction false} RunAgrees<T>(ops: seq<Op<T>>, key: int)
    ensures var t, m := Run(ops), MapRun(ops);
      Avl(t) && Keys(t) == m.Keys && Find(t, key) == if key in m then Some(m[key]) else None
  {
    if ops != [] {
      var init := ops[..|ops| - 1];
      RunAgrees(init, key);
      match ops[|ops| - 1]
      case Put(k, d) => InsertCorrect(Run(init), k, d);
      case Delete(k) => RemoveCorrect(Run(init), k);
    }
  }

  // ---- height ----

  function Pow2(n: nat): nat {
    if n == 0 then 1 else 2 * Pow2(n - 1)
  }

  /** A tree of height h has at least 2^(h/2) - 1 entries. */
  lemma {:induction false} HeightLogarithmic<T>(t: Tree<T>)
    requires Balanced(t)
    ensures Pow2(Height(t) / 2) <= Size(t) + 1
  {
    if t.Node? {
      HeightLogarithmic(t.left);
      HeightLogarithmic(t.right);
      var h := Height(t);
      if h >= 2 {
        assert h / 2 == (h - 2) / 2 + 1;
        Pow2Grows((h - 2) / 2, Height(t.left) / 2);
        Pow2Grows((h - 2) / 2, Height(t.right) / 2);
      }
    }
  }

  lemma {:induction false} Pow2Grows(a: nat, b: nat)
    requires a <= b
    ensures Pow2(a) <= Pow2(b)
  {
    if a < b {
      Pow2Grows(a, b - 1);
    }
  }
}
