/** ptnode_search and ptnode_insert of legacy/src/pftutils.c on linked nodes. */
module PrefixHeap {
  import opened Common
  import opened PrefixTree

  class PtNode<D> {
    const key: char
    var data: Option<D>
    var right: PtNode?<D>
    var down: PtNode?<D>
    ghost var repr: set<PtNode<D>>
    ghost var trie: Trie<D>      // what this node and everything right of and below it hold

    ghost predicate Valid()
      reads this, repr
      decreases repr
    {
      && this in repr
      && (right != null ==> right in repr && this !in right.repr && right.repr <= repr && right.Valid())
      && (down != null ==> down in repr && this !in down.repr && down.repr <= repr && down.Valid())
      && (right != null && down != null ==> right.repr !! down.repr)
      && trie == Node(key, data, TrieOf(right), TrieOf(down))
    }

    /** ptnode_create. */
    constructor (key: char)
      ensures this.key == key && Valid() && fresh(repr) && trie == Node(key, None, Empty, Empty)
    {
      this.key, data, right, down := key, None, null, null;
      repr := {this};
      trie := Node(key, None, Empty, Empty);
    }
  }

  ghost function TrieOf<D>(n: PtNode?<D>): Trie<D>
    reads n
  {
    if n == null then Empty else n.trie
  }

  /** ptnode_search. */
  function SearchNode<D>(n: PtNode?<D>, k: Key): (found: Option<Option<D>>)
    requires n != null ==> n.Valid()
    reads n, if n == null then {} else n.repr
    ensures found == Search(TrieOf(n), k)
    decreases if n == null then {} else n.repr
  {
    if n == null then None
    else if n.key != Head(k) then SearchNode(n.right, k)
    else if k == [] then Some(n.data)
    else SearchNode(n.down, k[1..])
  }

  /** Nodes still to pass on the right before the key's own branch. */
  ghost function Ahead<D>(t: Trie<D>, k: Key): nat {
    if t.Empty? then 1 else if t.key == END || t.key == Head(k) then 0 else 1 + Ahead(t.right, k)
  }

  /** ptnode_insert: a missing node is made first and then inserted into. */
  method InsertNode<D>(n: PtNode<D>, k: Key, d: D)
    requires n.Valid()
    modifies n.repr
    ensures n.Valid() && fresh(n.repr - old(n.repr)) && n.trie == Insert(old(n.trie), k, d)
    decreases |k|, Ahead(n.trie, k), 1
  {
    HeadEnds(k);
    if n.key == END {
      n.data := Some(d);
      n.trie := n.trie.(data := Some(d));
      return;
    }
    if n.key != Head(k) {
      InsertRight(n, k, d);
    } else {
      InsertDown(n, k, d);
    }
  }

  method InsertRight<D>(n: PtNode<D>, k: Key, d: D)
    requires n.Valid() && n.key != END && n.key != Head(k)
    modifies n.repr
    ensures n.Valid() && fresh(n.repr - old(n.repr)) && n.trie == Insert(old(n.trie), k, d)
    decreases |k|, Ahead(n.trie, k), 0
  {
    if n.right == null {
      n.right := new PtNode(Head(k));
      BranchMade(k, d);
    }
    InsertNode(n.right, k, d);
    n.repr := n.repr + n.right.repr;
    n.trie := n.trie.(right := n.right.trie);
  }

  method InsertDown<D>(n: PtNode<D>, k: Key, d: D)
    requires n.Valid() && n.key != END && n.key == Head(k)
    modifies n.repr
    ensures n.Valid() && fresh(n.repr - old(n.repr)) && n.trie == Insert(old(n.trie), k, d)
    decreases |k|, Ahead(n.trie, k), 0
  {
    HeadEnds(k);
    if n.down == null {
      n.down := new PtNode(Head(k[1..]));
      BranchMade(k[1..], d);
    }
    InsertNode(n.down, k[1..], d);
    n.repr := n.repr + n.down.repr;
    n.trie := n.trie.(down := n.down.trie);
  }

  /** Inserting into a new node makes the branch of the key. */
  lemma BranchMade<D>(k: Key, d: D)
    ensures Insert(Node(Head(k), None, Empty, Empty), k, d) == Branch(k, d)
  {
    HeadEnds(k);
  }

  lemma RunMore<D>(ops: seq<(Key, D)>, k: Key, d: D)
    ensures Run(ops + [(k, d)]) == Insert(Run(ops), k, d)
  {
    assert (ops + [(k, d)])[..|ops|] == ops;
  }

  class PtTree<D> {
    var root: PtNode?<D>
    ghost var inserted: seq<(Key, D)>

    ghost predicate Valid()
      reads this, root, if root == null then {} else root.repr
    {
      (root != null ==> root.Valid()) && TrieOf(root) == Run(inserted)
    }

    constructor ()
      ensures Valid() && inserted == []
    {
      root, inserted := null, [];
    }

    /** pttree_insert. */
    method Insert(k: Key, d: D)
      requires Valid()
      modifies this, if root == null then {} else root.repr
      ensures Valid() && inserted == old(inserted) + [(k, d)]
    {
      RunMore(inserted, k, d);
      BranchMade(k, d);
      var top := root;
      if top == null {
        top := new PtNode(Head(k));
      }
      InsertNode(top, k, d);
      root := top;
      inserted := inserted + [(k, d)];
    }

    /** pttree_search: on prefix-free keys, the data last inserted. */
    method Search(k: Key) returns (found: Option<Option<D>>)
      requires Valid()
      ensures found == PrefixTree.Search(Run(inserted), k)
      ensures PrefixFree(inserted) ==> found == LastFor(inserted, k)
    {
      found := SearchNode(root, k);
      if PrefixFree(inserted) {
        RunIsMap(inserted, k);
      }
    }
  }
}
