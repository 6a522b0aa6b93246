/** The prefix tree of legacy/src/pftutils.c: what a search finds after any sequence of insertions. */
module PrefixTree {
  import opened Common

  /** A key as the bytes before its terminator. */
  type Key = k: seq<char> | '\0' !in k

  const END: char := '\0'

  datatype Trie<D> = Empty | Node(key: char, data: Option<D>, right: Trie<D>, down: Trie<D>)

  function Head(k: Key): char {
    if k == [] then END else k[0]
  }

  lemma HeadEnds(k: Key)
    ensures Head(k) == END <==> k == []
  {
    assert k != [] ==> k[0] in k;
  }

  // ---- what the code computes ----

  /** ptnode_search: the data of the node found, if one is. */
  function Search<D>(t: Trie<D>, k: Key): Option<Option<D>> {
    if t.Empty? then None
    else if t.key != Head(k) then Search(t.right, k)
    else if k == [] then Some(t.data)
    else Search(t.down, k[1..])
  }

  /** A branch for one key. */
  function Branch<D>(k: Key, d: D): Trie<D> {
    if k == [] then Node(END, Some(d), Empty, Empty) else Node(k[0], None, Empty, Branch(k[1..], d))
  }

  /** ptnode_insert, which looks for the end-of-key node before it compares. */
  function Insert<D>(t: Trie<D>, k: Key, d: D): Trie<D> {
    if t.Empty? then Branch(k, d)
    else if t.key == END then t.(data := Some(d))
    else if t.key != Head(k) then t.(right := Insert(t.right, k, d))
    else if k == [] then t
    else t.(down := Insert(t.down, k[1..], d))
  }

  // ---- what every sequence of insertions keeps ----

  function Heads<D>(t: Trie<D>): set<char> {
    if t.Empty? then {} else {t.key} + Heads(t.right)
  }

  /** Siblings differ; an end-of-key node is last in its list and holds data, any other node leads
      somewhere and holds none. */
  ghost predicate Formed<D>(t: Trie<D>) {
    t.Node? ==>
      && Formed(t.right) && Formed(t.down) && t.key !in Heads(t.right)
      && (if t.key == END then t.right.Empty? && t.down.Empty? && t.data.Some? else t.down.Node? && t.data.None?)
  }

  /** The key whose data an insertion really sets: k itself, or a prefix of it whose end-of-key node
      is in the way. */
  function Landing<D>(t: Trie<D>, k: Key): Key {
    if t.Empty? then k
    else if t.key == END then []
    else if t.key != Head(k) then Landing(t.right, k)
    else if k == [] then k
    else
      var rest := Landing(t.down, k[1..]);
      [k[0]] + rest
  }

  lemma {:induction false} BranchFacts<D>(k: Key, d: D, q: Key)
    ensures Formed(Branch(k, d)) && Heads(Branch(k, d)) == {Head(k)}
    ensures Search(Branch(k, d), q) == if q == k then Some(Some(d)) else None
  {
    HeadEnds(k);
    HeadEnds(q);
    if k != [] {
      if q != [] {
        BranchFacts(k[1..], d, q[1..]);
        assert k == [k[0]] + k[1..] && q == [q[0]] + q[1..];
      } else {
        BranchFacts(k[1..], d, []);
      }
    }
  }

  lemma {:induction false} InsertFormed<D>(t: Trie<D>, k: Key, d: D)
    requires Formed(t)
    ensures Formed(Insert(t, k, d)) && Insert(t, k, d).Node?
    ensures Heads(t) <= Heads(Insert(t, k, d)) <= Heads(t) + {Head(k)}
  {
    HeadEnds(k);
    if t.Empty? {
      BranchFacts(k, d, k);
    } else if t.key != END {
      if t.key != Head(k) {
        InsertFormed(t.right, k, d);
      } else {
        InsertFormed(t.down, k[1..], d);
      }
    }
  }

  /** Every insertion sets the data of exactly one key: the one it lands on. */
  lemma {:induction false} InsertSearch<D>(t: Trie<D>, k: Key, d: D, q: Key)
    requires Formed(t)
    ensures Search(Insert(t, k, d), q) == if q == Landing(t, k) then Some(Some(d)) else Search(t, q)
  {
    HeadEnds(k);
    HeadEnds(q);
    if t.Empty? {
      BranchFacts(k, d, q);
    } else if t.key == END {
    } else if t.key != Head(k) {
      InsertSearch(t.right, k, d, q);
      LandingHead(t.right, k);
    } else {
      if q != [] {
        InsertSearch(t.down, k[1..], d, q[1..]);
        assert q == [q[0]] + q[1..];
      }
    }
  }

  /** It lands in the branch of its first character, or on the empty key. */
  lemma {:induction false} LandingHead<D>(t: Trie<D>, k: Key)
    ensures Landing(t, k) <= k && (Landing(t, k) == [] || Head(Landing(t, k)) == Head(k))
  {
    if t.Node? && t.key != END {
      if t.key != Head(k) {
        LandingHead(t.right, k);
      } else if k != [] {
        LandingHead(t.down, k[1..]);
      }
    }
  }

  /** An insertion that lands elsewhere lands on a stored key that is a proper prefix, and its own
      key is not stored. */
  lemma {:induction false} LandingElsewhere<D>(t: Trie<D>, k: Key)
    requires Formed(t) && Landing(t, k) != k
    ensures Landing(t, k) < k && Search(t, Landing(t, k)).Some? && Search(t, k) == None
  {
    HeadEnds(k);
    LandingHead(t, k);
    var e := Landing(t, k);
    HeadEnds(e);
    if t.key == END {
      assert Search(t.right, k) == None;
    } else if t.key != Head(k) {
      LandingElsewhere(t.right, k);
    } else {
      LandingElsewhere(t.down, k[1..]);
      assert e[1..] == Landing(t.down, k[1..]);
    }
  }

  /** No stored key begins with p. */
  ghost predicate NoneBelow<D(!new)>(t: Trie<D>, p: seq<char>) {
    forall q: Key :: p <= q ==> Search(t, q) == None
  }

  /** A stored key e is a proper prefix of k, and no stored key goes on from e as k does. */
  ghost predicate Blocks<D(!new)>(t: Trie<D>, e: Key, k: Key) {
    e < k && Search(t, e).Some? && NoneBelow(t, k[..|e| + 1])
  }

  lemma {:induction false} SomeKey<D>(t: Trie<D>) returns (q: Key)
    requires Formed(t) && t.Node?
    ensures Search(t, q).Some?
  {
    if t.key == END {
      q := [];
    } else {
      var rest := SomeKey(t.down);
      q := [t.key] + rest;
      assert q[1..] == rest;
    }
  }

  lemma BelowRight<D(!new)>(t: Trie<D>, p: seq<char>)
    requires t.Node? && p != [] && p[0] != t.key
    ensures NoneBelow(t, p) <==> NoneBelow(t.right, p)
  {
    forall q: Key | p <= q ensures Search(t, q) == Search(t.right, q) {
      assert q[0] == p[0];
    }
  }

  lemma BelowDown<D(!new)>(t: Trie<D>, p: seq<char>)
    requires t.Node? && p != [] && p[0] == t.key != END
    ensures NoneBelow(t, p) <==> NoneBelow(t.down, p[1..])
  {
    if NoneBelow(t, p) {
      forall q: Key | p[1..] <= q ensures Search(t.down, q) == None {
        var q': Key := [t.key] + q;
        assert q'[1..] == q && p <= q';
        assert Search(t, q') == None;
      }
    }
    if NoneBelow(t.down, p[1..]) {
      forall q: Key | p <= q ensures Search(t, q) == None {
        assert p[1..] <= q[1..] && q[0] == p[0];
      }
    }
  }

  /** What is in the way of an insertion, in terms of the stored keys alone. */
  lemma {:induction false} LandsOnBlocker<D(!new)>(t: Trie<D>, k: Key, e: Key)
    requires Formed(t)
    ensures Landing(t, k) == e && e < k <==> Blocks(t, e, k)
  {
    HeadEnds(k);
    HeadEnds(e);
    if t.Node? && k != [] && e < k {
      var p := k[..|e| + 1];
      assert p[0] == k[0];
      assert e != [] ==> e[0] == k[0];
      if t.key == END {
        EndOnly(t, p);
        assert Search(t.right, e) == None;
      } else if t.key != k[0] {
        BelowRight(t, p);
        LandsOnBlocker(t.right, k, e);
      } else if e == [] {
        var q := SomeKey(t.down);
        BelowDown(t, p);
        assert !NoneBelow(t.down, p[1..]);
      } else {
        BelowDown(t, p);
        assert p[1..] == k[1..][..|e[1..]| + 1];
        LandsOnBlocker(t.down, k[1..], e[1..]);
        assert e == [e[0]] + e[1..];
      }
    }
  }

  lemma EndOnly<D(!new)>(t: Trie<D>, p: seq<char>)
    requires Formed(t) && t.Node? && t.key == END && p != []
    ensures NoneBelow(t, p)
  {
    forall q: Key | p <= q ensures Search(t, q) == None {
      HeadEnds(q);
    }
  }

  /** An insertion acts as on a map exactly if no stored key blocks its way. */
  lemma InsertIsUpdate<D(!new)>(t: Trie<D>, k: Key, d: D)
    requires Formed(t)
    ensures (forall q: Key :: Search(Insert(t, k, d), q) == if q == k then Some(Some(d)) else Search(t, q))
      <==> !exists e: Key :: Blocks(t, e, k)
  {
    LandingHead(t, k);
    LandsOnBlocker(t, k, Landing(t, k));
    forall e: Key | Blocks(t, e, k) ensures Landing(t, k) != k {
      LandsOnBlocker(t, k, e);
    }
    forall q: Key
      ensures Search(Insert(t, k, d), q) == if q == Landing(t, k) then Some(Some(d)) else Search(t, q)
    {
      InsertSearch(t, k, d, q);
    }
    if Landing(t, k) != k {
      LandingElsewhere(t, k);
    }
  }

  // ---- whole runs ----

  /** Neither key is a proper prefix of the other. */
  predicate Unrelated(a: Key, b: Key) {
    a == b || (!(a <= b) && !(b <= a))
  }

  predicate PrefixFree<D>(ops: seq<(Key, D)>) {
    forall i, j :: 0 <= i < |ops| && 0 <= j < |ops| ==> Unrelated(ops[i].0, ops[j].0)
  }

  function Run<D>(ops: seq<(Key, D)>): Trie<D> {
    if ops == [] then Empty else Insert(Run(ops[..|ops| - 1]), ops[|ops| - 1].0, ops[|ops| - 1].1)
  }

  /** The data last inserted for a key. */
  function LastFor<D>(ops: seq<(Key, D)>, q: Key): Option<Option<D>> {
    if ops == [] then None
    else if ops[|ops| - 1].0 == q then Some(Some(ops[|ops| - 1].1))
    else LastFor(ops[..|ops| - 1], q)
  }

  lemma {:induction false} RunFormed<D>(ops: seq<(Key, D)>)
    ensures Formed(Run(ops))
  {
    if ops != [] {
      RunFormed(ops[..|ops| - 1]);
      InsertFormed(Run(ops[..|ops| - 1]), ops[|ops| - 1].0, ops[|ops| - 1].1);
    }
  }

  lemma {:induction false} LastForKey<D>(ops: seq<(Key, D)>, q: Key)
    requires LastFor(ops, q).Some?
    ensures exists i :: 0 <= i < |ops| && ops[i].0 == q
  {
    var n := |ops| - 1;
    if ops[n].0 != q {
      var init := ops[..n];
      LastForKey(init, q);
      var i :| 0 <= i < |init| && init[i].0 == q;
      assert ops[i].0 == q;
    }
  }

  /** On a prefix-free set of keys the tree is a map: a search finds what was last inserted. */
  lemma {:induction false} RunIsMap<D>(ops: seq<(Key, D)>, q: Key)
    requires PrefixFree(ops)
    ensures Search(Run(ops), q) == LastFor(ops, q)
  {
    if ops != [] {
      var n := |ops| - 1;
      var init, k, d := ops[..n], ops[n].0, ops[n].1;
      var t := Run(init);
      assert PrefixFree(init);
      assert forall i :: 0 <= i < |init| ==> Unrelated(ops[i].0, ops[n].0);
      RunIsMap(init, q);
      RunFormed(init);
      InsertSearch(t, k, d, q);
      if Landing(t, k) != k {
        LandingElsewhere(t, k);
        var e := Landing(t, k);
        RunIsMap(init, e);
        LastForKey(init, e);
      }
    }
  }

  /** "a" and then "ab": the second insertion overwrites the data of the first. */
  lemma PrefixOverwrites<D>(d: D, e: D)
    ensures var a: Key, ab: Key := ['a'], ['a', 'b'];
      Search(Run([(a, d), (ab, e)]), a) == Some(Some(e)) && Search(Run([(a, d), (ab, e)]), ab) == None
  {
    var a: Key, ab: Key := ['a'], ['a', 'b'];
    var ops := [(a, d), (ab, e)];
    assert ops[..1] == [(a, d)] && [(a, d)][..0] == [];
    var t := Branch(a, d);
    assert Run([(a, d)]) == t;
    assert Run(ops) == Insert(t, ab, e);
    assert a[1..] == [] && ab[1..] == ['b'];
    BranchFacts(a, d, a);
    assert Landing(t, ab) == a;
    InsertSearch(t, ab, e, a);
    InsertSearch(t, ab, e, ab);
    BranchFacts(a, d, ab);
  }
}
