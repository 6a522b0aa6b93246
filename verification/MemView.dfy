/** The in-memory file system as a map from paths to entries, and what each operation should do to
    that map. */
module MemView {
  import opened Common
  import opened MemTree

  datatype Entry = Dir | File(data: seq<Byte>)
  datatype Errno = ENOENT | ENOTDIR | EEXIST | EISDIR | ENOTEMPTY | EBUSY | EINVAL | EMFILE

  function EntryOf(n: Node): Entry {
    if n.dir then Dir else File(n.data)
  }

  function View(nodes: map<Id, Node>, at: map<Path, Id>): map<Path, Entry> {
    map p | p in at && at[p] in nodes :: EntryOf(nodes[at[p]])
  }

  // ---- what should happen ----

  /** The first ancestor on the way to `d`, `d` included, that is missing or not a directory. */
  function WayError(v: map<Path, Entry>, d: Path): Option<Errno> {
    if d == [] then None
    else
      var before := WayError(v, d[..|d| - 1]);
      if before.Some? then before
      else if d !in v then Some(ENOENT)
      else if v[d].File? then Some(ENOTDIR)
      else None
  }

  function ParentError(v: map<Path, Entry>, p: Path): Option<Errno> {
    if p == [] then Some(EEXIST) else WayError(v, p[..|p| - 1])
  }

  function MkdirError(v: map<Path, Entry>, p: Path): Option<Errno> {
    if ParentError(v, p).Some? then ParentError(v, p) else if p in v then Some(EEXIST) else None
  }

  function RmdirError(v: map<Path, Entry>, p: Path): Option<Errno> {
    if p !in v then Some(ENOENT)
    else if v[p].File? then Some(ENOTDIR)
    else if exists q :: q in v && p < q then Some(ENOTEMPTY)
    else if p == [] then Some(EBUSY)
    else None
  }

  function UnlinkError(v: map<Path, Entry>, p: Path): Option<Errno> {
    if p !in v then Some(ENOENT) else if v[p].Dir? then Some(EISDIR) else None
  }

  function RenameError(v: map<Path, Entry>, source: Path, target: Path): Option<Errno> {
    if source !in v then Some(ENOENT)
    else if source == [] then Some(EBUSY)
    else if ParentError(v, target).Some? then ParentError(v, target)
    else if source < target then Some(EINVAL)
    else if target in v && target != source && (v[target].Dir? || v[source].Dir?) then Some(EISDIR)
    else None
  }

  /** `w` is `v` with everything at and below `source` now at and below `target`, in place of what
      was there, and nothing else changed. */
  ghost predicate Renamed<T(!new)>(v: map<Path, T>, w: map<Path, T>, source: Path, target: Path) {
    && (forall s :: target + s in w <==> source + s in v)
    && (forall s :: source + s in v ==> target + s in w && w[target + s] == v[source + s])
    && (forall s :: source + s !in w)
    && (forall q :: !(source <= q) && !(target <= q) ==> (q in w <==> q in v) && (q in v ==> w[q] == v[q]))
  }

  // ---- what the graph operations do ----

  lemma ViewKeys(nodes: map<Id, Node>, path: map<Id, Path>, at: map<Path, Id>)
    requires Tree(nodes, path, at)
    ensures View(nodes, at).Keys == at.Keys
  {
    assert Unfold(0);
  }

  lemma WayStep(v: map<Path, Entry>, way: Path, i: nat)
    requires i < |way| && WayError(v, way[..i]) == None
    ensures WayError(v, way[..i + 1])
      == if way[..i + 1] !in v then Some(ENOENT) else if v[way[..i + 1]].File? then Some(ENOTDIR) else None
    ensures WayError(v, way[..i + 1]).Some? ==> WayError(v, way) == WayError(v, way[..i + 1])
  {
    assert way[..i + 1][..i] == way[..i];
    if WayError(v, way[..i + 1]).Some? {
      WayStays(v, way, i + 1);
    }
  }

  lemma {:induction false} WayStays(v: map<Path, Entry>, way: Path, k: nat)
    requires k <= |way| && WayError(v, way[..k]).Some?
    ensures WayError(v, way) == WayError(v, way[..k])
    decreases |way|
  {
    if k == |way| {
      assert way[..k] == way;
    } else {
      var init := way[..|way| - 1];
      assert init[..k] == way[..k];
      WayStays(v, init, k);
    }
  }

  /** A directory node has children exactly if some path goes through it. */
  lemma ChildrenMeanEntries(nodes: map<Id, Node>, path: map<Id, Path>, at: map<Path, Id>, p: Path)
    requires Tree(nodes, path, at) && p in at && at[p] in nodes
    ensures nodes[at[p]].children != [] <==> exists q :: q in View(nodes, at) && p < q
  {
    ViewKeys(nodes, path, at);
    var id := at[p];
    Inverse(nodes, path, at, p);
    if nodes[id].children != [] {
      var c := nodes[id].children[0];
      assert c in nodes[id].children;
      assert path[c] in at && p < path[c] by {
        assert Unfold(0);
        assert Below(nodes, path, id, c);
      }
    }
    forall q | q in at && p < q ensures nodes[id].children != [] {
      Prefixes(nodes, path, at, q, |p| + 1);
      Above(nodes, path, at, q[..|p| + 1]);
      assert q[..|p| + 1][..|p|] == p;
    }
  }

  lemma AddView(nodes: map<Id, Node>, path: map<Id, Path>, at: map<Path, Id>, up: Id, id: Id, node: Node)
    requires Indexed(nodes.Keys, path, at) && up in nodes && id !in nodes && path[up] + [node.name] !in at
    ensures var p := path[up] + [node.name];
      View(Added(nodes, up, id, node), at[p := id]) == View(nodes, at)[p := EntryOf(node)]
  {
    assert Unfold(0);
  }

  lemma DataView(nodes: map<Id, Node>, path: map<Id, Path>, at: map<Path, Id>, p: Path, data: seq<Byte>)
    requires Indexed(nodes.Keys, path, at) && p in at && at[p] in nodes && !nodes[at[p]].dir
    ensures View(nodes[at[p] := nodes[at[p]].(data := data)], at) == View(nodes, at)[p := File(data)]
  {
    assert Unfold(0);
  }

  lemma RemoveView(nodes: map<Id, Node>, path: map<Id, Path>, at: map<Path, Id>, id: Id)
    requires Indexed(nodes.Keys, path, at) && Hangs(nodes, id)
    ensures View(Removed(nodes, id), at - {path[id]}) == View(nodes, at) - {path[id]}
  {
    assert Unfold(0);
  }

  lemma MoveView(nodes: map<Id, Node>, path: map<Id, Path>, at: map<Path, Id>, id: Id, up: Id, name: string)
    requires Indexed(nodes.Keys, path, at) && Hangs(nodes, id) && up in nodes && up != id
    requires var source, target := path[id], path[up] + [name];
      Vacant(at, target) && !(source <= target)
    ensures var source, target := path[id], path[up] + [name];
      Renamed(View(nodes, at), View(Moved(nodes, id, up, name), MovedIndex(at, source, target)), source, target)
  {
    var source, target := path[id], path[up] + [name];
    var nodes', at' := Moved(nodes, id, up, name), MovedIndex(at, source, target);
    var v, w := View(nodes, at), View(nodes', at');
    IndexRenamed(at, source, target);
    MoveIndexed(nodes.Keys, path, at, source, target);
    ViewEntries(nodes, nodes, path, at);
    MoveEntries(nodes, id, up, name);
    ViewEntries(nodes, nodes', MovedPaths(path, source, target), at');
    EntriesRenamed(nodes, at, at', v, w, source, target);
  }

  lemma MoveEntries(nodes: map<Id, Node>, id: Id, up: Id, name: string)
    requires Hangs(nodes, id) && up in nodes && up != id
    ensures SameEntries(nodes, Moved(nodes, id, up, name))
  {
  }

  ghost predicate SameEntries(nodes: map<Id, Node>, nodes': map<Id, Node>) {
    nodes'.Keys == nodes.Keys && forall x :: x in nodes ==> EntryOf(nodes'[x]) == EntryOf(nodes[x])
  }

  lemma ViewEntries(nodes: map<Id, Node>, nodes': map<Id, Node>, path: map<Id, Path>, at: map<Path, Id>)
    requires Indexed(nodes.Keys, path, at) && SameEntries(nodes, nodes')
    ensures View(nodes', at).Keys == at.Keys
    ensures forall p :: p in at ==> at[p] in nodes && View(nodes', at)[p] == EntryOf(nodes[at[p]])
  {
    assert Unfold(0);
  }

  /** Clearing the target first makes no difference to what a move leaves. */
  lemma RenamedReplacing(v: map<Path, Entry>, cleared: map<Path, Entry>, w: map<Path, Entry>, source: Path, target: Path)
    requires cleared == v - {target} && Renamed(cleared, w, source, target) && !(source <= target)
    ensures Renamed(v, w, source, target)
  {
    forall s ensures source + s in v <==> source + s in cleared {
      assert source <= source + s;
    }
  }

  lemma EntriesRenamed(nodes: map<Id, Node>, at: map<Path, Id>, at': map<Path, Id>,
                       v: map<Path, Entry>, w: map<Path, Entry>, source: Path, target: Path)
    requires Renamed(at, at', source, target)
    requires v.Keys == at.Keys && forall p :: p in at ==> at[p] in nodes && v[p] == EntryOf(nodes[at[p]])
    requires w.Keys == at'.Keys && forall q :: q in at' ==> at'[q] in nodes && w[q] == EntryOf(nodes[at'[q]])
    ensures Renamed(v, w, source, target)
  {
    forall q | !(source <= q) && !(target <= q) ensures (q in w <==> q in v) && (q in v ==> w[q] == v[q]) {
      assert q in at' <==> q in at;
    }
    forall s ensures target + s in w <==> source + s in v
      ensures source + s in v ==> target + s in w && w[target + s] == v[source + s]
    {
      assert target + s in at' <==> source + s in at;
    }
    forall s ensures source + s !in w {
      assert source + s !in at';
    }
  }

  lemma IndexRenamed(at: map<Path, Id>, source: Path, target: Path)
    requires Vacant(at, target) && !(source <= target)
    ensures Renamed(at, MovedIndex(at, source, target), source, target)
  {
    var at' := MovedIndex(at, source, target);
    forall s ensures target + s in at' <==> source + s in at
      ensures source + s in at ==> target + s in at' && at'[target + s] == at[source + s]
    {
      IndexUnderTarget(at, source, target, s);
    }
    forall s ensures source + s !in at' {
      IndexUnderSource(at, source, target, s);
    }
    forall q | !(source <= q) && !(target <= q) ensures (q in at' <==> q in at) && (q in at ==> at'[q] == at[q]) {
      IndexElsewhere(at, source, target, q);
    }
  }

  lemma IndexUnderTarget(at: map<Path, Id>, source: Path, target: Path, s: Path)
    requires Vacant(at, target)
    ensures target + s in MovedIndex(at, source, target) <==> source + s in at
    ensures source + s in at ==> MovedIndex(at, source, target)[target + s] == at[source + s]
  {
    var q := target + s;
    assert target <= q && q[|target|..] == s;
    assert source <= source + s && (source + s)[|source|..] == s;
    assert source + s in at ==> q == MovedPath(source + s, source, target);
  }

  lemma IndexUnderSource(at: map<Path, Id>, source: Path, target: Path, s: Path)
    requires Vacant(at, target) && !(source <= target)
    ensures source + s !in MovedIndex(at, source, target)
  {
    var q := source + s;
    assert source <= q;
    forall p | p in at ensures MovedPath(p, source, target) != q {
      if source <= p && target <= q {
        BothPrefixes(source, target, q);
        TargetAbove(at, source, target, p);
      }
    }
  }

  /** A vacant path is no ancestor of an existing one. */
  lemma TargetAbove(at: map<Path, Id>, source: Path, target: Path, p: Path)
    requires Vacant(at, target) && p in at && source <= p
    ensures !(target <= source)
  {
    assert target <= source ==> target <= p by {
      assert source == p[..|source|];
    }
  }

  lemma IndexElsewhere(at: map<Path, Id>, source: Path, target: Path, q: Path)
    requires Vacant(at, target) && !(source <= q) && !(target <= q)
    ensures q in MovedIndex(at, source, target) <==> q in at
    ensures q in at ==> MovedIndex(at, source, target)[q] == at[q]
  {
    assert q in at ==> q == MovedPath(q, source, target);
    assert forall s :: target <= target + s;
  }

  /** Renaming to a free name and back again restores every entry. */
  lemma RenameBack(v: map<Path, Entry>, w: map<Path, Entry>, x: map<Path, Entry>, source: Path, target: Path)
    requires Renamed(v, w, source, target) && Renamed(w, x, target, source)
    requires forall p :: p in v ==> !(target <= p)
    ensures x == v
  {
    forall q ensures (q in x <==> q in v) && (q in v ==> x[q] == v[q]) {
      if source <= q {
        var s := q[|source|..];
        assert q == source + s;
        assert target + s in w <==> source + s in v;
      } else if target <= q {
        assert q == target + q[|target|..];
      }
    }
  }
}
