/** The node graph of the in-memory file system (src/fs_mem.c), as values: nodes hold the ids of
    their parent and children, and every node has one path. */
module MemTree {
  import opened Common

  type Id = nat
  type Path = seq<string>
  /** struct mnode; `children` in list order. */
  datatype Node = Node(name: string, dir: bool, data: seq<Byte>, children: seq<Id>, parent: Option<Id>)

  const ROOT: Id := 0

  // ---- the shape ----

  ghost predicate Rooted(nodes: map<Id, Node>, path: map<Id, Path>) {
    ROOT in nodes && nodes[ROOT].dir && nodes[ROOT].parent == None && ROOT in path && path[ROOT] == []
  }

  /** `path` and `at` are inverse to each other. */
  ghost predicate Indexed(ids: set<Id>, path: map<Id, Path>, at: map<Path, Id>) {
    path.Keys == ids && forall k {:trigger Unfold(k)} :: Unfold(k) ==>
      && (forall id :: id in path ==> path[id] in at && at[path[id]] == id)
      && (forall p :: p in at ==> at[p] in path && path[at[p]] == p)
  }

  /** Every child names its parent and lies one name below it. */
  ghost predicate Downward(nodes: map<Id, Node>, path: map<Id, Path>) {
    forall k {:trigger Unfold(k)} :: Unfold(k) ==>
      forall id, c :: id in nodes && c in nodes[id].children ==> Below(nodes, path, id, c)
  }

  ghost predicate Below(nodes: map<Id, Node>, path: map<Id, Path>, id: Id, c: Id) {
    c in nodes && nodes[c].parent == Some(id) && id in path && c in path && path[c] == path[id] + [nodes[c].name]
  }

  /** Every node but the root is among the children of a directory. */
  ghost predicate Upward(nodes: map<Id, Node>) {
    forall k {:trigger Unfold(k)} :: Unfold(k) ==>
      forall id :: id in nodes && id != ROOT ==> Hangs(nodes, id)
  }

  ghost predicate Hangs(nodes: map<Id, Node>, id: Id) {
    id in nodes && nodes[id].parent.Some? && nodes[id].parent.value in nodes &&
    nodes[nodes[id].parent.value].dir && id in nodes[nodes[id].parent.value].children
  }

  /** No child is listed twice, and files have none. */
  ghost predicate Lists(nodes: map<Id, Node>) {
    forall k {:trigger Unfold(k)} :: Unfold(k) ==>
      forall id :: id in nodes ==> NoDup(nodes[id].children) && (!nodes[id].dir ==> nodes[id].children == [])
  }

  ghost predicate Tree(nodes: map<Id, Node>, path: map<Id, Path>, at: map<Path, Id>) {
    Rooted(nodes, path) && Indexed(nodes.Keys, path, at) && Downward(nodes, path) && Upward(nodes) && Lists(nodes)
  }

  // ---- consequences ----

  /** The parent of the node at a path is the node at the parent path. */
  lemma Above(nodes: map<Id, Node>, path: map<Id, Path>, at: map<Path, Id>, p: Path)
    requires Tree(nodes, path, at) && p in at && p != []
    ensures at[p] in nodes && at[p] != ROOT
    ensures p[..|p| - 1] in at && nodes[at[p]].parent == Some(at[p[..|p| - 1]])
    ensures at[p[..|p| - 1]] in nodes && nodes[at[p[..|p| - 1]]].dir && at[p] in nodes[at[p[..|p| - 1]]].children
    ensures nodes[at[p]].name == p[|p| - 1]
  {
    assert Unfold(0);
    var id := at[p];
    assert Hangs(nodes, id);
    var up := nodes[id].parent.value;
    assert Below(nodes, path, up, id);
    assert path[up] == p[..|p| - 1];
  }

  /** Every prefix of an existing path exists, and a proper one is a directory. */
  lemma {:induction false} Prefixes(nodes: map<Id, Node>, path: map<Id, Path>, at: map<Path, Id>, p: Path, k: nat)
    requires Tree(nodes, path, at) && p in at && k <= |p|
    ensures p[..k] in at && at[p[..k]] in nodes && (k < |p| ==> nodes[at[p[..k]]].dir)
    decreases |p|
  {
    if k == |p| {
      assert Unfold(0);
      assert p[..k] == p;
    } else {
      Above(nodes, path, at, p);
      var up := p[..|p| - 1];
      Prefixes(nodes, path, at, up, k);
      assert up[..k] == p[..k];
    }
  }

  /** Siblings have different names. */
  lemma SiblingNames(nodes: map<Id, Node>, path: map<Id, Path>, at: map<Path, Id>, id: Id, i: nat, k: nat)
    requires Tree(nodes, path, at) && id in nodes && i < k < |nodes[id].children|
    ensures nodes[id].children[i] in nodes && nodes[id].children[k] in nodes
    ensures nodes[nodes[id].children[i]].name != nodes[nodes[id].children[k]].name
  {
    assert Unfold(0);
    var a, b := nodes[id].children[i], nodes[id].children[k];
    assert Below(nodes, path, id, a) && Below(nodes, path, id, b);
    assert a != b;
  }

  /** The children of a node hold one with a given name exactly if that path exists. */
  lemma ChildByName(nodes: map<Id, Node>, path: map<Id, Path>, at: map<Path, Id>, up: Id, name: string)
    requires Tree(nodes, path, at) && up in nodes
    ensures up in path && forall c :: c in nodes[up].children ==> c in nodes
    ensures forall c :: c in nodes[up].children && nodes[c].name == name ==>
      path[up] + [name] in at && at[path[up] + [name]] == c
    ensures path[up] + [name] in at ==>
      var c := at[path[up] + [name]]; c in nodes[up].children && c in nodes && nodes[c].name == name
  {
    assert Unfold(0);
    var p := path[up] + [name];
    forall c | c in nodes[up].children ensures c in nodes && (nodes[c].name == name ==> p in at && at[p] == c) {
      assert Below(nodes, path, up, c);
    }
    if p in at {
      Above(nodes, path, at, p);
      assert p[..|p| - 1] == path[up];
    }
  }

  lemma Inverse(nodes: map<Id, Node>, path: map<Id, Path>, at: map<Path, Id>, p: Path)
    requires Tree(nodes, path, at) && p in at
    ensures at[p] in nodes && at[p] in path && path[at[p]] == p
  {
    assert Unfold(0);
  }

  lemma RootIndex(nodes: map<Id, Node>, path: map<Id, Path>, at: map<Path, Id>)
    requires Tree(nodes, path, at)
    ensures [] in at && at[[]] == ROOT
  {
    assert Unfold(0);
    assert path[ROOT] in at;
  }

  lemma Missing(nodes: map<Id, Node>, path: map<Id, Path>, at: map<Path, Id>, p: Path, k: nat)
    requires Tree(nodes, path, at) && k <= |p| && p[..k] !in at
    ensures p !in at
  {
    if p in at {
      Prefixes(nodes, path, at, p, k);
    }
  }

  lemma RootOnly(nodes: map<Id, Node>, path: map<Id, Path>, at: map<Path, Id>, id: Id)
    requires Tree(nodes, path, at) && id in nodes
    ensures nodes[id].parent.None? <==> id == ROOT
    ensures path[id] == [] <==> id == ROOT
  {
    assert Unfold(0);
    assert at[path[id]] == id && at[path[ROOT]] == ROOT;
    assert id != ROOT ==> Hangs(nodes, id);
  }

  lemma FileFacts(nodes: map<Id, Node>, path: map<Id, Path>, at: map<Path, Id>, id: Id)
    requires Tree(nodes, path, at) && id in nodes && !nodes[id].dir
    ensures id != ROOT && nodes[id].children == []
  {
    assert Unfold(0);
  }

  lemma UpOne(nodes: map<Id, Node>, path: map<Id, Path>, at: map<Path, Id>, id: Id, other: Id)
    requires Tree(nodes, path, at) && id in nodes && other in nodes && id != other && other != ROOT
    ensures nodes[id].parent.None? ==> !(path[other] <= path[id])
    ensures nodes[id].parent.Some? ==> var up := nodes[id].parent.value;
      up in nodes && |path[up]| < |path[id]| && (path[other] <= path[id] <==> path[other] <= path[up])
  {
    RootOnly(nodes, path, at, id);
    NotTheRoot(nodes, path, at, other);
    assert path[id] != path[other] by {
      assert Unfold(0);
      assert at[path[id]] == id && at[path[other]] == other;
    }
    if id != ROOT {
      assert path[id] in at && at[path[id]] == id by {
        assert Unfold(0);
      }
      Above(nodes, path, at, path[id]);
      var q := path[id];
      var p := q[..|q| - 1];
      Inverse(nodes, path, at, p);
      assert q == p + [q[|q| - 1]];
      AppendPrefix(path[other], p, q[|q| - 1]);
    }
  }

  lemma DataKeeps(nodes: map<Id, Node>, path: map<Id, Path>, at: map<Path, Id>, p: Path, data: seq<Byte>)
    requires Tree(nodes, path, at) && p in at && at[p] in nodes
    ensures Tree(nodes[at[p] := nodes[at[p]].(data := data)], path, at)
  {
    var nodes' := nodes[at[p] := nodes[at[p]].(data := data)];
    DataDownward(nodes, path, at[p], data);
    DataUpward(nodes, at[p], data);
    DataRest(nodes, path, at[p], data);
    assert nodes'.Keys == nodes.Keys;
  }

  lemma DataDownward(nodes: map<Id, Node>, path: map<Id, Path>, id: Id, data: seq<Byte>)
    requires Downward(nodes, path) && id in nodes
    ensures Downward(nodes[id := nodes[id].(data := data)], path)
  {
    assert Unfold(0);
    var nodes' := nodes[id := nodes[id].(data := data)];
    forall x, c | x in nodes' && c in nodes'[x].children ensures Below(nodes', path, x, c) {
      assert Below(nodes, path, x, c);
    }
  }

  lemma DataUpward(nodes: map<Id, Node>, id: Id, data: seq<Byte>)
    requires Upward(nodes) && id in nodes
    ensures Upward(nodes[id := nodes[id].(data := data)])
  {
    assert Unfold(0);
    var nodes' := nodes[id := nodes[id].(data := data)];
    forall x | x in nodes' && x != ROOT ensures Hangs(nodes', x) {
      assert Hangs(nodes, x);
    }
  }

  lemma DataRest(nodes: map<Id, Node>, path: map<Id, Path>, id: Id, data: seq<Byte>)
    requires Rooted(nodes, path) && Lists(nodes) && id in nodes
    ensures Rooted(nodes[id := nodes[id].(data := data)], path) && Lists(nodes[id := nodes[id].(data := data)])
  {
    assert Unfold(0);
  }

  /** Climbing n parents from a node. */
  function Climb(nodes: map<Id, Node>, id: Id, n: nat): Option<Id>
    decreases n
  {
    if n == 0 then Some(id)
    else if id in nodes && nodes[id].parent.Some? then Climb(nodes, nodes[id].parent.value, n - 1)
    else None
  }

  /** No cycle: from every node the root is reached in as many steps as the path has names. */
  lemma {:induction false} RootReached(nodes: map<Id, Node>, path: map<Id, Path>, at: map<Path, Id>, id: Id)
    requires Tree(nodes, path, at) && id in nodes
    ensures Climb(nodes, id, |path[id]|) == Some(ROOT)
    decreases |path[id]|
  {
    assert Unfold(0);
    if path[id] != [] {
      Above(nodes, path, at, path[id]);
      RootReached(nodes, path, at, nodes[id].parent.value);
    } else {
      assert at[path[id]] == id && at[path[ROOT]] == ROOT;
    }
  }

  // ---- linking and unlinking a node ----

  /** The children of `id` become `children`. */
  function Relink(nodes: map<Id, Node>, id: Id, children: seq<Id>): map<Id, Node>
    requires id in nodes
  {
    nodes[id := nodes[id].(children := children)]
  }

  function Added(nodes: map<Id, Node>, up: Id, id: Id, node: Node): map<Id, Node>
    requires up in nodes
  {
    Relink(nodes, up, [id] + nodes[up].children)[id := node]
  }

  lemma AddKeeps(nodes: map<Id, Node>, path: map<Id, Path>, at: map<Path, Id>, up: Id, id: Id, node: Node)
    requires Tree(nodes, path, at) && up in nodes && nodes[up].dir && id !in nodes
    requires node.parent == Some(up) && node.children == [] && path[up] + [node.name] !in at
    ensures var p := path[up] + [node.name];
      Tree(Added(nodes, up, id, node), path[id := p], at[p := id])
  {
    var p := path[up] + [node.name];
    AddIndexed(nodes.Keys, path, at, id, p);
    AddDownward(nodes, path, up, id, node);
    AddUpward(nodes, path, up, id, node);
    AddLists(nodes, path, up, id, node);
    assert Added(nodes, up, id, node).Keys == nodes.Keys + {id};
  }

  lemma AddIndexed(ids: set<Id>, path: map<Id, Path>, at: map<Path, Id>, id: Id, p: Path)
    requires Indexed(ids, path, at) && id !in ids && p !in at
    ensures Indexed(ids + {id}, path[id := p], at[p := id])
  {
    assert Unfold(0);
  }

  lemma AddDownward(nodes: map<Id, Node>, path: map<Id, Path>, up: Id, id: Id, node: Node)
    requires Downward(nodes, path) && up in nodes && id !in nodes && path.Keys == nodes.Keys
    requires node.parent == Some(up) && node.children == []
    ensures Downward(Added(nodes, up, id, node), path[id := path[up] + [node.name]])
  {
    assert Unfold(0);
    var nodes', path' := Added(nodes, up, id, node), path[id := path[up] + [node.name]];
    forall x, c | x in nodes' && c in nodes'[x].children ensures Below(nodes', path', x, c) {
      if c != id {
        assert Below(nodes, path, x, c);
      }
    }
  }

  lemma AddUpward(nodes: map<Id, Node>, path: map<Id, Path>, up: Id, id: Id, node: Node)
    requires Upward(nodes) && up in nodes && nodes[up].dir && id !in nodes && node.parent == Some(up)
    ensures Upward(Added(nodes, up, id, node))
  {
    assert Unfold(0);
    var nodes' := Added(nodes, up, id, node);
    forall x | x in nodes' && x != ROOT ensures Hangs(nodes', x) {
      if x != id {
        assert Hangs(nodes, x);
      }
    }
  }

  lemma AddLists(nodes: map<Id, Node>, path: map<Id, Path>, up: Id, id: Id, node: Node)
    requires Lists(nodes) && Downward(nodes, path) && up in nodes && nodes[up].dir && id !in nodes
    requires node.children == []
    ensures Lists(Added(nodes, up, id, node))
  {
    assert Unfold(0);
    assert id in nodes[up].children ==> Below(nodes, path, up, id);
  }

  function Removed(nodes: map<Id, Node>, id: Id): map<Id, Node>
    requires Hangs(nodes, id)
  {
    var up := nodes[id].parent.value;
    Relink(nodes, up, Without(nodes[up].children, id)) - {id}
  }

  lemma RemoveKeeps(nodes: map<Id, Node>, path: map<Id, Path>, at: map<Path, Id>, id: Id)
    requires Tree(nodes, path, at) && id in nodes && id != ROOT && nodes[id].children == []
    ensures Hangs(nodes, id) && Tree(Removed(nodes, id), path - {id}, at - {path[id]})
  {
    assert Hangs(nodes, id) by {
      assert Unfold(0);
    }
    RemoveIndexed(nodes.Keys, path, at, id);
    RemoveDownward(nodes, path, id);
    RemoveUpward(nodes, id);
    RemoveLists(nodes, id);
    assert Removed(nodes, id).Keys == nodes.Keys - {id};
    assert Removed(nodes, id)[ROOT].dir;
  }

  lemma RemoveIndexed(ids: set<Id>, path: map<Id, Path>, at: map<Path, Id>, id: Id)
    requires Indexed(ids, path, at) && id in ids
    ensures Indexed(ids - {id}, path - {id}, at - {path[id]})
  {
    assert Unfold(0);
  }

  lemma RemoveDownward(nodes: map<Id, Node>, path: map<Id, Path>, id: Id)
    requires Downward(nodes, path) && Hangs(nodes, id)
    ensures Downward(Removed(nodes, id), path - {id})
  {
    assert Unfold(0);
    var up, nodes' := nodes[id].parent.value, Removed(nodes, id);
    WithoutFacts(nodes[up].children, id);
    forall x, c | x in nodes' && c in nodes'[x].children ensures Below(nodes', path - {id}, x, c) {
      assert Below(nodes, path, x, c);
    }
  }

  lemma RemoveUpward(nodes: map<Id, Node>, id: Id)
    requires Upward(nodes) && Hangs(nodes, id) && nodes[id].children == []
    ensures Upward(Removed(nodes, id))
  {
    assert Unfold(0);
    var up, nodes' := nodes[id].parent.value, Removed(nodes, id);
    WithoutFacts(nodes[up].children, id);
    forall x | x in nodes' && x != ROOT ensures Hangs(nodes', x) {
      assert Hangs(nodes, x);
    }
  }

  lemma RemoveLists(nodes: map<Id, Node>, id: Id)
    requires Lists(nodes) && Hangs(nodes, id)
    ensures Lists(Removed(nodes, id))
  {
    assert Unfold(0);
    WithoutFacts(nodes[nodes[id].parent.value].children, id);
  }

  // ---- moving a subtree ----

  /** A node unhooked from its parent, renamed and hooked in under `up`. */
  function Moved(nodes: map<Id, Node>, id: Id, up: Id, name: string): map<Id, Node>
    requires Hangs(nodes, id) && up in nodes && up != id
  {
    var from := nodes[id].parent.value;
    var unhooked := Relink(nodes, from, Without(nodes[from].children, id));
    var hooked := Relink(unhooked, up, [id] + unhooked[up].children);
    hooked[id := hooked[id].(name := name, parent := Some(up))]
  }

  function MovedPath(p: Path, source: Path, target: Path): Path {
    if source <= p then target + p[|source|..] else p
  }

  function MovedPaths(path: map<Id, Path>, source: Path, target: Path): map<Id, Path> {
    map id | id in path :: MovedPath(path[id], source, target)
  }

  /** No existing path starts with `target`. */
  ghost predicate Vacant(at: map<Path, Id>, target: Path) {
    forall p :: p in at ==> !(target <= p)
  }

  function MovedIndex(at: map<Path, Id>, source: Path, target: Path): map<Path, Id> {
    map q | q in (set p | p in at :: MovedPath(p, source, target)) && MovedPath(q, target, source) in at
      :: at[MovedPath(q, target, source)]
  }

  lemma MovedBack(p: Path, source: Path, target: Path)
    requires !(target <= p)
    ensures MovedPath(MovedPath(p, source, target), target, source) == p
  {
    if source <= p {
      var q := target + p[|source|..];
      assert target <= q && q[|target|..] == p[|source|..];
      assert p == source + p[|source|..];
    }
  }

  lemma MoveKeeps(nodes: map<Id, Node>, path: map<Id, Path>, at: map<Path, Id>, id: Id, up: Id, name: string)
    requires Tree(nodes, path, at) && id in nodes && id != ROOT && up in nodes && nodes[up].dir
    requires !(path[id] <= path[up]) && path[up] + [name] !in at
    ensures Hangs(nodes, id) && up != id
    ensures var source, target := path[id], path[up] + [name];
      Tree(Moved(nodes, id, up, name), MovedPaths(path, source, target), MovedIndex(at, source, target))
  {
    assert Hangs(nodes, id) by {
      assert Unfold(0);
    }
    var source, target := path[id], path[up] + [name];
    NotTheRoot(nodes, path, at, id);
    VacantIfMissing(nodes, path, at, target);
    MoveIndexed(nodes.Keys, path, at, source, target);
    MoveDownward(nodes, path, at, id, up, name);
    MoveUpward(nodes, id, up, name);
    MoveLists(nodes, path, id, up, name);
    assert Moved(nodes, id, up, name).Keys == nodes.Keys;
  }

  lemma NotTheRoot(nodes: map<Id, Node>, path: map<Id, Path>, at: map<Path, Id>, id: Id)
    requires Rooted(nodes, path) && Indexed(nodes.Keys, path, at) && id in nodes && id != ROOT
    ensures path[id] != []
  {
    assert Unfold(0);
    assert at[path[id]] == id;
  }

  lemma VacantIfMissing(nodes: map<Id, Node>, path: map<Id, Path>, at: map<Path, Id>, target: Path)
    requires Tree(nodes, path, at) && target !in at
    ensures Vacant(at, target)
  {
    forall p | p in at ensures !(target <= p) {
      if target <= p {
        assert p[..|target|] == target;
        Prefixes(nodes, path, at, p, |target|);
      }
    }
  }

  lemma MoveIndexed(ids: set<Id>, path: map<Id, Path>, at: map<Path, Id>, source: Path, target: Path)
    requires Indexed(ids, path, at) && Vacant(at, target)
    ensures Indexed(ids, MovedPaths(path, source, target), MovedIndex(at, source, target))
  {
    assert Unfold(0);
    var path', at' := MovedPaths(path, source, target), MovedIndex(at, source, target);
    forall id | id in path' ensures path'[id] in at' && at'[path'[id]] == id {
      MovedBack(path[id], source, target);
      assert path[id] in at;
    }
    forall q | q in at' ensures at'[q] in path' && path'[at'[q]] == q {
      var p :| p in at && q == MovedPath(p, source, target);
      MovedBack(p, source, target);
    }
  }

  lemma MoveDownward(nodes: map<Id, Node>, path: map<Id, Path>, at: map<Path, Id>, id: Id, up: Id, name: string)
    requires Downward(nodes, path) && Indexed(nodes.Keys, path, at) && Hangs(nodes, id)
    requires up in nodes && !(path[id] <= path[up])
    ensures Downward(Moved(nodes, id, up, name), MovedPaths(path, path[id], path[up] + [name]))
  {
    assert Unfold(0);
    var source, target, from := path[id], path[up] + [name], nodes[id].parent.value;
    var nodes', path' := Moved(nodes, id, up, name), MovedPaths(path, source, target);
    WithoutFacts(nodes[from].children, id);
    forall x, c | x in nodes' && c in nodes'[x].children ensures Below(nodes', path', x, c) {
      if c != id {
        assert Below(nodes, path, x, c);
        ChildMoves(path[x], path[c], nodes[c].name, source, target, at[source] == c);
      } else {
        assert id in nodes[x].children ==> Below(nodes, path, x, id);
        assert x == up;
        assert path'[id] == target + [];
      }
    }
  }

  /** A child other than the moved node itself moves exactly if its parent does. */
  lemma ChildMoves(p: Path, c: Path, name: string, source: Path, target: Path, moved: bool)
    requires c == p + [name] && (c == source <==> moved)
    ensures !moved ==> MovedPath(c, source, target) == MovedPath(p, source, target) + [name]
  {
    AppendPrefix(source, p, name);
    if source <= p {
      assert c[|source|..] == p[|source|..] + [name];
    }
  }

  lemma AppendPrefix(source: Path, p: Path, name: string)
    ensures source <= p + [name] <==> source <= p || source == p + [name]
  {
    if |source| <= |p| {
      assert (p + [name])[..|source|] == p[..|source|];
    }
  }

  lemma MoveUpward(nodes: map<Id, Node>, id: Id, up: Id, name: string)
    requires Upward(nodes) && Hangs(nodes, id) && up in nodes && nodes[up].dir && up != id
    ensures Upward(Moved(nodes, id, up, name))
  {
    var nodes' := Moved(nodes, id, up, name);
    forall x | x in nodes' && x != ROOT ensures Hangs(nodes', x) {
      assert Hangs(nodes, x) by {
        assert Unfold(0);
      }
      MoveHangs(nodes, id, up, name, x);
    }
  }

  lemma MoveHangs(nodes: map<Id, Node>, id: Id, up: Id, name: string, x: Id)
    requires Hangs(nodes, id) && up in nodes && nodes[up].dir && up != id && Hangs(nodes, x)
    ensures Hangs(Moved(nodes, id, up, name), x)
  {
    var from, nodes' := nodes[id].parent.value, Moved(nodes, id, up, name);
    WithoutFacts(nodes[from].children, id);
    if x != id {
      var above := nodes[x].parent.value;
      assert x in nodes'[above].children;
    }
  }

  lemma MoveLists(nodes: map<Id, Node>, path: map<Id, Path>, id: Id, up: Id, name: string)
    requires Lists(nodes) && Downward(nodes, path) && Hangs(nodes, id) && up in nodes && nodes[up].dir && up != id
    ensures Lists(Moved(nodes, id, up, name))
  {
    assert Unfold(0);
    var from := nodes[id].parent.value;
    WithoutFacts(nodes[from].children, id);
    assert id in nodes[up].children ==> Below(nodes, path, up, id);
  }
}
