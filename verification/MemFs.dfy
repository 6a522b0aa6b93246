/** The operations of the in-memory file system (src/fs_mem.c) on its node graph, each proved
    against the map from paths to entries. Paths are lists of components. */
module MemFs {
  import opened Common
  import opened MemTree
  import opened MemView

  /** What the fixed-size name and component buffers hold. */
  predicate Short(p: Path) {
    |p| <= 256 && forall i :: 0 <= i < |p| ==> |p[i]| <= 255
  }

  lemma {:induction false} WithoutAbsent(s: seq<Id>, id: Id)
    requires id !in s
    ensures Without(s, id) == s
  {
    if s != [] {
      WithoutAbsent(s[1..], id);
    }
  }

  lemma {:induction false} WithoutOne(s: seq<Id>, i: nat)
    requires i < |s| && s[i] !in s[..i] && s[i] !in s[i + 1..]
    ensures Without(s, s[i]) == s[..i] + s[i + 1..]
  {
    if i == 0 {
      WithoutAbsent(s[1..], s[0]);
    } else {
      var t := s[1..];
      assert t[..i - 1] == s[1..i] && t[i..] == s[i + 1..];
      assert s[0] == s[..i][0] && forall k :: 0 <= k < i - 1 ==> t[k] == s[..i][k + 1];
      WithoutOne(t, i - 1);
    }
  }

  /** Unhooking from a child list: the first occurrence goes. */
  method Unhook(children: seq<Id>, id: Id) returns (rest: seq<Id>)
    requires NoDup(children) && id in children
    ensures rest == Without(children, id)
  {
    var i := 0;
    while i < |children| && children[i] != id
      invariant 0 <= i <= |children| && id !in children[..i]
    {
      i := i + 1;
    }
    rest := children[..i] + children[i + 1..];
    WithoutOne(children, i);
  }

  class MemoryFs {
    var nodes: map<Id, Node>
    var next: Id                    // no node has this id or a greater one yet
    ghost var path: map<Id, Path>
    ghost var at: map<Path, Id>

    ghost predicate Valid()
      reads this
    {
      Tree(nodes, path, at) && forall id :: id in nodes ==> id < next
    }

    ghost function Entries(): map<Path, Entry>
      reads this
    {
      View(nodes, at)
    }

    constructor ()
      ensures Valid() && Entries() == map[[] := Dir]
    {
      nodes := map[ROOT := Node("", true, [], [], None)];
      next := 1;
      path := map[ROOT := []];
      at := map[[] := ROOT];
    }

    /** node_find_child. */
    method FindChild(up: Id, name: string) returns (child: Option<Id>)
      requires Valid() && up in nodes
      ensures up in path
      ensures child == if path[up] + [name] in at then Some(at[path[up] + [name]]) else None
    {
      ChildByName(nodes, path, at, up, name);
      var children := nodes[up].children;
      var i := 0;
      while i < |children|
        invariant 0 <= i <= |children|
        invariant forall k :: 0 <= k < i ==> children[k] in nodes && nodes[children[k]].name != name
      {
        assert children[i] in nodes[up].children;
        if nodes[children[i]].name == name {
          return Some(children[i]);
        }
        i := i + 1;
      }
      return None;
    }

    /** node_lookup: a node or ENOENT. */
    method Lookup(p: Path) returns (found: Option<Id>)
      requires Valid() && Short(p)
      ensures found == if p in at then Some(at[p]) else None
    {
      var cur := ROOT;
      var i := 0;
      assert p[..0] == [];
      RootIndex(nodes, path, at);
      while i < |p|
        invariant 0 <= i <= |p| && cur in nodes && p[..i] in at && at[p[..i]] == cur
      {
        Inverse(nodes, path, at, p[..i]);
        var child := FindChild(cur, p[i]);
        assert p[..i + 1] == p[..i] + [p[i]];
        if child.None? {
          Missing(nodes, path, at, p, i + 1);
          return None;
        }
        Inverse(nodes, path, at, p[..i + 1]);
        cur := child.value;
        i := i + 1;
      }
      assert p[..i] == p;
      return Some(cur);
    }

    /** node_lookup_parent. */
    method LookupParent(p: Path) returns (up: Option<Id>, err: Errno)
      requires Valid() && Short(p)
      ensures up.None? ==> ParentError(Entries(), p) == Some(err)
      ensures up.Some? ==> ParentError(Entries(), p) == None && p != []
      ensures up.Some? ==> up.value in nodes && nodes[up.value].dir && path[up.value] == p[..|p| - 1]
    {
      err := EEXIST;
      if p == [] {
        return None, EEXIST;
      }
      var cur := ROOT;
      var i := 0;
      ghost var way := p[..|p| - 1];
      assert way[..0] == [];
      RootIndex(nodes, path, at);
      while i + 1 < |p|
        invariant 0 <= i <= |way| && cur in nodes && nodes[cur].dir && way[..i] in at && at[way[..i]] == cur
        invariant WayError(Entries(), way[..i]) == None
      {
        Inverse(nodes, path, at, way[..i]);
        var child := FindChild(cur, p[i]);
        assert way[..i + 1] == way[..i] + [p[i]];
        WayStep(Entries(), way, i);
        ViewKeys(nodes, path, at);
        if child.None? {
          return None, ENOENT;
        }
        Inverse(nodes, path, at, way[..i + 1]);
        cur := child.value;
        if !nodes[cur].dir {
          return None, ENOTDIR;
        }
        i := i + 1;
      }
      assert way[..i] == way;
      Inverse(nodes, path, at, way);
      return Some(cur), err;
    }

    method Mkdir(p: Path) returns (err: Option<Errno>)
      requires Valid() && Short(p)
      modifies this
      ensures Valid() && err == MkdirError(old(Entries()), p)
      ensures Entries() == if err == None then old(Entries())[p := Dir] else old(Entries())
    {
      ViewKeys(nodes, path, at);
      var up, e := LookupParent(p);
      if up.None? {
        return Some(e);
      }
      var name := p[|p| - 1];
      assert p == path[up.value] + [name];
      var existing := FindChild(up.value, name);
      if existing.Some? {
        return Some(EEXIST);
      }
      var _ := Add(p, up.value, name, true);
      return None;
    }

    /** mem_open as far as the tree goes: creation and truncation happen before a descriptor is
        looked for, so they stay even if none is free. */
    method Open(p: Path, create: bool, truncate: bool, slotFree: bool) returns (err: Option<Errno>)
      requires Valid() && Short(p)
      modifies this
      ensures Valid()
      ensures var v := old(Entries());
        if p !in v && !create then err == Some(ENOENT) && Entries() == v
        else if p !in v && ParentError(v, p).Some? then err == ParentError(v, p) && Entries() == v
        else if p in v && v[p].Dir? then err == Some(EISDIR) && Entries() == v
        else
          && err == (if slotFree then None else Some(EMFILE))
          && Entries() == if p in v && !truncate then v else v[p := File([])]
    {
      ViewKeys(nodes, path, at);
      var found := Lookup(p);
      if found.None? && create {
        var up, e := LookupParent(p);
        if up.None? {
          return Some(e);
        }
        var id := Add(p, up.value, p[|p| - 1], false);
        found := Some(id);
      }
      if found.None? {
        return Some(ENOENT);
      }
      var id := found.value;
      Inverse(nodes, path, at, p);
      ViewKeys(nodes, path, at);
      if nodes[id].dir {
        return Some(EISDIR);
      }
      if truncate {
        DataKeeps(nodes, path, at, p, []);
        DataView(nodes, path, at, p, []);
        nodes := nodes[id := nodes[id].(data := [])];
      }
      return if slotFree then None else Some(EMFILE);
    }

    /** node_create and linking at the head of the parent's list. */
    method Add(p: Path, up: Id, name: string, dir: bool) returns (id: Id)
      requires Valid() && up in nodes && nodes[up].dir && p == path[up] + [name] && p !in at
      modifies this
      ensures Valid() && at == old(at)[p := id] && id in nodes
      ensures Entries() == old(Entries())[p := if dir then Dir else File([])]
    {
      id := next;
      var node := Node(name, dir, [], [], Some(up));
      AddKeeps(nodes, path, at, up, id, node);
      AddView(nodes, path, at, up, id, node);
      nodes := nodes[up := nodes[up].(children := [id] + nodes[up].children)];
      nodes := nodes[id := node];
      next := next + 1;
      path := path[id := p];
      at := at[p := id];
    }

    method Rmdir(p: Path) returns (err: Option<Errno>)
      requires Valid() && Short(p)
      modifies this
      ensures Valid() && err == RmdirError(old(Entries()), p)
      ensures Entries() == if err == None then old(Entries()) - {p} else old(Entries())
    {
      ViewKeys(nodes, path, at);
      var found := Lookup(p);
      if found.None? {
        return Some(ENOENT);
      }
      var id := found.value;
      Inverse(nodes, path, at, p);
      if !nodes[id].dir {
        return Some(ENOTDIR);
      }
      ChildrenMeanEntries(nodes, path, at, p);
      if nodes[id].children != [] {
        return Some(ENOTEMPTY);
      }
      if nodes[id].parent.None? {
        RootOnly(nodes, path, at, id);
        return Some(EBUSY);
      }
      RootOnly(nodes, path, at, id);
      Remove(id);
      return None;
    }

    method Unlink(p: Path) returns (err: Option<Errno>)
      requires Valid() && Short(p)
      modifies this
      ensures Valid() && err == UnlinkError(old(Entries()), p)
      ensures Entries() == if err == None then old(Entries()) - {p} else old(Entries())
    {
      ViewKeys(nodes, path, at);
      var found := Lookup(p);
      if found.None? {
        return Some(ENOENT);
      }
      var id := found.value;
      Inverse(nodes, path, at, p);
      if nodes[id].dir {
        return Some(EISDIR);
      }
      FileFacts(nodes, path, at, id);
      Remove(id);
      return None;
    }

    /** Unhook a childless node from its parent and free it. */
    method Remove(id: Id)
      requires Valid() && id in nodes && id != ROOT && nodes[id].children == []
      modifies this
      ensures Valid() && at == old(at) - {old(path)[id]} && Entries() == old(Entries()) - {old(path)[id]}
      ensures path == old(path) - {id}
      ensures forall x :: x in old(nodes) && x != id ==> x in nodes && nodes[x].dir == old(nodes)[x].dir
    {
      RemoveKeeps(nodes, path, at, id);
      RemoveView(nodes, path, at, id);
      var up := nodes[id].parent.value;
      assert NoDup(nodes[up].children) by {
        assert Unfold(0);
      }
      var rest := Unhook(nodes[up].children, id);
      nodes := nodes[up := nodes[up].(children := rest)] - {id};
      at := at - {path[id]};
      path := path - {id};
    }

    /** The walk up from the new parent that looks for the moved node. */
    method Inside(id: Id, up: Id) returns (inside: bool)
      requires Valid() && id in nodes && id != ROOT && up in nodes
      ensures inside <==> path[id] <= path[up]
    {
      NotTheRoot(nodes, path, at, id);
      var p := Some(up);
      while p.Some?
        invariant p.Some? ==> p.value in nodes && (path[id] <= path[up] <==> path[id] <= path[p.value])
        invariant p.None? ==> !(path[id] <= path[up])
        decreases if p.Some? then |path[p.value]| + 1 else 0
      {
        if p.value == id {
          return true;
        }
        UpOne(nodes, path, at, p.value, id);
        p := nodes[p.value].parent;
      }
      return false;
    }

    method Rename(source: Path, target: Path) returns (err: Option<Errno>)
      requires Valid() && Short(source) && Short(target)
      modifies this
      ensures Valid() && err == RenameError(old(Entries()), source, target)
      ensures err != None || source == target ==> Entries() == old(Entries())
      ensures err == None && source != target ==> Renamed(old(Entries()), Entries(), source, target)
    {
      ViewKeys(nodes, path, at);
      var found := Lookup(source);
      if found.None? {
        return Some(ENOENT);
      }
      var id := found.value;
      Inverse(nodes, path, at, source);
      RootOnly(nodes, path, at, id);
      if nodes[id].parent.None? {
        return Some(EBUSY);
      }
      var up, e := LookupParent(target);
      if up.None? {
        return Some(e);
      }
      var name := target[|target| - 1];
      assert target == path[up.value] + [name];
      AppendPrefix(source, path[up.value], name);
      var inside := Inside(id, up.value);
      if inside {
        return Some(EINVAL);
      }
      err := Settle(id, up.value, name);
    }

    /** Take the place of whatever file has the new name, and move there. */
    method Settle(id: Id, up: Id, name: string) returns (err: Option<Errno>)
      requires Valid() && id in nodes && id != ROOT && up in nodes && nodes[up].dir && !(path[id] <= path[up])
      modifies this
      ensures Valid()
      ensures var v, source, target := old(Entries()), old(path)[id], old(path)[up] + [name];
        source in v && err == if target in v && target != source && (v[target].Dir? || v[source].Dir?)
          then Some(EISDIR) else None
      ensures err != None || old(path)[id] == old(path)[up] + [name] ==> Entries() == old(Entries())
      ensures err == None && old(path)[id] != old(path)[up] + [name] ==>
        Renamed(old(Entries()), Entries(), old(path)[id], old(path)[up] + [name])
    {
      ghost var source, target := path[id], path[up] + [name];
      ViewKeys(nodes, path, at);
      assert source in at && at[source] == id by {
        assert Unfold(0);
      }
      var existing := FindChild(up, name);
      if existing.None? {
        Move(id, up, name);
        return None;
      }
      Inverse(nodes, path, at, target);
      if existing.value == id {
        return None;
      }
      if nodes[existing.value].dir || nodes[id].dir {
        return Some(EISDIR);
      }
      FileFacts(nodes, path, at, existing.value);
      ghost var before := Entries();
      Remove(existing.value);
      ghost var cleared := Entries();
      Move(id, up, name);
      AppendPrefix(source, old(path)[up], name);
      RenamedReplacing(before, cleared, Entries(), source, target);
      return None;
    }

    /** Unhook, rename and hook in under the new parent. */
    method Move(id: Id, up: Id, name: string)
      requires Valid() && id in nodes && id != ROOT && up in nodes && nodes[up].dir
      requires !(path[id] <= path[up]) && path[up] + [name] !in at
      modifies this
      ensures Valid() && Renamed(old(Entries()), Entries(), old(path)[id], old(path)[up] + [name])
    {
      ghost var source, target := path[id], path[up] + [name];
      MoveKeeps(nodes, path, at, id, up, name);
      VacantIfMissing(nodes, path, at, target);
      AppendPrefix(source, path[up], name);
      assert path[id] in at by {
        assert Unfold(0);
      }
      MoveView(nodes, path, at, id, up, name);
      var from := nodes[id].parent.value;
      assert NoDup(nodes[from].children) by {
        assert Unfold(0);
      }
      var rest := Unhook(nodes[from].children, id);
      nodes := Relink(nodes, from, rest);
      nodes := Relink(nodes, up, [id] + nodes[up].children);
      nodes := nodes[id := nodes[id].(name := name, parent := Some(up))];
      path := MovedPaths(path, source, target);
      at := MovedIndex(at, source, target);
    }
  }
}
