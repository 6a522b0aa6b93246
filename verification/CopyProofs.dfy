/** The walk of a tree copy, one step at a time. */
module CopyProofs {
  import opened Common
  import opened CopySpec

  /** Between two steps of the walk. */
  ghost predicate Progress(was: Files, fs: Files, src: Path, dst: Path, done: set<Path>, todo: set<Path>) {
    forall k {:trigger Unfold(k)} :: Unfold(k) ==>
      && WellFormed(fs) && Safe(was, fs, src, dst)
      && Walk(Rels(was, src), done, todo) && Copied(was, fs, src, dst, done) && Traced(was, fs, dst, done)
  }

  /** Whatever is new at the destination has been handled. */
  ghost predicate Traced(was: Files, fs: Files, dst: Path, done: set<Path>) {
    forall rel :: TracedAt(was, fs, dst, done, rel)
  }

  ghost predicate TracedAt(was: Files, fs: Files, dst: Path, done: set<Path>, rel: Path) {
    dst + rel in fs && dst + rel !in was ==> rel in done
  }

  /** What holds from beginning to end. */
  ghost predicate Task(was: Files, src: Path, dst: Path) {
    WellFormed(was) && IsDir(was, src) && Apart(was, src, dst) && Plain(was, src, dst)
  }

  lemma ProgressSafe(was: Files, fs: Files, src: Path, dst: Path, done: set<Path>, todo: set<Path>)
    requires Progress(was, fs, src, dst, done, todo)
    ensures WellFormed(fs) && Safe(was, fs, src, dst)
  {
    assert Unfold(0);
  }

  lemma {:induction false} PrefixExists(fs: Files, p: Path, k: nat)
    requires WellFormed(fs) && p in fs && k <= |p|
    ensures p[..k] in fs && (k < |p| ==> fs[p[..k]].Dir?)
    decreases |p|
  {
    if k == |p| {
      assert p[..k] == p;
    } else {
      var up := p[..|p| - 1];
      assert Seated(fs, p);
      PrefixExists(fs, up, k);
      assert up[..k] == p[..k];
    }
  }

  /** The source itself is untouched. */
  lemma SourceKept(was: Files, fs: Files, src: Path, dst: Path, rel: Path)
    requires WellFormed(was) && Safe(was, fs, src, dst) && Apart(was, src, dst)
    ensures src + rel in fs <==> src + rel in was
    ensures src + rel in was ==> fs[src + rel] == was[src + rel]
  {
    var p := src + rel;
    assert SafeAt(was, fs, src, dst, p);
    if dst <= p {
      assert src <= p;
      BothPrefixes(src, dst, p);
      NothingInside(was, src, dst, rel);
    }
  }

  lemma NothingInside(was: Files, src: Path, dst: Path, rel: Path)
    requires WellFormed(was) && Apart(was, src, dst) && dst <= src
    ensures src + (src + rel)[|dst|..] !in was
  {
    var s := src[|dst|..];
    var q := src + (src + rel)[|dst|..];
    assert q[..|src| + |s|] == src + s;
    if q in was {
      PrefixExists(was, q, |src| + |s|);
    }
  }

  lemma RelsClosed(was: Files, src: Path)
    requires WellFormed(was)
    ensures Closed(Rels(was, src))
  {
    forall rel, k ensures PrefixIn(Rels(was, src), rel, k) {
      if rel in Rels(was, src) && 0 <= k <= |rel| {
        RelsMeaning(was, src, rel);
        RelsMeaning(was, src, rel[..k]);
        PrefixExists(was, src + rel, |src| + k);
        assert (src + rel)[..|src| + k] == src + rel[..k];
      }
    }
  }

  lemma ProgressStart(was: Files, src: Path, dst: Path)
    requires Task(was, src, dst)
    ensures Progress(was, was, src, dst, {}, {[]})
  {
    RelsMeaning(was, src, []);
    assert src + [] == src;
    WalkStart(Rels(was, src));
    assert Safe(was, was, src, dst) && Copied(was, was, src, dst, {}) && Traced(was, was, dst, {});
  }

  // ---- putting one entry at the destination ----

  lemma Different(dst: Path, a: Path, b: Path)
    ensures dst + a == dst + b <==> a == b
  {
    assert (dst + a)[|dst|..] == a && (dst + b)[|dst|..] == b;
  }

  lemma PutSafe(was: Files, fs: Files, src: Path, dst: Path, rel: Path, e: Entry)
    requires Safe(was, fs, src, dst) && src + rel in was && !was[src + rel].Special?
    requires dst + rel !in fs ==> e == was[src + rel]
    requires dst + rel in fs ==>
      dst + rel in was && fs[dst + rel].File? && e.File? && was[src + rel].File? && e.data <= was[src + rel].data
    ensures Safe(was, fs[dst + rel := e], src, dst)
  {
    var p := dst + rel;
    var now := fs[p := e];
    assert dst <= p && p[|dst|..] == rel;
    forall q ensures SafeAt(was, now, src, dst, q) {
      assert SafeAt(was, fs, src, dst, q);
    }
  }

  lemma PutWellFormed(fs: Files, p: Path, e: Entry)
    requires WellFormed(fs) && (p in fs ==> !fs[p].Dir?) && (p !in fs ==> p != [] && IsDir(fs, p[..|p| - 1]))
    ensures WellFormed(fs[p := e])
  {
    var now := fs[p := e];
    forall q ensures Seated(now, q) {
      assert Seated(fs, q);
    }
  }

  lemma PutCopied(was: Files, fs: Files, src: Path, dst: Path, done: set<Path>, rel: Path, e: Entry)
    requires Copied(was, fs, src, dst, done) && Traced(was, fs, dst, done)
    requires rel !in done && src + rel in was && e == was[src + rel]
    ensures Copied(was, fs[dst + rel := e], src, dst, done + {rel}) && Traced(was, fs[dst + rel := e], dst, done + {rel})
  {
    var now := fs[dst + rel := e];
    forall r | r in done + {rel} ensures CopiedAt(was, now, src, dst, r) {
      if r != rel {
        assert CopiedAt(was, fs, src, dst, r);
        Different(dst, r, rel);
      }
    }
    forall r ensures TracedAt(was, now, dst, done + {rel}, r) {
      assert TracedAt(was, fs, dst, done, r);
      Different(dst, r, rel);
    }
  }

  lemma SameCopied(was: Files, fs: Files, src: Path, dst: Path, done: set<Path>, rel: Path)
    requires Copied(was, fs, src, dst, done) && Traced(was, fs, dst, done)
    requires CopiedAt(was, fs, src, dst, rel)
    ensures Copied(was, fs, src, dst, done + {rel}) && Traced(was, fs, dst, done + {rel})
  {
    forall r ensures TracedAt(was, fs, dst, done + {rel}, r) {
      assert TracedAt(was, fs, dst, done, r);
    }
  }

  // ---- entering a directory ----

  /** The destination directory is there or has been made. */
  ghost predicate Made(fs: Files, now: Files, p: Path) {
    if p in fs then now == fs else now == fs[p := Dir] && p != [] && IsDir(fs, p[..|p| - 1])
  }

  lemma EnterKeeps(was: Files, fs: Files, now: Files, src: Path, dst: Path, done: set<Path>, todo: set<Path>, d: Path)
    requires Task(was, src, dst) && Progress(was, fs, src, dst, done, todo)
    requires d in todo && IsDir(was, src + d) && Made(fs, now, dst + d)
    ensures Progress(was, now, src, dst, done + {d}, todo - {d} + ChildTops(Rels(was, src), d)) && d !in done
  {
    assert Unfold(0);
    RelsClosed(was, src);
    WalkInto(Rels(was, src), done, todo, d);
    if dst + d in fs {
      SameCopied(was, fs, src, dst, done, d);
    } else {
      PutSafe(was, fs, src, dst, d, Dir);
      PutWellFormed(fs, dst + d, Dir);
      PutCopied(was, fs, src, dst, done, d, Dir);
    }
  }

  // ---- leaves ----

  lemma FileKeeps(was: Files, fs: Files, src: Path, dst: Path, done: set<Path>, todo: set<Path>, rel: Path)
    requires Task(was, src, dst) && Progress(was, fs, src, dst, done, todo) && rel in todo
    requires src + rel in was && was[src + rel].File? && !Unfit(fs, src + rel, dst + rel)
    ensures Progress(was, fs[dst + rel := was[src + rel]], src, dst, done + {rel}, todo - {rel}) && rel !in done
  {
    assert Unfold(0);
    LeafAlone(was, src, rel);
    WalkLeaf(Rels(was, src), done, todo, rel);
    var e := was[src + rel];
    assert TracedAt(was, fs, dst, done, rel);
    PutSafe(was, fs, src, dst, rel, e);
    PutWellFormed(fs, dst + rel, e);
    PutCopied(was, fs, src, dst, done, rel, e);
  }

  /** Only directories have anything below them. */
  lemma LeafAlone(was: Files, src: Path, rel: Path)
    requires WellFormed(was) && src + rel in was && !was[src + rel].Dir?
    ensures forall r :: r in Rels(was, src) && rel <= r ==> r == rel
  {
    forall r | r in Rels(was, src) && rel <= r ensures r == rel {
      RelsMeaning(was, src, r);
      assert (src + r)[..|src| + |rel|] == src + rel;
      PrefixExists(was, src + r, |src| + |rel|);
    }
  }

  lemma SpecialKeeps(was: Files, fs: Files, src: Path, dst: Path, done: set<Path>, todo: set<Path>, rel: Path)
    requires Task(was, src, dst) && Progress(was, fs, src, dst, done, todo) && rel in todo
    requires src + rel in was && was[src + rel].Special?
    ensures Progress(was, fs, src, dst, done + {rel}, todo - {rel}) && rel !in done
  {
    assert Unfold(0);
    LeafAlone(was, src, rel);
    WalkLeaf(Rels(was, src), done, todo, rel);
    SameCopied(was, fs, src, dst, done, rel);
  }

  // ---- what goes wrong ----

  /** A file copy that stopped leaves the walk safe. */
  lemma TouchedSafe(was: Files, fs: Files, now: Files, src: Path, dst: Path, done: set<Path>, todo: set<Path>, rel: Path)
    requires Task(was, src, dst) && Progress(was, fs, src, dst, done, todo) && rel in todo
    requires Touched(fs, now, src + rel, dst + rel)
    ensures WellFormed(now) && Safe(was, now, src, dst)
  {
    assert Unfold(0);
    SourceKept(was, fs, src, dst, rel);
    assert TracedAt(was, fs, dst, done, rel);
    if now != fs {
      PutSafe(was, fs, src, dst, rel, now[dst + rel]);
      PutWellFormed(fs, dst + rel, now[dst + rel]);
    }
  }

  /** A directory that was handled but is no directory at the destination was a file there. */
  lemma NotMade(was: Files, fs: Files, src: Path, dst: Path, done: set<Path>, todo: set<Path>, d: Path)
    requires Task(was, src, dst) && Progress(was, fs, src, dst, done, todo)
    requires d in done && IsDir(was, src + d) && !IsDir(fs, dst + d)
    ensures dst + d in was && was[dst + d].File?
  {
    assert Unfold(0);
    var p := dst + d;
    assert dst <= p && p[|dst|..] == d;
    assert CopiedAt(was, fs, src, dst, d) && SafeAt(was, fs, src, dst, p) && PlainAt(was, src, dst, d);
  }

  lemma MkdirRefused(was: Files, fs: Files, src: Path, dst: Path, done: set<Path>, todo: set<Path>, d: Path)
    requires Task(was, src, dst) && Progress(was, fs, src, dst, done, todo) && d in todo && IsDir(was, src + d)
    requires NoPlace(fs, dst + d)
    ensures Blocked(was, src, dst)
  {
    if d == [] {
      assert Unfold(0);
      assert dst + d == dst && SafeAt(was, fs, src, dst, dst);
      if dst != [] {
        assert SafeAt(was, fs, src, dst, dst[..|dst| - 1]);
      }
    } else {
      var up := d[..|d| - 1];
      assert up in done && IsDir(was, src + up) by {
        assert Unfold(0);
        UpDone(was, src, done, todo, d);
      }
      assert (dst + d)[..|dst + d| - 1] == dst + up;
      NotMade(was, fs, src, dst, done, todo, up);
      assert BlockedAt(was, src, dst, d);
    }
  }

  lemma UpDone(was: Files, src: Path, done: set<Path>, todo: set<Path>, d: Path)
    requires WellFormed(was) && Walk(Rels(was, src), done, todo) && d in todo && d != [] && src + d in was
    ensures d[..|d| - 1] in done && IsDir(was, src + d[..|d| - 1])
  {
    var up := d[..|d| - 1];
    assert (src + d)[..|src + d| - 1] == src + up;
    assert Seated(was, src + d);
    RelsMeaning(was, src, up);
    if up !in done {
      assert HasTop(todo, up);
      var top :| top in todo && top <= up;
      Through(top, up, d);
    }
  }

  lemma FileRefused(was: Files, fs: Files, src: Path, dst: Path, done: set<Path>, todo: set<Path>, rel: Path)
    requires Task(was, src, dst) && Progress(was, fs, src, dst, done, todo) && rel in todo && rel != []
    requires src + rel in was && was[src + rel].File? && Unfit(fs, src + rel, dst + rel)
    ensures Blocked(was, src, dst)
  {
    var p := dst + rel;
    assert dst <= p && p[|dst|..] == rel;
    assert src + rel in fs && fs[src + rel].File? by {
      assert Unfold(0);
      SourceKept(was, fs, src, dst, rel);
    }
    if p in fs {
      assert Unfold(0);
      assert SafeAt(was, fs, src, dst, p) && PlainAt(was, src, dst, rel);
      assert BlockedAt(was, src, dst, rel);
    } else {
      var up := rel[..|rel| - 1];
      assert up in done && IsDir(was, src + up) by {
        assert Unfold(0);
        UpDone(was, src, done, todo, rel);
      }
      assert p[..|p| - 1] == dst + up;
      NotMade(was, fs, src, dst, done, todo, up);
      assert BlockedAt(was, src, dst, rel);
    }
  }

  // ---- the stack of pending directories ----

  ghost function StackRels(stack: seq<Pending>): set<Path> {
    set i | 0 <= i < |stack| :: stack[i].rel
  }

  /** Pending directories are source directories, not too deep, and each is there once. */
  ghost predicate Listed(was: Files, src: Path, stack: seq<Pending>) {
    && (forall i :: 0 <= i < |stack| ==> Enterable(was, src, stack[i]))
    && (forall i, k :: 0 <= i < k < |stack| ==> stack[i].rel != stack[k].rel)
  }

  ghost predicate Enterable(was: Files, src: Path, d: Pending) {
    IsDir(was, src + d.rel) && d.depth == |d.rel| && d.depth < MAX_DEPTH && RelLength(d.rel) < MAX_PATH
  }

  ghost predicate Stacked(was: Files, src: Path, stack: seq<Pending>, todo: set<Path>) {
    Listed(was, src, stack) && todo == StackRels(stack)
  }

  /** While a directory is read: what is left is the stack and the names not read yet. */
  ghost predicate Front(was: Files, src: Path, stack: seq<Pending>, d: Path, names: set<string>, todo: set<Path>) {
    && Listed(was, src, stack) && todo == StackRels(stack) + Tops(d, names)
    && forall n :: n in names ==> d + [n] !in StackRels(stack)
  }

  lemma Popped(was: Files, fs: Files, src: Path, dst: Path, stack: seq<Pending>, done: set<Path>, todo: set<Path>)
    requires stack != [] && Stacked(was, src, stack, todo) && Progress(was, fs, src, dst, done, todo)
    ensures var d, rels := stack[0].rel, Rels(was, src);
      Enterable(was, src, stack[0]) && d in todo && Front(was, src, stack[1..], d, NamesBelow(rels, d), todo - {d} + ChildTops(rels, d))
  {
    assert Unfold(0);
    var d, rest := stack[0].rel, stack[1..];
    assert forall i :: 0 <= i < |rest| ==> rest[i] == stack[i + 1];
    assert d in todo;
    assert StackRels(rest) == todo - {d} by {
      forall r | r in todo - {d} ensures r in StackRels(rest) {
        var i :| 0 <= i < |stack| && stack[i].rel == r;
        assert rest[i - 1].rel == r;
      }
    }
    forall n | n in NamesBelow(Rels(was, src), d) ensures d + [n] !in StackRels(rest) {
      assert d <= d + [n] && d != d + [n];
    }
  }

  lemma FrontTake(was: Files, src: Path, stack: seq<Pending>, d: Path, names: set<string>, todo: set<Path>, n: string)
    requires Front(was, src, stack, d, names, todo) && n in names
    ensures d + [n] in todo && Front(was, src, stack, d, names - {n}, todo - {d + [n]})
  {
    assert d + [n] in Tops(d, names);
    assert Tops(d, names - {n}) == Tops(d, names) - {d + [n]} by {
      forall m | m in names && m != n ensures d + [m] != d + [n] {
        assert (d + [m])[|d|] == m && (d + [n])[|d|] == n;
      }
    }
  }

  lemma FrontPush(was: Files, src: Path, stack: seq<Pending>, d: Path, names: set<string>, todo: set<Path>, n: string)
    requires Front(was, src, stack, d, names, todo) && n in names
    requires Enterable(was, src, Pending(d + [n], |d| + 1))
    ensures Front(was, src, [Pending(d + [n], |d| + 1)] + stack, d, names - {n}, todo)
  {
    FrontTake(was, src, stack, d, names, todo, n);
    var top := Pending(d + [n], |d| + 1);
    assert StackRels([top] + stack) == StackRels(stack) + {d + [n]} by {
      var more := [top] + stack;
      assert more[0].rel == d + [n];
      forall i | 0 <= i < |stack| ensures stack[i].rel in StackRels(more) {
        assert more[i + 1] == stack[i];
      }
    }
    forall m | m in names - {n} ensures d + [m] !in StackRels([top] + stack) {
      assert (d + [m])[|d|] == m && (d + [n])[|d|] == n;
    }
  }

  /** The directory as it is read has the names of the source as it was. */
  lemma SameNames(was: Files, fs: Files, src: Path, dst: Path, done: set<Path>, todo: set<Path>, d: Path, names: set<string>)
    requires Task(was, src, dst) && Progress(was, fs, src, dst, done, todo)
    requires forall n :: n in names <==> (src + d) + [n] in fs
    ensures names == NamesBelow(Rels(was, src), d)
  {
    assert Unfold(0);
    var rels := Rels(was, src);
    forall n ensures n in names <==> n in NamesBelow(rels, d) {
      var t := d + [n];
      assert (src + d) + [n] == src + t;
      SourceKept(was, fs, src, dst, t);
      RelsMeaning(was, src, t);
      if n in NamesBelow(rels, d) {
        var rel :| rel in rels && |rel| == |d| + 1 && d <= rel && rel[|d|] == n;
        assert rel == t;
      }
      if t in rels {
        assert d <= t && t[|d|] == n;
      }
    }
  }

  lemma SourceEntry(was: Files, fs: Files, src: Path, dst: Path, done: set<Path>, todo: set<Path>, rel: Path)
    requires Task(was, src, dst) && Progress(was, fs, src, dst, done, todo) && rel in todo
    ensures src + rel in was && src + rel in fs && fs[src + rel] == was[src + rel]
  {
    assert Unfold(0);
    RelsMeaning(was, src, rel);
    SourceKept(was, fs, src, dst, rel);
  }

  /** What is handled is neither too deep nor too long. */
  ghost predicate Within(was: Files, src: Path, dst: Path, done: set<Path>) {
    forall rel :: rel in done ==> !Deep(was, src, rel) && !Long(was, src, dst, rel)
  }

  lemma Finished(was: Files, fs: Files, src: Path, dst: Path, done: set<Path>)
    requires Task(was, src, dst) && Progress(was, fs, src, dst, done, {}) && Within(was, src, dst, done)
    ensures WellFormed(fs) && Safe(was, fs, src, dst) && Copied(was, fs, src, dst, Rels(was, src))
    ensures done == Rels(was, src) && Copyable(was, src, dst)
  {
    assert Unfold(0);
    WalkEnd(Rels(was, src), done);
    forall rel ensures !Deep(was, src, rel) && !Long(was, src, dst, rel) {
      RelsMeaning(was, src, rel);
    }
    Unblocked(was, fs, src, dst);
  }

  /** A copy that is in place was not blocked. */
  lemma Unblocked(was: Files, fs: Files, src: Path, dst: Path)
    requires Task(was, src, dst) && WellFormed(fs) && Safe(was, fs, src, dst)
    requires Copied(was, fs, src, dst, Rels(was, src))
    ensures !Blocked(was, src, dst)
  {
    forall rel ensures !BlockedAt(was, src, dst, rel) {
      UnblockedAt(was, fs, src, dst, rel);
    }
    RelsMeaning(was, src, []);
    assert src + [] == src && dst + [] == dst;
    assert CopiedAt(was, fs, src, dst, []) && Seated(fs, dst);
    if dst <= src {
      PrefixExists(was, src, |dst|);
    }
    if dst != [] {
      assert SafeAt(was, fs, src, dst, dst[..|dst| - 1]);
    }
  }

  lemma UnblockedAt(was: Files, fs: Files, src: Path, dst: Path, rel: Path)
    requires Task(was, src, dst) && WellFormed(fs) && Safe(was, fs, src, dst)
    requires Copied(was, fs, src, dst, Rels(was, src))
    ensures !BlockedAt(was, src, dst, rel)
  {
    var p := dst + rel;
    RelsMeaning(was, src, rel);
    assert src + rel in was ==> CopiedAt(was, fs, src, dst, rel);
    assert SafeAt(was, fs, src, dst, p) && Seated(fs, p);
    if rel != [] {
      assert p[..|p| - 1] == dst + rel[..|rel| - 1];
      assert SafeAt(was, fs, src, dst, p[..|p| - 1]);
    }
  }

  // ---- what it amounts to ----

  /** After success every regular source file is at the same relative path with the same bytes,
      every directory has a counterpart, what has no regular counterpart survives, everything new is
      a copy, and the source and everything outside the destination are as before. */
  lemma TreeCopied(was: Files, fs: Files, src: Path, dst: Path, rel: Path, elsewhere: Path)
    requires Task(was, src, dst) && Safe(was, fs, src, dst) && Copied(was, fs, src, dst, Rels(was, src))
    ensures src + rel in was && was[src + rel].File? ==> dst + rel in fs && fs[dst + rel] == was[src + rel]
    ensures IsDir(was, src + rel) ==> dst + rel in fs && (dst + rel !in was ==> fs[dst + rel] == Dir)
    ensures dst + rel in was && !(src + rel in was && was[src + rel].File?) ==>
      dst + rel in fs && fs[dst + rel] == was[dst + rel]
    ensures dst + rel in fs && dst + rel !in was ==> src + rel in was && fs[dst + rel] == was[src + rel]
    ensures !(dst <= elsewhere) ==> (elsewhere in fs <==> elsewhere in was)
    ensures !(dst <= elsewhere) && elsewhere in was ==> fs[elsewhere] == was[elsewhere]
    ensures src + rel in fs <==> src + rel in was
    ensures src + rel in was ==> fs[src + rel] == was[src + rel]
  {
    var p := dst + rel;
    assert dst <= p && p[|dst|..] == rel;
    RelsMeaning(was, src, rel);
    assert src + rel in was ==> CopiedAt(was, fs, src, dst, rel);
    assert SafeAt(was, fs, src, dst, p) && SafeAt(was, fs, src, dst, elsewhere);
    SourceKept(was, fs, src, dst, rel);
  }

  /** A source directory met by a file at the destination is let through only if nothing below it
      had to be copied. */
  lemma DirectoryOverFile(was: Files, fs: Files, src: Path, dst: Path, d: Path, rel: Path)
    requires Task(was, src, dst) && Safe(was, fs, src, dst) && Copied(was, fs, src, dst, Rels(was, src))
    requires WellFormed(fs) && IsDir(was, src + d) && dst + d in was && was[dst + d].File?
    requires src + rel in was && d < rel
    ensures was[src + rel].Special?
  {
    RelsMeaning(was, src, rel);
    assert CopiedAt(was, fs, src, dst, rel) && SafeAt(was, fs, src, dst, dst + d);
    if dst + rel in fs {
      assert (dst + rel)[..|dst| + |d|] == dst + d;
      PrefixExists(fs, dst + rel, |dst| + |d|);
    }
  }

  // ---- a source inside its destination ----

  /** The copy of a source entry is a path of the source. */
  ghost predicate Inside(was: Files, src: Path, dst: Path, rel: Path) {
    src + rel in was && src <= dst + rel
  }

  /** `Apart` leaves out exactly the copies of which some entry lands in the source. */
  lemma ApartExactly(was: Files, src: Path, dst: Path)
    requires WellFormed(was) && src in was && !(src <= dst)
    ensures Apart(was, src, dst) <==> !exists rel :: Inside(was, src, dst, rel)
  {
    if rel :| Inside(was, src, dst, rel) {
      assert dst <= dst + rel;
      BothPrefixes(src, dst, dst + rel);
      var s := src[|dst|..];
      assert (src + rel)[..|src| + |s|] == src + s;
      PrefixExists(was, src + rel, |src| + |s|);
    }
    if !Apart(was, src, dst) {
      var s := src[|dst|..];
      assert dst + s == src;
      assert Inside(was, src, dst, s);
    }
  }

  /** There the copy replaces a file of the source by another one from deeper inside. */
  lemma NestedCopyReplaces(was: Files, fs: Files, src: Path, dst: Path, q: Path)
    requires dst <= src && CopiedAt(was, fs, src, dst, src[|dst|..] + q)
    requires was[src + (src[|dst|..] + q)].File?
    ensures src + q in fs && fs[src + q] == was[src + (src[|dst|..] + q)]
  {
    assert dst + (src[|dst|..] + q) == src + q;
  }

  /** Copying /a/b to /a: however it is done, /a/b/b/f is put in place of the source's own /a/b/f. */
  lemma NestedCopyChangesSource(was: Files, fs: Files, src: Path, dst: Path, x: Byte, y: Byte)
    requires x != y && src == ["a", "b"] && dst == ["a"]
    requires was == map[[] := Dir, ["a"] := Dir, ["a", "b"] := Dir, ["a", "b", "b"] := Dir,
                        ["a", "b", "b", "f"] := File([x]), ["a", "b", "f"] := File([y])]
    requires Copied(was, fs, src, dst, Rels(was, src))
    ensures src + ["f"] in was && src + ["f"] in fs && fs[src + ["f"]] != was[src + ["f"]]
  {
    var q: Path := ["f"];
    var rel := src[|dst|..] + q;
    assert src + rel == ["a", "b", "b", "f"] && src + q == ["a", "b", "f"];
    RelsMeaning(was, src, rel);
    NestedCopyReplaces(was, fs, src, dst, q);
    assert [x][0] != [y][0];
  }
}
