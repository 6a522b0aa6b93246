/** What a server-side tree copy may and must do to a file system (src/transfer.c). */
module CopySpec {
  import opened Common

  type Path = seq<string>

  /** Special: a device, fifo or symbolic link, which the copy passes over. */
  datatype Entry = Dir | File(data: seq<Byte>) | Special

  type Files = map<Path, Entry>

  ghost predicate IsDir(fs: Files, p: Path) {
    p in fs && fs[p].Dir?
  }

  /** Every entry but the root lies in a directory. */
  ghost predicate WellFormed(fs: Files) {
    forall p :: Seated(fs, p)
  }

  ghost predicate Seated(fs: Files, p: Path) {
    p in fs && p != [] ==> IsDir(fs, p[..|p| - 1])
  }

  /** No source entry has its copy in the source: the destination is not in the source, and if the
      source is in the destination it has nothing at its own place below the destination. */
  ghost predicate Apart(was: Files, src: Path, dst: Path) {
    !(src <= dst) && (dst <= src ==> src + src[|dst|..] !in was)
  }

  const MAX_DEPTH: nat := 32       // COPY_MAX_DEPTH
  const MAX_PATH: nat := 1024      // OPFTP_MAX_PATH
  const BUFFER: nat := 65536       // TRANSFER_BUF

  /** Why a copy ended. Failed: a file system call reported an error of its own. Refused: the
      destination has something else in the way. */
  datatype End = Done | Cancelled | Failed | Refused | TooDeep | TooLong

  datatype Pending = Pending(rel: Path, depth: nat)

  /** Length of an absolute path as text. */
  function TextLength(p: Path): nat {
    if p == [] then 1 else Joined(p)
  }

  function Joined(p: Path): nat {
    if p == [] then 0 else |p[0]| + 1 + Joined(p[1..])
  }

  /** Length of a relative path as text. */
  function RelLength(rel: Path): nat {
    if rel == [] then 0 else Joined(rel) - 1
  }

  /** A source entry whose name does not fit the buffers. What is passed over is not joined to the roots. */
  predicate Long(was: Files, src: Path, dst: Path, rel: Path) {
    src + rel in was &&
    (RelLength(rel) >= MAX_PATH ||
     (!was[src + rel].Special? && (TextLength(src + rel) >= MAX_PATH || TextLength(dst + rel) >= MAX_PATH)))
  }

  predicate Deep(was: Files, src: Path, rel: Path) {
    src + rel in was && was[src + rel].Dir? && |rel| >= MAX_DEPTH
  }

  /** There is no regular file to read. */
  predicate Unreadable(fs: Files, src: Path) {
    src !in fs || !fs[src].File?
  }

  /** There is no place for a new entry. */
  predicate NoPlace(fs: Files, p: Path) {
    p !in fs && (p == [] || p[..|p| - 1] !in fs || !fs[p[..|p| - 1]].Dir?)
  }

  /** There is no place for a file. */
  predicate Unwritable(fs: Files, dst: Path) {
    (dst in fs && !fs[dst].File?) || NoPlace(fs, dst)
  }

  ghost predicate Unfit(was: Files, src: Path, dst: Path) {
    Unreadable(was, src) || Unwritable(was, dst)
  }

  /** What is already at the destination cannot take the copy of one source entry: a file meets a
      directory, or there is a file where its directory should be. */
  ghost predicate BlockedAt(was: Files, src: Path, dst: Path, rel: Path) {
    src + rel in was && !was[src + rel].Special? &&
    ((was[src + rel].File? && IsDir(was, dst + rel)) ||
     (rel != [] && dst + rel[..|rel| - 1] in was && was[dst + rel[..|rel| - 1]].File?))
  }

  ghost predicate Blocked(was: Files, src: Path, dst: Path) {
    NoPlace(was, dst) || exists rel :: BlockedAt(was, src, dst, rel)
  }

  /** Nothing in the two trees stands in the way of a copy. */
  ghost predicate Copyable(was: Files, src: Path, dst: Path) {
    && (forall rel :: !Deep(was, src, rel)) && (forall rel :: !Long(was, src, dst, rel))
    && !Blocked(was, src, dst)
  }

  /** What a copy that did not succeed leaves: nothing new, and of an existing file either the old
      contents or a beginning of the source. */
  ghost predicate Touched(was: Files, now: Files, src: Path, dst: Path) {
    now == was ||
    (src in was && was[src].File? && dst in was && was[dst].File? &&
     dst in now && now == was[dst := now[dst]] && now[dst].File? && now[dst].data <= was[src].data)
  }

  /** No source entry meets anything special at the destination. */
  ghost predicate Plain(fs: Files, src: Path, dst: Path) {
    forall rel :: PlainAt(fs, src, dst, rel)
  }

  ghost predicate PlainAt(fs: Files, src: Path, dst: Path, rel: Path) {
    src + rel in fs && dst + rel in fs ==> !fs[dst + rel].Special?
  }

  /** An end that is not due to the caller or the file system has its reason in the two trees. */
  ghost predicate Explained(was: Files, src: Path, dst: Path, end: End) {
    && (end == TooDeep ==> exists rel :: Deep(was, src, rel))
    && (end == TooLong ==> exists rel :: Long(was, src, dst, rel))
    && (end == Refused ==> Blocked(was, src, dst))
  }

  // ---- what every outcome keeps ----

  /** At p, `fs` differs from `was` at most as a copy from `src` to `dst` may make it differ: entries
      outside `dst` and entries without a counterpart stay, a new entry is an exact copy, and an
      existing file may hold a beginning of its counterpart. */
  ghost predicate SafeAt(was: Files, fs: Files, src: Path, dst: Path, p: Path) {
    if p in was then
      p in fs && (fs[p] == was[p] ||
        (dst <= p && was[p].File? && fs[p].File? && src + p[|dst|..] in was &&
         was[src + p[|dst|..]].File? && fs[p].data <= was[src + p[|dst|..]].data))
    else
      p in fs ==> dst <= p && src + p[|dst|..] in was && !fs[p].Special? && fs[p] == was[src + p[|dst|..]]
  }

  ghost predicate Safe(was: Files, fs: Files, src: Path, dst: Path) {
    forall p :: SafeAt(was, fs, src, dst, p)
  }

  // ---- what success adds ----

  /** The relative paths of the source. */
  ghost function Rels(fs: Files, src: Path): set<Path> {
    set p | p in fs && src <= p :: p[|src|..]
  }

  lemma RelsMeaning(fs: Files, src: Path, rel: Path)
    ensures rel in Rels(fs, src) <==> src + rel in fs
  {
    assert src <= src + rel && (src + rel)[|src|..] == rel;
    forall p | p in fs && src <= p && p[|src|..] == rel ensures p == src + rel {
    }
  }

  /** The copy of one source entry is in place. */
  ghost predicate CopiedAt(was: Files, fs: Files, src: Path, dst: Path, rel: Path) {
    src + rel in was &&
    (was[src + rel].File? ==> dst + rel in fs && fs[dst + rel] == was[src + rel]) &&
    (was[src + rel].Dir? ==> dst + rel in fs)
  }

  ghost predicate Copied(was: Files, fs: Files, src: Path, dst: Path, rels: set<Path>) {
    forall rel :: rel in rels ==> CopiedAt(was, fs, src, dst, rel)
  }

  /** The sum of the sizes of the regular files among `rels`. */
  ghost function SizeOf(fs: Files, src: Path, rels: set<Path>): nat {
    if rels == {} then 0
    else
      var rel :| rel in rels;
      FileSize(fs, src + rel) + SizeOf(fs, src, rels - {rel})
  }

  ghost function FileSize(fs: Files, p: Path): nat {
    if p in fs && fs[p].File? then |fs[p].data| else 0
  }

  lemma SizeOne(fs: Files, src: Path, rels: set<Path>) returns (pick: Path)
    requires rels != {}
    ensures pick in rels && SizeOf(fs, src, rels) == FileSize(fs, src + pick) + SizeOf(fs, src, rels - {pick})
  {
    pick :| pick in rels && SizeOf(fs, src, rels) == FileSize(fs, src + pick) + SizeOf(fs, src, rels - {pick});
  }

  lemma {:induction false} SizeAdd(fs: Files, src: Path, rels: set<Path>, rel: Path)
    requires rel !in rels
    ensures SizeOf(fs, src, rels + {rel}) == SizeOf(fs, src, rels) + FileSize(fs, src + rel)
    decreases |rels|
  {
    var pick := SizeOne(fs, src, rels + {rel});
    if pick == rel {
      assert rels + {rel} - {rel} == rels;
    } else {
      var fewer := rels - {pick};
      assert rels + {rel} - {pick} == fewer + {rel} && fewer + {pick} == rels;
      SizeAdd(fs, src, fewer, rel);
      SizeAdd(fs, src, fewer, pick);
    }
  }

  // ---- the walk ----

  /** The walk so far: `done` is handled, `todo` are the tops of what is not. Every source path is
      handled or below exactly one of them. */
  ghost predicate Walk(rels: set<Path>, done: set<Path>, todo: set<Path>) {
    && done <= rels && todo <= rels
    && (forall rel :: rel in rels && rel !in done ==> HasTop(todo, rel))
    && (forall rel, top :: rel in done && top in todo ==> !(top <= rel))
    && (forall a, b :: a in todo && b in todo && a <= b ==> a == b)
  }

  ghost predicate HasTop(todo: set<Path>, rel: Path) {
    exists top :: top in todo && top <= rel
  }

  /** The names directly below a directory. */
  ghost function NamesBelow(rels: set<Path>, d: Path): set<string> {
    set rel | rel in rels && |rel| == |d| + 1 && d <= rel :: rel[|d|]
  }

  ghost function Tops(d: Path, names: set<string>): set<Path> {
    set n | n in names :: d + [n]
  }

  /** Every prefix of a relative path is one. */
  ghost predicate Closed(rels: set<Path>) {
    forall rel, k :: PrefixIn(rels, rel, k)
  }

  ghost predicate PrefixIn(rels: set<Path>, rel: Path, k: int) {
    rel in rels && 0 <= k <= |rel| ==> rel[..k] in rels
  }

  lemma WalkStart(rels: set<Path>)
    requires [] in rels
    ensures Walk(rels, {}, {[]})
  {
    var top: Path := [];
    forall rel | rel in rels ensures HasTop({top}, rel) {
      assert top in {top} && top <= rel;
    }
  }

  lemma WalkEnd(rels: set<Path>, done: set<Path>)
    requires Walk(rels, done, {})
    ensures done == rels
  {
    forall rel | rel in rels ensures rel in done {
      assert rel !in done ==> HasTop({}, rel);
    }
  }

  /** The children of d, as paths. */
  ghost function ChildTops(rels: set<Path>, d: Path): set<Path> {
    Tops(d, NamesBelow(rels, d))
  }

  lemma ChildTopsMeaning(rels: set<Path>, d: Path, t: Path)
    ensures t in ChildTops(rels, d) <==> t in rels && d <= t && |t| == |d| + 1
  {
    if t in ChildTops(rels, d) {
      var n :| n in NamesBelow(rels, d) && t == d + [n];
      var rel :| rel in rels && |rel| == |d| + 1 && d <= rel && rel[|d|] == n;
      assert rel == d + [n];
    }
    if t in rels && d <= t && |t| == |d| + 1 {
      assert t[|d|] in NamesBelow(rels, d) && t == d + [t[|d|]];
    }
  }

  /** Opening a directory: it is handled, and its children take its place. */
  lemma WalkInto(rels: set<Path>, done: set<Path>, todo: set<Path>, d: Path)
    requires Walk(rels, done, todo) && Closed(rels) && d in todo
    ensures Walk(rels, done + {d}, todo - {d} + ChildTops(rels, d)) && d !in done
  {
    var tops := ChildTops(rels, d);
    var done', todo' := done + {d}, todo - {d} + tops;
    forall t ensures t in tops <==> t in rels && d <= t && |t| == |d| + 1 {
      ChildTopsMeaning(rels, d, t);
    }
    forall rel | rel in rels && rel !in done' ensures HasTop(todo', rel) {
      TopBelow(rels, done, todo, d, rel);
    }
    forall rel, top | rel in done' && top in todo' ensures !(top <= rel) {
      DoneApart(rels, done, todo, d, rel, top);
    }
    forall a, b | a in todo' && b in todo' && a <= b ensures a == b {
      TopsApart(rels, done, todo, d, a, b);
    }
  }

  lemma TopBelow(rels: set<Path>, done: set<Path>, todo: set<Path>, d: Path, rel: Path)
    requires Walk(rels, done, todo) && Closed(rels) && d in todo && rel in rels && rel !in done && rel != d
    ensures HasTop(todo - {d} + ChildTops(rels, d), rel)
  {
    assert HasTop(todo, rel);
    var top :| top in todo && top <= rel;
    if top == d {
      assert rel == d + rel[|d|..];
      var t := rel[..|d| + 1];
      assert PrefixIn(rels, rel, |d| + 1);
      ChildTopsMeaning(rels, d, t);
      assert t in todo - {d} + ChildTops(rels, d) && t <= rel;
    } else {
      assert top in todo - {d} + ChildTops(rels, d);
    }
  }

  lemma Through(d: Path, t: Path, rel: Path)
    requires d <= t <= rel
    ensures d <= rel
  {
    assert d == t[..|d|] == rel[..|d|];
  }

  lemma DoneApart(rels: set<Path>, done: set<Path>, todo: set<Path>, d: Path, rel: Path, top: Path)
    requires Walk(rels, done, todo) && d in todo && (rel in done || rel == d)
    requires (top in todo && top != d) || (d <= top && |top| == |d| + 1)
    ensures !(top <= rel)
  {
    if d <= top <= rel {
      Through(d, top, rel);
    }
  }

  lemma TopsApart(rels: set<Path>, done: set<Path>, todo: set<Path>, d: Path, a: Path, b: Path)
    requires Walk(rels, done, todo) && d in todo && a <= b
    requires (a in todo && a != d) || (d <= a && |a| == |d| + 1)
    requires (b in todo && b != d) || (d <= b && |b| == |d| + 1)
    ensures a == b
  {
    if d <= a {
      Through(d, a, b);
    } else if d <= b {
      BothPrefixes(a, d, b);
    }
  }

  /** A source entry without children is handled. */
  lemma WalkLeaf(rels: set<Path>, done: set<Path>, todo: set<Path>, leaf: Path)
    requires Walk(rels, done, todo) && leaf in todo
    requires forall rel :: rel in rels && leaf <= rel ==> rel == leaf
    ensures Walk(rels, done + {leaf}, todo - {leaf}) && leaf !in done
  {
    var done', todo' := done + {leaf}, todo - {leaf};
    forall rel | rel in rels && rel !in done' ensures HasTop(todo', rel) {
      var top :| top in todo && top <= rel;
      assert top in todo';
    }
  }
}
