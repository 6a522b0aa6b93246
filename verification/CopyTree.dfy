/** copy_file and copy_tree (src/transfer.c) over a file system whose calls may fail at any moment
    and whose directories are read in any order. */
module CopyTree {
  import opened Common
  import opened CopySpec
  import opened CopyRun
  import opened CopyProofs

  // ---- a file being written ----

  /** The file at `dst`, and nothing else, has changed: it holds `base` and the first `off` bytes of `data`. */
  ghost predicate Holds(was: Files, fs: Files, dst: Path, base: seq<Byte>, data: seq<Byte>, off: nat) {
    off <= |data| && forall k {:trigger Unfold(k)} :: Unfold(k) ==> fs == was[dst := File(base + data[..off])]
  }

  lemma HoldsNone(fs: Files, dst: Path, data: seq<Byte>)
    requires dst in fs && fs[dst].File?
    ensures Holds(fs, fs, dst, fs[dst].data, data, 0)
  {
    assert fs[dst].data + data[..0] == fs[dst].data;
  }

  lemma HoldsFile(was: Files, fs: Files, dst: Path, base: seq<Byte>, data: seq<Byte>, off: nat)
    requires Holds(was, fs, dst, base, data, off)
    ensures fs == was[dst := File(base + data[..off])]
  {
    assert Unfold(0);
  }

  lemma HoldsMore(was: Files, fs: Files, dst: Path, base: seq<Byte>, data: seq<Byte>, off: nat, n: nat)
    requires Holds(was, fs, dst, base, data, off) && off + n <= |data| && dst in fs && fs[dst].File?
    ensures Holds(was, fs[dst := File(fs[dst].data + data[off..off + n])], dst, base, data, off + n)
  {
    assert Unfold(0);
    assert data[..off] + data[off..off + n] == data[..off + n];
    assert base + data[..off] + data[off..off + n] == base + (data[..off] + data[off..off + n]);
  }

  // ---- how far a run has come ----

  /** `r` is what is done already, followed by `q`. */
  ghost predicate Later(r: Run, q: Run, moved: nat, counted: nat) {
    r.end == q.end && r.clock == q.clock && r.cancelled == q.cancelled &&
    r.moved == moved + q.moved && r.counted == counted + q.counted
  }

  // Keys of their own, so that the two are not opened for each other's sake.
  ghost predicate UnfoldWrite(k: int) {
    true
  }

  ghost predicate UnfoldCopy(k: int) {
    true
  }

  /** Of `size` bytes `moved` are written, and the rest of run `r` is that of writing the others. */
  ghost predicate StillToWrite(r: Run, w: World, size: nat, t: nat, c: bool, moved: nat) {
    moved <= size &&
    forall k {:trigger UnfoldWrite(k)} :: UnfoldWrite(k) ==> Later(r, WriteRun(w, size - moved, t, c), moved, 0)
  }

  lemma WriteStep(r: Run, w: World, size: nat, t: nat, c: bool, moved: nat)
    requires StillToWrite(r, w, size, t, c, moved) && moved < size
    ensures At(w, t).ok ==>
      StillToWrite(r, w, size, t + 1, c || At(w, t).abort, moved + Size(At(w, t), size - moved))
    ensures !At(w, t).ok ==> Later(r, Run(Failed, 0, 0, t + 1, c || At(w, t).abort), moved, 0)
  {
    assert UnfoldWrite(0);
  }

  lemma WriteDone(r: Run, w: World, size: nat, t: nat, c: bool)
    requires StillToWrite(r, w, size, t, c, size)
    ensures Later(r, Run(Done, 0, 0, t, c), size, 0)
  {
    assert UnfoldWrite(0);
  }

  /** Likewise for the loop that reads and writes. */
  ghost predicate StillToCopy(r: Run, w: World, size: nat, t: nat, c: bool, moved: nat) {
    moved <= size &&
    forall k {:trigger UnfoldCopy(k)} :: UnfoldCopy(k) ==> Later(r, BytesRun(w, size - moved, t, c), moved, moved)
  }

  lemma CopyStops(r: Run, w: World, size: nat, t: nat, c: bool, moved: nat)
    requires StillToCopy(r, w, size, t, c, moved)
    ensures c ==> Later(r, Run(Cancelled, 0, 0, t, c), moved, moved)
    ensures !c && !At(w, t).ok ==> Later(r, Run(Failed, 0, 0, t + 1, At(w, t).abort), moved, moved)
    ensures !c && At(w, t).ok && moved == size ==> Later(r, Run(Done, 0, 0, t + 1, At(w, t).abort), moved, moved)
  {
    assert UnfoldCopy(0);
  }

  /** After a chunk that was written the loop goes on; otherwise it ends as the writing did. */
  lemma ChunkWritten(w: World, left: nat, t: nat, n: nat, put: Run)
    requires left > 0 && At(w, t).ok && n == Chunk(At(w, t), left)
    requires put == WriteRun(w, n, t + 1, At(w, t).abort) && put.end == Done
    ensures Later(BytesRun(w, left, t, false), BytesRun(w, left - n, put.clock, put.cancelled), n, n)
  {
  }

  lemma ChunkFailed(w: World, left: nat, t: nat, n: nat, put: Run)
    requires left > 0 && At(w, t).ok && n == Chunk(At(w, t), left)
    requires put == WriteRun(w, n, t + 1, At(w, t).abort) && put.end != Done
    ensures BytesRun(w, left, t, false) == put
  {
  }

  /** `put` is the run of writing a chunk just read, within the run of the loop. */
  ghost predicate ChunkRun(put: Run, r: Run, w: World, size: nat, moved: nat, n: nat) {
    && put.counted == 0 <= put.moved <= n && (put.end == Done <==> put.moved == n) && put.end in {Done, Failed}
    && (put.end == Done ==> StillToCopy(r, w, size, put.clock, put.cancelled, moved + n))
    && (put.end != Done ==> Later(r, put, moved, moved))
  }

  lemma CopyStep(r: Run, w: World, size: nat, t: nat, c: bool, moved: nat, n: nat, c': bool) returns (put: Run)
    requires StillToCopy(r, w, size, t, c, moved) && !c && moved < size && At(w, t).ok
    requires n == Chunk(At(w, t), size - moved) && c' == (c || At(w, t).abort)
    ensures StillToWrite(put, w, n, t + 1, c', 0) && ChunkRun(put, r, w, size, moved, n)
  {
    put := WriteRun(w, n, t + 1, c');
    WriteStart(w, n, t + 1, c');
    if put.end == Done {
      CopyGoesOn(r, w, size, t, c, moved, n, put);
    } else {
      CopyFails(r, w, size, t, c, moved, n, put);
    }
  }

  lemma WriteStart(w: World, n: nat, t: nat, c: bool)
    ensures StillToWrite(WriteRun(w, n, t, c), w, n, t, c, 0)
  {
  }

  /** `q` is the run of the loop with `left` bytes to go. */
  ghost predicate LoopRun(q: Run, w: World, left: nat, t: nat, c: bool) {
    forall k {:trigger UnfoldCopy(k)} :: UnfoldCopy(k) ==> q == BytesRun(w, left, t, c)
  }

  lemma CopyGoesOn(r: Run, w: World, size: nat, t: nat, c: bool, moved: nat, n: nat, put: Run)
    requires StillToCopy(r, w, size, t, c, moved) && !c && moved < size && At(w, t).ok
    requires n == Chunk(At(w, t), size - moved) && put == WriteRun(w, n, t + 1, At(w, t).abort) && put.end == Done
    ensures StillToCopy(r, w, size, put.clock, put.cancelled, moved + n)
  {
    var q := RunLeft(r, w, size, t, c, moved);
    var rest := ChunkThen(q, w, size - moved, t, c, n, put);
    CopyRests(r, rest, w, size, put.clock, put.cancelled, moved + n);
  }

  lemma RunLeft(r: Run, w: World, size: nat, t: nat, c: bool, moved: nat) returns (q: Run)
    requires StillToCopy(r, w, size, t, c, moved)
    ensures LoopRun(q, w, size - moved, t, c) && Later(r, q, moved, moved)
  {
    assert UnfoldCopy(0);
    q := BytesRun(w, size - moved, t, c);
  }

  lemma ChunkThen(q: Run, w: World, left: nat, t: nat, c: bool, n: nat, put: Run) returns (rest: Run)
    requires LoopRun(q, w, left, t, c) && !c && left > 0 && At(w, t).ok && n == Chunk(At(w, t), left)
    requires put == WriteRun(w, n, t + 1, At(w, t).abort) && put.end == Done
    ensures LoopRun(rest, w, left - n, put.clock, put.cancelled) && Later(q, rest, n, n)
  {
    assert UnfoldCopy(0);
    ChunkWritten(w, left, t, n, put);
    rest := BytesRun(w, left - n, put.clock, put.cancelled);
  }

  lemma CopyRests(r: Run, rest: Run, w: World, size: nat, t: nat, c: bool, moved: nat)
    requires moved <= size && LoopRun(rest, w, size - moved, t, c) && Later(r, rest, moved, moved)
    ensures StillToCopy(r, w, size, t, c, moved)
  {
  }

  lemma CopyFails(r: Run, w: World, size: nat, t: nat, c: bool, moved: nat, n: nat, put: Run)
    requires StillToCopy(r, w, size, t, c, moved) && !c && moved < size && At(w, t).ok
    requires n == Chunk(At(w, t), size - moved) && put == WriteRun(w, n, t + 1, At(w, t).abort) && put.end != Done
    ensures Later(r, put, moved, moved)
  {
    assert Later(r, BytesRun(w, size - moved, t, false), moved, moved) by {
      assert UnfoldCopy(0);
    }
    ChunkFailed(w, size - moved, t, n, put);
  }

  class FileSystem {
    const world: World
    var entries: Files
    var bytes: nat           // the job's counter
    var clock: nat           // calls made so far
    var cancelled: bool      // the job's flag, which is never cleared

    constructor (entries: Files, world: World)
      ensures this.entries == entries && this.world == world && clock == 0 && bytes == 0 && !cancelled
    {
      this.entries, this.world := entries, world;
      bytes, clock, cancelled := 0, 0, false;
    }

    /** One call: its answer, and perhaps a cancellation meanwhile. */
    method Ask() returns (a: Answer)
      modifies this`clock, this`cancelled
      ensures a == At(world, old(clock)) && clock == old(clock) + 1 && cancelled == (old(cancelled) || a.abort)
    {
      a := At(world, clock);
      clock, cancelled := clock + 1, cancelled || a.abort;
    }

    /** copy_file. A new destination is removed again on failure; unlinking it is taken to work. */
    method CopyFile(src: Path, dst: Path) returns (end: End)
      requires src != dst
      modifies this
      ensures var r := FileRun(old(entries), src, dst, world, old(clock), old(cancelled));
              end == r.end && clock == r.clock && cancelled == r.cancelled && bytes == old(bytes) + r.counted
      ensures entries == FilesAfter(old(entries), src, dst, world, old(clock), old(cancelled))
    {
      ghost var w, t, c := world, clock, cancelled;
      NoticedTwice(w, t, c);
      var a := Ask();
      if !a.ok {
        return Failed;
      }
      if src !in entries || !entries[src].File? {
        return Refused;
      }
      a := Ask();
      if !a.ok {
        return Failed;
      }
      if Unwritable(entries, dst) {
        return Refused;
      }
      ghost var k;
      end, k := CopyOpened(entries[src].data, dst);
    }

    /** The rest of copy_file, from the open that truncates the destination. */
    method CopyOpened(data: seq<Byte>, dst: Path) returns (end: End, ghost k: nat)
      modifies this
      ensures var r := OpenedRun(|data|, world, old(clock), old(cancelled));
              end == r.end && clock == r.clock && cancelled == r.cancelled && k == r.moved &&
              bytes == old(bytes) + r.counted
      ensures k <= |data|
      ensures entries == if end == Done || dst in old(entries) then old(entries)[dst := File(data[..k])] else old(entries)
    {
      var existed := dst in entries;
      entries := entries[dst := File([])];
      k := 0;
      var a := Ask();
      if a.ok {
        end, k := CopyBytes(data, dst, BytesRun(world, |data|, clock, cancelled));
      } else {
        end := Failed;
        assert data[..0] == [];
      }
      assert entries == old(entries)[dst := File(data[..k])];
      if end != Done && !existed {
        entries := entries - {dst};
        assert entries == old(entries);
      }
    }

    /** The read and write loop, from a freshly truncated destination. */
    method CopyBytes(data: seq<Byte>, dst: Path, ghost run: Run) returns (end: End, ghost k: nat)
      requires dst in entries && entries[dst] == File([])
      requires StillToCopy(run, world, |data|, clock, cancelled, 0)
      modifies this
      ensures end == run.end && clock == run.clock && cancelled == run.cancelled
      ensures k == run.moved && bytes == old(bytes) + run.counted
      ensures k <= |data| && entries == old(entries)[dst := File(data[..k])]
    {
      HoldsNone(entries, dst, data);
      var pos, more := 0, true;
      end := Done;
      while more
        invariant Holds(old(entries), entries, dst, [], data, pos)
        invariant more ==> bytes == old(bytes) + pos && StillToCopy(run, world, |data|, clock, cancelled, pos)
        invariant !more ==> end == run.end && clock == run.clock && cancelled == run.cancelled
        invariant !more ==> pos == run.moved && bytes == old(bytes) + run.counted
        decreases more, |data| - pos
      {
        end, more, pos := CopyRound(data, pos, dst, old(entries), run);
      }
      k := pos;
      HoldsFile(old(entries), entries, dst, [], data, k);
      assert [] + data[..k] == data[..k];
    }

    /** One turn of the loop, with `pos` bytes copied. */
    method CopyRound(data: seq<Byte>, pos: nat, dst: Path, ghost was: Files, ghost run: Run)
      returns (end: End, more: bool, pos': nat)
      requires Holds(was, entries, dst, [], data, pos)
      requires StillToCopy(run, world, |data|, clock, cancelled, pos)
      modifies this
      ensures Holds(was, entries, dst, [], data, pos')
      ensures more ==> pos < pos' && bytes == old(bytes) + pos' - pos
      ensures more ==> StillToCopy(run, world, |data|, clock, cancelled, pos')
      ensures !more ==> end == run.end && clock == run.clock && cancelled == run.cancelled && pos' == run.moved
      ensures !more ==> bytes == old(bytes) && run.counted == pos
    {
      var n;
      ghost var put;
      end, n, put := ReadNext(|data|, pos, run);
      if n == 0 {
        return end, false, pos;
      }
      end, more, pos' := StoreChunk(data, pos, n, dst, was, run, put);
    }

    /** Write what was read, and count it if all of it went through. */
    method StoreChunk(data: seq<Byte>, pos: nat, n: nat, dst: Path, ghost was: Files, ghost run: Run, ghost put: Run)
      returns (end: End, more: bool, pos': nat)
      requires 0 < n && pos + n <= |data| && Holds(was, entries, dst, [], data, pos)
      requires StillToWrite(put, world, n, clock, cancelled, 0) && ChunkRun(put, run, world, |data|, pos, n)
      modifies this
      ensures Holds(was, entries, dst, [], data, pos')
      ensures more ==> pos < pos' && bytes == old(bytes) + pos' - pos
      ensures more ==> StillToCopy(run, world, |data|, clock, cancelled, pos')
      ensures !more ==> end == run.end && clock == run.clock && cancelled == run.cancelled && pos' == run.moved
      ensures !more ==> bytes == old(bytes) && run.counted == pos
    {
      var off := WriteChunk(data, pos, n, dst, was, put);
      if off < n {
        return Failed, false, pos + off;
      }
      bytes := bytes + n;
      return Done, true, pos + n;
    }

    /** The cancel check and the read: n bytes, or why there are none. */
    method ReadNext(size: nat, moved: nat, ghost run: Run) returns (end: End, n: nat, ghost put: Run)
      requires StillToCopy(run, world, size, clock, cancelled, moved)
      modifies this`clock, this`cancelled
      ensures moved + n <= size
      ensures n == 0 ==> Later(run, Run(end, 0, 0, clock, cancelled), moved, moved)
      ensures n > 0 ==> StillToWrite(put, world, n, clock, cancelled, 0) && ChunkRun(put, run, world, size, moved, n)
    {
      put := run;
      CopyStops(run, world, size, clock, cancelled, moved);
      if cancelled {
        return Cancelled, 0, put;
      }
      ghost var t, c := clock, cancelled;
      var a := Ask();
      if !a.ok {
        return Failed, 0, put;
      }
      if moved == size {
        return Done, 0, put;
      }
      end, n := Done, Chunk(a, size - moved);
      put := CopyStep(run, world, size, t, c, moved, n, cancelled);
    }

    /** The n bytes read last. */
    method WriteChunk(data: seq<Byte>, pos: nat, n: nat, dst: Path, ghost was: Files, ghost run: Run) returns (off: nat)
      requires pos + n <= |data| && Holds(was, entries, dst, [], data, pos)
      requires StillToWrite(run, world, n, clock, cancelled, 0)
      modifies this`entries, this`clock, this`cancelled
      ensures off == run.moved && clock == run.clock && cancelled == run.cancelled
      ensures off <= n && Holds(was, entries, dst, [], data, pos + off)
    {
      HoldsFile(was, entries, dst, [], data, pos);
      off := WriteAll(data[pos..pos + n], dst, run);
      assert data[pos..pos + n][..off] == data[pos..pos + off];
      HoldsMore(was, old(entries), dst, [], data, pos, off);
    }

    /** fs_write_all. */
    method WriteAll(chunk: seq<Byte>, dst: Path, ghost run: Run) returns (off: nat)
      requires dst in entries && entries[dst].File?
      requires StillToWrite(run, world, |chunk|, clock, cancelled, 0)
      modifies this`entries, this`clock, this`cancelled
      ensures off == run.moved && clock == run.clock && cancelled == run.cancelled
      ensures off <= |chunk| && entries == old(entries)[dst := File(old(entries[dst]).data + chunk[..off])]
    {
      off := 0;
      var ok := true;
      ghost var base := entries[dst].data;
      HoldsNone(entries, dst, chunk);
      while ok && off < |chunk|
        invariant 0 <= off <= |chunk| && Holds(old(entries), entries, dst, base, chunk, off)
        invariant ok ==> StillToWrite(run, world, |chunk|, clock, cancelled, off)
        invariant !ok ==> off == run.moved && clock == run.clock && cancelled == run.cancelled
        decreases ok, |chunk| - off
      {
        ok, off := WriteOnce(chunk, off, dst, old(entries), base, run);
      }
      if ok {
        WriteDone(run, world, |chunk|, clock, cancelled);
      }
      HoldsFile(old(entries), entries, dst, base, chunk, off);
    }

    /** One write. */
    method WriteOnce(chunk: seq<Byte>, off: nat, dst: Path, ghost was: Files, ghost base: seq<Byte>, ghost run: Run)
      returns (ok: bool, off': nat)
      requires off < |chunk| && Holds(was, entries, dst, base, chunk, off)
      requires StillToWrite(run, world, |chunk|, clock, cancelled, off)
      modifies this`entries, this`clock, this`cancelled
      ensures off' <= |chunk| && Holds(was, entries, dst, base, chunk, off')
      ensures ok ==> off < off' && StillToWrite(run, world, |chunk|, clock, cancelled, off')
      ensures !ok ==> off' == run.moved && clock == run.clock && cancelled == run.cancelled
    {
      WriteStep(run, world, |chunk|, clock, cancelled, off);
      var a := Ask();
      if !a.ok {
        return false, off;
      }
      var n := Size(a, |chunk| - off);
      HoldsFile(was, entries, dst, base, chunk, off);
      HoldsMore(was, entries, dst, base, chunk, off, n);
      entries := entries[dst := File(entries[dst].data + chunk[off..off + n])];
      return true, off + n;
    }

    /** copy_tree: whatever happens the copy is safe, and every end has its reason. Unless it is
        cancelled, it succeeds exactly if no call fails and nothing in the two trees is in its way. */
    method Copy(src: Path, dst: Path) returns (end: End)
      requires Task(entries, src, dst)
      modifies this
      ensures WellFormed(entries) && Safe(old(entries), entries, src, dst)
      ensures end == Done ==> Copied(old(entries), entries, src, dst, Rels(old(entries), src))
      ensures end == Done ==> bytes == old(bytes) + SizeOf(old(entries), src, Rels(old(entries), src))
      ensures Explained(old(entries), src, dst, end)
      ensures end == Failed <==> !AllOk(world, old(clock), clock)
      ensures end == Cancelled ==> old(cancelled) || Aborted(world, old(clock), clock)
      ensures old(cancelled) ==> end in {Cancelled, Failed}
      ensures end != Cancelled ==>
              (end == Done <==> AllOk(world, old(clock), clock) && Copyable(old(entries), src, dst))
    {
      end := WalkTree(src, dst);
      assert Unfold(0);
    }

    method WalkTree(src: Path, dst: Path) returns (end: End)
      requires Task(entries, src, dst)
      modifies this
      ensures WellFormed(entries) && Safe(old(entries), entries, src, dst)
      ensures end == Done ==> Copied(old(entries), entries, src, dst, Rels(old(entries), src))
      ensures end == Done ==> bytes == old(bytes) + SizeOf(old(entries), src, Rels(old(entries), src))
      ensures end == Done ==> Copyable(old(entries), src, dst)
      ensures Explained(old(entries), src, dst, end)
      ensures History(world, old(clock), old(cancelled), clock, cancelled, end)
      ensures old(cancelled) ==> end in {Cancelled, Failed}
    {
      HistoryOne(world, clock, cancelled);
      var a := Ask();
      if !a.ok {
        return Failed;
      }
      var stack := [Pending([], 0)];
      ghost var was, start, done: set<Path>, todo: set<Path> := entries, bytes, {}, {[]};
      ProgressStart(was, src, dst);
      assert src + [] == src;
      assert stack[0].rel == [];
      while stack != []
        invariant Progress(was, entries, src, dst, done, todo) && bytes == start + SizeOf(was, src, done)
        invariant Stacked(was, src, stack, todo) && Within(was, src, dst, done)
        invariant History(world, old(clock), old(cancelled), clock, cancelled, Done)
        invariant done != {} ==> !old(cancelled)
        decreases Rels(was, src) - done
      {
        var d := stack[0];
        Popped(was, entries, src, dst, stack, done, todo);
        stack := stack[1..];
        ProgressSafe(was, entries, src, dst, done, todo);
        Ends(world, old(clock), old(cancelled), clock, cancelled);
        if cancelled {
          return Cancelled;
        }
        if TextLength(src + d.rel) >= MAX_PATH || TextLength(dst + d.rel) >= MAX_PATH {
          assert Long(was, src, dst, d.rel);
          return TooLong;
        }
        ghost var handled, t, c := done, clock, cancelled;
        end, stack, done, todo := VisitDir(src, dst, d, stack, was, start, done, todo);
        HistoryThen(world, old(clock), old(cancelled), t, c, clock, cancelled, end);
        if end != Done {
          return;
        }
        assert d.rel !in handled && d.rel in done && d.rel in Rels(was, src);
      }
      Finished(was, entries, src, dst, done);
      RelsMeaning(was, src, []);
      end := Done;
    }

    /** One pending directory: make its counterpart and read it. */
    method VisitDir(src: Path, dst: Path, d: Pending, stack0: seq<Pending>,
                    ghost was: Files, ghost start: nat, ghost done0: set<Path>, ghost todo0: set<Path>)
      returns (end: End, stack: seq<Pending>, ghost done: set<Path>, ghost todo: set<Path>)
      requires Task(was, src, dst) && Progress(was, entries, src, dst, done0, todo0)
      requires bytes == start + SizeOf(was, src, done0) && Within(was, src, dst, done0)
      requires Enterable(was, src, d) && !Long(was, src, dst, d.rel) && d.rel in todo0
      requires Front(was, src, stack0, d.rel, NamesBelow(Rels(was, src), d.rel),
                     todo0 - {d.rel} + ChildTops(Rels(was, src), d.rel))
      modifies this
      ensures end == Done ==> Progress(was, entries, src, dst, done, todo) && done0 + {d.rel} <= done
      ensures end == Done ==> bytes == start + SizeOf(was, src, done) && Within(was, src, dst, done)
      ensures end == Done ==> Stacked(was, src, stack, todo) && d.rel !in done0 && d.rel in Rels(was, src)
      ensures end != Done ==> WellFormed(entries) && Safe(was, entries, src, dst) && Explained(was, src, dst, end)
      ensures History(world, old(clock), old(cancelled), clock, cancelled, end)
    {
      stack, done, todo := stack0, done0, todo0;
      end := Enter(src, dst, d.rel, was, done, todo);
      if end != Done {
        return;
      }
      SizeAdd(was, src, done, d.rel);
      done, todo := done + {d.rel}, todo - {d.rel} + ChildTops(Rels(was, src), d.rel);
      ghost var t, c := clock, cancelled;
      end, stack, done, todo := CopyChildren(src, dst, d, stack, was, start, done, todo);
      HistoryThen(world, old(clock), old(cancelled), t, c, clock, cancelled, end);
    }

    /** Making sure the destination directory exists. */
    method Enter(src: Path, dst: Path, d: Path, ghost was: Files, ghost done: set<Path>, ghost todo: set<Path>)
      returns (end: End)
      requires Task(was, src, dst) && Progress(was, entries, src, dst, done, todo)
      requires d in todo && IsDir(was, src + d)
      modifies this`entries, this`clock, this`cancelled
      ensures History(world, old(clock), old(cancelled), clock, cancelled, end)
      ensures end == Done ==> d !in done && d in Rels(was, src)
      ensures end == Done ==> Progress(was, entries, src, dst, done + {d}, todo - {d} + ChildTops(Rels(was, src), d))
      ensures end != Done ==> WellFormed(entries) && Safe(was, entries, src, dst) && Explained(was, src, dst, end)
      ensures end in {Done, Failed, Refused}
    {
      ProgressSafe(was, entries, src, dst, done, todo);
      RelsMeaning(was, src, d);
      var p := dst + d;
      if p !in entries {
        HistoryOne(world, clock, cancelled);
        var a := Ask();
        if !a.ok {
          return Failed;
        }
        if NoPlace(entries, p) {
          MkdirRefused(was, entries, src, dst, done, todo, d);
          return Refused;
        }
        EnterKeeps(was, entries, entries[p := Dir], src, dst, done, todo, d);
        entries := entries[p := Dir];
      } else {
        HistoryNone(world, clock, cancelled, Done);
        EnterKeeps(was, entries, entries, src, dst, done, todo, d);
      }
      return Done;
    }

    /** Reading one source directory. */
    method CopyChildren(src: Path, dst: Path, d: Pending, stack0: seq<Pending>,
                        ghost was: Files, ghost start: nat, ghost done0: set<Path>, ghost todo0: set<Path>)
      returns (end: End, stack: seq<Pending>, ghost done: set<Path>, ghost todo: set<Path>)
      requires Task(was, src, dst) && Progress(was, entries, src, dst, done0, todo0)
      requires bytes == start + SizeOf(was, src, done0) && Within(was, src, dst, done0) && d.depth == |d.rel|
      requires Front(was, src, stack0, d.rel, NamesBelow(Rels(was, src), d.rel), todo0)
      modifies this
      ensures end == Done ==> Progress(was, entries, src, dst, done, todo) && done0 <= done
      ensures end == Done ==> bytes == start + SizeOf(was, src, done) && Within(was, src, dst, done)
      ensures end == Done ==> Stacked(was, src, stack, todo)
      ensures end != Done ==> WellFormed(entries) && Safe(was, entries, src, dst) && Explained(was, src, dst, end)
      ensures History(world, old(clock), old(cancelled), clock, cancelled, end)
    {
      stack, done, todo := stack0, done0, todo0;
      ProgressSafe(was, entries, src, dst, done, todo);
      HistoryOne(world, clock, cancelled);
      var a := Ask();
      if !a.ok {
        end := Failed;
        return;
      }
      var names := Names(src + d.rel);
      SameNames(was, entries, src, dst, done, todo, d.rel, names);
      while true
        invariant History(world, old(clock), old(cancelled), clock, cancelled, Done)
        invariant Progress(was, entries, src, dst, done, todo) && done0 <= done
        invariant bytes == start + SizeOf(was, src, done) && Within(was, src, dst, done)
        invariant Front(was, src, stack, d.rel, names, todo)
        decreases names
      {
        ProgressSafe(was, entries, src, dst, done, todo);
        Ends(world, old(clock), old(cancelled), clock, cancelled);
        if cancelled {
          end := Cancelled;
          return;
        }
        ghost var t, c := clock, cancelled;
        HistoryOne(world, clock, cancelled);
        a := Ask();
        HistoryThen(world, old(clock), old(cancelled), t, c, clock, cancelled, if a.ok then Done else Failed);
        if !a.ok {
          end := Failed;
          return;
        }
        if names == {} {
          break;
        }
        var n :| n in names;
        t, c := clock, cancelled;
        end, stack, done, todo := CopyChild(src, dst, d, n, stack, was, start, done, todo, names);
        HistoryThen(world, old(clock), old(cancelled), t, c, clock, cancelled, end);
        if end != Done {
          return;
        }
        names := names - {n};
      }
      assert Tops(d.rel, names) == {};
      end := Done;
    }

    /** The names a directory lists; "." and ".." are not among them. */
    method Names(p: Path) returns (names: set<string>)
      ensures forall n :: n in names <==> p + [n] in entries
    {
      names := set q | q in entries && |q| == |p| + 1 && p <= q :: q[|p|];
      forall n ensures n in names <==> p + [n] in entries {
        if p + [n] in entries {
          assert p <= p + [n] && (p + [n])[|p|] == n;
        }
        if n in names {
          var q :| q in entries && |q| == |p| + 1 && p <= q && q[|p|] == n;
          assert q == p + [n];
        }
      }
    }

    /** One entry of the directory being read. */
    method CopyChild(src: Path, dst: Path, d: Pending, n: string, stack0: seq<Pending>, ghost was: Files,
                     ghost start: nat, ghost done0: set<Path>, ghost todo0: set<Path>, ghost names: set<string>)
      returns (end: End, stack: seq<Pending>, ghost done: set<Path>, ghost todo: set<Path>)
      requires Task(was, src, dst) && Progress(was, entries, src, dst, done0, todo0)
      requires bytes == start + SizeOf(was, src, done0) && Within(was, src, dst, done0) && d.depth == |d.rel|
      requires Front(was, src, stack0, d.rel, names, todo0) && n in names
      modifies this
      ensures end == Done ==> Progress(was, entries, src, dst, done, todo) && done0 <= done
      ensures end == Done ==> bytes == start + SizeOf(was, src, done) && Within(was, src, dst, done)
      ensures end == Done ==> Front(was, src, stack, d.rel, names - {n}, todo)
      ensures end != Done ==> WellFormed(entries) && Safe(was, entries, src, dst) && Explained(was, src, dst, end)
      ensures History(world, old(clock), old(cancelled), clock, cancelled, end)
    {
      var rel := d.rel + [n];
      stack, done, todo := stack0, done0, todo0;
      FrontTake(was, src, stack, d.rel, names, todo, n);
      SourceEntry(was, entries, src, dst, done, todo, rel);
      ProgressSafe(was, entries, src, dst, done, todo);
      end := Done;
      HistoryNone(world, clock, cancelled, Done);
      HistoryNone(world, clock, cancelled, TooLong);
      HistoryNone(world, clock, cancelled, TooDeep);
      if RelLength(rel) >= MAX_PATH {
        assert Long(was, src, dst, rel);
        end := TooLong;
      } else if entries[src + rel].Dir? {
        if d.depth + 1 >= MAX_DEPTH {
          assert Deep(was, src, rel);
          end := TooDeep;
        } else {
          HistoryOne(world, clock, cancelled);
          var a := Ask();
          if a.ok {
            FrontPush(was, src, stack, d.rel, names, todo, n);
            stack := [Pending(rel, d.depth + 1)] + stack;
          } else {
            end := Failed;
          }
        }
      } else if entries[src + rel].File? {
        if TextLength(src + rel) >= MAX_PATH || TextLength(dst + rel) >= MAX_PATH {
          assert Long(was, src, dst, rel);
          end := TooLong;
        } else {
          end := CopyOne(src, dst, rel, was, done, todo);
          if end == Done {
            SizeAdd(was, src, done, rel);
          }
        }
        done, todo := done + {rel}, todo - {rel};
      } else {
        SpecialKeeps(was, entries, src, dst, done, todo, rel);
        SizeAdd(was, src, done, rel);
        done, todo := done + {rel}, todo - {rel};
      }
    }

    /** One regular file below the two roots. */
    method CopyOne(src: Path, dst: Path, rel: Path, ghost was: Files, ghost done: set<Path>, ghost todo: set<Path>)
      returns (end: End)
      requires Task(was, src, dst) && Progress(was, entries, src, dst, done, todo)
      requires rel in todo && rel != [] && src + rel in was && was[src + rel].File?
      modifies this
      ensures end == Done ==> Progress(was, entries, src, dst, done + {rel}, todo - {rel}) && rel !in done
      ensures end == Done ==> bytes == old(bytes) + FileSize(was, src + rel)
      ensures end != Done ==> WellFormed(entries) && Safe(was, entries, src, dst) && Explained(was, src, dst, end)
      ensures History(world, old(clock), old(cancelled), clock, cancelled, end)
    {
      SourceEntry(was, entries, src, dst, done, todo, rel);
      ProgressSafe(was, entries, src, dst, done, todo);
      assert src + rel != dst + rel by {
        assert (src + rel)[..|src|] == src && (dst + rel)[..|dst|] == dst;
        assert |src| == |dst| ==> src != dst;
      }
      ghost var before := entries;
      FileOutcome(entries, src + rel, dst + rel, world, clock, cancelled);
      FileHistory(entries, src + rel, dst + rel, world, clock, cancelled);
      end := CopyFile(src + rel, dst + rel);
      if end == Done {
        FileKeeps(was, before, src, dst, done, todo, rel);
      } else {
        TouchedSafe(was, before, entries, src, dst, done, todo, rel);
        if end == Refused {
          FileRefused(was, before, src, dst, done, todo, rel);
        }
      }
    }
  }
}
