/** copy_file (src/transfer.c) as a function of what its calls answer: where it stops, what it has
    written by then, and what is left at the destination. */
module CopyRun {
  import opened Common
  import opened CopySpec

  /** What the k-th call to the file system or the allocator answers. A write of nothing counts as a
      failure, as in fs_write_all. `abort`: the job has been cancelled by the time the call returns. */
  datatype Answer = Answer(ok: bool, n: nat, abort: bool)

  /** The answers in the order of the calls; calls beyond the end succeed. */
  type World = seq<Answer>

  function At(w: World, i: nat): Answer {
    if i < |w| then w[i] else Answer(true, 0, false)
  }

  /** `moved` bytes were written and `counted` of them added to the total; `clock` calls have been made
      since the beginning. */
  datatype Run = Run(end: End, moved: nat, counted: nat, clock: nat, cancelled: bool)

  /** How much a successful read or write of up to `limit` bytes moves. */
  function Size(a: Answer, limit: nat): (n: nat)
    requires limit > 0
    ensures 0 < n <= limit
  {
    if 0 < a.n <= limit then a.n else limit
  }

  /** What a read returns of `left` bytes: no more than the buffer holds. */
  function Chunk(a: Answer, left: nat): (n: nat)
    requires left > 0
    ensures 0 < n <= left && n <= BUFFER
  {
    Size(a, if left < BUFFER then left else BUFFER)
  }

  // ---- the calls of a copy ----

  /** fs_write_all, which does not look at the cancel flag. */
  function WriteRun(w: World, left: nat, t: nat, c: bool): (r: Run)
    ensures r.counted == 0 <= r.moved <= left && (r.end == Done <==> r.moved == left) && r.end in {Done, Failed}
    decreases left
  {
    if left == 0 then Run(Done, 0, 0, t, c)
    else
      var a := At(w, t);
      if !a.ok then Run(Failed, 0, 0, t + 1, c || a.abort)
      else
        var n := Size(a, left);
        var r := WriteRun(w, left - n, t + 1, c || a.abort);
        r.(moved := n + r.moved)
  }

  /** The loop of copy_file with `left` bytes of the source still to be read. */
  function BytesRun(w: World, left: nat, t: nat, c: bool): (r: Run)
    ensures r.counted <= r.moved <= left && r.end in {Done, Cancelled, Failed}
    ensures r.end == Done ==> r.counted == left
    decreases left
  {
    if c then Run(Cancelled, 0, 0, t, c)
    else
      var a := At(w, t);
      if !a.ok then Run(Failed, 0, 0, t + 1, a.abort)
      else if left == 0 then Run(Done, 0, 0, t + 1, a.abort)
      else
        var n := Chunk(a, left);
        var put := WriteRun(w, n, t + 1, a.abort);
        if put.end != Done then put
        else
          var r := BytesRun(w, left - n, put.clock, put.cancelled);
          r.(moved := n + r.moved, counted := n + r.counted)
  }

  /** Both files are opened by the calls made at t and t + 1, the destination with truncation. */
  predicate Opened(fs: Files, src: Path, dst: Path, w: World, t: nat) {
    At(w, t).ok && !Unreadable(fs, src) && At(w, t + 1).ok && !Unwritable(fs, dst)
  }

  /** The flag after the calls of t..t + n. */
  function Noticed(w: World, t: nat, n: nat, c: bool): bool {
    if n == 0 then c else Noticed(w, t, n - 1, c) || At(w, t + n - 1).abort
  }

  function Stop(end: End, w: World, t: nat, n: nat, c: bool): Run {
    Run(end, 0, 0, t + n, Noticed(w, t, n, c))
  }

  /** With both files open: the buffer is allocated first. */
  function OpenedRun(left: nat, w: World, t: nat, c: bool): (r: Run)
    ensures r.counted <= r.moved <= left && r.end in {Done, Cancelled, Failed}
    ensures r.end == Done ==> r.counted == left
  {
    var a := At(w, t);
    if !a.ok then Run(Failed, 0, 0, t + 1, c || a.abort) else BytesRun(w, left, t + 1, c || a.abort)
  }

  lemma OpenedHistory(left: nat, w: World, t: nat, c: bool)
    ensures var r := OpenedRun(left, w, t, c); History(w, t, c, r.clock, r.cancelled, r.end)
  {
    HistoryOne(w, t, c);
    if At(w, t).ok {
      var r := BytesRun(w, left, t + 1, c || At(w, t).abort);
      BytesHistory(w, left, t + 1, c || At(w, t).abort);
      HistoryThen(w, t, c, t + 1, c || At(w, t).abort, r.clock, r.cancelled, r.end);
    }
  }

  /** The flag after one call and after two. */
  lemma NoticedTwice(w: World, t: nat, c: bool)
    ensures Noticed(w, t, 1, c) == (c || At(w, t).abort)
    ensures Noticed(w, t, 2, c) == (c || At(w, t).abort || At(w, t + 1).abort)
  {
    assert Noticed(w, t, 0, c) == c;
  }

  function FileRun(fs: Files, src: Path, dst: Path, w: World, t: nat, c: bool): (r: Run)
    ensures Opened(fs, src, dst, w, t) ==> r.moved <= |fs[src].data|
  {
    if !At(w, t).ok then Stop(Failed, w, t, 1, c)
    else if Unreadable(fs, src) then Stop(Refused, w, t, 1, c)
    else if !At(w, t + 1).ok then Stop(Failed, w, t, 2, c)
    else if Unwritable(fs, dst) then Stop(Refused, w, t, 2, c)
    else OpenedRun(|fs[src].data|, w, t + 2, Noticed(w, t, 2, c))
  }

  /** The files afterwards: a destination that was not there before is removed again on failure. */
  function FilesAfter(fs: Files, src: Path, dst: Path, w: World, t: nat, c: bool): Files {
    var r := FileRun(fs, src, dst, w, t, c);
    if !Opened(fs, src, dst, w, t) then fs
    else if r.end == Done || dst in fs then fs[dst := File(fs[src].data[..r.moved])]
    else fs
  }

  // ---- why a sequence of calls ends ----

  predicate AllOk(w: World, t: nat, t': nat) {
    forall i :: t <= i < t' ==> At(w, i).ok
  }

  predicate Aborted(w: World, t: nat, t': nat) {
    exists i :: t <= i < t' && At(w, i).abort
  }

  /** From call t to call t': the flag is what the calls made of it, only a failing call ends in
      failure and does so at once, and only the flag ends in cancellation. */
  ghost predicate History(w: World, t: nat, c: bool, t': nat, c': bool, end: End) {
    forall k {:trigger Unfold(k)} :: Unfold(k) ==>
      && t <= t' && (c' <==> c || Aborted(w, t, t'))
      && (end == Failed <==> !AllOk(w, t, t')) && (end == Cancelled ==> c')
  }

  lemma HistoryNone(w: World, t: nat, c: bool, end: End)
    requires end != Failed && (end == Cancelled ==> c)
    ensures History(w, t, c, t, c, end)
  {
  }

  lemma HistoryOne(w: World, t: nat, c: bool)
    ensures History(w, t, c, t + 1, c || At(w, t).abort, if At(w, t).ok then Done else Failed)
    ensures At(w, t).ok ==> History(w, t, c, t + 1, c || At(w, t).abort, Refused)
  {
    assert At(w, t).abort ==> Aborted(w, t, t + 1);
    assert AllOk(w, t, t + 1) ==> At(w, t).ok;
  }

  lemma HistoryThen(w: World, t: nat, c: bool, t1: nat, c1: bool, t2: nat, c2: bool, end: End)
    requires History(w, t, c, t1, c1, Done) && History(w, t1, c1, t2, c2, end)
    ensures History(w, t, c, t2, c2, end)
  {
    assert Unfold(0);
    assert AllOk(w, t, t2) ==> AllOk(w, t1, t2);
    if Aborted(w, t, t1) {
      var i :| t <= i < t1 && At(w, i).abort;
      assert t <= i < t2;
    }
    if Aborted(w, t1, t2) {
      var i :| t1 <= i < t2 && At(w, i).abort;
      assert t <= i < t2;
    }
  }

  /** What a run of successful calls may end in. */
  lemma Ends(w: World, t: nat, c: bool, t': nat, c': bool)
    requires History(w, t, c, t', c', Done)
    ensures forall end :: end != Failed && (end == Cancelled ==> c') ==> History(w, t, c, t', c', end)
    ensures c ==> c'
  {
    assert Unfold(0);
  }

  lemma {:induction false} WriteHistory(w: World, left: nat, t: nat, c: bool)
    ensures var r := WriteRun(w, left, t, c); History(w, t, c, r.clock, r.cancelled, r.end)
    decreases left
  {
    if left == 0 {
      HistoryNone(w, t, c, Done);
    } else {
      HistoryOne(w, t, c);
      if At(w, t).ok {
        var rest := left - Size(At(w, t), left);
        WriteHistory(w, rest, t + 1, c || At(w, t).abort);
        var r := WriteRun(w, rest, t + 1, c || At(w, t).abort);
        HistoryThen(w, t, c, t + 1, c || At(w, t).abort, r.clock, r.cancelled, r.end);
      }
    }
  }

  lemma {:induction false} BytesHistory(w: World, left: nat, t: nat, c: bool)
    ensures var r := BytesRun(w, left, t, c); History(w, t, c, r.clock, r.cancelled, r.end)
    decreases left
  {
    if c {
      HistoryNone(w, t, c, Cancelled);
    } else if !At(w, t).ok || left == 0 {
      HistoryOne(w, t, c);
    } else {
      var n := Chunk(At(w, t), left);
      ChunkHistory(w, n, t);
      var put := WriteRun(w, n, t + 1, At(w, t).abort);
      if put.end != Done {
        assert BytesRun(w, left, t, c) == put;
      } else {
        var rest := BytesRun(w, left - n, put.clock, put.cancelled);
        BytesHistory(w, left - n, put.clock, put.cancelled);
        HistoryThen(w, t, c, put.clock, put.cancelled, rest.clock, rest.cancelled, rest.end);
        var r := BytesRun(w, left, t, c);
        assert r.clock == rest.clock && r.cancelled == rest.cancelled && r.end == rest.end;
      }
    }
  }

  /** One read and the writes it leads to. */
  lemma ChunkHistory(w: World, n: nat, t: nat)
    requires At(w, t).ok
    ensures var put := WriteRun(w, n, t + 1, At(w, t).abort); History(w, t, false, put.clock, put.cancelled, put.end)
  {
    var put := WriteRun(w, n, t + 1, At(w, t).abort);
    HistoryOne(w, t, false);
    WriteHistory(w, n, t + 1, At(w, t).abort);
    HistoryThen(w, t, false, t + 1, At(w, t).abort, put.clock, put.cancelled, put.end);
  }

  lemma {:induction false} OkHistory(w: World, t: nat, n: nat, c: bool)
    requires AllOk(w, t, t + n)
    ensures History(w, t, c, t + n, Noticed(w, t, n, c), Done)
  {
    if n == 0 {
      HistoryNone(w, t, c, Done);
    } else {
      OkHistory(w, t, n - 1, c);
      HistoryOne(w, t + n - 1, Noticed(w, t, n - 1, c));
      assert At(w, t + n - 1).ok;
      HistoryThen(w, t, c, t + n - 1, Noticed(w, t, n - 1, c), t + n, Noticed(w, t, n, c), Done);
    }
  }

  lemma StopHistory(end: End, w: World, t: nat, n: nat, c: bool)
    requires n > 0 && AllOk(w, t, t + n - 1) && end == if At(w, t + n - 1).ok then Refused else Failed
    ensures History(w, t, c, t + n, Noticed(w, t, n, c), end)
  {
    OkHistory(w, t, n - 1, c);
    HistoryOne(w, t + n - 1, Noticed(w, t, n - 1, c));
    HistoryThen(w, t, c, t + n - 1, Noticed(w, t, n - 1, c), t + n, Noticed(w, t, n, c), end);
  }

  /** A copy fails exactly if one of its calls did, and is cancelled only if the flag was set. */
  lemma FileHistory(fs: Files, src: Path, dst: Path, w: World, t: nat, c: bool)
    ensures var r := FileRun(fs, src, dst, w, t, c); History(w, t, c, r.clock, r.cancelled, r.end)
  {
    if !At(w, t).ok {
      StopHistory(Failed, w, t, 1, c);
    } else if Unreadable(fs, src) {
      StopHistory(Refused, w, t, 1, c);
    } else if !At(w, t + 1).ok {
      StopHistory(Failed, w, t, 2, c);
    } else if Unwritable(fs, dst) {
      StopHistory(Refused, w, t, 2, c);
    } else {
      OkHistory(w, t, 2, c);
      OpenedHistory(|fs[src].data|, w, t + 2, Noticed(w, t, 2, c));
      var r := FileRun(fs, src, dst, w, t, c);
      HistoryThen(w, t, c, t + 2, Noticed(w, t, 2, c), r.clock, r.cancelled, r.end);
    }
  }

  // ---- what a copy leaves ----

  /** Success copies and counts everything; anything else leaves at most a beginning of the source in
      a file that was there; and a refusal has its reason in the files. */
  lemma FileOutcome(fs: Files, src: Path, dst: Path, w: World, t: nat, c: bool)
    ensures var r, now := FileRun(fs, src, dst, w, t, c), FilesAfter(fs, src, dst, w, t, c);
      && r.end in {Done, Cancelled, Failed, Refused}
      && (r.end == Done ==> !Unfit(fs, src, dst) && now == fs[dst := fs[src]] && r.counted == |fs[src].data|)
      && (r.end != Done ==> Touched(fs, now, src, dst))
      && (r.end == Refused ==> Unfit(fs, src, dst))
  {
    var r, now := FileRun(fs, src, dst, w, t, c), FilesAfter(fs, src, dst, w, t, c);
    if Opened(fs, src, dst, w, t) {
      var data := fs[src].data;
      if r.end == Done {
        assert data[..r.moved] == data;
      }
    }
  }

  /** When a copy that did not succeed leaves an existing destination as it was: if it stopped before
      the open that truncates, or if what it wrote is what was there. */
  lemma ExistingFileKept(fs: Files, src: Path, dst: Path, w: World, t: nat, c: bool)
    requires dst in fs && fs[dst].File? && FileRun(fs, src, dst, w, t, c).end != Done
    ensures var r := FileRun(fs, src, dst, w, t, c);
      FilesAfter(fs, src, dst, w, t, c) == fs <==>
      (Opened(fs, src, dst, w, t) ==> fs[dst].data == fs[src].data[..r.moved])
  {
    var r := FileRun(fs, src, dst, w, t, c);
    if Opened(fs, src, dst, w, t) {
      var now := fs[dst := File(fs[src].data[..r.moved])];
      assert now[dst] == File(fs[src].data[..r.moved]);
      if fs[dst].data == fs[src].data[..r.moved] {
        assert now == fs;
      }
    }
  }

  /** Told from the inputs alone: a file that is no beginning of the source survives a copy that does
      not succeed exactly if that copy never gets to open both files. */
  lemma ForeignFileKept(fs: Files, src: Path, dst: Path, w: World, t: nat, c: bool)
    requires dst in fs && fs[dst].File? && FileRun(fs, src, dst, w, t, c).end != Done
    requires Unreadable(fs, src) || !(fs[dst].data <= fs[src].data)
    ensures FilesAfter(fs, src, dst, w, t, c) == fs <==> !Opened(fs, src, dst, w, t)
  {
    ExistingFileKept(fs, src, dst, w, t, c);
  }

  /** So "left untouched" fails for every copy cancelled before it starts: the destination is emptied. */
  lemma CancelledCopyEmpties(fs: Files, src: Path, dst: Path, w: World, t: nat)
    requires dst in fs && Opened(fs, src, dst, w, t)
    ensures var r, now := FileRun(fs, src, dst, w, t, true), FilesAfter(fs, src, dst, w, t, true);
      r.end != Done && now == fs[dst := File([])]
  {
    NoticedTwice(w, t, true);
    assert fs[src].data[..0] == [];
  }

  lemma SecondReadFails(w: World)
    requires forall i :: 0 <= i < 5 ==> At(w, i) == Answer(true, 1, false)
    requires At(w, 5) == Answer(false, 0, false)
    ensures OpenedRun(1, w, 2, false) == Run(Failed, 1, 1, 6, false)
  {
    assert At(w, 2).ok && At(w, 3).ok && At(w, 4).ok;
    assert WriteRun(w, 0, 5, false) == Run(Done, 0, 0, 5, false);
    assert WriteRun(w, 1, 4, false) == Run(Done, 1, 0, 5, false);
    assert BytesRun(w, 0, 5, false) == Run(Failed, 0, 0, 6, false);
    assert BytesRun(w, 1, 3, false) == Run(Failed, 1, 1, 6, false);
  }

  /** And for this one, whose second read fails: one byte of the source replaces two of the old file. */
  lemma FailedCopyOverwrites(src: Path, dst: Path, fs: Files, w: World, a: Byte, b: Byte)
    requires src == ["s"] && dst == ["d"] && fs == map[[] := Dir, src := File([a]), dst := File([b, b])]
    requires w == seq(5, _ => Answer(true, 1, false)) + [Answer(false, 0, false)]
    ensures FileRun(fs, src, dst, w, 0, false).end == Failed
    ensures FilesAfter(fs, src, dst, w, 0, false) == fs[dst := File([a])]
  {
    assert src[0] != dst[0];
    assert forall i :: 0 <= i < 5 ==> At(w, i) == Answer(true, 1, false);
    SecondReadFails(w);
    NoticedTwice(w, 0, false);
    assert At(w, 0).ok && At(w, 1).ok && Opened(fs, src, dst, w, 0);
    assert FileRun(fs, src, dst, w, 0, false) == Run(Failed, 1, 1, 6, false);
    assert [a][..1] == [a];
  }
}
