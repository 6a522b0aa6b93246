/** The RETR, STOR and APPE loops (src/transfer.c) under any schedule of short reads and writes,
    retries, errors and cancellation, and the file writes they make (src/fs_mem.c). */
module Transfer {
  import opened Common
  import opened Schedules

  /** `moved` bytes went through, `counted` of them are in the progress counter. */
  datatype Run = Run(moved: nat, counted: nat, end: End, rest: Schedule)

  function Min(a: nat, b: nat): nat {
    if a < b then a else b
  }

  /** At least one byte, at most `limit`. */
  function Clip(n: nat, limit: nat): (k: nat)
    requires limit > 0
    ensures 0 < k <= limit
  {
    if n == 0 then 1 else Min(n, limit)
  }

  /** `r` is `q` after d bytes that went through and were counted. */
  ghost predicate Later(r: Run, q: Run, d: nat) {
    r.end == q.end && r.moved == d + q.moved && r.counted == d + q.counted
  }

  // ---- send_all ----

  function SendRun(len: nat, s: Schedule): (r: Run)
    ensures r.moved <= len && |r.rest| <= |s| && (r.end == Complete <==> r.moved == len)
    decreases |s|
  {
    if len == 0 then Run(0, 0, Complete, s)
    else if s == [] then Run(0, 0, Blocked, s)
    else
      match s[0]
      case Cancel => Run(0, 0, Cancelled, s[1..])
      case Error => Run(0, 0, Failed, s[1..])
      case Again => SendRun(len, s[1..])
      case Move(n) =>
        var k := Clip(n, len);
        var r := SendRun(len - k, s[1..]);
        r.(moved := k + r.moved)
  }

  method SendAll(data: seq<Byte>, s: Schedule) returns (out: seq<Byte>, end: End, rest: Schedule)
    ensures var r := SendRun(|data|, s); end == r.end && rest == r.rest && out == data[..r.moved]
  {
    var off := 0;
    rest := s;
    while off < |data|
      invariant 0 <= off <= |data|
      invariant var r, q := SendRun(|data|, s), SendRun(|data| - off, rest);
        r.end == q.end && r.rest == q.rest && r.moved == off + q.moved
      decreases |rest|
    {
      if rest == [] {
        return data[..off], Blocked, rest;
      }
      var e := rest[0];
      rest := rest[1..];
      match e
      case Cancel => return data[..off], Cancelled, rest;
      case Error => return data[..off], Failed, rest;
      case Again =>
      case Move(n) => off := off + Clip(n, |data| - off);
    }
    return data[..off], Complete, rest;
  }

  /** Sending stops only for a reason. */
  lemma {:induction false} SendStops(len: nat, s: Schedule)
    ensures var r := SendRun(len, s);
      Stops(s, r.rest, r.end)
    decreases |s|
  {
    if len == 0 || s == [] || s[0].Error? || s[0].Cancel? {
      StopsHere(s);
    } else {
      var fewer := if s[0].Again? then len else len - Clip(s[0].n, len);
      var r, q := SendRun(len, s), SendRun(fewer, s[1..]);
      assert r.rest == q.rest && r.end == q.end;
      SendStops(fewer, s[1..]);
      StopsLater(s, q.rest, q.end);
    }
  }

  /** Only a schedule with too few moves runs out: one for every byte suffices. */
  lemma {:induction false} SendMoves(len: nat, s: Schedule)
    ensures var r := SendRun(len, s);
      (r.end == Blocked ==> Moves(s) < len) && (r.end == Complete ==> Moves(s) <= Moves(r.rest) + len)
    decreases |s|
  {
    if len > 0 && s != [] {
      match s[0]
      case Again => SendMoves(len, s[1..]);
      case Move(n) => SendMoves(len - Clip(n, len), s[1..]);
      case Cancel =>
      case Error =>
    }
  }

  // ---- RETR ----

  /** What the loop still has to send is `left` bytes long. */
  function RetrRun(left: nat, s: Schedule): (r: Run)
    ensures r.moved <= left && |r.rest| <= |s|
    decreases |s|
  {
    if s == [] then Run(0, 0, Blocked, s)
    else
      match s[0]
      case Cancel => Run(0, 0, Cancelled, s[1..])
      case Error => Run(0, 0, Failed, s[1..])
      case Again => RetrRun(left, s[1..])
      case Move(n) =>
        if left == 0 then Run(0, 0, Complete, s[1..])
        else
          var k := Clip(n, Min(left, BUFFER));
          var sent := SendRun(k, s[1..]);
          if sent.end != Complete then sent
          else
            var r := RetrRun(left - k, sent.rest);
            Run(k + r.moved, k + r.counted, r.end, r.rest)
  }

  method Retr(file: seq<Byte>, restart: nat, s: Schedule) returns (out: seq<Byte>, end: End, bytes: nat)
    ensures var from := Min(restart, |file|);
      var r := RetrRun(|file| - from, s);
      end == r.end && bytes == r.counted && out == file[from..from + r.moved]
  {
    var from := Min(restart, |file|);
    var pos, rest := from, s;
    out, bytes := [], 0;
    ghost var run := RetrRun(|file| - from, s);
    while true
      invariant from <= pos <= |file| && out == file[from..pos] && bytes == pos - from
      invariant Later(run, RetrRun(|file| - pos, rest), pos - from)
      decreases |rest|
    {
      if rest == [] {
        end := Blocked;
        return;
      }
      var e := rest[0];
      rest := rest[1..];
      match e
      case Cancel =>
        end := Cancelled;
        return;
      case Error =>
        end := Failed;
        return;
      case Again =>
      case Move(n) =>
        if pos == |file| {
          end := Complete;
          return;
        }
        var k := Clip(n, Min(|file| - pos, BUFFER));
        SendCounts(k, rest);
        out, end, rest := SendChunk(file, from, pos, k, out, rest);
        if end != Complete {
          return;
        }
        pos := pos + k;
        bytes := bytes + k;
    }
  }

  /** The k bytes just read. */
  method SendChunk(file: seq<Byte>, ghost from: nat, pos: nat, k: nat, out: seq<Byte>, s: Schedule)
    returns (more: seq<Byte>, end: End, rest: Schedule)
    requires from <= pos && pos + k <= |file| && out == file[from..pos]
    ensures var r := SendRun(k, s); end == r.end && rest == r.rest && more == file[from..pos + r.moved]
  {
    var sent: seq<Byte>;
    var chunk := file[pos..pos + k];
    sent, end, rest := SendAll(chunk, s);
    more := out + sent;
    assert sent == file[pos..pos + |sent|];
  }

  /** transfer_retr as its client sees it. */
  method Download(file: seq<Byte>, restart: nat, s: Schedule) returns (out: seq<Byte>, end: End, bytes: nat)
    ensures var rest := file[Min(restart, |file|)..];
      && out <= rest && bytes <= |out| && (end == Complete ==> out == rest && bytes == |out|)
      && (Smooth(s) && Moves(s) > 2 * |rest| ==> end == Complete)
  {
    var from := Min(restart, |file|);
    if Smooth(s) && Moves(s) > 2 * (|file| - from) {
      RetrCompletes(|file| - from, s);
    }
    RetrPrefix(|file| - from, s);
    out, end, bytes := Retr(file, restart, s);
    assert file[from..] == file[from..from + |out|] + file[from + |out|..];
  }

  /** What decides the result once everything has been sent: the next answer that is not a retry. */
  function Verdict(s: Schedule): End {
    if s == [] then Blocked
    else
      match s[0]
      case Cancel => Cancelled
      case Error => Failed
      case Again => Verdict(s[1..])
      case Move(_) => Complete
  }

  /** The schedule that is left when the last byte has just been sent, if that happens. */
  function AfterLast(left: nat, s: Schedule): Schedule
    decreases |s|
  {
    if left == 0 || s == [] then s
    else
      match s[0]
      case Again => AfterLast(left, s[1..])
      case Move(n) =>
        var k := Clip(n, Min(left, BUFFER));
        var sent := SendRun(k, s[1..]);
        if sent.end == Complete then AfterLast(left - k, sent.rest) else sent.rest
      case Cancel => s[1..]
      case Error => s[1..]
  }

  /** RETR sends a prefix of the rest of the file; the counter never runs ahead and lags by less
      than a buffer; success means everything went out and was counted. */
  lemma {:induction false} RetrPrefix(left: nat, s: Schedule)
    ensures var r := RetrRun(left, s);
      r.moved <= left && r.counted <= r.moved < r.counted + BUFFER &&
      (r.end == Complete ==> r.moved == r.counted == left)
    decreases |s|
  {
    if s != [] {
      match s[0]
      case Again => RetrPrefix(left, s[1..]);
      case Cancel =>
      case Error =>
      case Move(n) =>
        if left > 0 {
          var k := Clip(n, Min(left, BUFFER));
          var sent := SendRun(k, s[1..]);
          SendCounts(k, s[1..]);
          if sent.end == Complete {
            RetrPrefix(left - k, sent.rest);
          }
        }
    }
  }

  lemma {:induction false} SendCounts(len: nat, s: Schedule)
    ensures SendRun(len, s).counted == 0
    decreases |s|
  {
    if len > 0 && s != [] {
      match s[0]
      case Again => SendCounts(len, s[1..]);
      case Move(n) => SendCounts(len - Clip(n, len), s[1..]);
      case Cancel =>
      case Error =>
    }
  }

  /** RETR stops only for a reason. */
  lemma {:induction false} RetrStops(left: nat, s: Schedule)
    ensures var r := RetrRun(left, s); Stops(s, r.rest, r.end)
    decreases |s|
  {
    if s == [] || s[0].Error? || s[0].Cancel? || (s[0].Move? && left == 0) {
      StopsHere(s);
    } else if s[0].Again? {
      var q := RetrRun(left, s[1..]);
      RetrStops(left, s[1..]);
      StopsLater(s, q.rest, q.end);
    } else {
      var k := Clip(s[0].n, Min(left, BUFFER));
      var sent := SendRun(k, s[1..]);
      ChunkStops(k, s);
      if sent.end == Complete {
        var q := RetrRun(left - k, sent.rest);
        assert RetrRun(left, s).rest == q.rest && RetrRun(left, s).end == q.end;
        RetrStops(left - k, sent.rest);
        StopsThen(s, sent.rest, q.rest, q.end);
      }
    }
  }

  /** A read and a send for every byte, and the read that meets the end, suffice. */
  lemma {:induction false} RetrMoves(left: nat, s: Schedule)
    ensures RetrRun(left, s).end == Blocked ==> Moves(s) <= 2 * left
    decreases |s|
  {
    if s != [] {
      match s[0]
      case Again => RetrMoves(left, s[1..]);
      case Cancel =>
      case Error =>
      case Move(n) =>
        if left > 0 {
          var k := Clip(n, Min(left, BUFFER));
          SendMoves(k, s[1..]);
          if SendRun(k, s[1..]).end == Complete {
            RetrMoves(left - k, SendRun(k, s[1..]).rest);
          }
        }
    }
  }

  /** One read and the sends that follow it. */
  lemma ChunkStops(k: nat, s: Schedule)
    requires s != [] && s[0].Move?
    ensures var sent := SendRun(k, s[1..]); Stops(s, sent.rest, sent.end)
  {
    SendStops(k, s[1..]);
    var sent := SendRun(k, s[1..]);
    StopsLater(s, sent.rest, sent.end);
  }

  /** So a RETR that meets no error and no ABOR, and is given the moves it needs, completes. */
  lemma RetrCompletes(left: nat, s: Schedule)
    requires Smooth(s) && Moves(s) > 2 * left
    ensures RetrRun(left, s).end == Complete && RetrRun(left, s).moved == left
  {
    RetrStops(left, s);
    RetrMoves(left, s);
    RetrPrefix(left, s);
    SmoothEnds(s, RetrRun(left, s).rest, RetrRun(left, s).end);
  }

  /** Everything sent does not yet mean success: the loop asks once more, and succeeds exactly if
      the next answer is an end of file rather than a cancellation or an error. */
  lemma {:induction false} RetrResult(left: nat, s: Schedule)
    ensures var r := RetrRun(left, s);
      r.moved == left ==> r.end == Verdict(AfterLast(left, s))
    ensures RetrRun(left, s).end == Complete <==>
      RetrRun(left, s).moved == left && Verdict(AfterLast(left, s)) == Complete
    decreases |s|
  {
    RetrPrefix(left, s);
    if left == 0 {
      RetrNothing(s);
    } else if s != [] {
      match s[0]
      case Again => RetrResult(left, s[1..]);
      case Cancel =>
      case Error =>
      case Move(n) =>
        var k := Clip(n, Min(left, BUFFER));
        var sent := SendRun(k, s[1..]);
        if sent.end == Complete {
          RetrResult(left - k, sent.rest);
        }
    }
  }

  lemma {:induction false} RetrNothing(s: Schedule)
    ensures RetrRun(0, s).end == Verdict(s) && RetrRun(0, s).moved == 0
  {
    if s != [] && s[0].Again? {
      RetrNothing(s[1..]);
    }
  }

  /** ABOR after the last byte: all of it was sent, and yet the transfer is cancelled. */
  lemma SentButCancelled()
    ensures RetrRun(1, [Move(1), Move(1), Cancel]) == Run(1, 1, Cancelled, [])
  {
    var s := [Move(1), Move(1), Cancel];
    assert s[1..] == [Move(1), Cancel] && s[1..][1..] == [Cancel] && [Cancel][1..] == [];
    assert SendRun(1, s[1..]) == Run(1, 0, Complete, [Cancel]);
  }

  // ---- writing a file ----

  /** `data` written at `pos`, the gap before it filled with zeros. */
  function WriteAt(file: seq<Byte>, pos: nat, data: seq<Byte>): seq<Byte> {
    if data == [] then file
    else
      var padded := file + Zeros(if pos + |data| > |file| then pos + |data| - |file| else 0);
      padded[..pos] + data + padded[pos + |data|..]
  }

  function Zeros(n: nat): seq<Byte> {
    seq(n, _ => 0)
  }

  /** Byte by byte. */
  lemma WriteAtIndex(file: seq<Byte>, pos: nat, data: seq<Byte>, i: nat)
    requires data != []
    ensures |WriteAt(file, pos, data)| == if pos + |data| > |file| then pos + |data| else |file|
    ensures i < |WriteAt(file, pos, data)| ==>
      WriteAt(file, pos, data)[i] == if pos <= i < pos + |data| then data[i - pos] else if i < |file| then file[i] else 0
  {
  }

  lemma WriteOnAt(file: seq<Byte>, pos: nat, a: seq<Byte>, b: seq<Byte>, i: nat)
    requires a != [] && b != []
    ensures var once, twice := WriteAt(file, pos, a + b), WriteAt(WriteAt(file, pos, a), pos + |a|, b);
      |once| == |twice| && (i < |once| ==> once[i] == twice[i])
  {
    WriteAtIndex(file, pos, a, i);
    WriteAtIndex(file, pos, a + b, i);
    WriteAtIndex(WriteAt(file, pos, a), pos + |a|, b, i);
  }

  /** Writing piece after piece is writing all of it. */
  lemma WriteOn(file: seq<Byte>, pos: nat, a: seq<Byte>, b: seq<Byte>)
    ensures WriteAt(WriteAt(file, pos, a), pos + |a|, b) == WriteAt(file, pos, a + b)
  {
    if a == [] {
      assert a + b == b;
    } else if b == [] {
      assert a + b == a;
    } else {
      var once, twice := WriteAt(file, pos, a + b), WriteAt(WriteAt(file, pos, a), pos + |a|, b);
      WriteOnAt(file, pos, a, b, 0);
      forall i | 0 <= i < |once| ensures once[i] == twice[i] {
        WriteOnAt(file, pos, a, b, i);
      }
    }
  }

  /** `now` is `file` with the first n bytes of `data` written at `pos`. */
  ghost predicate HasPart(now: seq<Byte>, file: seq<Byte>, pos: nat, data: seq<Byte>, n: nat) {
    n <= |data| && forall k {:trigger Unfold(k)} :: Unfold(k) ==> now == WriteAt(file, pos, data[..n])
  }

  lemma NoPart(file: seq<Byte>, pos: nat, data: seq<Byte>)
    ensures HasPart(file, file, pos, data, 0)
  {
    assert data[..0] == [];
  }

  /** The next piece: `more` is the `piece` written where the last one ended. */
  lemma NextPart(more: seq<Byte>, now: seq<Byte>, file: seq<Byte>, pos: nat, data: seq<Byte>, n: nat, k: nat, m: nat)
    requires HasPart(now, file, pos, data, n) && n + k <= |data| && HasPart(more, now, pos + n, data[n..n + k], m)
    ensures HasPart(more, file, pos, data, n + m)
  {
    assert Unfold(0);
    var piece := data[n..n + m];
    assert data[n..n + k][..m] == piece && data[..n] + piece == data[..n + m];
    WriteOn(file, pos, data[..n], piece);
  }

  lemma OnePart(now: seq<Byte>, pos: nat, piece: seq<Byte>)
    ensures HasPart(WriteAt(now, pos, piece), now, pos, piece, |piece|)
  {
    assert piece[..|piece|] == piece;
  }

  // ---- STOR and APPE ----

  /** fs_write_all: not interrupted by ABOR, which is only noted for later. */
  datatype Written = Written(moved: nat, ok: bool, blocked: bool, aborted: bool, rest: Schedule)

  function WriteRun(len: nat, aborted: bool, s: Schedule): (w: Written)
    ensures w.moved <= len && |w.rest| <= |s| && (w.ok <==> w.moved == len) && !(w.ok && w.blocked)
    decreases |s|
  {
    if len == 0 then Written(0, true, false, aborted, s)
    else if s == [] then Written(0, false, true, aborted, s)
    else
      match s[0]
      case Cancel => WriteRun(len, true, s[1..])
      case Error => Written(0, false, false, aborted, s[1..])
      case Again => WriteRun(len, aborted, s[1..])
      case Move(n) =>
        var k := Clip(n, len);
        var w := WriteRun(len - k, aborted, s[1..]);
        w.(moved := k + w.moved)
  }

  ghost predicate LaterWrite(w: Written, q: Written, d: nat) {
    w.ok == q.ok && w.blocked == q.blocked && w.aborted == q.aborted && w.rest == q.rest && w.moved == d + q.moved
  }

  method WriteAll(file: seq<Byte>, pos: nat, data: seq<Byte>, aborted: bool, s: Schedule)
    returns (now: seq<Byte>, ok: bool, blocked: bool, late: bool, rest: Schedule)
    ensures var w := WriteRun(|data|, aborted, s);
      ok == w.ok && blocked == w.blocked && late == w.aborted && rest == w.rest &&
      HasPart(now, file, pos, data, w.moved)
  {
    var off := 0;
    now, rest, late := file, s, aborted;
    ghost var run := WriteRun(|data|, aborted, s);
    NoPart(file, pos, data);
    while off < |data|
      invariant 0 <= off <= |data| && HasPart(now, file, pos, data, off)
      invariant LaterWrite(run, WriteRun(|data| - off, late, rest), off)
      decreases |rest|
    {
      if rest == [] {
        return now, false, true, late, rest;
      }
      var e := rest[0];
      rest := rest[1..];
      match e
      case Cancel => late := true;
      case Error => return now, false, false, late, rest;
      case Again =>
      case Move(n) =>
        var k := Clip(n, |data| - off);
        now := WriteOne(file, pos, data, off, k, now);
        off := off + k;
    }
    return now, true, false, late, rest;
  }

  /** One fs->write, at the descriptor's position. */
  method WriteOne(ghost file: seq<Byte>, pos: nat, data: seq<Byte>, off: nat, k: nat, now: seq<Byte>)
    returns (more: seq<Byte>)
    requires off + k <= |data| && HasPart(now, file, pos, data, off)
    ensures HasPart(more, file, pos, data, off + k)
  {
    var piece := data[off..off + k];
    more := WriteAt(now, pos + off, piece);
    OnePart(now, pos + off, piece);
    NextPart(more, now, file, pos, data, off, k, k);
  }

  /** `left` bytes are still to come before the client closes. */
  function StorRun(left: nat, aborted: bool, s: Schedule): (r: Run)
    ensures r.moved <= left && |r.rest| <= |s|
    decreases |s|
  {
    if aborted then Run(0, 0, Cancelled, s)
    else if s == [] then Run(0, 0, Blocked, s)
    else
      match s[0]
      case Cancel => Run(0, 0, Cancelled, s[1..])
      case Error => Run(0, 0, Failed, s[1..])
      case Again => StorRun(left, aborted, s[1..])
      case Move(n) =>
        if left == 0 then Run(0, 0, Complete, s[1..])
        else
          var k := Clip(n, Min(left, BUFFER));
          var w := WriteRun(k, false, s[1..]);
          if !w.ok then Run(w.moved, 0, if w.blocked then Blocked else Failed, w.rest)
          else
            var r := StorRun(left - k, w.aborted, w.rest);
            Run(k + r.moved, k + r.counted, r.end, r.rest)
  }

  /** The k bytes just received. */
  method StoreChunk(ghost file: seq<Byte>, pos: nat, upload: seq<Byte>, got: nat, k: nat, now: seq<Byte>, s: Schedule)
    returns (more: seq<Byte>, ok: bool, blocked: bool, aborted: bool, rest: Schedule)
    requires got + k <= |upload| && HasPart(now, file, pos, upload, got)
    ensures var w := WriteRun(k, false, s);
      ok == w.ok && blocked == w.blocked && aborted == w.aborted && rest == w.rest &&
      HasPart(more, file, pos, upload, got + w.moved)
  {
    var chunk := upload[got..got + k];
    assert |chunk| == k;
    more, ok, blocked, aborted, rest := WriteAll(now, pos + got, chunk, false, s);
    NextPart(more, now, file, pos, upload, got, k, WriteRun(k, false, s).moved);
  }

  /** The part of transfer_stor after the file is open and positioned at `pos`. */
  method Stor(file: seq<Byte>, pos: nat, upload: seq<Byte>, s: Schedule)
    returns (now: seq<Byte>, end: End, bytes: nat)
    ensures var r := StorRun(|upload|, false, s);
      end == r.end && bytes == r.counted && HasPart(now, file, pos, upload, r.moved)
  {
    var got, rest, aborted := 0, s, false;
    now, bytes := file, 0;
    ghost var run := StorRun(|upload|, false, s);
    NoPart(file, pos, upload);
    while true
      invariant 0 <= got <= |upload| && HasPart(now, file, pos, upload, got) && bytes == got
      invariant Later(run, StorRun(|upload| - got, aborted, rest), got)
      decreases |rest|
    {
      if aborted {
        end := Cancelled;
        return;
      }
      if rest == [] {
        end := Blocked;
        return;
      }
      var e := rest[0];
      rest := rest[1..];
      match e
      case Cancel =>
        end := Cancelled;
        return;
      case Error =>
        end := Failed;
        return;
      case Again =>
      case Move(n) =>
        if got == |upload| {
          end := Complete;
          return;
        }
        var k := Clip(n, Min(|upload| - got, BUFFER));
        var ok, blocked;
        now, ok, blocked, aborted, rest := StoreChunk(file, pos, upload, got, k, now, rest);
        if !ok {
          end := if blocked then Blocked else Failed;
          return;
        }
        got := got + k;
        bytes := bytes + k;
    }
  }

  /** An upload stores a beginning of what the client sent, and all of it if it completes. */
  lemma {:induction false} StorPrefix(left: nat, aborted: bool, s: Schedule)
    ensures var r := StorRun(left, aborted, s);
      r.counted <= r.moved <= left && (r.end == Complete ==> r.moved == r.counted == left)
    decreases |s|
  {
    if !aborted && s != [] {
      match s[0]
      case Again => StorPrefix(left, aborted, s[1..]);
      case Cancel =>
      case Error =>
      case Move(n) =>
        if left > 0 {
          var k := Clip(n, Min(left, BUFFER));
          var w := WriteRun(k, false, s[1..]);
          if w.ok {
            StorPrefix(left - k, w.aborted, w.rest);
          }
        }
    }
  }

  // ---- why an upload ends ----

  /** What a write has used up: `body`, and an error after it if it failed. */
  ghost predicate WriteUses(s: Schedule, w: Written, len: nat, aborted: bool, body: Schedule) {
    && NoError(body) && Moves(body) <= len && (w.aborted <==> aborted || !Smooth(body))
    && (w.blocked ==> w.rest == [] && Moves(body) < len)
    && s == body + (if w.ok || w.blocked then [] else [Error]) + w.rest
  }

  lemma {:induction false} WriteBody(len: nat, aborted: bool, s: Schedule) returns (body: Schedule)
    ensures WriteUses(s, WriteRun(len, aborted, s), len, aborted, body)
    decreases |s|
  {
    if len == 0 || s == [] || s[0].Error? {
      body := [];
      assert s != [] ==> s == [s[0]] + s[1..];
    } else {
      var fewer := if s[0].Move? then len - Clip(s[0].n, len) else len;
      var more := WriteBody(fewer, aborted || s[0].Cancel?, s[1..]);
      body := [s[0]] + more;
      WriteBodyMore(len, aborted, s, fewer, more);
    }
  }

  lemma WriteBodyMore(len: nat, aborted: bool, s: Schedule, fewer: nat, more: Schedule)
    requires len > 0 && s != [] && !s[0].Error? && fewer == if s[0].Move? then len - Clip(s[0].n, len) else len
    requires WriteUses(s[1..], WriteRun(fewer, aborted || s[0].Cancel?, s[1..]), fewer, aborted || s[0].Cancel?, more)
    ensures WriteUses(s, WriteRun(len, aborted, s), len, aborted, [s[0]] + more)
  {
    var body := [s[0]] + more;
    var w, v := WriteRun(len, aborted, s), WriteRun(fewer, aborted || s[0].Cancel?, s[1..]);
    assert w.ok == v.ok && w.blocked == v.blocked && w.aborted == v.aborted && w.rest == v.rest;
    FirstEvent(s[0], more);
    var last := if w.ok || w.blocked then [] else [Error];
    assert body + last + w.rest == [s[0]] + (more + last + w.rest);
    assert s == [s[0]] + s[1..];
  }

  /** A turn whose write did not go through, or went through while a cancellation arrived. */
  lemma LastTurnStops(s: Schedule, k: nat, body: Schedule)
    requires s != [] && s[0].Move? && k <= BUFFER && WriteUses(s[1..], WriteRun(k, false, s[1..]), k, false, body)
    ensures var w := WriteRun(k, false, s[1..]);
      && (!w.ok ==> StorStops(s, w.rest, if w.blocked then Blocked else Failed))
      && (w.ok && w.aborted ==> StorStops(s, w.rest, Cancelled))
  {
    var w := WriteRun(k, false, s[1..]);
    HeededShort(body);
    HeededThen([s[0]], body);
    var all := [s[0]] + body;
    assert s == [s[0]] + s[1..];
    if !w.ok && !w.blocked {
      var used := all + [Error];
      assert used[..|used| - 1] == all;
      assert s == used + w.rest;
      StorStopsBy(s, used, w.rest, Failed);
    } else {
      assert s == all + w.rest;
      if w.aborted {
        var i :| 0 <= i < |body| && !(body[i].Move? || body[i].Again?);
        assert all[i + 1] == body[i];
      }
      if !w.ok {
        StorStopsBy(s, all, w.rest, Blocked);
      } else if w.aborted {
        StorStopsBy(s, all, w.rest, Cancelled);
      }
    }
  }

  /** STOR and APPE stop only for a reason, and heed a cancellation before the next read. */
  lemma {:induction false} UploadStops(left: nat, s: Schedule)
    ensures var r := StorRun(left, false, s); StorStops(s, r.rest, r.end)
    decreases |s|
  {
    if s == [] {
      StorStopsBy(s, [], s, Blocked);
    } else if s[0].Error? || s[0].Cancel? || (s[0].Move? && left == 0) {
      var one := [s[0]];
      assert s == one + s[1..] && one[..0] == [] && one[0..] == one;
      HeededShort([]);
      if !s[0].Error? {
        HeededShort(one);
        assert !one[0].Again?;
      }
      StorStopsBy(s, one, s[1..], StorRun(left, false, s).end);
    } else if s[0].Again? {
      var q := StorRun(left, false, s[1..]);
      UploadStops(left, s[1..]);
      assert s == [s[0]] + s[1..];
      StorStopsThen(s, [s[0]], s[1..], q.rest, q.end);
    } else {
      var k := Clip(s[0].n, Min(left, BUFFER));
      var w := WriteRun(k, false, s[1..]);
      var body := WriteBody(k, false, s[1..]);
      if w.ok && !w.aborted {
        UploadStops(left - k, w.rest);
        NextTurnStops(left, s, k, body);
      } else {
        LastTurnStops(s, k, body);
        TurnEnds(left, s, k);
      }
    }
  }

  lemma TurnEnds(left: nat, s: Schedule, k: nat)
    requires left > 0 && s != [] && s[0].Move? && k == Clip(s[0].n, Min(left, BUFFER))
    ensures var r, w := StorRun(left, false, s), WriteRun(k, false, s[1..]);
      && (!w.ok ==> r.rest == w.rest && r.end == if w.blocked then Blocked else Failed)
      && (w.ok && w.aborted ==> r.rest == w.rest && r.end == Cancelled)
      && (w.ok && !w.aborted ==>
            r.rest == StorRun(left - k, false, w.rest).rest && r.end == StorRun(left - k, false, w.rest).end)
  {
  }

  /** A turn whose write went through undisturbed. */
  lemma NextTurnStops(left: nat, s: Schedule, k: nat, body: Schedule)
    requires left > 0 && s != [] && s[0].Move? && k == Clip(s[0].n, Min(left, BUFFER))
    requires WriteUses(s[1..], WriteRun(k, false, s[1..]), k, false, body)
    requires var w := WriteRun(k, false, s[1..]);
      var q := StorRun(left - k, false, w.rest);
      w.ok && !w.aborted && StorStops(w.rest, q.rest, q.end)
    ensures var r := StorRun(left, false, s); StorStops(s, r.rest, r.end)
  {
    var w := WriteRun(k, false, s[1..]);
    var q := StorRun(left - k, false, w.rest);
    TurnEnds(left, s, k);
    StorStopsTurn(s, body, w.rest, q.rest, q.end) by {
      assert body + [] + w.rest == body + w.rest;
    }
  }

  lemma {:induction false} UploadMoves(left: nat, s: Schedule)
    ensures StorRun(left, false, s).end == Blocked ==> Moves(s) <= 2 * left
    decreases |s|
  {
    if s != [] {
      match s[0]
      case Again => UploadMoves(left, s[1..]);
      case Cancel =>
      case Error =>
      case Move(n) =>
        if left > 0 {
          var k := Clip(n, Min(left, BUFFER));
          var w := WriteRun(k, false, s[1..]);
          var body := WriteBody(k, false, s[1..]);
          MovesAdd(body, w.rest);
          assert Moves(s) == Moves(s[1..]) + 1;
          if w.ok || w.blocked {
            assert s[1..] == body + w.rest;
          }
          if w.ok && !w.aborted {
            UploadMoves(left - k, w.rest);
            assert StorRun(left, false, s).end == StorRun(left - k, false, w.rest).end;
          } else if w.ok {
            assert StorRun(left, false, s).end == StorRun(left - k, true, w.rest).end == Cancelled;
          } else if !w.blocked {
            assert StorRun(left, false, s).end == Failed;
          }
        }
    }
  }

  /** An upload that meets no error and no ABOR, and is given the moves it needs, completes. */
  lemma UploadCompletes(left: nat, s: Schedule)
    requires Smooth(s) && Moves(s) > 2 * left
    ensures StorRun(left, false, s).end == Complete && StorRun(left, false, s).moved == left
  {
    UploadStops(left, s);
    UploadMoves(left, s);
    StorPrefix(left, false, s);
    var r := StorRun(left, false, s);
    StorStopsExactly(s, r.rest, r.end);
    var used := Used(s, r.rest);
    assert forall i :: 0 <= i < |used| ==> used[i] == s[i];
  }

  // ---- opening for upload, and the round trip ----

  datatype Upload = Store | Append

  /** The file as transfer_stor opens it: STOR truncates unless it resumes, APPE never does. */
  function Opened(file: seq<Byte>, op: Upload, restart: nat): seq<Byte> {
    if op == Store && restart == 0 then [] else file
  }

  /** Where the first byte goes: REST counts for STOR only. */
  function Position(file: seq<Byte>, op: Upload, restart: nat): nat {
    if op == Append then |file| else restart
  }

  function PartialUpload(file: seq<Byte>, op: Upload, restart: nat, data: seq<Byte>): seq<Byte> {
    WriteAt(Opened(file, op, restart), Position(file, op, restart), data)
  }

  method Receive(file: seq<Byte>, op: Upload, restart: nat, upload: seq<Byte>, s: Schedule)
    returns (now: seq<Byte>, end: End, bytes: nat)
    ensures bytes <= |upload|
    ensures exists k :: 0 <= k <= |upload| && now == PartialUpload(file, op, restart, upload[..k])
    ensures op == Store && restart == 0 ==> now <= upload
    ensures end == Complete ==> bytes == |upload| && now == PartialUpload(file, op, restart, upload)
    ensures Smooth(s) && Moves(s) > 2 * |upload| ==> end == Complete
    ensures end == Complete && op == Append ==> now == file + upload
    ensures end == Complete && op == Store && restart == 0 ==> now == upload
    ensures end == Complete && op == Store && restart > 0 && restart <= |file| ==>
      now == file[..restart] + upload + (if restart + |upload| < |file| then file[restart + |upload|..] else [])
  {
    StorPrefix(|upload|, false, s);
    if Smooth(s) && Moves(s) > 2 * |upload| {
      UploadCompletes(|upload|, s);
    }
    now, end, bytes := Stor(Opened(file, op, restart), Position(file, op, restart), upload, s);
    ghost var k := StorRun(|upload|, false, s).moved;
    assert Unfold(0);
    assert k == |upload| ==> upload[..k] == upload;
    WholeUpload(file, op, restart, upload);
    WholeUpload(file, op, restart, upload[..k]);
  }

  lemma WholeUpload(file: seq<Byte>, op: Upload, restart: nat, upload: seq<Byte>)
    ensures var now := PartialUpload(file, op, restart, upload);
      (op == Append ==> now == file + upload) &&
      (op == Store && restart == 0 ==> now == upload) &&
      (op == Store && 0 < restart <= |file| ==>
        now == file[..restart] + upload + (if restart + |upload| < |file| then file[restart + |upload|..] else []))
  {
    if upload == [] {
      assert file + upload == file;
      assert restart <= |file| ==> file == file[..restart] + file[restart..];
    } else {
      assert Zeros(0) == [];
    }
  }

  /** What was uploaded comes back: STOR, then RETR, both complete. */
  method StoreThenRetrieve(file: seq<Byte>, upload: seq<Byte>, s: Schedule, t: Schedule)
    returns (down: seq<Byte>, stored: End, fetched: End)
    ensures stored == Complete && fetched == Complete ==> down == upload
    ensures stored == Complete ==> down <= upload
  {
    var now, bytes;
    now, stored, bytes := Receive(file, Store, 0, upload, s);
    down, fetched, bytes := Download(now, 0, t);
    assert now[0..] == now;
  }

  /** An upload that broke off, resumed at the size it had reached, ends as the whole. */
  method ResumeUpload(file: seq<Byte>, upload: seq<Byte>, s: Schedule, t: Schedule)
    returns (now: seq<Byte>, first: End, second: End)
    ensures second == Complete ==> now == upload
  {
    var bytes;
    now, first, bytes := Receive(file, Store, 0, upload, s);
    var have := |now|;
    ghost var before := now;
    assert before == upload[..have] && upload == upload[..have] + upload[have..];
    now, second, bytes := Receive(now, Store, have, upload[have..], t);
    assert have > 0 && second == Complete ==> now == before[..have] + upload[have..] + [];
    assert upload[0..] == upload;
  }
}
