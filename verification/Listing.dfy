/** The batched LIST, NLST and MLSD writer (src/transfer.c): lines are gathered in an 8 KiB batch
    and sent when the next one does not fit. */
module Listing {
  import opened Common
  import opened Schedules
  import opened Transfer

  const BATCH: nat := 8192
  const LINE: nat := 1024

  /** Formatted directory lines: never empty, never longer than the line buffer. */
  predicate Formatted(lines: seq<seq<Byte>>) {
    forall i :: 0 <= i < |lines| ==> 0 < |lines[i]| <= LINE
  }

  function Concat(lines: seq<seq<Byte>>): seq<Byte> {
    if lines == [] then [] else lines[0] + Concat(lines[1..])
  }

  /** `read` lines were read; `unread`: readdir failed after them. */
  datatype Listed = Listed(moved: nat, counted: nat, end: End, read: nat, unread: bool, rest: Schedule)

  /** The final flush replaces the result if there is anything to flush. */
  function Flush(blen: nat, otherwise: End, s: Schedule): (r: Listed)
    ensures r.moved <= blen && r.read == 0
  {
    if blen == 0 then Listed(0, 0, otherwise, 0, otherwise == Failed, s)
    else
      var sent := SendRun(blen, s);
      Listed(sent.moved, if sent.end == Complete then blen else 0, sent.end, 0, otherwise == Failed, sent.rest)
  }

  /** With `blen` bytes in the batch. A cancellation is noticed again by the final flush, which then
      sends nothing. */
  function ListRun(blen: nat, lines: seq<seq<Byte>>, s: Schedule): (r: Listed)
    requires blen <= BATCH && Formatted(lines)
    ensures r.read <= |lines|
    decreases |s|
  {
    if s == [] then Listed(0, 0, Blocked, 0, false, s)
    else
      match s[0]
      case Cancel => Listed(0, 0, Cancelled, 0, false, s[1..])
      case Error => Flush(blen, Failed, s[1..])
      case Again => ListRun(blen, lines, s[1..])
      case Move(_) =>
        if lines == [] then Flush(blen, Complete, s[1..])
        else
          var n := |lines[0]|;
          if n > BATCH - blen then
            var sent := SendRun(blen, s[1..]);
            if sent.end != Complete then Listed(sent.moved, 0, sent.end, 1, false, sent.rest)
            else
              var r := ListRun(n, lines[1..], sent.rest);
              Listed(blen + r.moved, blen + r.counted, r.end, r.read + 1, r.unread, r.rest)
          else
            var r := ListRun(blen + n, lines[1..], s[1..]);
            Listed(r.moved, r.counted, r.end, r.read + 1, r.unread, r.rest)
  }

  ghost predicate LaterList(r: Listed, q: Listed, d: nat, i: nat) {
    r.end == q.end && r.unread == q.unread && r.moved == d + q.moved && r.counted == d + q.counted && r.read == i + q.read
  }

  /** transfer_list on a directory, with the batch as an array. */
  method List(lines: seq<seq<Byte>>, s: Schedule) returns (out: seq<Byte>, end: End, bytes: nat)
    requires Formatted(lines)
    ensures var r := ListRun(0, lines, s);
      end == r.end && bytes == r.counted && |out| == r.moved && Sent(lines, out)
  {
    var batch := new Byte[BATCH](_ => 0);
    var blen, i, rest := 0, 0, s;
    out, bytes, end := [], 0, Complete;
    ghost var run := ListRun(0, lines, s);
    GatheredStart(lines);
    assert batch[..0] == [] && lines[0..] == lines;
    while true
      invariant fresh(batch) && 0 <= blen <= BATCH && 0 <= i <= |lines| && bytes == |out|
      invariant Gathered(lines, i, out, batch[..blen])
      invariant LaterList(run, ListRun(blen, lines[i..], rest), |out|, i)
      decreases |rest|
    {
      if rest == [] {
        NothingSent(lines, i, out, batch[..blen]);
        end := Blocked;
        return;
      }
      var e := rest[0];
      rest := rest[1..];
      match e
      case Cancel =>
        NothingSent(lines, i, out, batch[..blen]);
        end := Cancelled;
        return;
      case Again =>
      case Error =>
        out, end, bytes := FinalFlush(lines, i, out, batch[..blen], Failed, rest);
        return;
      case Move(_) =>
        if i == |lines| {
          out, end, bytes := FinalFlush(lines, i, out, batch[..blen], Complete, rest);
          return;
        }
        var line := lines[i];
        assert lines[i..][0] == line && lines[i..][1..] == lines[i + 1..];
        if |line| > BATCH - blen {
          out, end, rest := FlushBatch(lines, i, out, batch[..blen], rest);
          if end != Complete {
            return;
          }
          bytes, blen := bytes + blen, 0;
          assert batch[..blen] == [];
        }
        AddLine(lines, i, out, batch, blen);
        blen, i := blen + |line|, i + 1;
    }
  }

  /** What has been sent and what is gathered are the first i lines. */
  ghost predicate Gathered(lines: seq<seq<Byte>>, i: nat, out: seq<Byte>, batch: seq<Byte>) {
    i <= |lines| && forall k {:trigger Unfold(k)} :: Unfold(k) ==> out + batch == Concat(lines[..i])
  }

  /** What the client got is a beginning of the lines one after the other. */
  ghost predicate Sent(lines: seq<seq<Byte>>, out: seq<Byte>) {
    out <= Concat(lines)
  }

  lemma {:induction false} ConcatAppend(lines: seq<seq<Byte>>, i: nat)
    requires i < |lines|
    ensures Concat(lines[..i + 1]) == Concat(lines[..i]) + lines[i]
  {
    if i == 0 {
      assert lines[..1] == [lines[0]] && lines[..0] == [];
    } else {
      ConcatAppend(lines[1..], i - 1);
      assert lines[..i + 1][1..] == lines[1..][..i] && lines[..i][1..] == lines[1..][..i - 1];
    }
  }

  lemma {:induction false} ConcatSplit(lines: seq<seq<Byte>>, i: nat)
    requires i <= |lines|
    ensures Concat(lines) == Concat(lines[..i]) + Concat(lines[i..])
  {
    if i == 0 {
      assert lines[..0] == [] && lines[0..] == lines;
    } else {
      ConcatSplit(lines[1..], i - 1);
      assert lines[..i][1..] == lines[1..][..i - 1] && lines[i..] == lines[1..][i - 1..];
    }
  }

  lemma PartSent(lines: seq<seq<Byte>>, i: nat, out: seq<Byte>, batch: seq<Byte>, sent: seq<Byte>)
    requires Gathered(lines, i, out, batch) && sent <= batch
    ensures Sent(lines, out + sent)
  {
    assert Unfold(0);
    ConcatSplit(lines, i);
    assert batch == sent + batch[|sent|..];
    assert Concat(lines) == out + sent + (batch[|sent|..] + Concat(lines[i..]));
  }

  lemma NothingSent(lines: seq<seq<Byte>>, i: nat, out: seq<Byte>, batch: seq<Byte>)
    requires Gathered(lines, i, out, batch)
    ensures Sent(lines, out)
  {
    PartSent(lines, i, out, batch, []);
    assert out + [] == out;
  }

  lemma GatheredStart(lines: seq<seq<Byte>>)
    ensures Gathered(lines, 0, [], [])
  {
    assert lines[..0] == [];
  }

  lemma FlushGathered(lines: seq<seq<Byte>>, i: nat, out: seq<Byte>, batch: seq<Byte>)
    requires Gathered(lines, i, out, batch)
    ensures Gathered(lines, i, out + batch, [])
  {
    assert Unfold(0);
    assert (out + batch) + [] == out + batch;
  }

  lemma GatherLine(lines: seq<seq<Byte>>, i: nat, out: seq<Byte>, batch: seq<Byte>)
    requires Gathered(lines, i, out, batch) && i < |lines|
    ensures Gathered(lines, i + 1, out, batch + lines[i])
  {
    assert Unfold(0);
    ConcatAppend(lines, i);
    assert out + (batch + lines[i]) == (out + batch) + lines[i];
  }

  /** LIST_FLUSH after the loop. */
  method FinalFlush(ghost lines: seq<seq<Byte>>, ghost i: nat, out: seq<Byte>, batch: seq<Byte>, otherwise: End, s: Schedule)
    returns (more: seq<Byte>, end: End, bytes: nat)
    requires Gathered(lines, i, out, batch)
    ensures var f := Flush(|batch|, otherwise, s);
      end == f.end && bytes == |out| + f.counted && |more| == |out| + f.moved && Sent(lines, more)
  {
    more, end, bytes := out, otherwise, |out|;
    NothingSent(lines, i, out, batch);
    if |batch| > 0 {
      var sent, rest;
      sent, end, rest := SendAll(batch, s);
      PartSent(lines, i, out, batch, sent);
      more := out + sent;
      if end == Complete {
        bytes := bytes + |batch|;
      }
    }
  }

  /** LIST_FLUSH within the loop. */
  method FlushBatch(ghost lines: seq<seq<Byte>>, ghost i: nat, out: seq<Byte>, batch: seq<Byte>, s: Schedule)
    returns (more: seq<Byte>, end: End, rest: Schedule)
    requires Gathered(lines, i, out, batch)
    ensures var r := SendRun(|batch|, s);
      end == r.end && rest == r.rest && |more| == |out| + r.moved && Sent(lines, more)
    ensures end == Complete ==> Gathered(lines, i, more, [])
  {
    var sent;
    sent, end, rest := SendAll(batch, s);
    PartSent(lines, i, out, batch, sent);
    more := out + sent;
    if end == Complete {
      FlushGathered(lines, i, out, batch);
      assert sent == batch;
    }
  }

  method AddLine(lines: seq<seq<Byte>>, i: nat, ghost out: seq<Byte>, batch: array<Byte>, blen: nat)
    requires i < |lines| && blen + |lines[i]| <= batch.Length && Gathered(lines, i, out, batch[..blen])
    modifies batch
    ensures Gathered(lines, i + 1, out, batch[..blen + |lines[i]|])
  {
    var line := lines[i];
    GatherLine(lines, i, out, batch[..blen]);
    ghost var before := batch[..blen];
    forall k | 0 <= k < |line| {
      batch[blen + k] := line[k];
    }
    assert batch[..blen + |line|] == before + line;
  }

  // ---- what the batching amounts to ----

  /** No more is sent than the lines read so far hold, and the counter never runs ahead. */
  lemma {:induction false} ListPrefix(blen: nat, lines: seq<seq<Byte>>, s: Schedule)
    requires blen <= BATCH && Formatted(lines)
    ensures var r := ListRun(blen, lines, s);
      r.counted <= r.moved <= blen + |Concat(lines[..r.read])|
    decreases |s|
  {
    var r := ListRun(blen, lines, s);
    assert lines[..0] == [];
    if s != [] {
      match s[0]
      case Again => ListPrefix(blen, lines, s[1..]);
      case Cancel =>
      case Error =>
      case Move(_) =>
        if lines != [] {
          var n := |lines[0]|;
          ReadOne(lines, r.read);
          if n > BATCH - blen {
            var sent := SendRun(blen, s[1..]);
            if sent.end == Complete {
              ListPrefix(n, lines[1..], sent.rest);
            }
          } else {
            ListPrefix(blen + n, lines[1..], s[1..]);
          }
        }
    }
  }

  /** Success means that every line read was sent and counted, and without a readdir failure that
      every line was read. */
  lemma {:induction false} ListComplete(blen: nat, lines: seq<seq<Byte>>, s: Schedule)
    requires blen <= BATCH && Formatted(lines)
    ensures var r := ListRun(blen, lines, s);
      r.end == Complete ==>
        r.moved == r.counted == blen + |Concat(lines[..r.read])| && (!r.unread ==> r.read == |lines|)
    decreases |s|
  {
    var r := ListRun(blen, lines, s);
    assert lines[..0] == [];
    if s != [] {
      match s[0]
      case Again => ListComplete(blen, lines, s[1..]);
      case Cancel =>
      case Error =>
      case Move(_) =>
        if lines != [] {
          var n := |lines[0]|;
          ReadOne(lines, r.read);
          if n > BATCH - blen {
            var sent := SendRun(blen, s[1..]);
            if sent.end == Complete {
              ListComplete(n, lines[1..], sent.rest);
            }
          } else {
            ListComplete(blen + n, lines[1..], s[1..]);
          }
        }
    }
  }

  lemma ReadOne(lines: seq<seq<Byte>>, read: nat)
    requires 0 < read <= |lines|
    ensures Concat(lines[..read]) == lines[0] + Concat(lines[1..][..read - 1])
  {
    assert lines[..read][1..] == lines[1..][..read - 1];
  }

  /** Where readdir fails, if it does before anything else ends the listing: the bytes then in the
      batch and what is still to come. */
  function ErrorPoint(blen: nat, lines: seq<seq<Byte>>, s: Schedule): (r: Option<(nat, Schedule)>)
    requires blen <= BATCH && Formatted(lines)
    decreases |s|
  {
    if s == [] || s[0].Cancel? then None
    else if s[0].Error? then Some((blen, s[1..]))
    else if s[0].Again? then ErrorPoint(blen, lines, s[1..])
    else if lines == [] then None
    else if |lines[0]| <= BATCH - blen then ErrorPoint(blen + |lines[0]|, lines[1..], s[1..])
    else
      var sent := SendRun(blen, s[1..]);
      if sent.end == Complete then ErrorPoint(|lines[0]|, lines[1..], sent.rest) else None
  }

  /** A readdir failure is lost when the batch holds anything: the listing then ends as sending the
      batch ends. The batch is empty only if no line was read. */
  lemma {:induction false} FailureMasked(blen: nat, lines: seq<seq<Byte>>, s: Schedule)
    requires blen <= BATCH && Formatted(lines)
    ensures var r := ListRun(blen, lines, s);
      r.unread <==> ErrorPoint(blen, lines, s).Some?
    ensures var r, at := ListRun(blen, lines, s), ErrorPoint(blen, lines, s);
      at.Some? ==> r.end == (if at.value.0 > 0 then SendRun(at.value.0, at.value.1).end else Failed) &&
                   (at.value.0 > 0 <==> blen > 0 || r.read > 0)
    decreases |s|
  {
    if s != [] {
      match s[0]
      case Again => FailureMasked(blen, lines, s[1..]);
      case Cancel =>
      case Error =>
      case Move(_) =>
        if lines != [] {
          var n := |lines[0]|;
          if n > BATCH - blen {
            var sent := SendRun(blen, s[1..]);
            if sent.end == Complete {
              FailureMasked(n, lines[1..], sent.rest);
            }
          } else {
            FailureMasked(blen + n, lines[1..], s[1..]);
          }
        }
    }
  }

  /** So a failed listing is reported as a success exactly if readdir failed with something in the
      batch and the batch could be sent. */
  lemma MaskedExactly(lines: seq<seq<Byte>>, s: Schedule)
    requires Formatted(lines)
    ensures var r, at := ListRun(0, lines, s), ErrorPoint(0, lines, s);
      r.unread && r.end == Complete <==>
      at.Some? && at.value.0 > 0 && SendRun(at.value.0, at.value.1).end == Complete
  {
    FailureMasked(0, lines, s);
  }

  // ---- why a listing ends ----

  /** A listing stops only for a reason: at the first error of a send or the first cancellation, at its
      own end, or where the schedule runs out; or it meets a readdir failure, at which nothing is left
      but to send the batch. */
  ghost predicate ListStops(s: Schedule, rest: Schedule, end: End, at: Option<(nat, Schedule)>) {
    if at.None? then Stops(s, rest, end)
    else
      && Stops(s, at.value.1, Failed)
      && (if at.value.0 == 0 then rest == at.value.1 && end == Failed else Stops(at.value.1, rest, end))
  }

  lemma ListStopsThen(s: Schedule, middle: Schedule, rest: Schedule, end: End, at: Option<(nat, Schedule)>)
    requires Stops(s, middle, Complete) && ListStops(middle, rest, end, at)
    ensures ListStops(s, rest, end, at)
  {
    if at.None? {
      StopsThen(s, middle, rest, end);
    } else {
      StopsThen(s, middle, at.value.1, Failed);
    }
  }

  lemma FlushStops(blen: nat, otherwise: End, s: Schedule)
    ensures var r := Flush(blen, otherwise, s);
      if blen == 0 then r.rest == s && r.end == otherwise else Stops(s, r.rest, r.end)
  {
    SendStops(blen, s);
  }

  lemma {:induction false} ListingStops(blen: nat, lines: seq<seq<Byte>>, s: Schedule)
    requires blen <= BATCH && Formatted(lines)
    ensures var r := ListRun(blen, lines, s); ListStops(s, r.rest, r.end, ErrorPoint(blen, lines, s))
    decreases |s|
  {
    StopsHere(s);
    if s != [] && s[0].Error? {
      FlushStops(blen, Failed, s[1..]);
    } else if s != [] && s[0].Again? {
      var q := ListRun(blen, lines, s[1..]);
      ListingStops(blen, lines, s[1..]);
      ListStopsThen(s, s[1..], q.rest, q.end, ErrorPoint(blen, lines, s[1..]));
    } else if s != [] && s[0].Move? && lines == [] {
      FlushStops(blen, Complete, s[1..]);
      if blen > 0 {
        StopsThen(s, s[1..], Flush(blen, Complete, s[1..]).rest, Flush(blen, Complete, s[1..]).end);
      }
    } else if s != [] && s[0].Move? {
      LineStops(blen, lines, s);
    }
  }

  lemma {:induction false} LineStops(blen: nat, lines: seq<seq<Byte>>, s: Schedule)
    requires blen <= BATCH && Formatted(lines) && lines != [] && s != [] && s[0].Move?
    ensures var r := ListRun(blen, lines, s); ListStops(s, r.rest, r.end, ErrorPoint(blen, lines, s))
    decreases |s|, 0
  {
    StopsHere(s);
    var n := |lines[0]|;
    if n > BATCH - blen {
      var sent := SendRun(blen, s[1..]);
      ChunkStops(blen, s);
      if sent.end == Complete {
        var q := ListRun(n, lines[1..], sent.rest);
        ListingStops(n, lines[1..], sent.rest);
        ListStopsThen(s, sent.rest, q.rest, q.end, ErrorPoint(n, lines[1..], sent.rest));
      }
    } else {
      var q := ListRun(blen + n, lines[1..], s[1..]);
      ListingStops(blen + n, lines[1..], s[1..]);
      ListStopsThen(s, s[1..], q.rest, q.end, ErrorPoint(blen + n, lines[1..], s[1..]));
    }
  }

  /** A read for every line and for the end, and a send for every byte, suffice. */
  lemma {:induction false} ListingMoves(blen: nat, lines: seq<seq<Byte>>, s: Schedule)
    requires blen <= BATCH && Formatted(lines)
    ensures ListRun(blen, lines, s).end == Blocked && ErrorPoint(blen, lines, s).None? ==>
      Moves(s) <= |lines| + blen + |Concat(lines)|
    decreases |s|
  {
    if s != [] {
      match s[0]
      case Again => ListingMoves(blen, lines, s[1..]);
      case Cancel =>
      case Error =>
      case Move(_) =>
        SendMoves(blen, s[1..]);
        if lines != [] {
          var n := |lines[0]|;
          assert |Concat(lines)| == n + |Concat(lines[1..])|;
          if n > BATCH - blen {
            var sent := SendRun(blen, s[1..]);
            if sent.end == Complete {
              ListingMoves(n, lines[1..], sent.rest);
            }
          } else {
            ListingMoves(blen + n, lines[1..], s[1..]);
          }
        }
    }
  }

  lemma {:induction false} SmoothReads(blen: nat, lines: seq<seq<Byte>>, s: Schedule)
    requires blen <= BATCH && Formatted(lines) && Smooth(s)
    ensures ErrorPoint(blen, lines, s).None?
  {
    ListingStops(blen, lines, s);
    var at := ErrorPoint(blen, lines, s);
    if at.Some? {
      SmoothEnds(s, at.value.1, Failed);
    }
  }

  /** A listing that meets no error and no ABOR, and is given the moves it needs, is sent as a whole. */
  lemma ListingCompletes(lines: seq<seq<Byte>>, s: Schedule)
    requires Formatted(lines) && Smooth(s) && Moves(s) > |lines| + |Concat(lines)|
    ensures var r := ListRun(0, lines, s); r.end == Complete && !r.unread
  {
    var r := ListRun(0, lines, s);
    SmoothReads(0, lines, s);
    ListingStops(0, lines, s);
    ListingMoves(0, lines, s);
    FailureMasked(0, lines, s);
    SmoothEnds(s, r.rest, r.end);
  }

  /** One line read, then a readdir failure, then the flush goes through: reported as success. */
  lemma FailureReportedAsSuccess(line: seq<Byte>, more: seq<seq<Byte>>)
    requires |line| == 1 && Formatted([line] + more)
    ensures var r := ListRun(0, [line] + more, [Move(1), Error, Move(1)]); r.end == Complete && r.unread
  {
    var s := [Move(1), Error, Move(1)];
    assert s[1..] == [Error, Move(1)] && s[1..][1..] == [Move(1)];
    assert ([line] + more)[0] == line;
    assert SendRun(1, [Move(1)]).end == Complete;
  }

  /** transfer_list as its client sees it: a beginning of the listing, and all of it on success unless
      reading the directory failed. */
  method ListDirectory(lines: seq<seq<Byte>>, s: Schedule) returns (out: seq<Byte>, end: End, bytes: nat)
    requires Formatted(lines)
    ensures out <= Concat(lines) && bytes <= |out|
    ensures end == Complete ==> bytes == |out|
    ensures end == Complete && !ListRun(0, lines, s).unread ==> out == Concat(lines)
    ensures Smooth(s) && Moves(s) > |lines| + |Concat(lines)| ==> end == Complete && out == Concat(lines)
  {
    if Smooth(s) && Moves(s) > |lines| + |Concat(lines)| {
      ListingCompletes(lines, s);
    }
    ListPrefix(0, lines, s);
    ListComplete(0, lines, s);
    out, end, bytes := List(lines, s);
    assert lines[..|lines|] == lines;
  }
}
