/** Cutting the control byte stream into command lines (src/client.c, src/server.c). */
module ControlLines {
  import opened Common

  const LF: Byte := 10
  const CR: Byte := 13
  const RBUF: nat := 4096        // OPFTP_RBUF
  const LINE: nat := 1024        // the line buffer of handle_client_events

  // ---- what the stream means ----

  /** Position of the first LF, or the length if there is none. */
  function FindLF(s: seq<Byte>): (i: nat)
    ensures i <= |s|
    ensures i < |s| ==> s[i] == LF
    ensures forall k :: 0 <= k < i ==> s[k] != LF
  {
    if s == [] || s[0] == LF then 0 else 1 + FindLF(s[1..])
  }

  /** How much of a raw line is kept: not one trailing CR, and at most 1023 bytes. */
  function Kept(raw: seq<Byte>): (n: nat)
    ensures n <= |raw|
  {
    var n := if raw != [] && raw[|raw| - 1] == CR then |raw| - 1 else |raw|;
    if n >= LINE then LINE - 1 else n
  }

  function Trim(raw: seq<Byte>): seq<Byte> {
    raw[..Kept(raw)]
  }

  /** No LF among the first 4096 bytes. */
  predicate Overlong(s: seq<Byte>) {
    |s| >= RBUF && FindLF(s) >= RBUF
  }

  /** The lines of the stream, up to the first overlong one. */
  function Lines(s: seq<Byte>): seq<seq<Byte>>
    decreases |s|
  {
    var i := FindLF(s);
    if i >= RBUF || i == |s| then [] else [Trim(s[..i])] + Lines(s[i + 1..])
  }

  /** Whether the stream runs into an overlong line. */
  predicate Overflows(s: seq<Byte>)
    decreases |s|
  {
    var i := FindLF(s);
    Overlong(s) || (i < |s| && Overflows(s[i + 1..]))
  }

  // ---- where a handler ends the reading ----

  /** The histories of served lines whose last line has a handler that ends the reading, as those of
      QUIT and AUTH do; so that may depend on everything that was served before. */
  type Handler = set<seq<seq<Byte>>>

  ghost predicate NoStop(lines: seq<seq<Byte>>, stops: Handler) {
    lines == [] || (lines !in stops && NoStop(lines[..|lines| - 1], stops))
  }

  /** The last line, and none before it, ended the reading. */
  ghost predicate StoppedAt(lines: seq<seq<Byte>>, stops: Handler) {
    lines != [] && lines in stops && NoStop(lines[..|lines| - 1], stops)
  }

  /** The lines up to the one that ends the reading. */
  ghost function Until(lines: seq<seq<Byte>>, stops: Handler): seq<seq<Byte>> {
    if lines == [] then []
    else
      var before := Until(lines[..|lines| - 1], stops);
      if before != [] && before in stops then before else lines
  }

  lemma {:induction false} UntilQuiet(lines: seq<seq<Byte>>, stops: Handler)
    requires NoStop(lines, stops)
    ensures Until(lines, stops) == lines
  {
    if lines != [] {
      var before := lines[..|lines| - 1];
      UntilQuiet(before, stops);
      assert before == [] || before !in stops;
    }
  }

  lemma {:induction false} UntilStopped(lines: seq<seq<Byte>>, more: seq<seq<Byte>>, stops: Handler)
    requires StoppedAt(lines, stops)
    ensures Until(lines + more, stops) == lines && !NoStop(lines + more, stops)
  {
    if more == [] {
      assert lines + more == lines;
      UntilQuiet(lines[..|lines| - 1], stops);
    } else {
      UntilStopped(lines, more[..|more| - 1], stops);
      assert (lines + more)[..|lines + more| - 1] == lines + more[..|more| - 1];
    }
  }

  // ---- facts about cutting ----

  lemma FindLFUnique(s: seq<Byte>, i: nat)
    requires i <= |s| && (i < |s| ==> s[i] == LF) && forall k :: 0 <= k < i ==> s[k] != LF
    ensures FindLF(s) == i
  {
  }

  /** Raw lines that fit the buffer with their LF. */
  ghost predicate Whole(raws: seq<seq<Byte>>) {
    forall i :: 0 <= i < |raws| ==> |raws[i]| < RBUF && LF !in raws[i]
  }

  ghost function Joined(raws: seq<seq<Byte>>): seq<Byte> {
    if raws == [] then [] else Joined(raws[..|raws| - 1]) + raws[|raws| - 1] + [LF]
  }

  ghost function Trimmed(raws: seq<seq<Byte>>): seq<seq<Byte>> {
    if raws == [] then [] else Trimmed(raws[..|raws| - 1]) + [Trim(raws[|raws| - 1])]
  }

  lemma OneLine(raw: seq<Byte>, q: seq<Byte>)
    requires |raw| < RBUF && LF !in raw
    ensures Lines(raw + [LF] + q) == [Trim(raw)] + Lines(q)
    ensures Overflows(raw + [LF] + q) <==> Overflows(q)
  {
    var s := raw + [LF] + q;
    FindLFUnique(s, |raw|);
    assert s[..|raw|] == raw;
    assert s[|raw| + 1..] == q;
  }

  lemma Regroup(a: seq<Byte>, b: seq<Byte>, c: seq<Byte>, d: seq<Byte>)
    ensures a + b + c + d == a + (b + c + d)
  {
  }

  lemma JoinedLast(raws: seq<seq<Byte>>, q: seq<Byte>)
    requires raws != []
    ensures Joined(raws) + q == Joined(raws[..|raws| - 1]) + (raws[|raws| - 1] + [LF] + q)
  {
    Regroup(Joined(raws[..|raws| - 1]), raws[|raws| - 1], [LF], q);
  }

  /** Lines already cut off are not changed by what follows. */
  lemma {:induction false} WholeLines(raws: seq<seq<Byte>>, q: seq<Byte>)
    requires Whole(raws)
    ensures Lines(Joined(raws) + q) == Trimmed(raws) + Lines(q)
    ensures Overflows(Joined(raws) + q) <==> Overflows(q)
  {
    if raws == [] {
      assert Joined(raws) + q == q;
    } else {
      var init, raw := raws[..|raws| - 1], raws[|raws| - 1];
      JoinedLast(raws, q);
      OneLine(raw, q);
      WholeLines(init, raw + [LF] + q);
    }
  }

  /** `received` is the lines handed out, followed by what the buffer still holds. */
  ghost predicate Consumed(received: seq<Byte>, lines: seq<seq<Byte>>, buffered: seq<Byte>) {
    exists raws :: Whole(raws) && lines == Trimmed(raws) && received == Joined(raws) + buffered
  }

  lemma NextLine(received: seq<Byte>, lines: seq<seq<Byte>>, raw: seq<Byte>, tail: seq<Byte>)
    requires Consumed(received, lines, raw + [LF] + tail) && |raw| < RBUF && LF !in raw
    ensures Consumed(received, lines + [Trim(raw)], tail)
  {
    var raws :| Whole(raws) && lines == Trimmed(raws) && received == Joined(raws) + (raw + [LF] + tail);
    var more := raws + [raw];
    assert more[..|raws|] == raws;
    JoinedLast(more, tail);
    assert Trimmed(more) == lines + [Trim(raw)];
  }

  lemma MoreBytes(received: seq<Byte>, lines: seq<seq<Byte>>, buffered: seq<Byte>, bytes: seq<Byte>)
    requires Consumed(received, lines, buffered)
    ensures Consumed(received + bytes, lines, buffered + bytes)
  {
    var raws :| Whole(raws) && lines == Trimmed(raws) && received == Joined(raws) + buffered;
    assert received + bytes == Joined(raws) + (buffered + bytes);
  }

  lemma UnfinishedLine(s: seq<Byte>)
    requires LF !in s
    ensures FindLF(s) == |s| && Lines(s) == [] && (Overflows(s) <==> |s| >= RBUF)
  {
    FindLFUnique(s, |s|);
  }

  lemma FullBuffer(s: seq<Byte>, q: seq<Byte>)
    requires |s| >= RBUF && LF !in s
    ensures Lines(s + q) == [] && Overflows(s + q)
  {
    assert forall k :: 0 <= k < |s| ==> (s + q)[k] == s[k];
  }

  // ---- the read buffer ----

  datatype Recv = Data(bytes: seq<Byte>) | Eof | WouldBlock | Error

  /** How a run of the read loop ends; all but `Open` and, for a TLS handshake, `Stopped` close the
      connection. */
  datatype Ending = Open | Closed | Failed | TooLong | Stopped

  function After(r: Recv): Ending
    requires !r.Data?
  {
    match r
    case Eof => Closed
    case WouldBlock => Open
    case Error => Failed
  }

  /** What recv answers with `room` bytes offered: what is pending, at most `cuts[k]` bytes of it;
      nothing yet when the cuts have run out; and `after` when nothing is pending any more. */
  function Answer(pending: seq<Byte>, cuts: seq<nat>, k: nat, room: nat, after: Recv): (r: Recv)
    requires !after.Data? && forall i :: 0 <= i < |cuts| ==> cuts[i] > 0
    ensures r.Data? <==> pending != [] && k < |cuts|
    ensures r.Data? ==> r.bytes <= pending && 0 < |r.bytes| && (room == 0 || |r.bytes| <= room)
    ensures !r.Data? ==> r == if pending == [] then after else WouldBlock
  {
    if pending == [] then after
    else if k >= |cuts| then WouldBlock
    else
      var n := if cuts[k] < |pending| then cuts[k] else |pending|;
      Data(pending[..if 0 < room < n then room else n])
  }

  function Less(n: nat, k: nat): nat {
    if k < n then n - k else 0
  }

  lemma Handed(received: seq<Byte>, bytes: seq<Byte>, pending: seq<Byte>)
    requires bytes <= pending
    ensures received + bytes + pending[|bytes|..] == received + pending
  {
    assert pending == bytes + pending[|bytes|..];
  }

  class ControlBuffer {
    const rbuf: array<Byte>
    var rlen: nat
    var rpos: nat
    var lines: seq<seq<Byte>>          // lines handed to the dispatcher so far
    ghost var received: seq<Byte>      // every byte received so far

    ghost predicate Valid()
      reads this, rbuf
    {
      rbuf.Length == RBUF && rpos <= rlen <= RBUF && Consumed(received, lines, rbuf[rpos..rlen])
    }

    ghost function Buffered(): seq<Byte>
      requires rpos <= rlen <= rbuf.Length
      reads this, rbuf
    {
      rbuf[rpos..rlen]
    }

    constructor ()
      ensures Valid() && fresh(rbuf) && received == [] && lines == [] && Buffered() == []
    {
      rbuf := new Byte[RBUF](_ => 0);
      rlen, rpos := 0, 0;
      lines, received := [], [];
      new;
      assert Joined([]) + rbuf[0..0] == [] && Whole([]) && Trimmed([]) == [];
    }

    /** Leftover bytes move to the front. */
    method MakeRoom()
      requires Valid()
      modifies this`rlen, this`rpos, rbuf
      ensures Valid() && rpos == 0 && Buffered() == old(Buffered())
    {
      if rpos > 0 {
        var left := rlen - rpos;
        forall i | 0 <= i < left {
          rbuf[i] := rbuf[rpos + i];
        }
        assert rbuf[..left] == old(rbuf[rpos..rlen]);
        rlen := left;
        rpos := 0;
      }
    }

    /** What recv puts behind them. */
    method Append(bytes: seq<Byte>)
      requires Valid() && rpos == 0 && rlen + |bytes| <= RBUF
      modifies this`rlen, this`received, rbuf
      ensures Valid() && Buffered() == old(Buffered()) + bytes && received == old(received) + bytes
    {
      forall i | 0 <= i < |bytes| {
        rbuf[rlen + i] := bytes[i];
      }
      rlen := rlen + |bytes|;
      assert rbuf[rpos..rlen] == old(Buffered()) + bytes;
      MoreBytes(received, lines, old(Buffered()), bytes);
      received := received + bytes;
    }

    /** opftp_client_read; `r` is what recv would answer, never more than the room offered. */
    method Read(r: Recv) returns (n: int)
      requires Valid()
      requires r.Data? ==> 0 < |r.bytes| && (|r.bytes| <= RBUF - |Buffered()| || |Buffered()| == RBUF)
      modifies this`rlen, this`rpos, this`received, rbuf
      ensures Valid()
      ensures n > 0 <==> r.Data? && |old(Buffered())| < RBUF
      ensures n > 0 ==> n == |r.bytes| && Buffered() == old(Buffered()) + r.bytes && received == old(received) + r.bytes
      ensures n <= 0 ==> Buffered() == old(Buffered()) && received == old(received)
      ensures n == -1 <==> |old(Buffered())| == RBUF || r.Error?
      ensures n >= -2
      ensures n == 0 <==> |old(Buffered())| < RBUF && r.Eof?
    {
      MakeRoom();
      if rlen >= RBUF {
        return -1;
      }
      match r
      case Data(bytes) =>
        Append(bytes);
        n := |bytes|;
      case Eof => n := 0;
      case WouldBlock => n := -2;
      case Error => n := -1;
    }

    /** The scan of opftp_client_getline. */
    method LineEnd() returns (i: nat)
      requires Valid()
      ensures rpos <= i <= rlen && LF !in rbuf[rpos..i]
      ensures i < rlen ==> Buffered() == rbuf[rpos..i] + [LF] + rbuf[i + 1..rlen]
      ensures i == rlen ==> LF !in Buffered()
    {
      i := rpos;
      while i < rlen && rbuf[i] != LF
        invariant rpos <= i <= rlen
        invariant LF !in rbuf[rpos..i]
      {
        i := i + 1;
      }
    }

    /** opftp_client_getline with a 1024-byte line buffer. */
    method GetLine() returns (line: Option<seq<Byte>>)
      requires Valid()
      modifies this`rpos, this`lines
      ensures Valid()
      ensures line.Some? <==> LF in old(Buffered())
      ensures line.Some? ==> lines == old(lines) + [line.value] && |Buffered()| < |old(Buffered())|
      ensures line.None? ==> lines == old(lines) && Buffered() == old(Buffered())
    {
      var i := LineEnd();
      if i == rlen {
        return None;
      }
      var len := i - rpos;
      if i > rpos && rbuf[i - 1] == CR {
        len := len - 1;
      }
      if len >= LINE {
        len := LINE - 1;
      }
      ghost var raw, tail := rbuf[rpos..i], rbuf[i + 1..rlen];
      assert len == Kept(raw);
      line := Some(rbuf[rpos..rpos + len]);
      assert line.value == raw[..len];
      NextLine(received, lines, raw, tail);
      lines := lines + [line.value];
      rpos := i + 1;
      assert Buffered() == tail;
    }

    /** The POLLIN part of handle_client_events: `pending` waits in the socket, the k-th recv returns
        at most `cuts[k]` bytes, and `after` is what recv answers once `pending` is used up; when the
        cuts run out first the rest has not arrived yet. */
    method OnReadable(pending: seq<Byte>, cuts: seq<nat>, after: Recv, stops: Handler)
      returns (rest: seq<Byte>, ending: Ending)
      requires Valid() && forall k :: 0 <= k < |cuts| ==> cuts[k] > 0
      requires |Buffered()| < RBUF && LF !in Buffered() && NoStop(lines, stops) && !after.Data?
      modifies this, rbuf
      ensures Valid() && received + rest == old(received) + pending
      ensures ending == Stopped ==> StoppedAt(lines, stops)
      ensures ending != Stopped ==> NoStop(lines, stops) && LF !in Buffered()
      ensures ending != Stopped ==> (ending == TooLong <==> |Buffered()| == RBUF)
      ensures ending != Stopped && ending != TooLong ==> ending == if rest == [] then After(after) else Open
      ensures |rest| <= |pending| && (ending != Stopped && ending != TooLong ==> |rest| <= Less(|pending|, |cuts|))
    {
      rest := pending;
      ending := Open;
      var k, more := 0, true;
      while more
        invariant 0 <= k <= |cuts| && Valid() && received + rest == old(received) + pending
        invariant |rest| <= |pending| && (ending != Stopped ==> NoStop(lines, stops) && LF !in Buffered())
        invariant more ==> ending == Open && |rest| <= Less(|pending|, k)
        invariant ending == Stopped ==> StoppedAt(lines, stops)
        invariant !more && ending != Stopped ==> (ending == TooLong <==> |Buffered()| == RBUF)
        invariant !more && ending != Stopped && ending != TooLong ==>
                    ending == (if rest == [] then After(after) else Open) && |rest| <= Less(|pending|, |cuts|)
        decreases more, |cuts| - k
      {
        rest, more, ending := ReadOnce(rest, cuts, k, after, stops);
        if more {
          k := k + 1;
        }
      }
    }

    /** One turn of the loop, the k-th. */
    method ReadOnce(pending: seq<Byte>, cuts: seq<nat>, k: nat, after: Recv, stops: Handler)
      returns (rest: seq<Byte>, more: bool, ending: Ending)
      requires Valid() && !after.Data? && forall k :: 0 <= k < |cuts| ==> cuts[k] > 0
      requires LF !in Buffered() && NoStop(lines, stops)
      modifies this, rbuf
      ensures Valid() && received + rest == old(received) + pending && |rest| <= |pending|
      ensures more ==> ending == Open && k < |cuts| && |rest| < |pending|
      ensures ending == Stopped ==> !more && StoppedAt(lines, stops)
      ensures ending != Stopped ==> NoStop(lines, stops) && LF !in Buffered()
      ensures !more && ending != Stopped ==> rest == pending && (ending == TooLong <==> |Buffered()| == RBUF)
      ensures !more && ending != Stopped && ending != TooLong ==>
                ending == (if rest == [] then After(after) else Open) && (rest != [] ==> k >= |cuts|)
    {
      var room := RBUF - (rlen - rpos);
      var r := Answer(pending, cuts, k, room, after);
      var n := Read(r);
      if n <= 0 {
        return pending, false, if room == 0 then TooLong else After(r);
      }
      rest := pending[n..];
      Handed(old(received), r.bytes, pending);
      var stopped := DeliverLines(stops);
      return rest, !stopped, if stopped then Stopped else Open;
    }

    /** The inner loop: every complete line in the buffer, until a handler ends the reading. */
    method DeliverLines(stops: Handler) returns (stopped: bool)
      requires Valid() && NoStop(lines, stops)
      modifies this`rpos, this`lines
      ensures Valid()
      ensures stopped ==> StoppedAt(lines, stops)
      ensures !stopped ==> NoStop(lines, stops) && LF !in Buffered()
    {
      stopped := false;
      var more := true;
      while more
        invariant Valid()
        invariant stopped ==> !more && StoppedAt(lines, stops)
        invariant !stopped ==> NoStop(lines, stops)
        invariant !more && !stopped ==> LF !in Buffered()
        decreases more, |Buffered()|
      {
        ghost var before := lines;
        var line := GetLine();
        if line.Some? {
          assert lines[..|lines| - 1] == before;
          stopped := lines in stops;
        }
        more := line.Some? && !stopped;
      }
    }
  }

  // ---- the whole connection ----

  lemma ConsumedLines(received: seq<Byte>, lines: seq<seq<Byte>>, buffered: seq<Byte>, rest: seq<Byte>)
    requires Consumed(received, lines, buffered)
    ensures Lines(received + rest) == lines + Lines(buffered + rest)
    ensures Overflows(received + rest) <==> Overflows(buffered + rest)
  {
    var raws :| Whole(raws) && lines == Trimmed(raws) && received == Joined(raws) + buffered;
    WholeLines(raws, buffered + rest);
    assert received + rest == Joined(raws) + (buffered + rest);
  }

  /** How serving a stream ends, once all of it has arrived. */
  ghost function Outcome(stream: seq<Byte>, after: Recv, stops: Handler): Ending
    requires !after.Data?
  {
    if !NoStop(Lines(stream), stops) then Stopped
    else if Overflows(stream) then TooLong
    else After(after)
  }

  /** What the buffer tells at each ending about the stream `received + rest`. */
  lemma Settled(received: seq<Byte>, lines: seq<seq<Byte>>, buffered: seq<Byte>, rest: seq<Byte>, stops: Handler)
    requires Consumed(received, lines, buffered)
    ensures StoppedAt(lines, stops) ==>
              Until(Lines(received + rest), stops) == lines && !NoStop(Lines(received + rest), stops)
    ensures NoStop(lines, stops) && LF !in buffered && |buffered| == RBUF ==>
              Lines(received + rest) == lines && Overflows(received + rest)
    ensures LF !in buffered && |buffered| < RBUF ==> Lines(received) == lines && !Overflows(received)
  {
    ConsumedLines(received, lines, buffered, rest);
    if StoppedAt(lines, stops) {
      UntilStopped(lines, Lines(buffered + rest), stops);
    }
    if LF !in buffered {
      if |buffered| == RBUF {
        FullBuffer(buffered, rest);
      } else {
        UnfinishedLine(buffered);
        ConsumedLines(received, lines, buffered, []);
        assert received + [] == received && buffered + [] == buffered;
      }
    }
  }

  /** What poll and recv do: in each round so many more bytes arrive, and so many recvs are made, each
      for so many bytes at most. */
  type Rounds = seq<(nat, seq<nat>)>

  /** How many of `size` bytes have arrived after i rounds. */
  function ArrivedBy(rounds: Rounds, i: nat, size: nat): (n: nat)
    requires i <= |rounds|
    ensures n <= size
  {
    if i == 0 then 0
    else
      var n := ArrivedBy(rounds, i - 1, size) + rounds[i - 1].0;
      if n < size then n else size
  }

  /** How many of them can be unread then: every recv takes at least one. */
  function Backlog(rounds: Rounds, i: nat, size: nat): nat
    requires i <= |rounds|
  {
    if i == 0 then 0
    else
      Less(Backlog(rounds, i - 1, size) + ArrivedBy(rounds, i, size) - ArrivedBy(rounds, i - 1, size), |rounds[i - 1].1|)
  }

  /** In the end everything has arrived, and there were recvs enough to take it. */
  predicate Arrives(rounds: Rounds, size: nat) {
    rounds != [] && ArrivedBy(rounds, |rounds|, size) == size && Backlog(rounds, |rounds|, size) == 0
  }

  /** However the stream is cut into polls and recvs, the lines handed to the dispatcher are the lines
      of the stream up to the one that ends the reading, and the ending is that of the stream. Until
      everything has arrived, the same holds of what was received. The peer ends the stream by `after`. */
  method ServeStream(stream: seq<Byte>, rounds: Rounds, after: Recv, stops: Handler)
    returns (lines: seq<seq<Byte>>, ending: Ending, rest: seq<Byte>)
    requires forall i, k :: 0 <= i < |rounds| && 0 <= k < |rounds[i].1| ==> rounds[i].1[k] > 0
    requires !after.Data?
    ensures |rest| <= |stream| && stream[|stream| - |rest|..] == rest
    ensures Arrives(rounds, |stream|) || ending == Stopped || ending == TooLong ==>
              lines == Until(Lines(stream), stops) && ending == Outcome(stream, after, stops)
    ensures ending != Stopped && ending != TooLong ==>
              var seen := stream[..|stream| - |rest|];
              lines == Lines(seen) && NoStop(lines, stops) && !Overflows(seen) && ending in {Open, After(after)}
  {
    var b := new ControlBuffer();
    rest, ending := ServeRounds(b, stream, rounds, after, stops);
    lines := b.lines;
    Served(stream, b.received, lines, b.Buffered(), rest, ending, after, stops);
  }

  /** The polls, on a new connection. */
  method ServeRounds(b: ControlBuffer, stream: seq<Byte>, rounds: Rounds, after: Recv, stops: Handler)
    returns (rest: seq<Byte>, ending: Ending)
    requires b.Valid() && b.received == [] && b.lines == [] && b.Buffered() == [] && !after.Data?
    requires forall i, k :: 0 <= i < |rounds| && 0 <= k < |rounds[i].1| ==> rounds[i].1[k] > 0
    modifies b, b.rbuf
    ensures b.Valid() && b.received + rest == stream && Consistent(b, rest, ending, after, stops)
    ensures Arrives(rounds, |stream|) && ending == Open ==> rest == [] && After(after) == Open
  {
    rest := stream;
    ending := Open;
    var i, arrived := 0, 0;
    while i < |rounds| && ending == Open
      invariant 0 <= i <= |rounds| && b.Valid()
      invariant b.received + rest == stream && Consistent(b, rest, ending, after, stops)
      invariant arrived == ArrivedBy(rounds, i, |stream|) && |stream| <= arrived + |rest|
      invariant ending == Open ==> arrived + |rest| - |stream| <= Backlog(rounds, i, |stream|)
      invariant i > 0 && rest == [] && ending == Open ==> After(after) == Open
    {
      arrived := if arrived + rounds[i].0 < |stream| then arrived + rounds[i].0 else |stream|;
      rest, ending := Round(b, stream, rest, arrived + |rest| - |stream|, rounds[i].1, after, stops);
      i := i + 1;
    }
  }

  /** What the buffer says in the end is what the stream says. */
  lemma Served(stream: seq<Byte>, received: seq<Byte>, lines: seq<seq<Byte>>, buffered: seq<Byte>, rest: seq<Byte>,
               ending: Ending, after: Recv, stops: Handler)
    requires Consumed(received, lines, buffered) && received + rest == stream && !after.Data?
    requires Settles(lines, buffered, rest, ending, after, stops) && |buffered| <= RBUF
    ensures |rest| <= |stream| && stream[|stream| - |rest|..] == rest && stream[..|stream| - |rest|] == received
    ensures ending == Stopped || ending == TooLong || (rest == [] && ending == After(after)) ==>
              lines == Until(Lines(stream), stops) && ending == Outcome(stream, after, stops)
    ensures ending != Stopped && ending != TooLong ==>
              lines == Lines(received) && NoStop(lines, stops) && !Overflows(received) && ending in {Open, After(after)}
  {
    assert stream[..|stream| - |rest|] == received && stream[|stream| - |rest|..] == rest;
    Settled(received, lines, buffered, rest, stops);
    if ending != Stopped {
      UntilQuiet(lines, stops);
      assert rest == [] ==> received == stream;
    }
  }

  /** The state of the buffer at each ending. */
  ghost predicate Consistent(b: ControlBuffer, rest: seq<Byte>, ending: Ending, after: Recv, stops: Handler)
    requires b.Valid() && !after.Data?
    reads b, b.rbuf
  {
    Settles(b.lines, b.Buffered(), rest, ending, after, stops)
  }

  ghost predicate Settles(lines: seq<seq<Byte>>, buffered: seq<Byte>, rest: seq<Byte>, ending: Ending, after: Recv,
                          stops: Handler)
    requires !after.Data?
  {
    if ending == Stopped then StoppedAt(lines, stops)
    else
      && NoStop(lines, stops) && LF !in buffered
      && (ending == TooLong <==> |buffered| == RBUF)
      && (ending != TooLong && ending != Open ==> ending == After(after) && rest == [])
  }

  /** One poll: `here` of the pending bytes wait in the socket. */
  method Round(b: ControlBuffer, ghost stream: seq<Byte>, pending: seq<Byte>, here: nat, cuts: seq<nat>,
               after: Recv, stops: Handler)
    returns (rest: seq<Byte>, ending: Ending)
    requires b.Valid() && b.received + pending == stream && here <= |pending|
    requires |b.Buffered()| < RBUF && LF !in b.Buffered() && NoStop(b.lines, stops)
    requires !after.Data? && forall k :: 0 <= k < |cuts| ==> cuts[k] > 0
    modifies b, b.rbuf
    ensures b.Valid() && b.received + rest == stream && Consistent(b, rest, ending, after, stops)
    ensures |pending| - here <= |rest| <= |pending|
    ensures ending != Stopped && ending != TooLong ==> |rest| <= |pending| - here + Less(here, |cuts|)
    ensures rest == [] && ending == Open ==> After(after) == Open
  {
    ghost var before := b.received;
    var left: seq<Byte>;
    left, ending := b.OnReadable(pending[..here], cuts, if here == |pending| then after else WouldBlock, stops);
    rest := left + pending[here..];
    assert pending == pending[..here] + pending[here..];
    assert b.received + rest == (b.received + left) + pending[here..];
    assert before + pending == (before + pending[..here]) + pending[here..];
  }
}
