/** Schedules of what the world answers to a transfer, and what it means for a run to stop only for a
    reason. */
module Schedules {
  import opened Common

  const BUFFER: nat := 65536     // TRANSFER_BUF

  /** What the world answers next: n bytes go through, try again, an error, or ABOR was seen. */
  datatype Event = Move(n: nat) | Again | Error | Cancel

  /** Blocked: the schedule has run out with the loop still going. */
  datatype End = Complete | Cancelled | Failed | Blocked

  type Schedule = seq<Event>

  // ---- why a run ends ----

  /** Nothing but bytes and retries. */
  ghost predicate Smooth(s: Schedule) {
    forall i :: 0 <= i < |s| ==> s[i].Move? || s[i].Again?
  }

  function Moves(s: Schedule): nat {
    if s == [] then 0 else Moves(s[1..]) + if s[0].Move? then 1 else 0
  }

  /** The part of the schedule that has been used up. */
  function Used(s: Schedule, rest: Schedule): Schedule
    requires |rest| <= |s|
  {
    s[..|s| - |rest|]
  }

  /** What was used up by a run with that end. */
  ghost predicate Halts(used: Schedule, rest: Schedule, end: End) {
    match end
    case Failed => used != [] && used[|used| - 1].Error? && Smooth(used[..|used| - 1])
    case Cancelled => used != [] && used[|used| - 1].Cancel? && Smooth(used[..|used| - 1])
    case Blocked => rest == [] && Smooth(used)
    case Complete => Smooth(used)
  }

  /** How a run uses up its schedule: it stops at the first error or cancellation, and at nothing else
      but its own end or that of the schedule. */
  ghost predicate Stops(s: Schedule, rest: Schedule, end: End) {
    |rest| <= |s| && forall k {:trigger Unfold(k)} :: Unfold(k) ==>
      s == Used(s, rest) + rest && Halts(Used(s, rest), rest, end)
  }

  /** The ends exclude each other by what was used up. */
  lemma StopsExactly(s: Schedule, rest: Schedule, end: End)
    requires Stops(s, rest, end)
    ensures var used := Used(s, rest);
      && (end == Failed <==> used != [] && used[|used| - 1].Error?)
      && (end == Cancelled <==> used != [] && used[|used| - 1].Cancel?)
      && (end == Complete || end == Blocked <==> Smooth(used))
      && (end == Blocked ==> rest == [])
  {
    assert Unfold(0);
    var used := Used(s, rest);
    assert Smooth(used) && used != [] ==> used[|used| - 1].Move? || used[|used| - 1].Again?;
  }

  lemma HaltsThen(first: Schedule, second: Schedule, rest: Schedule, end: End)
    requires Smooth(first) && Halts(second, rest, end)
    ensures Halts(first + second, rest, end)
  {
    if end == Failed || end == Cancelled {
      assert (first + second)[..|first + second| - 1] == first + second[..|second| - 1];
    }
  }

  /** One run after another that ended well. */
  lemma StopsThen(s: Schedule, middle: Schedule, rest: Schedule, end: End)
    requires Stops(s, middle, Complete) && Stops(middle, rest, end)
    ensures Stops(s, rest, end)
  {
    var first, second := Used(s, middle), Used(middle, rest);
    assert s == first + middle && Smooth(first) && middle == second + rest && Halts(second, rest, end) by {
      assert Unfold(0);
    }
    HaltsThen(first, second, rest, end);
    StopsBy(s, first + second, rest, end) by {
      assert first + (second + rest) == first + second + rest;
    }
  }

  lemma StopsBy(s: Schedule, used: Schedule, rest: Schedule, end: End)
    requires s == used + rest && Halts(used, rest, end)
    ensures Stops(s, rest, end)
  {
    assert Used(s, rest) == used;
  }

  lemma StopsHere(s: Schedule)
    ensures Stops(s, s, Complete)
    ensures s == [] ==> Stops(s, s, Blocked)
    ensures s != [] && s[0].Error? ==> Stops(s, s[1..], Failed)
    ensures s != [] && s[0].Cancel? ==> Stops(s, s[1..], Cancelled)
    ensures s != [] && (s[0].Move? || s[0].Again?) ==> Stops(s, s[1..], Complete)
  {
    assert Used(s, s) == [];
    if s != [] {
      assert Used(s, s[1..]) == [s[0]];
    }
  }

  /** One more event before. */
  lemma StopsLater(s: Schedule, rest: Schedule, end: End)
    requires s != [] && (s[0].Move? || s[0].Again?) && Stops(s[1..], rest, end)
    ensures Stops(s, rest, end)
  {
    StopsHere(s);
    StopsThen(s, s[1..], rest, end);
  }

  lemma SmoothEnds(s: Schedule, rest: Schedule, end: End)
    requires Smooth(s) && Stops(s, rest, end)
    ensures end == Complete || end == Blocked
  {
    StopsExactly(s, rest, end);
    var used := Used(s, rest);
    assert used != [] ==> used[|used| - 1] == s[|used| - 1];
  }

  // ---- where a cancellation is only noted ----

  ghost predicate NoError(s: Schedule) {
    forall i :: 0 <= i < |s| ==> !s[i].Error?
  }

  /** No error, and after a cancellation no more than what is left of one buffer is written. */
  ghost predicate Heeded(s: Schedule) {
    NoError(s) && forall i :: CancelHeeded(s, i)
  }

  ghost predicate CancelHeeded(s: Schedule, i: int) {
    0 <= i < |s| && s[i].Cancel? ==> Moves(s[i..]) <= BUFFER
  }

  /** What an upload with that end has used up. */
  ghost predicate StorHalts(used: Schedule, rest: Schedule, end: End) {
    match end
    case Failed => used != [] && used[|used| - 1].Error? && Heeded(used[..|used| - 1])
    case Cancelled => Heeded(used) && !Smooth(used)
    case Blocked => rest == [] && Heeded(used)
    case Complete => Smooth(used)
  }

  ghost predicate StorStops(s: Schedule, rest: Schedule, end: End) {
    |rest| <= |s| && forall k {:trigger Unfold(k)} :: Unfold(k) ==>
      s == Used(s, rest) + rest && StorHalts(Used(s, rest), rest, end)
  }

  /** The ends by what was used up: an error is the last event of a failed upload and occurs in no
      other; a completed one has met no cancellation, a cancelled one has. */
  lemma StorStopsExactly(s: Schedule, rest: Schedule, end: End)
    requires StorStops(s, rest, end)
    ensures var used := Used(s, rest);
      && (end == Failed <==> used != [] && used[|used| - 1].Error?)
      && (end == Failed <==> !NoError(used))
      && (end == Complete ==> Smooth(used)) && (end == Cancelled ==> !Smooth(used)) && (end == Blocked ==> rest == [])
  {
    var used := Used(s, rest);
    assert StorHalts(used, rest, end) by {
      assert Unfold(0);
    }
    StorHaltsExactly(used, rest, end);
  }

  lemma StorHaltsExactly(used: Schedule, rest: Schedule, end: End)
    requires StorHalts(used, rest, end)
    ensures end == Failed <==> used != [] && used[|used| - 1].Error?
    ensures end == Failed <==> !NoError(used)
  {
    if end == Failed {
      assert used[|used| - 1].Error?;
    } else {
      assert NoError(used);
    }
  }

  lemma {:induction false} MovesAdd(a: Schedule, b: Schedule)
    ensures Moves(a + b) == Moves(a) + Moves(b)
  {
    if a == [] {
      assert a + b == b;
    } else {
      MovesAdd(a[1..], b);
      assert (a + b)[1..] == a[1..] + b;
    }
  }

  lemma {:induction false} MovesSuffix(s: Schedule, i: nat)
    requires i <= |s|
    ensures Moves(s[i..]) <= Moves(s)
  {
    if i > 0 {
      MovesSuffix(s[1..], i - 1);
      assert s[1..][i - 1..] == s[i..];
    } else {
      assert s[0..] == s;
    }
  }

  lemma HeededShort(s: Schedule)
    requires NoError(s) && Moves(s) <= BUFFER
    ensures Heeded(s)
  {
    forall i ensures CancelHeeded(s, i) {
      if 0 <= i < |s| {
        MovesSuffix(s, i);
      }
    }
  }

  lemma HeededThen(first: Schedule, second: Schedule)
    requires Smooth(first) && Heeded(second)
    ensures Heeded(first + second)
  {
    var s := first + second;
    forall i ensures CancelHeeded(s, i) {
      if |first| <= i < |s| {
        assert CancelHeeded(second, i - |first|);
        assert s[i..] == second[i - |first|..];
      }
    }
  }

  lemma StorHaltsThen(first: Schedule, second: Schedule, rest: Schedule, end: End)
    requires Smooth(first) && StorHalts(second, rest, end)
    ensures StorHalts(first + second, rest, end)
  {
    var s := first + second;
    if end == Failed {
      HeededThen(first, second[..|second| - 1]);
      assert s[..|s| - 1] == first + second[..|second| - 1];
    } else if end != Complete {
      HeededThen(first, second);
      if end == Cancelled {
        var i :| 0 <= i < |second| && !(second[i].Move? || second[i].Again?);
        assert s[|first| + i] == second[i];
      }
    }
  }

  lemma StorStopsBy(s: Schedule, used: Schedule, rest: Schedule, end: End)
    requires s == used + rest && StorHalts(used, rest, end)
    ensures StorStops(s, rest, end)
  {
    assert Used(s, rest) == used;
  }

  lemma StorStopsThen(s: Schedule, first: Schedule, middle: Schedule, rest: Schedule, end: End)
    requires s == first + middle && Smooth(first) && StorStops(middle, rest, end)
    ensures StorStops(s, rest, end)
  {
    var second := Used(middle, rest);
    assert middle == second + rest && StorHalts(second, rest, end) by {
      assert Unfold(0);
    }
    StorHaltsThen(first, second, rest, end);
    StorStopsBy(s, first + second, rest, end) by {
      assert first + (second + rest) == first + second + rest;
    }
  }

  lemma FirstEvent(e: Event, more: Schedule)
    requires !e.Error? && NoError(more)
    ensures NoError([e] + more) && Moves([e] + more) == Moves(more) + if e.Move? then 1 else 0
    ensures Smooth([e] + more) <==> !e.Cancel? && Smooth(more)
  {
    var body := [e] + more;
    assert body[1..] == more && body[0] == e;
    assert forall i :: 0 <= i < |more| ==> body[i + 1] == more[i];
  }

  lemma StorStopsTurn(s: Schedule, body: Schedule, middle: Schedule, rest: Schedule, end: End)
    requires s != [] && s[0].Move? && s[1..] == body + middle && NoError(body) && Smooth(body)
    requires StorStops(middle, rest, end)
    ensures StorStops(s, rest, end)
  {
    FirstEvent(s[0], body);
    assert s == [s[0]] + s[1..];
    assert [s[0]] + (body + middle) == [s[0]] + body + middle;
    StorStopsThen(s, [s[0]] + body, middle, rest, end);
  }
}
