/** The worker pool's circular job queue (src/datachan.c) is a bounded first-in first-out queue. */
module JobRing {
  import opened Common

  /** The slot after `i`. */
  function Wrap(i: nat, cap: nat): (r: nat)
    requires i < cap
    ensures r < cap
    ensures r == if i + 1 == cap then 0 else i + 1
  {
    (i + 1) % cap
  }

  /** The slot `i` places after `head`. */
  function At(head: nat, i: nat, cap: nat): nat
    requires head < cap && i <= cap
  {
    if head + i < cap then head + i else head + i - cap
  }

  lemma AtIsModulo(head: nat, i: nat, cap: nat)
    requires head < cap && i < cap
    ensures At(head, i, cap) == (head + i) % cap
  {
    var x := head + i;
    Quotient(cap, x / cap, x % cap, x);
  }

  lemma Quotient(cap: nat, q: int, r: nat, x: nat)
    requires x == cap * q + r && r < cap && x < 2 * cap
    ensures q == if x < cap then 0 else 1
  {
  }

  /** `count` slots from `head` on, wrapping at the end. */
  function Window<T>(slots: seq<T>, head: nat, count: nat): (r: seq<T>)
    requires head < |slots|
    ensures |r| == count
    decreases count
  {
    if count == 0 then [] else [slots[head]] + Window(slots, Wrap(head, |slots|), count - 1)
  }

  lemma {:induction false} WindowAt<T>(slots: seq<T>, head: nat, count: nat, i: nat)
    requires head < |slots| && i < count <= |slots|
    ensures Window(slots, head, count)[i] == slots[At(head, i, |slots|)]
    decreases count
  {
    if i > 0 {
      WindowAt(slots, Wrap(head, |slots|), count - 1, i - 1);
    }
  }

  /** Filling the slot after the window extends it at the far end. */
  lemma {:induction false} WindowPush<T>(slots: seq<T>, head: nat, count: nat, x: T)
    requires head < |slots| && count < |slots|
    ensures Window(slots[At(head, count, |slots|) := x], head, count + 1) == Window(slots, head, count) + [x]
    decreases count
  {
    var tail := At(head, count, |slots|);
    if count > 0 {
      assert tail != head;
      WindowPush(slots, Wrap(head, |slots|), count - 1, x);
    }
  }

  /** queue, queue_head, queue_tail, queue_count, queue_cap and pool_running; every method body is
      one section under queue_mutex. */
  class JobQueue<T(0)> {
    var slots: array<T>
    var head: nat
    var tail: nat
    var count: nat
    var running: bool
    ghost var accepted: seq<T>   // everything ever queued, in order
    ghost var taken: seq<T>      // everything ever handed to a worker, in order

    ghost predicate Valid()
      reads this, slots
    {
      && head < slots.Length && count <= slots.Length
      && tail == At(head, count, slots.Length)
      && accepted == taken + Contents()
    }

    /** The waiting jobs, oldest first. */
    ghost function Contents(): seq<T>
      requires head < slots.Length
      reads this, slots
    {
      Window(slots[..], head, count)
    }

    /** opftp_datachan_init: room for two jobs per worker. */
    constructor (workers: nat)
      requires workers > 0
      ensures Valid() && fresh(slots) && slots.Length == 2 * workers && running
      ensures Contents() == [] && accepted == [] && taken == []
    {
      slots := new T[2 * workers];
      head, tail, count := 0, 0, 0;
      running := true;
      accepted, taken := [], [];
    }

    /** opftp_job_dispatch: refused exactly when every slot is waiting. */
    method Dispatch(job: T) returns (ok: bool)
      requires Valid()
      modifies this, slots
      ensures Valid() && slots == old(slots) && running == old(running)
      ensures ok <==> old(|Contents()|) < slots.Length
      ensures Contents() == if ok then old(Contents()) + [job] else old(Contents())
      ensures accepted == if ok then old(accepted) + [job] else old(accepted)
      ensures taken == old(taken)
    {
      if count >= slots.Length {
        ok := false;
      } else {
        WindowPush(slots[..], head, count, job);
        slots[tail] := job;
        assert slots[..] == old(slots[..])[tail := job];
        tail := Wrap(tail, slots.Length);
        count := count + 1;
        accepted := accepted + [job];
        ok := true;
      }
    }

    /** One turn of the worker loop after its wait: a job, or the signal to leave. */
    method Next() returns (job: Option<T>)
      requires Valid()
      requires count > 0 || !running    // what the wait loop waits for
      modifies this
      ensures Valid() && slots == old(slots) && running == old(running) && accepted == old(accepted)
      ensures job.None? <==> old(Contents()) == [] && !running
      ensures job.None? ==> Contents() == old(Contents()) && taken == old(taken)
      ensures job.Some? ==> old(Contents()) == [job.value] + Contents() && taken == old(taken) + [job.value]
    {
      if count == 0 && !running {
        return None;
      }
      job := Some(slots[head]);
      head := Wrap(head, slots.Length);
      count := count - 1;
      taken := taken + [job.value];
    }

    /** opftp_datachan_shutdown, first part: stop the pool and visit every waiting job. */
    method Stop() returns (cancelled: seq<T>)
      requires Valid()
      modifies this`running
      ensures Valid() && !running
      ensures cancelled == Contents() == old(Contents())
    {
      running := false;
      cancelled := [];
      var i := 0;
      while i < count
        invariant 0 <= i <= count && Valid() && !running
        invariant cancelled == Contents()[..i]
      {
        AtIsModulo(head, i, slots.Length);
        WindowAt(slots[..], head, count, i);
        cancelled := cancelled + [slots[(head + i) % slots.Length]];
        i := i + 1;
      }
    }
  }
}
