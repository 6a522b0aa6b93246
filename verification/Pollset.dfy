/** The poll set (src/pollset.c): slots that never move, so that a handle names the same descriptor
    and user for as long as it is registered. Slot 0 is the wake pipe. */
module Pollset {
  import opened Common

  datatype Flag = In | Out | Pri | Err | Hup | Nval

  /** struct pollfd. */
  datatype Slot = Slot(fd: int, events: set<Flag>, revents: set<Flag>)

  predicate Ready(s: Slot) {
    s.fd >= 0 && s.revents != {}
  }

  /** What is left of the report for the wake slot: a wake-up is consumed, anything else stays. */
  function Drained(revents: set<Flag>): set<Flag> {
    if In in revents || Err in revents then {} else revents
  }

  function CountReady(s: seq<Slot>): nat {
    if s == [] then 0 else CountReady(s[..|s| - 1]) + if Ready(s[|s| - 1]) then 1 else 0
  }

  /** What a reader of the slots from j on would report. */
  function ReadyFrom<U>(slots: seq<Slot>, users: seq<Option<U>>, j: nat): seq<(U, set<Flag>)>
    requires |users| == |slots|
    decreases |slots| - j
  {
    if j >= |slots| then []
    else
      (if Ready(slots[j]) && users[j].Some? then [(users[j].value, slots[j].revents)] else []) + ReadyFrom(slots, users, j + 1)
  }

  /** The slots it would report, in order. */
  function Reported<U>(slots: seq<Slot>, users: seq<Option<U>>, j: nat): (hs: seq<nat>)
    requires |users| == |slots|
    ensures forall h :: h in hs ==> j <= h < |slots| && Ready(slots[h]) && users[h].Some?
    ensures forall i, k :: 0 <= i < k < |hs| ==> hs[i] < hs[k]
    decreases |slots| - j
  {
    if j >= |slots| then []
    else
      var later := Reported(slots, users, j + 1);
      if Ready(slots[j]) && users[j].Some? then
        assert forall i :: 0 <= i < |later| ==> later[i] in later;
        [j] + later
      else later
  }

  lemma {:induction false} ReportedContents<U>(slots: seq<Slot>, users: seq<Option<U>>, j: nat)
    requires |users| == |slots|
    ensures var hs, all := Reported(slots, users, j), ReadyFrom(slots, users, j);
      |hs| == |all| && forall i :: 0 <= i < |hs| ==> hs[i] in hs && all[i] == (users[hs[i]].value, slots[hs[i]].revents)
    decreases |slots| - j
  {
    if j < |slots| {
      ReportedContents(slots, users, j + 1);
    }
  }

  lemma {:induction false} ReportedAll<U>(slots: seq<Slot>, users: seq<Option<U>>, j: nat, h: nat)
    requires |users| == |slots| && j <= h < |slots| && Ready(slots[h]) && users[h].Some?
    ensures h in Reported(slots, users, j)
    decreases |slots| - j
  {
    if j < h {
      ReportedAll(slots, users, j + 1, h);
    }
  }

  /** The loop of opftp_pollset_collect over the slots in use. */
  method CollectFrom<U>(slots: seq<Slot>, users: seq<Option<U>>, max: nat) returns (out: seq<(U, set<Flag>)>)
    requires |users| == |slots| > 0
    requires forall h :: 1 <= h < |slots| && slots[h].fd >= 0 ==> users[h].Some?
    ensures var all := ReadyFrom(slots, users, 1); out == if |all| <= max then all else all[..max]
  {
    out := [];
    var j := 1;
    ghost var all := ReadyFrom(slots, users, 1);
    while j < |slots| && |out| < max
      invariant 1 <= j <= |slots| && |out| <= max && all == out + ReadyFrom(slots, users, j)
    {
      if Ready(slots[j]) {
        out := out + [(users[j].value, slots[j].revents)];
      }
      j := j + 1;
    }
  }

  class PollSet<U> {
    var slots: array<Slot>
    var users: array<Option<U>>
    var count: nat
    ghost var live: map<nat, (int, U)>   // handle -> descriptor and user it was added with
    ghost var unpolled: set<nat>         // handles added since the last successful wait

    ghost predicate Valid()
      reads this, slots, users
    {
      && slots.Length == users.Length >= 8 && 1 <= count <= slots.Length
      && (forall h :: h in live ==> 1 <= h < count && Holds(h, live[h]))
      && (forall h :: 1 <= h < count && h !in live ==> slots[h].fd < 0)
      && (forall h :: h in unpolled && h in live ==> slots[h].revents == {})
    }

    ghost predicate Holds(h: nat, entry: (int, U))
      reads this, slots, users
    {
      h < slots.Length && h < users.Length && slots[h].fd == entry.0 >= 0 && users[h] == Some(entry.1)
    }

    constructor (wake: nat)
      ensures Valid() && fresh(slots) && fresh(users) && live == map[] && unpolled == {}
    {
      slots := new Slot[8](i => Slot(if i == 0 then wake else 0, if i == 0 then {In} else {}, {}));
      users := new Option<U>[8](_ => None);
      count := 1;
      live, unpolled := map[], {};
    }

    /** ensure_cap: at most one doubling is ever needed. */
    method EnsureCap(need: nat)
      requires Valid() && need <= slots.Length + 1
      modifies this`slots, this`users
      ensures Valid() && need <= slots.Length && (slots == old(slots) || fresh(slots)) && (users == old(users) || fresh(users))
      ensures slots.Length >= old(slots.Length)
      ensures forall h :: 0 <= h < old(slots.Length) ==> slots[h] == old(slots[h]) && users[h] == old(users[h])
    {
      if need <= slots.Length {
        return;
      }
      var n := slots.Length;
      var ns := new Slot[2 * n](i => Slot(-1, {}, {}));
      var nu := new Option<U>[2 * n](_ => None);
      forall i | 0 <= i < n {
        ns[i] := slots[i];
      }
      forall i | 0 <= i < n {
        nu[i] := users[i];
      }
      slots, users := ns, nu;
    }

    /** opftp_pollset_add: the first free slot, or a new one. */
    method Add(fd: int, events: set<Flag>, user: U) returns (handle: int)
      requires Valid()
      modifies this, slots, users
      ensures Valid() && (slots == old(slots) || fresh(slots)) && (users == old(users) || fresh(users))
      ensures handle == -1 <==> fd < 0
      ensures handle == -1 ==> live == old(live) && unpolled == old(unpolled)
      ensures handle != -1 ==> handle >= 1 && handle !in old(live)
      ensures handle != -1 ==> live == old(live)[handle as nat := (fd, user)] && unpolled == old(unpolled) + {handle as nat}
      ensures handle != -1 ==> forall h :: 1 <= h < handle ==> h in old(live)
      ensures handle != -1 ==> handle < slots.Length && slots[handle] == Slot(fd, events, {})
      ensures forall h :: h in old(live) ==> h < slots.Length && slots[h] == old(slots[h])
    {
      if fd < 0 {
        return -1;
      }
      var i := FirstFree();
      if i == count {
        NewSlot();
      }
      Put(i, fd, events, user);
      return i;
    }

    /** The loop of opftp_pollset_add. */
    method FirstFree() returns (i: nat)
      requires Valid()
      ensures 1 <= i <= count && i !in live && forall h :: 1 <= h < i ==> h in live
    {
      i := 1;
      while i < count && slots[i].fd >= 0
        invariant 1 <= i <= count && forall h :: 1 <= h < i ==> h in live
      {
        i := i + 1;
      }
    }

    /** One more slot at the end. */
    method NewSlot()
      requires Valid()
      modifies this`slots, this`users, this`count, slots
      ensures Valid() && count == old(count) + 1
      ensures forall h :: 0 <= h < old(count) ==> slots[h] == old(slots[h])
      ensures (slots == old(slots) || fresh(slots)) && (users == old(users) || fresh(users))
    {
      EnsureCap(count + 1);
      slots[count] := Slot(-1, {}, {});
      count := count + 1;
    }

    method Put(i: nat, fd: int, events: set<Flag>, user: U)
      requires Valid() && 1 <= i < count && i !in live && fd >= 0
      modifies this`live, this`unpolled, slots, users
      ensures Valid() && live == old(live)[i := (fd, user)] && unpolled == old(unpolled) + {i}
      ensures slots[..] == old(slots[..])[i := Slot(fd, events, {})]
    {
      slots[i] := Slot(fd, events, {});
      users[i] := Some(user);
      live, unpolled := live[i := (fd, user)], unpolled + {i};
    }

    /** opftp_pollset_mod. */
    method Mod(handle: int, events: set<Flag>)
      requires Valid()
      modifies slots
      ensures Valid()
      ensures forall h :: 0 <= h < slots.Length ==>
        slots[h] == if h == handle && 0 < handle < count then old(slots[h]).(events := events) else old(slots[h])
    {
      if handle <= 0 || handle >= count {
        return;
      }
      slots[handle] := slots[handle].(events := events);
    }

    /** opftp_pollset_remove. */
    method Remove(handle: int)
      requires Valid()
      modifies this`live, slots, users
      ensures Valid() && live == map h | h in old(live) && h != handle :: old(live)[h]
      ensures forall h :: 0 <= h < count && h != handle ==> slots[h] == old(slots[h])
    {
      if handle <= 0 || handle >= count {
        return;
      }
      slots[handle] := slots[handle].(fd := -1, revents := {});
      users[handle] := None;
      live := map h | h in live && h != handle :: live[h];
    }

    /** opftp_pollset_wait; `polled` is what poll reports for the slots in use, or None if it fails.
        poll leaves the descriptors alone and reports nothing for a free slot. */
    method Wait(polled: Option<seq<set<Flag>>>) returns (n: int)
      requires Valid()
      requires polled.Some? ==> |polled.value| == count && forall h :: 0 <= h < count && slots[h].fd < 0 ==> polled.value[h] == {}
      modifies this`unpolled, slots
      ensures Valid()
      ensures polled.None? ==> n == -1 && unpolled == old(unpolled) && slots[..] == old(slots[..])
      ensures polled.Some? ==> unpolled == {} && n == CountReady(slots[..count])
      ensures polled.Some? ==> forall h :: 1 <= h < count ==> slots[h] == old(slots[h]).(revents := polled.value[h])
      ensures polled.Some? ==> slots[0] == old(slots[0]).(revents := Drained(polled.value[0]))
    {
      if polled.None? {
        return -1;
      }
      Report(polled.value);
      n := Tally();
    }

    /** poll itself. */
    method Report(polled: seq<set<Flag>>)
      requires Valid() && |polled| == count
      modifies this`unpolled, slots
      ensures Valid() && unpolled == {}
      ensures forall h :: 0 <= h < count ==> slots[h] == old(slots[h]).(revents := polled[h])
    {
      forall h | 0 <= h < count {
        slots[h] := slots[h].(revents := polled[h]);
      }
      unpolled := {};
    }

    /** The loop of opftp_pollset_wait, which also clears the wake slot. */
    method Tally() returns (n: int)
      requires Valid()
      modifies slots
      ensures Valid() && n == CountReady(slots[..count])
      ensures forall h :: 1 <= h < count ==> slots[h] == old(slots[h])
      ensures slots[0] == old(slots[0]).(revents := Drained(old(slots[0]).revents))
    {
      n := 0;
      var i := 0;
      while i < count
        invariant 0 <= i <= count && Valid() && n == CountReady(slots[..i])
        invariant forall h :: 1 <= h < count ==> slots[h] == old(slots[h])
        invariant slots[0] == if i == 0 then old(slots[0]) else old(slots[0]).(revents := Drained(old(slots[0]).revents))
      {
        if i == 0 && (In in slots[0].revents || Err in slots[0].revents) {
          slots[0] := slots[0].(revents := {});
        } else if Ready(slots[i]) {
          n := n + 1;
        }
        assert slots[..i + 1][..i] == slots[..i];
        i := i + 1;
      }
    }

    /** opftp_pollset_collect. */
    method Collect(max: nat) returns (out: seq<(U, set<Flag>)>)
      requires Valid()
      ensures var all := ReadyFrom(slots[..count], users[..count], 1);
        out == if |all| <= max then all else all[..max]
    {
      UsersPresent();
      out := CollectFrom(slots[..count], users[..count], max);
    }

    lemma UsersPresent()
      requires Valid()
      ensures forall h :: 1 <= h < count && slots[..count][h].fd >= 0 ==> users[..count][h].Some?
    {
    }

    /** What is reported: the ready live handles in slot order, with the user each was added with;
        never the wake slot, a removed slot, or one added since the last wait. */
    lemma ReadyHandles() returns (handles: seq<nat>)
      requires Valid()
      ensures var all := ReadyFrom(slots[..count], users[..count], 1);
        |handles| == |all| &&
        (forall i :: 0 <= i < |handles| ==> handles[i] in live && all[i] == (live[handles[i]].1, slots[handles[i]].revents))
      ensures forall i :: 0 <= i < |handles| ==> handles[i] !in unpolled
      ensures forall i, k :: 0 <= i < k < |handles| ==> handles[i] < handles[k]
      ensures forall h :: h in live && slots[h].revents != {} ==> h in handles
    {
      var ss, us := slots[..count], users[..count];
      handles := Reported(ss, us, 1);
      ReportedContents(ss, us, 1);
      forall i | 0 <= i < |handles| ensures handles[i] in live && Holds(handles[i], live[handles[i]]) {
        assert ss[handles[i]] == slots[handles[i]];
      }
      forall h | h in live && slots[h].revents != {} ensures h in handles {
        assert ss[h] == slots[h] && us[h] == users[h];
        ReportedAll(ss, us, 1, h);
      }
    }
  }
}
