/** The display model (app/ui.c): snapshots of the server are compared to keep an event strip, a
    transfer history and session totals. Clock values and transfer rates are not modelled. */
module UiModel {
  import opened Common
  import opened UiView
  import JobRing

  const MAX_HIST: nat := 48
  const MAX_EVENTS: nat := 4

  /** opftp_ui_trk_t. */
  datatype Tracker = Tracker(peer: string, present: bool, seen: bool, loggedIn: bool, xfer: Option<Transfer>)

  const BLANK: Tracker := Tracker("", false, false, false, None)

  // ---- rings ----

  /** i places back from the head. */
  function Back(head: nat, i: nat, cap: nat): (r: nat)
    requires head < cap && i < cap
    ensures r < cap
  {
    if i <= head then head - i else head - i + cap
  }

  lemma BackIsModulo(head: nat, i: nat, cap: nat)
    requires head < cap && i < cap
    ensures Back(head, i, cap) == (head - i + cap) % cap
  {
    var x := head - i + cap;
    JobRing.Quotient(cap, x / cap, x % cap, x);
  }

  /** Read newest first, the ring holds the last pushes. */
  ghost predicate Ring<T(!new)>(slots: seq<T>, head: nat, count: nat, pushed: seq<T>) {
    && head < |slots| && count == (if |pushed| < |slots| then |pushed| else |slots|)
    && forall k {:trigger Unfold(k)} :: Unfold(k) ==>
         forall i :: 0 <= i < count ==> pushed[|pushed| - 1 - i] == slots[Back(head, i, |slots|)]
  }

  lemma RingPush<T(!new)>(slots: seq<T>, head: nat, count: nat, pushed: seq<T>, x: T)
    requires Ring(slots, head, count, pushed)
    ensures var next := JobRing.Wrap(head, |slots|);
      Ring(slots[next := x], next, if count < |slots| then count + 1 else count, pushed + [x])
  {
    assert Unfold(0);
    var cap := |slots|;
    var next := JobRing.Wrap(head, cap);
    var more, count' := slots[next := x], if count < cap then count + 1 else count;
    forall i | 0 <= i < count' ensures (pushed + [x])[|pushed| - i] == more[Back(next, i, cap)] {
      if i > 0 {
        assert Back(next, i, cap) == Back(head, i - 1, cap) != next;
        assert pushed[|pushed| - 1 - (i - 1)] == slots[Back(head, i - 1, cap)];
      }
    }
  }

  // ---- counting trackers ----

  function Active(s: seq<Tracker>): nat {
    if s == [] then 0 else Active(s[..|s| - 1]) + if s[|s| - 1].xfer.Some? then 1 else 0
  }

  function Present(s: seq<Tracker>): nat {
    if s == [] then 0 else Present(s[..|s| - 1]) + if s[|s| - 1].present then 1 else 0
  }

  lemma {:induction false} CountUpdate(s: seq<Tracker>, i: nat, t: Tracker)
    requires i < |s|
    ensures Active(s[i := t]) == Active(s) - (if s[i].xfer.Some? then 1 else 0) + (if t.xfer.Some? then 1 else 0)
    ensures Present(s[i := t]) == Present(s) - (if s[i].present then 1 else 0) + (if t.present then 1 else 0)
  {
    var n := |s| - 1;
    if i < n {
      CountUpdate(s[..n], i, t);
      assert s[i := t][..n] == s[..n][i := t];
    } else {
      assert s[i := t][..n] == s[..n];
    }
  }

  function Total(h: seq<Record>): nat {
    if h == [] then 0 else Total(h[..|h| - 1]) + h[|h| - 1].what.bytes
  }

  lemma TotalMore(h: seq<Record>, r: Record)
    ensures Total(h + [r]) == Total(h) + r.what.bytes
  {
    assert (h + [r])[..|h|] == h;
  }

  lemma {:induction false} NoneYet(s: seq<Tracker>)
    requires forall i :: 0 <= i < |s| ==> s[i] == BLANK
    ensures Active(s) == 0 && Present(s) == 0
  {
    if s != [] {
      NoneYet(s[..|s| - 1]);
    }
  }

  lemma EventCounts(s: seq<Event>, e: Event)
    ensures Connects(s + [e]) == Connects(s) + Here(e.Connected?)
    ensures Disconnects(s + [e]) == Disconnects(s) + Here(e.Disconnected?)
  {
    assert (s + [e])[..|s|] == s;
  }

  function Connects(s: seq<Event>): nat {
    if s == [] then 0 else Connects(s[..|s| - 1]) + if s[|s| - 1].Connected? then 1 else 0
  }

  function Disconnects(s: seq<Event>): nat {
    if s == [] then 0 else Disconnects(s[..|s| - 1]) + if s[|s| - 1].Disconnected? then 1 else 0
  }

  /** Starts are finished or active, and connects are gone or present. */
  ghost predicate Balance(s: seq<Tracker>, starts: nat, finished: seq<Record>, announced: seq<Event>) {
    forall n {:trigger Unfold(n)} :: Unfold(n) ==>
      && starts == |finished| + Active(s)
      && Connects(announced) == Disconnects(announced) + Present(s)
  }

  /** The session counters cover all records. */
  ghost predicate Totals(finished: seq<Record>, xfers: nat, bytes: nat) {
    forall n {:trigger Unfold(n)} :: Unfold(n) ==> xfers == |finished| && bytes == Total(finished)
  }

  lemma TotalsMore(finished: seq<Record>, xfers: nat, bytes: nat, r: Record)
    requires Totals(finished, xfers, bytes)
    ensures Totals(finished + [r], xfers + 1, bytes + r.what.bytes)
  {
    assert Unfold(0);
    TotalMore(finished, r);
  }

  /** A tracker changes; a transfer may start or finish with it. */
  lemma BalanceKeep(s: seq<Tracker>, i: nat, t: Tracker, starts: nat, finished: seq<Record>, announced: seq<Event>,
                    starts': nat, finished': seq<Record>)
    requires Balance(s, starts, finished, announced) && i < |s| && t.present == s[i].present
    requires starts' - |finished'| == starts - |finished| - Here(s[i].xfer.Some?) + Here(t.xfer.Some?)
    ensures Balance(s[i := t], starts', finished', announced)
  {
    assert Unfold(0);
    CountUpdate(s, i, t);
  }

  lemma BalanceNote(s: seq<Tracker>, starts: nat, finished: seq<Record>, announced: seq<Event>, text: string)
    requires Balance(s, starts, finished, announced)
    ensures Balance(s, starts, finished, announced + [Note(text)])
  {
    assert Unfold(0);
    EventCounts(announced, Note(text));
  }

  lemma BalanceJoin(s: seq<Tracker>, i: nat, t: Tracker, starts: nat, finished: seq<Record>, announced: seq<Event>)
    requires Balance(s, starts, finished, announced) && i < |s|
    requires !s[i].present && s[i].xfer.None? && t.present && t.xfer.None?
    ensures Balance(s[i := t], starts, finished, announced + [Connected(t.peer)])
  {
    assert Unfold(0);
    CountUpdate(s, i, t);
    EventCounts(announced, Connected(t.peer));
  }

  lemma BalanceLeave(s: seq<Tracker>, i: nat, starts: nat, finished: seq<Record>, announced: seq<Event>,
                     finished': seq<Record>)
    requires Balance(s, starts, finished, announced) && i < |s| && s[i].present
    requires |finished'| == |finished| + Here(s[i].xfer.Some?)
    ensures Balance(s[i := BLANK], starts, finished', announced + [Disconnected(s[i].peer)])
  {
    assert Unfold(0);
    CountUpdate(s, i, BLANK);
    EventCounts(announced, Disconnected(s[i].peer));
  }

  // ---- the slots and what they show ----

  function EntryOf(t: Tracker): Entry {
    Entry(t.loggedIn, t.xfer, t.seen)
  }

  /** The slots in use show the view, each peer in one of them; a slot not in use has no transfer. */
  ghost predicate Table(s: seq<Tracker>, v: View) {
    forall n {:trigger Unfold(n)} :: Unfold(n) ==>
      && (forall i :: 0 <= i < |s| && !s[i].present ==> s[i].xfer.None?)
      && (forall i, k :: 0 <= i < k < |s| && s[i].present && s[k].present ==> s[i].peer != s[k].peer)
      && (forall i :: 0 <= i < |s| && s[i].present ==> s[i].peer in v && v[s[i].peer] == EntryOf(s[i]))
      && (forall p :: p in v ==> InUse(s, p))
  }

  ghost predicate InUse(s: seq<Tracker>, p: string) {
    exists i :: 0 <= i < |s| && s[i].present && s[i].peer == p
  }

  lemma TableEntry(s: seq<Tracker>, v: View, i: nat)
    requires Table(s, v) && i < |s|
    ensures s[i].present ==> s[i].peer in v && v[s[i].peer] == EntryOf(s[i])
    ensures !s[i].present ==> s[i].xfer.None?
  {
    assert Unfold(0);
  }

  lemma TableSet(s: seq<Tracker>, v: View, i: nat, t: Tracker)
    requires Table(s, v) && i < |s| && t.present && (if s[i].present then t.peer == s[i].peer else t.peer !in v)
    ensures Table(s[i := t], v[t.peer := EntryOf(t)])
  {
    assert Unfold(0);
    var s', v' := s[i := t], v[t.peer := EntryOf(t)];
    assert s'[i].present && s'[i].peer == t.peer;
    forall p | p in v' ensures InUse(s', p) {
      if p != t.peer {
        var k :| 0 <= k < |s| && s[k].present && s[k].peer == p;
        assert s'[k] == s[k];
      }
    }
  }

  lemma TableClear(s: seq<Tracker>, v: View, i: nat)
    requires Table(s, v) && i < |s| && s[i].present
    ensures Table(s[i := BLANK], v - {s[i].peer})
  {
    assert Unfold(0);
    var s', v' := s[i := BLANK], v - {s[i].peer};
    forall p | p in v' ensures InUse(s', p) {
      var k :| 0 <= k < |s| && s[k].present && s[k].peer == p;
      assert s'[k] == s[k];
    }
  }

  lemma TableFree(s: seq<Tracker>, v: View, i: nat, t: Tracker)
    requires Table(s, v) && i < |s| && !s[i].present && !t.present && t.xfer.None?
    ensures Table(s[i := t], v)
  {
    assert Unfold(0);
    var s' := s[i := t];
    forall p | p in v ensures InUse(s', p) {
      var k :| 0 <= k < |s| && s[k].present && s[k].peer == p;
      assert s'[k] == s[k];
    }
  }

  lemma TableMissing(s: seq<Tracker>, v: View, p: string)
    requires Table(s, v) && forall i :: 0 <= i < |s| && s[i].present ==> s[i].peer != p
    ensures p !in v
  {
    assert Unfold(0);
    assert !InUse(s, p);
  }

  ghost function PeerSet(s: seq<Tracker>): set<string> {
    set i | 0 <= i < |s| && s[i].present :: s[i].peer
  }

  lemma TableKeys(s: seq<Tracker>, v: View)
    requires Table(s, v)
    ensures PeerSet(s) == v.Keys
  {
    assert Unfold(0);
    forall p | p in v ensures p in PeerSet(s) {
      assert InUse(s, p);
    }
  }

  lemma PeersLast(s: seq<Tracker>)
    requires s != []
    ensures PeerSet(s) == PeerSet(s[..|s| - 1]) + if s[|s| - 1].present then {s[|s| - 1].peer} else {}
  {
    var init := s[..|s| - 1];
    assert forall k :: 0 <= k < |init| ==> init[k] == s[k];
  }

  /** No more peers than slots. */
  lemma {:induction false} FewPeers(s: seq<Tracker>)
    ensures |PeerSet(s)| <= |s|
  {
    if s != [] {
      FewPeers(s[..|s| - 1]);
      PeersLast(s);
    }
  }

  /** As many when all are in use. */
  lemma {:induction false} AllPeers(s: seq<Tracker>)
    requires forall i :: 0 <= i < |s| ==> s[i].present
    requires forall i, k :: 0 <= i < k < |s| ==> s[i].peer != s[k].peer
    ensures |PeerSet(s)| == |s|
  {
    if s != [] {
      AllPeers(s[..|s| - 1]);
      PeersLast(s);
    }
  }

  lemma TableSize(s: seq<Tracker>, v: View)
    requires Table(s, v)
    ensures |v| <= |s| && ((forall i :: 0 <= i < |s| ==> s[i].present) ==> |v| == |s|)
  {
    TableKeys(s, v);
    FewPeers(s);
    assert |v.Keys| == |v|;
    if forall i :: 0 <= i < |s| ==> s[i].present {
      assert Unfold(0);
      AllPeers(s);
    }
  }

  lemma TableRoom(s: seq<Tracker>, v: View, i: nat, p: string)
    requires Table(s, v) && i < |s| && !s[i].present && p !in v
    ensures |v| < |s|
  {
    var t := Tracker(p, true, true, false, None);
    var v' := v[p := EntryOf(t)];
    TableSet(s, v, i, t);
    TableSize(s[i := t], v');
    assert v'.Keys == v.Keys + {p} && |v'.Keys| == |v'| && |v.Keys| == |v|;
  }

  // ---- the model ----

  class Ui {
    const events: array<Event>
    const hist: array<Record>
    const trk: array<Tracker>
    var evHead: nat
    var evCount: nat
    var histHead: nat
    var histCount: nat
    var sessionXfers: nat
    var sessionBytes: nat
    ghost var announced: seq<Event>    // every event ever pushed
    ghost var finished: seq<Record>    // every history entry ever pushed
    ghost var starts: nat              // transfer starts observed
    ghost var view: View               // what the trackers show

    ghost function Account(): Books
      reads this
    {
      Books(view, starts, finished, announced)
    }

    ghost predicate EventsOk()
      reads this, events
    {
      events.Length == MAX_EVENTS && Ring(events[..], evHead, evCount, announced)
    }

    ghost predicate HistoryOk()
      reads this, hist
    {
      && hist.Length == MAX_HIST && Ring(hist[..], histHead, histCount, finished)
      && Totals(finished, sessionXfers, sessionBytes)
    }

    ghost predicate Conserved()
      reads this, trk
    {
      trk.Length == MAX_TRACK && Table(trk[..], view) && Balance(trk[..], starts, finished, announced)
    }

    ghost predicate Valid()
      reads this, events, hist, trk
    {
      EventsOk() && HistoryOk() && Conserved()
    }

    /** opftp_ui_init. */
    constructor ()
      ensures Valid() && Account() == Books(map[], 0, [], [])
      ensures fresh(events) && fresh(hist) && fresh(trk)
    {
      events := new Event[MAX_EVENTS](_ => Connected(""));
      hist := new Record[MAX_HIST](_ => Record(Transfer("", "", 0, 0), Fine));
      trk := new Tracker[MAX_TRACK](_ => BLANK);
      evHead, evCount, histHead, histCount := 0, 0, 0, 0;
      sessionXfers, sessionBytes := 0, 0;
      announced, finished, starts, view := [], [], 0, map[];
      new;
      NoneYet(trk[..]);
    }

    /** ev_push. */
    method EvPush(e: Event)
      requires EventsOk()
      modifies this`evHead, this`evCount, this`announced, events
      ensures EventsOk() && announced == old(announced) + [e]
    {
      RingPush(events[..], evHead, evCount, announced, e);
      evHead := JobRing.Wrap(evHead, MAX_EVENTS);
      events[evHead] := e;
      assert events[..] == old(events[..])[evHead := e];
      if evCount < MAX_EVENTS {
        evCount := evCount + 1;
      }
      announced := announced + [e];
    }

    /** opftp_ui_event: an event of the renderer's own. */
    method Announce(text: string)
      requires Valid()
      modifies this`evHead, this`evCount, this`announced, events
      ensures Valid() && announced == old(announced) + [Note(text)]
    {
      BalanceNote(trk[..], starts, finished, announced, text);
      EvPush(Note(text));
    }

    /** hist_push. */
    method HistPush(r: Record)
      requires HistoryOk()
      modifies this`histHead, this`histCount, this`finished, this`sessionXfers, this`sessionBytes, hist
      ensures HistoryOk() && finished == old(finished) + [r]
    {
      RingPush(hist[..], histHead, histCount, finished, r);
      histHead := JobRing.Wrap(histHead, MAX_HIST);
      hist[histHead] := r;
      assert hist[..] == old(hist[..])[histHead := r];
      if histCount < MAX_HIST {
        histCount := histCount + 1;
      }
      TotalsMore(finished, sessionXfers, sessionBytes, r);
      sessionXfers := sessionXfers + 1;
      sessionBytes := sessionBytes + r.what.bytes;
      finished := finished + [r];
    }

    /** How the renderers read the strip: i-th newest event. */
    method NthEvent(i: nat) returns (e: Event)
      requires EventsOk() && i < evCount
      ensures e == announced[|announced| - 1 - i]
    {
      assert Unfold(0);
      BackIsModulo(evHead, i, MAX_EVENTS);
      e := events[(evHead - i + MAX_EVENTS) % MAX_EVENTS];
    }

    method NthRecord(i: nat) returns (r: Record)
      requires HistoryOk() && i < histCount
      ensures r == finished[|finished| - 1 - i]
    {
      assert Unfold(0);
      BackIsModulo(histHead, i, MAX_HIST);
      r := hist[(histHead - i + MAX_HIST) % MAX_HIST];
    }

    /** trk_find: the peer's slot, else a cleared free one, else none. */
    method TrkFind(peer: string) returns (slot: Option<nat>)
      requires Conserved()
      modifies trk
      ensures Conserved()
      ensures slot.Some? ==> slot.value < MAX_TRACK && trk[slot.value].peer == peer
      ensures slot.Some? ==> (trk[slot.value].present <==> peer in view)
      ensures slot.Some? && !trk[slot.value].present ==> trk[slot.value] == BLANK.(peer := peer)
      ensures slot.None? ==> peer !in view && |view| == MAX_TRACK
      ensures forall i :: 0 <= i < MAX_TRACK && (trk[i].present || old(trk[i]).present) ==> trk[i] == old(trk[i])
    {
      var i := 0;
      while i < MAX_TRACK
        invariant 0 <= i <= MAX_TRACK && forall k :: 0 <= k < i && trk[k].present ==> trk[k].peer != peer
      {
        if trk[i].present && trk[i].peer == peer {
          TableEntry(trk[..], view, i);
          return Some(i);
        }
        i := i + 1;
      }
      TableMissing(trk[..], view, peer);
      i := 0;
      while i < MAX_TRACK
        invariant 0 <= i <= MAX_TRACK && forall k :: 0 <= k < i ==> trk[k].present
      {
        if !trk[i].present {
          Reserve(i, peer);
          return Some(i);
        }
        i := i + 1;
      }
      TableSize(trk[..], view);
      return None;
    }

    /** A free slot is cleared and given a name. */
    method Reserve(i: nat, peer: string)
      requires Conserved() && i < MAX_TRACK && !trk[i].present
      modifies trk
      ensures Conserved() && trk[..] == old(trk[..])[i := BLANK.(peer := peer)]
    {
      var t := BLANK.(peer := peer);
      TableEntry(trk[..], view, i);
      TableFree(trk[..], view, i, t);
      BalanceKeep(trk[..], i, t, starts, finished, announced, starts, finished);
      trk[i] := t;
      assert trk[..] == old(trk[..])[i := t];
    }

    /** Write a tracker in use; the view follows. */
    method Put(i: nat, t: Tracker)
      requires trk.Length == MAX_TRACK && i < MAX_TRACK && Table(trk[..], view) && t.present
      requires if trk[i].present then t.peer == trk[i].peer else t.peer !in view
      modifies trk, this`view
      ensures trk[..] == old(trk[..])[i := t] && Table(trk[..], view) && view == old(view)[t.peer := EntryOf(t)]
    {
      TableSet(trk[..], view, i, t);
      trk[i] := t;
      view := view[t.peer := EntryOf(t)];
      assert trk[..] == old(trk[..])[i := t];
    }

    /** Forget a tracker. */
    method Clear(i: nat)
      requires trk.Length == MAX_TRACK && i < MAX_TRACK && Table(trk[..], view) && trk[i].present
      modifies trk, this`view
      ensures trk[..] == old(trk[..])[i := BLANK] && Table(trk[..], view) && view == old(view) - {old(trk[i]).peer}
    {
      TableClear(trk[..], view, i);
      view := view - {trk[i].peer};
      trk[i] := BLANK;
      assert trk[..] == old(trk[..])[i := BLANK];
    }

    /** One client of the snapshot is entered in the books; it goes unnoticed exactly if it is new and
        the table is full. */
    method Observe(c: Client)
      requires Valid()
      modifies this, events, hist, trk
      ensures Valid() && Enters(old(Account()), c, Account())
    {
      ghost var m := Account();
      var slot := TrkFind(c.peer);
      if slot.None? {
        EntersFull(m, c);
        return;
      }
      var i := slot.value;
      if trk[i].present {
        ObserveKnown(i, c);
      } else {
        ObserveNew(i, c);
      }
    }

    method ObserveKnown(i: nat, c: Client)
      requires Valid() && i < MAX_TRACK && trk[i].present && trk[i].peer == c.peer
      modifies this, events, hist, trk
      ensures Valid() && Enters(old(Account()), c, Account())
    {
      ghost var m := Account();
      Confirm(i, c);
      Progress(i, c);
      EntersKnown(m, c, Account());
    }

    method ObserveNew(i: nat, c: Client)
      requires Valid() && i < MAX_TRACK && !trk[i].present && c.peer !in view
      modifies this, events, hist, trk
      ensures Valid() && Enters(old(Account()), c, Account())
    {
      ghost var m := Account();
      TableRoom(trk[..], view, i, c.peer);
      Greet(i, c);
      Progress(i, c);
      EntersNew(m, c, Account());
    }

    /** The client is there for the first time. */
    method Greet(i: nat, c: Client)
      requires Valid() && i < MAX_TRACK && !trk[i].present && c.peer !in view
      modifies this`evHead, this`evCount, this`announced, this`view, events, trk
      ensures Valid() && trk[i] == Tracker(c.peer, true, true, c.loggedIn, None)
      ensures view == old(view)[c.peer := Entry(c.loggedIn, None, true)]
      ensures announced == old(announced) + [Connected(c.peer)]
    {
      var t := Tracker(c.peer, true, true, c.loggedIn, None);
      TableEntry(trk[..], view, i);
      BalanceJoin(trk[..], i, t, starts, finished, announced);
      EvPush(Connected(c.peer));
      Put(i, t);
    }

    /** The client is still there. */
    method Confirm(i: nat, c: Client)
      requires Valid() && i < MAX_TRACK && trk[i].present && trk[i].peer == c.peer
      modifies this`view, trk
      ensures Valid() && trk[i] == old(trk[i]).(seen := true, loggedIn := c.loggedIn)
      ensures c.peer in old(view) && old(view)[c.peer].xfer == trk[i].xfer
      ensures view == old(view)[c.peer := Entry(c.loggedIn, trk[i].xfer, true)]
    {
      var t := trk[i].(seen := true, loggedIn := c.loggedIn);
      TableEntry(trk[..], view, i);
      BalanceKeep(trk[..], i, t, starts, finished, announced, starts, finished);
      Put(i, t);
    }

    /** Its transfer is over: one entry in the history. */
    method Close(i: nat)
      requires Valid() && i < MAX_TRACK && trk[i].present && trk[i].xfer.Some?
      modifies this`histHead, this`histCount, this`finished, this`sessionXfers, this`sessionBytes, this`view, hist, trk
      ensures Valid() && trk[i] == old(trk[i]).(xfer := None)
      ensures view == old(view)[trk[i].peer := EntryOf(trk[i])]
      ensures finished == old(finished) + [Record(old(trk[i]).xfer.value, Ended(old(trk[i]).xfer.value))]
    {
      var t, r := trk[i].(xfer := None), Record(trk[i].xfer.value, Ended(trk[i].xfer.value));
      BalanceKeep(trk[..], i, t, starts, finished, announced, starts, finished + [r]);
      HistPush(r);
      Put(i, t);
    }

    /** Its transfer has started or gone on. */
    method Advance(i: nat, x: Transfer)
      requires Valid() && i < MAX_TRACK && trk[i].present
      modifies this`starts, this`view, trk
      ensures Valid() && trk[i] == old(trk[i]).(xfer := Follow(old(trk[i]).xfer, Some(x)))
      ensures view == old(view)[trk[i].peer := EntryOf(trk[i])]
      ensures starts == old(starts) + Here(old(trk[i]).xfer.None?)
    {
      var was := trk[i].xfer;
      var now := if was.None? then x else was.value.(bytes := x.bytes, total := x.total);
      var t := trk[i].(xfer := Some(now));
      BalanceKeep(trk[..], i, t, starts, finished, announced, starts + Here(was.None?), finished);
      starts := starts + Here(was.None?);
      Put(i, t);
    }

    /** Its transfer has started, gone on or ended. */
    method Progress(i: nat, c: Client)
      requires Valid() && i < MAX_TRACK && trk[i].present
      modifies this`starts, this`histHead, this`histCount, this`finished, this`sessionXfers, this`sessionBytes, this`view
      modifies hist, trk
      ensures Valid() && trk[i] == old(trk[i]).(xfer := Follow(old(trk[i]).xfer, c.xfer))
      ensures view == old(view)[trk[i].peer := EntryOf(trk[i])]
      ensures starts == old(starts) + Here(old(trk[i]).xfer.None? && c.xfer.Some?)
      ensures finished == old(finished) + Closing(old(trk[i]).xfer, c.xfer)
    {
      TableEntry(trk[..], view, i);
      if c.xfer.Some? {
        Advance(i, c.xfer.value);
      } else if trk[i].xfer.Some? {
        Close(i);
      }
    }

    /** A tracked client that is not in the snapshot any more; its transfer never completed. */
    method Expire(i: nat)
      requires Valid() && i < MAX_TRACK && trk[i].present
      modifies this`evHead, this`evCount, this`announced, this`view, events, trk
      modifies this`histHead, this`histCount, this`finished, this`sessionXfers, this`sessionBytes, hist
      ensures Valid() && trk[..] == old(trk[..])[i := BLANK] && view == old(view) - {old(trk[i]).peer}
      ensures old(trk[i]).peer in old(view) && old(view)[old(trk[i]).peer] == EntryOf(old(trk[i]))
      ensures announced == old(announced) + [Disconnected(old(trk[i]).peer)]
      ensures finished ==
              old(finished) + if old(trk[i]).xfer.Some? then [Record(old(trk[i]).xfer.value, Broken)] else []
    {
      TableEntry(trk[..], view, i);
      BalanceLeave(trk[..], i, starts, finished, announced,
                   finished + if trk[i].xfer.Some? then [Record(trk[i].xfer.value, Broken)] else []);
      EvPush(Disconnected(trk[i].peer));
      if trk[i].xfer.Some? {
        HistPush(Record(trk[i].xfer.value, Broken));
      }
      Clear(i);
    }

    /** The first loop of opftp_ui_poll. */
    method Unsee()
      requires Valid()
      modifies this`view, trk
      ensures Valid() && view == Unseen(old(view))
    {
      var i := 0;
      while i < MAX_TRACK
        invariant 0 <= i <= MAX_TRACK && Valid() && Unseeing(trk[..], view, old(view), i)
      {
        UnseeOne(trk[..], view, old(view), i);
        Unmark(i);
        i := i + 1;
      }
      UnseenAll(trk[..], view, old(view));
    }

    method Unmark(i: nat)
      requires Valid() && i < MAX_TRACK
      modifies this`view, trk
      ensures Valid() && trk[..] == old(trk[..])[i := old(trk[i]).(seen := false)]
      ensures view == if trk[i].present then old(view)[trk[i].peer := EntryOf(trk[i])] else old(view)
    {
      var t := trk[i].(seen := false);
      TableEntry(trk[..], view, i);
      BalanceKeep(trk[..], i, t, starts, finished, announced, starts, finished);
      if t.present {
        Put(i, t);
      } else {
        TableFree(trk[..], view, i, t);
        trk[i] := t;
        assert trk[..] == old(trk[..])[i := t];
      }
    }

    /** The second loop. */
    method ObserveAll(clients: seq<Client>)
      requires Valid()
      modifies this, events, hist, trk
      ensures Valid() && Entered(old(Account()), clients, |clients|, Account())
    {
      var i := 0;
      while i < |clients|
        invariant 0 <= i <= |clients| && Valid() && Entered(old(Account()), clients, i, Account())
      {
        ghost var m := Account();
        Observe(clients[i]);
        EnteredNext(old(Account()), clients, i, m, Account());
        i := i + 1;
      }
    }

    /** The third loop. */
    method ExpireAll() returns (ghost order: seq<string>)
      requires Valid()
      modifies this, events, hist, trk
      ensures Valid() && StruckOut(old(Account()), Account(), order) && Elems(order) == Vanished(old(view))
    {
      order := [];
      var i := 0;
      StruckNone(Account());
      while i < MAX_TRACK
        invariant 0 <= i <= MAX_TRACK && Valid() && StruckOut(old(Account()), Account(), order)
        invariant forall k :: 0 <= k < i && trk[k].present ==> trk[k].seen
      {
        if trk[i].present && !trk[i].seen {
          ghost var t, before, slots := trk[i], Account(), trk[..];
          Expire(i);
          StruckOne(old(Account()), before, Account(), order, t.peer);
          order := order + [t.peer];
          assert forall k :: 0 <= k < i ==> trk[..][k] == slots[k];
        }
        i := i + 1;
      }
      OnlySeen(trk[..], view);
      StruckAll(old(Account()), Account(), order);
    }

    /** opftp_ui_poll. What is known, counted, recorded and announced follows from the snapshot and the
        books before, up to the order in which vanished clients are struck out. So only clients of the
        snapshot are tracked, each as the snapshot last shows it, and all of them exactly if the table
        has room for the clients tracked so far and those of the snapshot together. */
    method Poll(clients: seq<Client>) returns (ghost order: seq<string>)
      requires Valid()
      modifies this, events, hist, trk
      ensures Valid() && Polled(old(Account()), Account(), clients, order)
      ensures Grows(old(Account()), Account())
      ensures PeerSet(trk[..]) <= Peers(clients, |clients|)
      ensures PeerSet(trk[..]) == Peers(clients, |clients|)
        <==> |PeerSet(old(trk[..])) + Peers(clients, |clients|)| <= MAX_TRACK
      ensures forall i :: 0 <= i < MAX_TRACK && trk[i].present ==>
        var c := LastOf(clients, |clients|, trk[i].peer); c.Some? && Shows(EntryOf(trk[i]), c.value)
    {
      ghost var before := Account();
      TableSize(trk[..], view);
      TableKeys(trk[..], view);
      Unsee();
      ObserveAll(clients);
      ghost var entered := Account();
      order := ExpireAll();
      PolledBy(before, entered, Account(), clients, order);
      PollMeaning(before, Account(), clients, order);
      TableKeys(trk[..], view);
      forall i | 0 <= i < MAX_TRACK && trk[i].present
        ensures trk[i].peer in view && view[trk[i].peer] == EntryOf(trk[i])
      {
        TableEntry(trk[..], view, i);
      }
    }
  }

  // ---- marking everybody as not seen ----

  /** The first n slots are done: view `v` is `was` but for the marks of those in them. */
  ghost predicate Unseeing(s: seq<Tracker>, v: View, was: View, n: nat) {
    && v.Keys == was.Keys && (forall i :: 0 <= i < n && i < |s| ==> !s[i].seen)
    && forall p :: p in v ==> v[p] == was[p].(seen := v[p].seen)
  }

  lemma UnseeOne(s: seq<Tracker>, v: View, was: View, i: nat)
    requires Table(s, v) && Unseeing(s, v, was, i) && i < |s|
    ensures var t := s[i].(seen := false);
      Unseeing(s[i := t], if t.present then v[t.peer := EntryOf(t)] else v, was, i + 1)
  {
    TableEntry(s, v, i);
  }

  lemma UnseenAll(s: seq<Tracker>, v: View, was: View)
    requires Table(s, v) && Unseeing(s, v, was, |s|)
    ensures v == Unseen(was)
  {
    assert Unfold(0);
    forall p | p in v ensures !v[p].seen {
      assert InUse(s, p);
    }
  }

  lemma PolledBy(before: Books, entered: Books, after: Books, clients: seq<Client>, order: seq<string>)
    requires Entered(before.(view := Unseen(before.view)), clients, |clients|, entered)
    requires StruckOut(entered, after, order) && Elems(order) == Vanished(entered.view)
    ensures Polled(before, after, clients, order)
  {
    assert UnfoldBooks(0);
  }

  // ---- striking out the vanished ----

  /** `order` has been struck out of the books. */
  ghost predicate StruckOut(a: Books, b: Books, order: seq<string>) {
    forall k {:trigger UnfoldBooks(k)} :: UnfoldBooks(k) ==>
      && NoDup(order) && Elems(order) <= Vanished(a.view)
      && b == Books(a.view - Elems(order), a.starts, a.finished + Losses(a.view, order), a.announced + Departures(order))
  }

  lemma StruckNone(a: Books)
    ensures StruckOut(a, a, [])
  {
    assert a.view - {} == a.view && a.finished + [] == a.finished && a.announced + [] == a.announced;
    assert Elems<string>([]) == {};
  }

  lemma StruckOne(a: Books, b: Books, c: Books, order: seq<string>, p: string)
    requires StruckOut(a, b, order) && p in b.view && !b.view[p].seen
    requires c == Books(b.view - {p}, b.starts,
                        b.finished + (if b.view[p].xfer.Some? then [Record(b.view[p].xfer.value, Broken)] else []),
                        b.announced + [Disconnected(p)])
    ensures StruckOut(a, c, order + [p])
  {
    assert UnfoldBooks(0);
    StruckMore(a.view, order, p);
    LossesMore(a.view, order, p, a.finished, a.announced);
  }

  lemma LossesMore(v: View, order: seq<string>, p: string, finished: seq<Record>, announced: seq<Event>)
    requires p in v
    ensures finished + Losses(v, order + [p]) ==
            finished + Losses(v, order) + if v[p].xfer.Some? then [Record(v[p].xfer.value, Broken)] else []
    ensures announced + Departures(order + [p]) == announced + Departures(order) + [Disconnected(p)]
  {
    assert (order + [p])[..|order|] == order;
  }

  lemma StruckMore(v: View, order: seq<string>, p: string)
    requires NoDup(order) && Elems(order) <= Vanished(v) && p in v - Elems(order) && !v[p].seen
    ensures NoDup(order + [p]) && Elems(order + [p]) == Elems(order) + {p} <= Vanished(v)
    ensures v - Elems(order) - {p} == v - Elems(order + [p])
  {
    assert p in order ==> p in Elems(order);
  }

  lemma OnlySeen(s: seq<Tracker>, v: View)
    requires Table(s, v) && forall i :: 0 <= i < |s| && s[i].present ==> s[i].seen
    ensures Vanished(v) == {}
  {
    assert Unfold(0);
    forall p | p in v ensures v[p].seen {
      assert InUse(s, p);
    }
  }

  lemma StruckAll(a: Books, b: Books, order: seq<string>)
    requires StruckOut(a, b, order) && Vanished(b.view) == {}
    ensures Elems(order) == Vanished(a.view)
  {
    assert UnfoldBooks(0);
    forall p | p in Vanished(a.view) ensures p in Elems(order) {
      assert p !in Elems(order) ==> p in Vanished(b.view);
    }
  }
}
