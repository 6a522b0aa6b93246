/** What a poll of the display (app/ui.c) means, without the slots it keeps its clients in: a book of
    the clients it knows, and how each client of a snapshot is entered. */
module UiView {
  import opened Common

  const MAX_TRACK: nat := 24

  datatype Outcome = Fine | Aborted | Broken
  datatype Event = Connected(peer: string) | Disconnected(peer: string) | Note(text: string)
  datatype Transfer = Transfer(op: string, path: string, bytes: nat, total: nat)
  datatype Record = Record(what: Transfer, outcome: Outcome)

  /** One client of a snapshot. */
  datatype Client = Client(peer: string, loggedIn: bool, xfer: Option<Transfer>)

  /** What is known of a client; `xfer` is the transfer last seen, if one is active. */
  datatype Entry = Entry(loggedIn: bool, xfer: Option<Transfer>, seen: bool)

  type View = map<string, Entry>

  /** The clients known, the transfer starts counted, and everything recorded and announced so far. */
  datatype Books = Books(view: View, starts: nat, finished: seq<Record>, announced: seq<Event>)

  function Here(b: bool): nat {
    if b then 1 else 0
  }

  /** A transfer that is no longer in the snapshot: cut short if its size was known and not reached. */
  function Ended(x: Transfer): Outcome {
    if x.bytes != 0 && x.total != 0 && x.bytes < x.total then Aborted else Fine
  }

  /** What a transfer is called stays as first seen; its figures follow the snapshot. */
  function Follow(was: Option<Transfer>, now: Option<Transfer>): Option<Transfer> {
    if was.Some? && now.Some? then Some(was.value.(bytes := now.value.bytes, total := now.value.total)) else now
  }

  /** The record of a transfer that has ended. */
  function Closing(was: Option<Transfer>, now: Option<Transfer>): seq<Record> {
    if was.Some? && now.None? then [Record(was.value, Ended(was.value))] else []
  }

  /** Entering one client; a new one is passed over if the book is full. */
  function Enter(b: Books, c: Client): Books {
    if c.peer in b.view then
      var was := b.view[c.peer].xfer;
      b.(view := b.view[c.peer := Entry(c.loggedIn, Follow(was, c.xfer), true)],
         starts := b.starts + Here(was.None? && c.xfer.Some?),
         finished := b.finished + Closing(was, c.xfer))
    else if |b.view| < MAX_TRACK then
      b.(view := b.view[c.peer := Entry(c.loggedIn, c.xfer, true)], starts := b.starts + Here(c.xfer.Some?),
         announced := b.announced + [Connected(c.peer)])
    else b
  }

  function EnterAll(b: Books, clients: seq<Client>, n: nat): Books
    requires n <= |clients|
  {
    if n == 0 then b else Enter(EnterAll(b, clients, n - 1), clients[n - 1])
  }

  /** As `Unfold`, for the books alone. */
  ghost predicate UnfoldBooks(k: int) { true }

  /** `m` are the books after the first n clients. */
  ghost predicate Entered(b: Books, clients: seq<Client>, n: nat, m: Books) {
    forall k {:trigger UnfoldBooks(k)} :: UnfoldBooks(k) ==> n <= |clients| && m == EnterAll(b, clients, n)
  }

  /** `m` becomes `m'` by entering c. */
  ghost predicate Enters(m: Books, c: Client, m': Books) {
    forall k {:trigger UnfoldBooks(k)} :: UnfoldBooks(k) ==> m' == Enter(m, c)
  }

  lemma EnteredNext(b: Books, clients: seq<Client>, n: nat, m: Books, m': Books)
    requires Entered(b, clients, n, m) && n < |clients| && Enters(m, clients[n], m')
    ensures Entered(b, clients, n + 1, m')
  {
    assert UnfoldBooks(0);
  }

  lemma EntersFull(m: Books, c: Client)
    requires c.peer !in m.view && |m.view| >= MAX_TRACK
    ensures Enters(m, c, m)
  {
  }

  lemma EntersKnown(m: Books, c: Client, m': Books)
    requires c.peer in m.view
    requires var was := m.view[c.peer].xfer;
      m' == Books(m.view[c.peer := Entry(c.loggedIn, was, true)][c.peer := Entry(c.loggedIn, Follow(was, c.xfer), true)],
                  m.starts + Here(was.None? && c.xfer.Some?), m.finished + Closing(was, c.xfer), m.announced)
    ensures Enters(m, c, m')
  {
    var was := m.view[c.peer].xfer;
    var e, e' := Entry(c.loggedIn, was, true), Entry(c.loggedIn, Follow(was, c.xfer), true);
    assert m.view[c.peer := e][c.peer := e'] == m.view[c.peer := e'];
  }

  lemma EntersNew(m: Books, c: Client, m': Books)
    requires c.peer !in m.view && |m.view| < MAX_TRACK
    requires m' == Books(m.view[c.peer := Entry(c.loggedIn, None, true)][c.peer := Entry(c.loggedIn, c.xfer, true)],
                         m.starts + Here(c.xfer.Some?), m.finished + Closing(None, c.xfer),
                         m.announced + [Connected(c.peer)])
    ensures Enters(m, c, m')
  {
    assert m.finished + [] == m.finished;
    var e, e' := Entry(c.loggedIn, None, true), Entry(c.loggedIn, c.xfer, true);
    assert m.view[c.peer := e][c.peer := e'] == m.view[c.peer := e'];
  }

  function Unseen(v: View): View {
    map p | p in v :: v[p].(seen := false)
  }

  ghost function Vanished(v: View): set<string> {
    set p | p in v && !v[p].seen
  }

  /** What is recorded for clients that vanish: a transfer they had never completed. */
  function Losses(v: View, order: seq<string>): seq<Record> {
    if order == [] then []
    else
      var p := order[|order| - 1];
      Losses(v, order[..|order| - 1]) + if p in v && v[p].xfer.Some? then [Record(v[p].xfer.value, Broken)] else []
  }

  function Departures(order: seq<string>): seq<Event> {
    if order == [] then [] else Departures(order[..|order| - 1]) + [Disconnected(order[|order| - 1])]
  }

  /** One poll: nobody is seen yet, all clients of the snapshot are entered, and those not seen are
      struck out, in some order. */
  ghost predicate Polled(before: Books, after: Books, clients: seq<Client>, order: seq<string>) {
    var b := EnterAll(before.(view := Unseen(before.view)), clients, |clients|);
    && NoDup(order) && Elems(order) == Vanished(b.view)
    && after == Books(b.view - Vanished(b.view), b.starts, b.finished + Losses(b.view, order),
                      b.announced + Departures(order))
  }

  // ---- what it amounts to ----

  /** The peers of the first n clients. */
  ghost function Peers(clients: seq<Client>, n: nat): set<string> {
    set k | 0 <= k < n && k < |clients| :: clients[k].peer
  }

  /** The last of the first n clients with that peer. */
  function LastOf(clients: seq<Client>, n: nat, peer: string): Option<Client>
    requires n <= |clients|
  {
    if n == 0 then None
    else if clients[n - 1].peer == peer then Some(clients[n - 1])
    else LastOf(clients, n - 1, peer)
  }

  lemma PeersNext(clients: seq<Client>, i: nat)
    requires i < |clients|
    ensures Peers(clients, i + 1) == Peers(clients, i) + {clients[i].peer}
  {
  }

  lemma SubsetSize<T>(a: set<T>, b: set<T>)
    requires a <= b
    ensures |a| <= |b|
  {
    assert b == a + (b - a);
  }

  /** No record, event or start is ever taken back. */
  ghost predicate Grows(a: Books, b: Books) {
    a.starts <= b.starts && a.finished <= b.finished && a.announced <= b.announced
  }

  lemma GrowsOn(a: Books, b: Books, c: Books)
    requires Grows(a, b) && Grows(b, c)
    ensures Grows(a, c)
  {
  }

  lemma {:induction false} EnterGrows(b: Books, clients: seq<Client>, n: nat)
    requires n <= |clients|
    ensures Grows(b, EnterAll(b, clients, n))
  {
    if n > 0 {
      EnterGrows(b, clients, n - 1);
      var m := EnterAll(b, clients, n - 1);
      assert Grows(m, Enter(m, clients[n - 1]));
      GrowsOn(b, m, Enter(m, clients[n - 1]));
    }
  }

  /** Nobody is forgotten or invented, and the book never overflows. */
  lemma {:induction false} EnterAllKeys(b: Books, clients: seq<Client>, n: nat)
    requires n <= |clients| && |b.view| <= MAX_TRACK
    ensures var m := EnterAll(b, clients, n);
      b.view.Keys <= m.view.Keys <= b.view.Keys + Peers(clients, n) && |m.view| <= MAX_TRACK
  {
    if n > 0 {
      EnterAllKeys(b, clients, n - 1);
      PeersNext(clients, n - 1);
      EnterKeys(EnterAll(b, clients, n - 1), clients[n - 1]);
    }
  }

  lemma EnterKeys(m: Books, c: Client)
    ensures Enter(m, c).view.Keys == m.view.Keys + if c.peer in m.view || |m.view| < MAX_TRACK then {c.peer} else {}
    ensures |Enter(m, c).view| <= |m.view| + 1 && (|m.view| <= MAX_TRACK ==> |Enter(m, c).view| <= MAX_TRACK)
  {
    var v := Enter(m, c).view;
    if c.peer in m.view {
      assert v.Keys == m.view.Keys;
    } else if |m.view| < MAX_TRACK {
      assert v.Keys == m.view.Keys + {c.peer};
    }
    assert |v.Keys| == |v| && |m.view.Keys| == |m.view|;
  }

  /** Everybody in the snapshot is entered exactly if the book has room for all of them. */
  lemma {:induction false} EnterRoom(b: Books, clients: seq<Client>, n: nat)
    requires n <= |clients| && |b.view| <= MAX_TRACK
    ensures Peers(clients, n) <= EnterAll(b, clients, n).view.Keys
      <==> |b.view.Keys + Peers(clients, n)| <= MAX_TRACK
  {
    EnterAllKeys(b, clients, n);
    var m := EnterAll(b, clients, n);
    if Peers(clients, n) <= m.view.Keys {
      SubsetSize(b.view.Keys + Peers(clients, n), m.view.Keys);
      assert |m.view.Keys| == |m.view|;
    }
    if |b.view.Keys + Peers(clients, n)| <= MAX_TRACK && n > 0 {
      var before, c := EnterAll(b, clients, n - 1), clients[n - 1];
      var all := b.view.Keys + Peers(clients, n);
      PeersNext(clients, n - 1);
      SubsetSize(b.view.Keys + Peers(clients, n - 1), all);
      EnterRoom(b, clients, n - 1);
      EnterAllKeys(b, clients, n - 1);
      SubsetSize(before.view.Keys + {c.peer}, all);
      assert |before.view.Keys| == |before.view|;
      EnterKeys(before, c);
    }
  }

  /** Whoever is marked as seen is in the snapshot; the entry shows the last that the snapshot says. */
  ghost predicate Shows(e: Entry, c: Client) {
    && e.seen && e.loggedIn == c.loggedIn && (e.xfer.Some? <==> c.xfer.Some?)
    && (c.xfer.Some? ==> e.xfer.value.bytes == c.xfer.value.bytes && e.xfer.value.total == c.xfer.value.total)
  }

  lemma {:induction false} EntryIsLast(b: Books, clients: seq<Client>, n: nat, p: string)
    requires n <= |clients| && p in EnterAll(b, clients, n).view
    ensures var e, c := EnterAll(b, clients, n).view[p], LastOf(clients, n, p);
      if c.Some? then Shows(e, c.value) else p in b.view && e == b.view[p]
  {
    if n > 0 && p in EnterAll(b, clients, n - 1).view {
      EntryIsLast(b, clients, n - 1, p);
    }
    if n > 0 && p !in EnterAll(b, clients, n - 1).view {
      assert clients[n - 1].peer == p;
    }
  }

  lemma {:induction false} LastIsPeer(clients: seq<Client>, n: nat, p: string)
    requires n <= |clients|
    ensures LastOf(clients, n, p).Some? <==> p in Peers(clients, n)
  {
    if n > 0 {
      LastIsPeer(clients, n - 1, p);
      PeersNext(clients, n - 1);
    }
  }

  /** In a book that nobody was seen in, the entries that are seen are those of the snapshot. */
  lemma SeenIsPeer(b: Books, clients: seq<Client>, n: nat, p: string)
    requires n <= |clients| && p in EnterAll(b, clients, n).view && (p in b.view ==> !b.view[p].seen)
    ensures EnterAll(b, clients, n).view[p].seen <==> p in Peers(clients, n)
    ensures p in Peers(clients, n) ==>
      var c := LastOf(clients, n, p); c.Some? && Shows(EnterAll(b, clients, n).view[p], c.value)
  {
    EntryIsLast(b, clients, n, p);
    LastIsPeer(clients, n, p);
  }

  lemma PollView(before: Books, after: Books, clients: seq<Client>, order: seq<string>)
    requires Polled(before, after, clients, order)
    ensures var b := EnterAll(before.(view := Unseen(before.view)), clients, |clients|);
      after.view.Keys == b.view.Keys * Peers(clients, |clients|)
    ensures forall p :: p in after.view ==>
      var c := LastOf(clients, |clients|, p); c.Some? && Shows(after.view[p], c.value)
  {
    var b0, n := before.(view := Unseen(before.view)), |clients|;
    var b := EnterAll(b0, clients, n);
    forall p | p in b.view
      ensures b.view[p].seen <==> p in Peers(clients, n)
      ensures p in Peers(clients, n) ==>
        var c := LastOf(clients, n, p); c.Some? && Shows(b.view[p], c.value)
    {
      SeenIsPeer(b0, clients, n, p);
    }
  }

  /** After a poll exactly those clients of the snapshot are known that were entered; each is shown as
      the snapshot last says; and all of them are known exactly if the clients known before and those
      of the snapshot together have room. */
  lemma PollMeaning(before: Books, after: Books, clients: seq<Client>, order: seq<string>)
    requires Polled(before, after, clients, order) && |before.view| <= MAX_TRACK
    ensures Grows(before, after)
    ensures after.view.Keys <= Peers(clients, |clients|)
    ensures after.view.Keys == Peers(clients, |clients|)
      <==> |before.view.Keys + Peers(clients, |clients|)| <= MAX_TRACK
    ensures forall p :: p in after.view ==>
      var c := LastOf(clients, |clients|, p); c.Some? && Shows(after.view[p], c.value)
  {
    var b0 := before.(view := Unseen(before.view));
    assert b0.view.Keys == before.view.Keys && |b0.view.Keys| == |b0.view| && |before.view.Keys| == |before.view|;
    EnterGrows(b0, clients, |clients|);
    var b := EnterAll(b0, clients, |clients|);
    GrowsOn(before, b, after);
    EnterRoom(b0, clients, |clients|);
    PollView(before, after, clients, order);
  }
}
