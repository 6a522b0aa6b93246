/** Reactor steps that work on live connections: accepting, commands, dispatch. */
module ReactorProofs {
  import opened Common
  import opened Addresses
  import opened ServerState
  import opened ServerSteps
  import opened ServerInvariant
  import opened CountProofs
  import opened DescriptorProofs
  import opened LinkProofs
  import opened WorkerProofs

  // ---- what a registered client may rely on ----

  lemma Live(s: State, c: ClientId)
    requires Inv(s) && c in s.registry
    ensures c in s.clients && s.clients[c].fd >= 0 && c in s.log
    ensures ClientBacked(s.clients[c], c, s.fds)
    ensures !(s.clients[c].pasvFd >= 0 && s.clients[c].haveDataPeer)
    ensures s.clients[c].job.None? ==> !s.clients[c].aborPending
    ensures forall fd :: fd in s.fds ==> fd >= 0
  {
    assert Unfold(0);
  }

  lemma LiveJob(s: State, c: ClientId)
    requires Inv(s) && c in s.clients && s.clients[c].job.Some?
    ensures s.clients[c].job.value in s.jobs
    ensures JobBacked(s.jobs[s.clients[c].job.value], s.clients[c].job.value, s.fds)
    ensures s.jobs[s.clients[c].job.value].client == c
  {
    assert Unfold(0);
  }

  lemma ReadyHead(s: State)
    requires Inv(s) && Ready(s.phase) != []
    ensures Ready(s.phase)[0] in s.registry
  {
    assert Unfold(0);
  }

  lemma SendForm(s: State, c: ClientId, e: Event)
    requires c in s.clients && s.clients[c].fd >= 0 && c in s.log
    requires Backed(s.fds, s.clients[c].fd, Control(c))
    ensures Send(s, c, e) == Ok(s.(log := s.log[c := s.log[c] + [e]]))
  {
  }

  /** A registered client changes fields other than its identity, count, generation and job. */
  lemma UpdateInv(s: State, c: ClientId, cl: Client, fds: map<int, Owner>, log: map<ClientId, seq<Event>>)
    requires Inv(s) && c in s.registry && c in s.clients && c in s.log
    requires cl.refs == s.clients[c].refs && cl.generation == s.clients[c].generation
    requires cl.job == s.clients[c].job && cl.fd == s.clients[c].fd && cl.peer == s.clients[c].peer
    requires cl.job.None? ==> cl.aborPending == s.clients[c].aborPending
    requires cl.pasvFd < 0 || !cl.haveDataPeer
    requires Owned(s.clients[c := cl], s.jobs, fds)
    requires Logged(s.clients[c := cl], s.registry, log) && log.Keys == s.log.Keys
    requires Started(log, s.next, Pending(s.phase))
    ensures Inv(s.(clients := s.clients[c := cl], fds := fds, log := log))
  {
    RegisteredSetClient(s.clients, s.registry, Ready(s.phase), c, cl);
    CountedSetClient(s.clients, s.jobs, s.replies, s.registry, c, cl);
    PointedSetClient(s.clients, s.jobs, s.registry, Pending(s.phase), c, cl);
    PeersSetClient(s.clients, s.jobs, s.allowForeignPort, c, cl);
    IdsSetLog(s.clients, s.jobs, s.replies, s.log, s.next, c, cl, log);
  }

  lemma IdsSetLog(clients: map<ClientId, Client>, jobs: map<JobId, Job>, replies: map<ReplyId, Reply>,
                  log: map<ClientId, seq<Event>>, next: nat, c: ClientId, cl: Client,
                  log': map<ClientId, seq<Event>>)
    requires Ids(clients, jobs, replies, log, next) && c in clients && log'.Keys == log.Keys
    ensures Ids(clients[c := cl], jobs, replies, log', next)
  {
    assert Unfold(0);
    assert forall d :: d in log' ==> d in log;
  }

  /** One line that belongs to no transfer. */
  lemma LoggedLine(s: State, c: ClientId, cl: Client)
    requires Logged(s.clients, s.registry, s.log) && c in s.log && c in s.clients && c in s.registry
    requires cl.job == s.clients[c].job && cl.aborPending == s.clients[c].aborPending
    ensures Logged(s.clients[c := cl], s.registry, s.log[c := s.log[c] + [Line]])
  {
    assert AdvanceAll(Expected(s.clients, s.registry, c), [Line]) == Expected(s.clients[c := cl], s.registry, c);
    LoggedMove(s.clients, s.registry, s.log, c, cl, s.registry, [Line]);
  }

  /** Update the client, then reply: the shape of most handlers. */
  lemma UpdateAndReply(s: State, c: ClientId, cl: Client, fds: map<int, Owner>)
    requires Inv(s) && c in s.registry && c in s.clients
    requires cl.refs == s.clients[c].refs && cl.generation == s.clients[c].generation
    requires cl.job == s.clients[c].job && cl.fd == s.clients[c].fd && cl.peer == s.clients[c].peer
    requires cl.aborPending == s.clients[c].aborPending
    requires cl.pasvFd < 0 || !cl.haveDataPeer
    requires Owned(s.clients[c := cl], s.jobs, fds)
    ensures Send(s.(clients := s.clients[c := cl], fds := fds), c, Line).Ok?
    ensures Inv(Send(s.(clients := s.clients[c := cl], fds := fds), c, Line).state)
  {
    Live(s, c);
    BackedAfter(s.clients[c := cl], s.jobs, fds, c);
    SendForm(s.(clients := s.clients[c := cl], fds := fds), c, Line);
    LoggedLine(s, c, cl);
    StartedMove(s.log, s.next, Pending(s.phase), c, [Line]);
    var log := s.log[c := s.log[c] + [Line]];
    assert log.Keys == s.log.Keys;
    UpdateInv(s, c, cl, fds, log);
  }

  lemma BackedAfter(clients: map<ClientId, Client>, jobs: map<JobId, Job>, fds: map<int, Owner>, c: ClientId)
    requires Owned(clients, jobs, fds) && c in clients
    ensures ClientBacked(clients[c], c, fds)
  {
    assert Unfold(0);
  }

  /** A reply and nothing else. */
  lemma ReplyOk(s: State, c: ClientId)
    requires Inv(s) && c in s.registry
    ensures Send(s, c, Line).Ok? && Inv(Send(s, c, Line).state)
  {
    Live(s, c);
    assert s.clients[c := s.clients[c]] == s.clients;
    UpdateAndReply(s, c, s.clients[c], s.fds);
  }

  // ---- accepting ----

  lemma AcceptOk(s: State, fd: int, peer: Addr)
    requires Inv(s) && FreshFd(s, fd)
    ensures ExecAccept(s, fd, peer, true).Ok? && Inv(ExecAccept(s, fd, peer, true).state)
  {
    var c := s.next;
    var cl := NewClient(fd, peer);
    NextFresh(s);
    NotRegistered(s, c);
    AcceptInv(s, c, cl);
    AcceptForm(s, fd, peer);
  }

  lemma AcceptForm(s: State, fd: int, peer: Addr)
    requires FreshFd(s, fd) && s.next !in s.log
    ensures ExecAccept(s, fd, peer, true) ==
            Ok(s.(clients := s.clients[s.next := NewClient(fd, peer)], next := s.next + 1,
                  fds := s.fds[fd := Control(s.next)], registry := [s.next] + s.registry,
                  polled := s.polled + {s.next},
                  log := s.log[s.next := [Line]]))
  {
    assert [] + [Line] == [Line];
  }

  lemma NotRegistered(s: State, c: ClientId)
    requires Registered(s.clients, s.registry, Ready(s.phase)) && c !in s.clients
    ensures c !in s.registry
  {
    assert Unfold(0);
  }

  lemma JobClientsExist(s: State)
    requires Counted(s.clients, s.jobs, s.replies, s.registry)
    ensures forall j :: j in s.jobs ==> s.jobs[j].client in s.clients
    ensures forall r :: r in s.replies ==> s.replies[r].client in s.clients
  {
    assert Unfold(0);
  }

  lemma AcceptInv(s: State, c: ClientId, cl: Client)
    requires Inv(s) && c == s.next && c !in s.clients && c !in s.registry && c !in s.log
    requires cl == NewClient(cl.fd, cl.peer) && FreshFd(s, cl.fd)
    ensures Inv(s.(clients := s.clients[c := cl], next := s.next + 1, fds := s.fds[cl.fd := Control(c)],
                   registry := [c] + s.registry, polled := s.polled + {c}, log := s.log[c := [Line]]))
  {
    JobClientsExist(s);
    RegisteredAccept(s.clients, s.registry, Ready(s.phase), c, cl);
    CountedAccept(s.clients, s.jobs, s.replies, s.registry, c, cl);
    PointedAccept(s.clients, s.jobs, s.registry, Pending(s.phase), c, cl);
    OwnedAccept(s.clients, s.jobs, s.fds, c, cl);
    PeersAccept(s.clients, s.jobs, s.allowForeignPort, c, cl);
    LoggedAccept(s.clients, s.registry, s.log, c, cl);
    IdsAccept(s.clients, s.jobs, s.replies, s.log, s.next, cl);
    StartedAccept(s.log, s.next, Pending(s.phase), c);
    WatchedAccept(s.polled, s.registry, c);
  }

  lemma IdsAccept(clients: map<ClientId, Client>, jobs: map<JobId, Job>, replies: map<ReplyId, Reply>,
                  log: map<ClientId, seq<Event>>, next: nat, cl: Client)
    requires Ids(clients, jobs, replies, log, next)
    ensures Ids(clients[next := cl], jobs, replies, log[next := [Line]], next + 1)
  {
    assert Unfold(0);
  }

  lemma BumpInv(s: State)
    requires Inv(s)
    ensures Inv(s.(next := s.next + 1))
  {
    IdsBump(s.clients, s.jobs, s.replies, s.log, s.next);
    StartedNext(s.log, s.next, Pending(s.phase));
  }

  lemma IdsBump(clients: map<ClientId, Client>, jobs: map<JobId, Job>, replies: map<ReplyId, Reply>,
                log: map<ClientId, seq<Event>>, next: nat)
    requires Ids(clients, jobs, replies, log, next)
    ensures Ids(clients, jobs, replies, log, next + 1)
  {
    assert Unfold(0);
  }

  /** A connection the pollset has no room for leaves no trace. */
  lemma AcceptRefusedOk(s: State, fd: int, peer: Addr)
    requires Inv(s) && FreshFd(s, fd)
    ensures ExecAccept(s, fd, peer, false) == Ok(s.(next := s.next + 1))
    ensures Inv(s.(next := s.next + 1))
  {
    NextFresh(s);
    BumpInv(s);
    AcceptRefusedForm(s, fd, peer);
  }

  lemma AcceptRefusedForm(s: State, fd: int, peer: Addr)
    requires FreshFd(s, fd) && s.next !in s.clients
    ensures ExecAccept(s, fd, peer, false) == Ok(s.(next := s.next + 1))
  {
    var c := s.next;
    var s1 := SetClient(s, c, NewClient(fd, peer)).(next := s.next + 1, fds := s.fds[fd := Control(c)]);
    var s2 := s1.(fds := s1.fds - {fd});
    assert s2.fds == s.fds;
    assert Close(s1, fd, Control(c)) == Ok(s2);
    assert s2.clients[c := s2.clients[c].(fd := NO_FD)][c := s2.clients[c].(fd := NO_FD, refs := 0)] - {c} == s.clients;
  }

  // ---- commands that change the data-channel set-up ----

  lemma PassiveOk(s: State, c: ClientId, bound: Option<int>)
    requires Inv(s) && c in s.registry
    requires bound.Some? ==> CommandPossible(s, c, Passive(bound.value))
    ensures c in s.clients && ExecPassive(s, c, bound).Ok? && Inv(ExecPassive(s, c, bound).state)
  {
    Live(s, c);
    var fds := s.fds - {s.clients[c].pasvFd};
    var cl0 := s.clients[c].(pasvFd := NO_FD);
    DropListenerForm(s, c);
    OwnedDropListener(s.clients, s.jobs, s.fds, c, cl0);
    if bound.Some? {
      var cl := cl0.(pasvFd := bound.value, haveDataPeer := false);
      OwnedListen(s.clients[c := cl0], s.jobs, fds, c, cl);
      assert s.clients[c := cl0][c := cl] == s.clients[c := cl];
      UpdateAndReply(s, c, cl, fds[bound.value := Listener(c)]);
    } else {
      UpdateAndReply(s, c, cl0, fds);
    }
  }

  lemma DropListenerForm(s: State, c: ClientId)
    requires c in s.clients && ClientBacked(s.clients[c], c, s.fds)
    requires forall fd :: fd in s.fds ==> fd >= 0
    ensures DropListener(s, c) ==
            Ok(s.(clients := s.clients[c := s.clients[c].(pasvFd := NO_FD)], fds := s.fds - {s.clients[c].pasvFd}))
  {
    CloseOk(s, s.clients[c].pasvFd, Listener(c));
  }

  lemma ActiveOk(s: State, c: ClientId, addr: Addr)
    requires Inv(s) && c in s.registry
    ensures c in s.clients && ExecActive(s, c, addr).Ok? && Inv(ExecActive(s, c, addr).state)
  {
    Live(s, c);
    var cl0 := s.clients[c].(pasvFd := NO_FD);
    var cl := cl0.(haveDataPeer := true, dataPeer := addr);
    DropListenerForm(s, c);
    OwnedDropListener(s.clients, s.jobs, s.fds, c, cl);
    assert s.clients[c := cl0][c := cl] == s.clients[c := cl];
    UpdateAndReply(s, c, cl, s.fds - {s.clients[c].pasvFd});
  }

  lemma RejectedOk(s: State, c: ClientId, addr: Addr)
    requires Inv(s) && c in s.registry
    ensures c in s.clients
    ensures Send(SetClient(s, c, s.clients[c].(dataPeer := addr)), c, Line).Ok?
    ensures Inv(Send(SetClient(s, c, s.clients[c].(dataPeer := addr)), c, Line).state)
  {
    Live(s, c);
    var cl := s.clients[c].(dataPeer := addr);
    OwnedSetClient(s.clients, s.jobs, s.fds, c, cl);
    UpdateAndReply(s, c, cl, s.fds);
  }

  lemma LeaveOk(s: State, c: ClientId)
    requires Inv(s) && c in s.registry
    ensures c in s.clients && Inv(SetClient(s, c, s.clients[c].(disconnectRequested := true)))
  {
    Live(s, c);
    var cl := s.clients[c].(disconnectRequested := true);
    OwnedSetClient(s.clients, s.jobs, s.fds, c, cl);
    LoggedSetClient(s.clients, s.registry, s.log, c, cl);
    UpdateInv(s, c, cl, s.fds, s.log);
  }

  // ---- ABOR ----

  lemma CancelOk(s: State, j: JobId)
    requires Inv(s) && j in s.jobs
    ensures Cancel(s, j) == Ok(s.(jobs := s.jobs[j := s.jobs[j].(cancelled := true)]))
    ensures Inv(s.(jobs := s.jobs[j := s.jobs[j].(cancelled := true)]))
  {
    var job := s.jobs[j].(cancelled := true);
    JobBackedOf(s, j);
    PeerOf(s, j);
    OwnedSetJob(s.clients, s.jobs, s.fds, j, job);
    SetJobOk(s, j, job, s.fds);
  }

  lemma JobBackedOf(s: State, j: JobId)
    requires Owned(s.clients, s.jobs, s.fds) && j in s.jobs
    ensures JobBacked(s.jobs[j], j, s.fds)
    ensures forall fd :: fd in s.fds ==> fd >= 0
  {
    assert Unfold(0);
  }

  lemma AborActiveOk(s: State, c: ClientId)
    requires Inv(s) && c in s.registry && c in s.clients && s.clients[c].job.Some?
    ensures ExecAbor(s, c).Ok? && Inv(ExecAbor(s, c).state)
  {
    Live(s, c);
    LiveJob(s, c);
    var j := s.clients[c].job.value;
    CancelOk(s, j);
    var s1 := s.(jobs := s.jobs[j := s.jobs[j].(cancelled := true)]);
    var cl := s.clients[c].(aborPending := true);
    AborMark(s1, c, cl);
  }

  lemma AborMark(s: State, c: ClientId, cl: Client)
    requires Inv(s) && c in s.registry && c in s.clients && c in s.log && s.clients[c].job.Some?
    requires cl == s.clients[c].(aborPending := true)
    ensures Inv(Record(SetClient(s, c, cl), c, AborSeen))
  {
    Live(s, c);
    assert AdvanceAll(Expected(s.clients, s.registry, c), [AborSeen]) == Expected(s.clients[c := cl], s.registry, c);
    LoggedMove(s.clients, s.registry, s.log, c, cl, s.registry, [AborSeen]);
    StartedMove(s.log, s.next, Pending(s.phase), c, [AborSeen]);
    OwnedSetClient(s.clients, s.jobs, s.fds, c, cl);
    var log := s.log[c := s.log[c] + [AborSeen]];
    assert log.Keys == s.log.Keys;
    UpdateInv(s, c, cl, s.fds, log);
  }

  lemma AborIdleOk(s: State, c: ClientId)
    requires Inv(s) && c in s.registry && c in s.clients && s.clients[c].job.None?
    ensures ExecAbor(s, c).Ok? && Inv(ExecAbor(s, c).state)
  {
    Live(s, c);
    var es := [AborSeen, AbortOk];
    assert es[1..] == [AbortOk] && es[1..][1..] == [];
    assert AdvanceAll(Quiet, es) == AdvanceAll(OwesAbortOk, es[1..]) == AdvanceAll(Quiet, es[1..][1..]);
    assert s.clients[c := s.clients[c]] == s.clients;
    LoggedMove(s.clients, s.registry, s.log, c, s.clients[c], s.registry, es);
    StartedMove(s.log, s.next, Pending(s.phase), c, es);
    var log := s.log[c := s.log[c] + es];
    assert log.Keys == s.log.Keys;
    UpdateInv(s, c, s.clients[c], s.fds, log);
    AborIdleForm(s, c);
  }

  lemma AborIdleForm(s: State, c: ClientId)
    requires c in s.clients && s.clients[c].fd >= 0 && c in s.log && s.clients[c].job.None?
    requires Backed(s.fds, s.clients[c].fd, Control(c))
    ensures ExecAbor(s, c) == Ok(s.(log := s.log[c := s.log[c] + [AborSeen, AbortOk]]))
  {
    var s1 := Record(s, c, AborSeen);
    SendForm(s1, c, AbortOk);
    assert s.log[c] + [AborSeen] + [AbortOk] == s.log[c] + [AborSeen, AbortOk];
    assert s1.log[c := s1.log[c] + [AbortOk]] == s.log[c := s.log[c] + [AborSeen, AbortOk]];
  }
}
