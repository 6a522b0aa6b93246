/** Reactor steps that give references back: hang-ups, completions, pending replies. */
module RetireProofs {
  import opened Common
  import opened ServerState
  import opened ServerSteps
  import opened ServerInvariant
  import opened PlaceProofs
  import opened CountProofs
  import opened DescriptorProofs
  import opened LinkProofs
  import opened ReactorProofs

  // ---- dropping one reference ----

  /** All parts but the count survive the drop; the last reference frees an unregistered client. */
  lemma DropKeeps(clients: map<ClientId, Client>, jobs: map<JobId, Job>, registry: seq<ClientId>,
                  ready: seq<ClientId>, fds: map<int, Owner>, foreign: bool, log: map<ClientId, seq<Event>>,
                  c: ClientId)
    requires Registered(clients, registry, ready) && Owned(clients, jobs, fds)
    requires Pointed(clients, jobs, registry, None) && Logged(clients, registry, log)
    requires Peers(clients, jobs, foreign)
    requires c in clients && (clients[c].refs == 1 ==> c !in registry)
    ensures Registered(Drop(clients, c), registry, ready) && Owned(Drop(clients, c), jobs, fds)
    ensures Pointed(Drop(clients, c), jobs, registry, None) && Logged(Drop(clients, c), registry, log)
    ensures Peers(Drop(clients, c), jobs, foreign)
  {
    if clients[c].refs == 1 {
      Unregistered(clients, registry, ready, c);
      RegisteredFree(clients, registry, ready, c);
      OwnedFreeClient(clients, jobs, fds, c);
      PointedFreeClient(clients, jobs, registry, None, c);
      LoggedFree(clients, registry, log, c);
      PeersFree(clients, jobs, foreign, c);
    } else {
      var cl := clients[c].(refs := clients[c].refs - 1);
      RegisteredSetClient(clients, registry, ready, c, cl);
      OwnedSetClient(clients, jobs, fds, c, cl);
      PointedSetClient(clients, jobs, registry, None, c, cl);
      LoggedSetClient(clients, registry, log, c, cl);
      PeersSetClient(clients, jobs, foreign, c, cl);
    }
  }

  lemma Unregistered(clients: map<ClientId, Client>, registry: seq<ClientId>, ready: seq<ClientId>, c: ClientId)
    requires Registered(clients, registry, ready) && c in clients && c !in registry
    ensures clients[c].fd < 0 && clients[c].pasvFd < 0 && clients[c].job.None?
  {
    assert Unfold(0);
  }

  lemma ReleaseForm(s: State, c: ClientId)
    requires c in s.clients && (s.clients[c].refs == 1 ==> s.clients[c].fd < 0)
    ensures Release(s, c) == Ok(s.(clients := Drop(s.clients, c)))
  {
    var cl := s.clients[c].(refs := s.clients[c].refs - 1);
    assert s.clients[c := cl] - {c} == s.clients - {c};
  }

  // ---- hanging up ----

  function HungUp(cl: Client): Client {
    cl.(job := None, generation := cl.generation + 1, pasvFd := NO_FD, fd := NO_FD)
  }

  lemma LastHolder(clients: map<ClientId, Client>, jobs: map<JobId, Job>, replies: map<ReplyId, Reply>,
                   registry: seq<ClientId>, c: ClientId)
    requires Counted(clients, jobs, replies, registry) && c in registry && c in clients
    ensures Counted(Drop(clients, c), jobs, replies, Without(registry, c))
    ensures c !in Without(registry, c)
  {
    CountedUnregister(clients, jobs, replies, registry, c);
    WithoutFacts(registry, c);
  }

  lemma HangupInv(s: State, c: ClientId, cl: Client)
    requires Inv(s) && c in s.registry && c in s.clients && c in s.log && c !in Ready(s.phase)
    requires Pending(s.phase).None? && cl == HungUp(s.clients[c])
    ensures Inv(s.(clients := Drop(s.clients[c := cl], c), registry := Without(s.registry, c),
                   polled := s.polled - {c}, fds := s.fds - {s.clients[c].pasvFd} - {s.clients[c].fd},
                   log := s.log[c := s.log[c] + [Hangup]]))
  {
    var clients := s.clients[c := cl];
    var registry := Without(s.registry, c);
    var fds := s.fds - {s.clients[c].pasvFd} - {s.clients[c].fd};
    var log := s.log[c := s.log[c] + [Hangup]];
    RegisteredHangup(s.clients, s.registry, Ready(s.phase), c, cl);
    OwnedHangup(s.clients, s.jobs, s.fds, c, cl);
    PointedHangup(s.clients, s.jobs, s.registry, c, cl);
    PeersSetClient(s.clients, s.jobs, s.allowForeignPort, c, cl);
    LoggedHangup(s.clients, s.registry, s.log, c, cl);
    CountedSetClient(s.clients, s.jobs, s.replies, s.registry, c, cl);
    LastHolder(clients, s.jobs, s.replies, s.registry, c);
    DropKeeps(clients, s.jobs, registry, Ready(s.phase), fds, s.allowForeignPort, log, c);
    IdsDrop(s.clients, s.jobs, s.replies, s.log, s.next, c, cl, log);
    StartedMove(s.log, s.next, None, c, [Hangup]);
    WatchedHangup(s.polled, s.registry, c);
  }

  lemma LoggedHangup(clients: map<ClientId, Client>, registry: seq<ClientId>, log: map<ClientId, seq<Event>>,
                     c: ClientId, cl: Client)
    requires Logged(clients, registry, log) && c in registry && c in clients && c in log
    ensures Logged(clients[c := cl], Without(registry, c), log[c := log[c] + [Hangup]])
  {
    WithoutFacts(registry, c);
    assert AdvanceAll(Expected(clients, registry, c), [Hangup]) == Gone;
    LoggedMove(clients, registry, log, c, cl, Without(registry, c), [Hangup]);
  }

  lemma IdsDrop(clients: map<ClientId, Client>, jobs: map<JobId, Job>, replies: map<ReplyId, Reply>,
                log: map<ClientId, seq<Event>>, next: nat, c: ClientId, cl: Client,
                log': map<ClientId, seq<Event>>)
    requires Ids(clients, jobs, replies, log, next) && c in clients && log'.Keys == log.Keys
    ensures Ids(Drop(clients[c := cl], c), jobs, replies, log', next)
  {
    assert Unfold(0);
    assert forall d :: d in log' ==> d in log;
  }

  lemma HangupForm(s: State, c: ClientId)
    requires c in s.clients && c in s.log && s.clients[c].fd >= 0 && ClientBacked(s.clients[c], c, s.fds)
    requires forall fd :: fd in s.fds ==> fd >= 0
    requires s.clients[c].job.None?
    ensures Disconnect(s, c) ==
            Ok(s.(clients := Drop(s.clients[c := HungUp(s.clients[c])], c), registry := Without(s.registry, c),
                  polled := s.polled - {c},
                  fds := s.fds - {s.clients[c].pasvFd} - {s.clients[c].fd},
                  log := s.log[c := s.log[c] + [Hangup]]))
  {
    CloseOk(s, s.clients[c].pasvFd, Listener(c));
    var s2 := s.(fds := s.fds - {s.clients[c].pasvFd});
    CloseOk(s2, s.clients[c].fd, Control(c));
    var s3 := s2.(fds := s2.fds - {s.clients[c].fd});
    var s4 := Record(SetClient(s3, c, HungUp(s.clients[c])), c, Hangup);
    ReleaseForm(s4.(registry := Without(s4.registry, c), polled := s4.polled - {c}), c);
  }

  lemma HangupIdleOk(s: State, c: ClientId)
    requires Inv(s) && c in s.registry && c in s.clients && c !in Ready(s.phase) && Pending(s.phase).None?
    requires s.clients[c].job.None?
    ensures Disconnect(s, c).Ok? && Inv(Disconnect(s, c).state)
  {
    Live(s, c);
    HangupForm(s, c);
    HangupInv(s, c, HungUp(s.clients[c]));
  }

  /** With a transfer under way the job is cancelled first; the rest is as above. */
  lemma HangupActiveForm(s: State, c: ClientId, j: JobId)
    requires c in s.clients && c in s.log && s.clients[c].fd >= 0 && ClientBacked(s.clients[c], c, s.fds)
    requires forall fd :: fd in s.fds ==> fd >= 0
    requires s.clients[c].job == Some(j) && j in s.jobs
    requires Cancel(s, j) == Ok(s.(jobs := s.jobs[j := s.jobs[j].(cancelled := true)]))
    ensures Disconnect(s, c) ==
            Ok(s.(jobs := s.jobs[j := s.jobs[j].(cancelled := true)],
                  clients := Drop(s.clients[c := HungUp(s.clients[c])], c), registry := Without(s.registry, c),
                  polled := s.polled - {c}, fds := s.fds - {s.clients[c].pasvFd} - {s.clients[c].fd},
                  log := s.log[c := s.log[c] + [Hangup]]))
  {
    var s1 := s.(jobs := s.jobs[j := s.jobs[j].(cancelled := true)]);
    CloseOk(s1, s.clients[c].pasvFd, Listener(c));
    var s2 := s1.(fds := s.fds - {s.clients[c].pasvFd});
    CloseOk(s2, s.clients[c].fd, Control(c));
    var s3 := s2.(fds := s2.fds - {s.clients[c].fd});
    var s4 := Record(SetClient(s3, c, HungUp(s.clients[c])), c, Hangup);
    ReleaseForm(s4.(registry := Without(s4.registry, c), polled := s4.polled - {c}), c);
  }

  lemma HangupActiveOk(s: State, c: ClientId)
    requires Inv(s) && c in s.registry && c in s.clients && c !in Ready(s.phase) && Pending(s.phase).None?
    requires s.clients[c].job.Some?
    ensures Disconnect(s, c).Ok? && Inv(Disconnect(s, c).state)
  {
    Live(s, c);
    LiveJob(s, c);
    var j := s.clients[c].job.value;
    CancelOk(s, j);
    HangupActiveForm(s, c, j);
    HangupInv(s.(jobs := s.jobs[j := s.jobs[j].(cancelled := true)]), c, HungUp(s.clients[c]));
  }

  lemma DisconnectOk(s: State, c: ClientId)
    requires Inv(s) && c in s.registry && c !in Ready(s.phase) && Pending(s.phase).None?
    ensures Disconnect(s, c).Ok? && Inv(Disconnect(s, c).state)
  {
    Live(s, c);
    if s.clients[c].job.Some? {
      HangupActiveOk(s, c);
    } else {
      HangupIdleOk(s, c);
    }
  }

  lemma NextReadyInv(s: State)
    requires Inv(s) && s.phase.Events? && s.phase.ready != []
    ensures Inv(s.(phase := Events(s.phase.ready[1..])))
  {
    RegisteredAdvance(s.clients, s.registry, s.phase.ready);
  }

  lemma EndEventsOk(s: State)
    requires Inv(s) && s.phase.Events?
    ensures ExecEndEvents(s).Ok? && Inv(ExecEndEvents(s).state)
  {
    if s.phase.ready != [] {
      ReadyHead(s);
      Live(s, s.phase.ready[0]);
      RegisteredAdvance(s.clients, s.registry, s.phase.ready);
      var s1 := s.(phase := Events(s.phase.ready[1..]));
      NextReadyInv(s);
      if s.clients[s.phase.ready[0]].disconnectRequested {
        DisconnectOk(s1, s.phase.ready[0]);
      }
    }
  }

  // ---- pending replies ----

  lemma ReplyFacts(s: State)
    requires Inv(s) && s.phase.Replies? && s.phase.replyBatch != []
    ensures s.phase.replyBatch[0] in s.replies && s.replies[s.phase.replyBatch[0]].client in s.clients
  {
    assert Unfold(0);
  }

  lemma DrainInv(s: State, r: ReplyId, c: ClientId, log: map<ClientId, seq<Event>>)
    requires Inv(s) && s.phase.Replies? && s.phase.replyBatch != [] && r == s.phase.replyBatch[0]
    requires r in s.replies && c == s.replies[r].client && c in s.clients
    requires Logged(s.clients, s.registry, log) && log.Keys == s.log.Keys && Started(log, s.next, None)
    ensures Inv(s.(clients := Drop(s.clients, c), replies := s.replies - {r}, log := log,
                   phase := Replies(s.phase.replyBatch[1..])))
  {
    CountedDropReply(s.clients, s.jobs, s.replies, s.registry, r);
    DropKeeps(s.clients, s.jobs, s.registry, Ready(s.phase), s.fds, s.allowForeignPort, log, c);
    IdsDrain(s.clients, s.jobs, s.replies, s.log, s.next, c, r, log);
    DrainRest(s.replies, s.workers, s.fifo, s.phase.replyBatch, r);
    Drained(s, Drop(s.clients, c), s.replies - {r}, log, s.phase.replyBatch[1..]);
  }

  lemma Drained(s: State, clients: map<ClientId, Client>, replies: map<ReplyId, Reply>,
                log: map<ClientId, seq<Event>>, batch: seq<ReplyId>)
    requires Inv(s) && s.phase.Replies?
    requires Ids(clients, s.jobs, replies, log, s.next) && Registered(clients, s.registry, [])
    requires Counted(clients, s.jobs, replies, s.registry)
    requires RepliesPlaced(replies.Keys, s.workers, s.fifo, batch) && Stamped(replies, s.workers)
    requires Pointed(clients, s.jobs, s.registry, None) && Owned(clients, s.jobs, s.fds)
    requires Peers(clients, s.jobs, s.allowForeignPort)
    requires Logged(clients, s.registry, log) && Started(log, s.next, None)
    ensures Inv(s.(clients := clients, replies := replies, log := log, phase := Replies(batch)))
  {
    var phase := Replies(batch);
    assert Ready(phase) == [] && Pending(phase) == None && ReplyBatch(phase) == batch;
    assert JobBatch(phase) == JobBatch(s.phase) == [];
  }

  lemma DrainRest(replies: map<ReplyId, Reply>, ws: seq<Worker>, fifo: seq<ReplyId>, batch: seq<ReplyId>, r: ReplyId)
    requires RepliesPlaced(replies.Keys, ws, fifo, batch) && Stamped(replies, ws)
    requires batch != [] && r == batch[0]
    ensures RepliesPlaced((replies - {r}).Keys, ws, fifo, batch[1..]) && Stamped(replies - {r}, ws)
  {
    FreeReplies(replies.Keys, ws, fifo, batch);
    KeysMinus(replies, r);
    StampedFree(replies, ws, r);
  }

  lemma IdsDrain(clients: map<ClientId, Client>, jobs: map<JobId, Job>, replies: map<ReplyId, Reply>,
                 log: map<ClientId, seq<Event>>, next: nat, c: ClientId, r: ReplyId,
                 log': map<ClientId, seq<Event>>)
    requires Ids(clients, jobs, replies, log, next) && c in clients && log'.Keys == log.Keys
    ensures Ids(Drop(clients, c), jobs, replies - {r}, log', next)
  {
    assert Unfold(0);
    assert forall d :: d in log' ==> d in log;
  }

  lemma SoleHolder(s: State, c: ClientId)
    requires Inv(s) && c in s.clients && s.clients[c].refs == 1
    requires (exists r :: r in s.replies && s.replies[r].client == c) ||
             (exists j :: j in s.jobs && s.jobs[j].client == c)
    ensures s.clients[c].fd < 0
  {
    HolderElsewhere(s.clients, s.jobs, s.replies, s.registry, c);
    Unregistered(s.clients, s.registry, Ready(s.phase), c);
  }

  /** A client whose one reference is a job's or a reply's is not registered. */
  lemma HolderElsewhere(clients: map<ClientId, Client>, jobs: map<JobId, Job>, replies: map<ReplyId, Reply>,
                        registry: seq<ClientId>, c: ClientId)
    requires Counted(clients, jobs, replies, registry) && c in clients && clients[c].refs == 1
    requires (exists r :: r in replies && replies[r].client == c) || (exists j :: j in jobs && jobs[j].client == c)
    ensures c !in registry
  {
    assert Unfold(0);
    assert Holders(registry, jobs, replies, c) == 1;
    if r :| r in replies && replies[r].client == c {
      assert r in RepliesOf(replies, c);
    } else {
      var j :| j in jobs && jobs[j].client == c;
      assert j in JobsOf(jobs, c);
    }
  }

  lemma DrainReplyOk(s: State)
    requires Inv(s) && s.phase.Replies?
    ensures ExecDrainReply(s).Ok? && Inv(ExecDrainReply(s).state)
  {
    if s.phase.replyBatch != [] {
      ReplyFacts(s);
      var r := s.phase.replyBatch[0];
      var c := s.replies[r].client;
      if s.clients[c].refs == 1 {
        SoleHolder(s, c);
      }
      if s.clients[c].generation == s.replies[r].generation && c in s.registry {
        DrainWritten(s, r, c);
      } else {
        DrainDropped(s, r, c);
      }
    }
  }

  lemma DrainWritten(s: State, r: ReplyId, c: ClientId)
    requires Inv(s) && s.phase.Replies? && s.phase.replyBatch != [] && r == s.phase.replyBatch[0]
    requires r in s.replies && c == s.replies[r].client && c in s.clients && c in s.registry
    requires s.clients[c].refs == 1 ==> s.clients[c].fd < 0
    requires s.clients[c].generation == s.replies[r].generation
    ensures ExecDrainReply(s).Ok? && Inv(ExecDrainReply(s).state)
  {
    Live(s, c);
    assert s.clients[c := s.clients[c]] == s.clients;
    LoggedLine(s, c, s.clients[c]);
    StartedMove(s.log, s.next, None, c, [Line]);
    DrainInv(s, r, c, s.log[c := s.log[c] + [Line]]);
    DrainForm(s, r, c, true);
  }

  lemma DrainDropped(s: State, r: ReplyId, c: ClientId)
    requires Inv(s) && s.phase.Replies? && s.phase.replyBatch != [] && r == s.phase.replyBatch[0]
    requires r in s.replies && c == s.replies[r].client && c in s.clients
    requires s.clients[c].refs == 1 ==> s.clients[c].fd < 0
    requires s.clients[c].generation != s.replies[r].generation || c !in s.registry
    ensures ExecDrainReply(s).Ok? && Inv(ExecDrainReply(s).state)
  {
    if c !in s.registry {
      Unregistered(s.clients, s.registry, Ready(s.phase), c);
    }
    DrainInv(s, r, c, s.log);
    DrainForm(s, r, c, false);
  }

  lemma DrainForm(s: State, r: ReplyId, c: ClientId, deliver: bool)
    requires s.phase.Replies? && s.phase.replyBatch != [] && r == s.phase.replyBatch[0]
    requires r in s.replies && c == s.replies[r].client && c in s.clients
    requires s.clients[c].refs == 1 ==> s.clients[c].fd < 0
    requires deliver ==> s.clients[c].generation == s.replies[r].generation && s.clients[c].fd >= 0 &&
                         Backed(s.fds, s.clients[c].fd, Control(c)) && c in s.log
    requires !deliver ==> s.clients[c].generation != s.replies[r].generation || s.clients[c].fd < 0
    ensures ExecDrainReply(s) ==
            Ok(s.(clients := Drop(s.clients, c), replies := s.replies - {r},
                  log := if deliver then s.log[c := s.log[c] + [Line]] else s.log,
                  phase := Replies(s.phase.replyBatch[1..])))
  {
    if deliver {
      SendForm(s, c, Line);
      ReleaseForm(s.(log := s.log[c := s.log[c] + [Line]]), c);
    } else {
      ReleaseForm(s, c);
    }
  }

  // ---- completions ----

  lemma CompletionFacts(s: State)
    requires Inv(s) && s.phase.Completions? && s.phase.jobBatch != []
    ensures s.phase.jobBatch[0] in s.jobs && s.jobs[s.phase.jobBatch[0]].client in s.clients
  {
    assert Unfold(0);
  }

  function Answers(s: State, j: JobId): seq<Event>
    requires j in s.jobs && s.jobs[j].client in s.clients
  {
    var job := s.jobs[j];
    [Final(j, FinalCode(job.op, job.connOk, job.result))] +
    if s.clients[job.client].aborPending then [AbortOk] else []
  }

  function Answered(cl: Client): Client {
    cl.(job := None, aborPending := false)
  }

  /** A completion for a client that has since hung up. */
  lemma DiscardInv(s: State, j: JobId)
    requires Inv(s) && s.phase.Completions? && s.phase.jobBatch != [] && j == s.phase.jobBatch[0]
    requires j in s.jobs && s.jobs[j].client in s.clients
    requires s.jobs[j].generation != s.clients[s.jobs[j].client].generation
    ensures Inv(s.(clients := Drop(s.clients, s.jobs[j].client), jobs := s.jobs - {j},
                   fds := s.fds - JobFds(s.jobs[j]), phase := Completions(s.phase.jobBatch[1..])))
  {
    PointedDiscard(s.clients, s.jobs, s.registry, j);
    RetireInv(s, j, s.clients, s.log);
  }

  lemma {:induction false} FinishDialogue(j: JobId, code: nat, aborted: bool)
    ensures AdvanceAll(Active(j, aborted), [Final(j, code)] + if aborted then [AbortOk] else []) == Quiet
  {
    var es := [Final(j, code)] + if aborted then [AbortOk] else [];
    if aborted {
      assert es[1..] == [AbortOk] && es[1..][1..] == [];
      assert AdvanceAll(OwesAbortOk, es[1..]) == AdvanceAll(Quiet, es[1..][1..]);
    } else {
      assert es[1..] == [];
    }
  }

  /** A completion for the client that started it. */
  lemma AnswerInv(s: State, j: JobId, cl: Client)
    requires Inv(s) && s.phase.Completions? && s.phase.jobBatch != [] && j == s.phase.jobBatch[0]
    requires j in s.jobs && s.jobs[j].client in s.clients && s.jobs[j].client in s.log
    requires s.jobs[j].generation == s.clients[s.jobs[j].client].generation
    requires cl == Answered(s.clients[s.jobs[j].client])
    ensures var c := s.jobs[j].client;
            Inv(s.(clients := Drop(s.clients[c := cl], c), jobs := s.jobs - {j},
                   fds := s.fds - JobFds(s.jobs[j]), log := s.log[c := s.log[c] + Answers(s, j)],
                   phase := Completions(s.phase.jobBatch[1..])))
  {
    var c := s.jobs[j].client;
    var job := s.jobs[j];
    PointedAnswer(s.clients, s.jobs, s.registry, j, cl);
    Live(s, c);
    FinishDialogue(j, FinalCode(job.op, job.connOk, job.result), s.clients[c].aborPending);
    LoggedMove(s.clients, s.registry, s.log, c, cl, s.registry, Answers(s, j));
    StartedMove(s.log, s.next, None, c, Answers(s, j));
    var log := s.log[c := s.log[c] + Answers(s, j)];
    assert log.Keys == s.log.Keys;
    var clients := s.clients[c := cl];
    RegisteredSetClient(s.clients, s.registry, Ready(s.phase), c, cl);
    CountedSetClient(s.clients, s.jobs, s.replies, s.registry, c, cl);
    OwnedSetClient(s.clients, s.jobs, s.fds, c, cl);
    PeersSetClient(s.clients, s.jobs, s.allowForeignPort, c, cl);
    RetireInv(s, j, clients, log);
  }

  /** Freeing the job and its reference, once the client side is settled. */
  lemma RetireInv(s: State, j: JobId, clients: map<ClientId, Client>, log: map<ClientId, seq<Event>>)
    requires Ids(s.clients, s.jobs, s.replies, s.log, s.next) && clients.Keys == s.clients.Keys
    requires log.Keys == s.log.Keys
    requires s.phase.Completions? && s.phase.jobBatch != [] && j == s.phase.jobBatch[0]
    requires j in s.jobs && s.jobs[j].client in clients
    requires Registered(clients, s.registry, []) && Counted(clients, s.jobs, s.replies, s.registry)
    requires JobsPlaced(s.jobs.Keys, s.queue, s.workers, s.posted, s.phase.jobBatch)
    requires RepliesPlaced(s.replies.Keys, s.workers, s.fifo, [])
    requires Pointed(clients, s.jobs - {j}, s.registry, None) && Owned(clients, s.jobs, s.fds)
    requires Explained(s.jobs, s.posted, s.phase.jobBatch)
    requires Peers(clients, s.jobs, s.allowForeignPort) && Logged(clients, s.registry, log)
    requires Started(log, s.next, None) && Watched(s.polled, s.registry) && Stamped(s.replies, s.workers)
    ensures Inv(s.(clients := Drop(clients, s.jobs[j].client), jobs := s.jobs - {j},
                   fds := s.fds - JobFds(s.jobs[j]), log := log, phase := Completions(s.phase.jobBatch[1..])))
  {
    var c := s.jobs[j].client;
    OwnedFreeJob(clients, s.jobs, s.fds, j);
    PeersFreeJob(clients, s.jobs, s.allowForeignPort, j);
    CountedDropJob(clients, s.jobs, s.replies, s.registry, j);
    DropKeeps(clients, s.jobs - {j}, s.registry, [], s.fds - JobFds(s.jobs[j]), s.allowForeignPort, log, c);
    FreePlaces(s.jobs.Keys, s.queue, s.workers, s.posted, s.phase.jobBatch);
    KeysMinus(s.jobs, j);
    RetireRest(s, j, clients, log);
    var phase := Completions(s.phase.jobBatch[1..]);
    assert Ready(phase) == [] && Pending(phase) == None && JobBatch(phase) == s.phase.jobBatch[1..];
    assert ReplyBatch(phase) == [];
  }

  lemma RetireRest(s: State, j: JobId, clients: map<ClientId, Client>, log: map<ClientId, seq<Event>>)
    requires Ids(s.clients, s.jobs, s.replies, s.log, s.next) && clients.Keys == s.clients.Keys
    requires log.Keys == s.log.Keys && j in s.jobs && s.jobs[j].client in clients
    requires s.phase.Completions? && s.phase.jobBatch != [] && Explained(s.jobs, s.posted, s.phase.jobBatch)
    ensures Ids(Drop(clients, s.jobs[j].client), s.jobs - {j}, s.replies, log, s.next)
    ensures Explained(s.jobs - {j}, s.posted, s.phase.jobBatch[1..])
  {
    assert Unfold(0);
    assert forall c :: c in log ==> c in s.log;
    assert forall c :: c in clients ==> c in s.clients;
  }

  lemma CompleteForm(s: State, j: JobId, c: ClientId, live: bool)
    requires s.phase.Completions? && s.phase.jobBatch != [] && j == s.phase.jobBatch[0]
    requires j in s.jobs && c == s.jobs[j].client && c in s.clients
    requires CloseJobFds(s, j) == Ok(s.(fds := s.fds - JobFds(s.jobs[j])))
    requires s.clients[c].refs == 1 ==> s.clients[c].fd < 0
    requires live <==> s.jobs[j].generation == s.clients[c].generation
    requires live ==> s.clients[c].fd >= 0 && c in s.log &&
                      Backed(s.fds - JobFds(s.jobs[j]), s.clients[c].fd, Control(c))
    ensures ExecComplete(s) ==
            Ok(s.(clients := Drop(if live then s.clients[c := Answered(s.clients[c])] else s.clients, c),
                  jobs := s.jobs - {j}, fds := s.fds - JobFds(s.jobs[j]),
                  log := if live then s.log[c := s.log[c] + Answers(s, j)] else s.log,
                  phase := Completions(s.phase.jobBatch[1..])))
  {
    var s1 := s.(fds := s.fds - JobFds(s.jobs[j]));
    if live {
      AnswerForm(s1, j, c);
      ReleaseForm(s1.(clients := s.clients[c := Answered(s.clients[c])], log := s.log[c := s.log[c] + Answers(s, j)]), c);
    } else {
      ReleaseForm(s1, c);
    }
  }

  lemma AnswerForm(s: State, j: JobId, c: ClientId)
    requires j in s.jobs && c == s.jobs[j].client && c in s.clients && c in s.log
    requires s.clients[c].fd >= 0 && Backed(s.fds, s.clients[c].fd, Control(c))
    ensures Answer(s, j) ==
            Ok(s.(clients := s.clients[c := Answered(s.clients[c])], log := s.log[c := s.log[c] + Answers(s, j)]))
  {
    var job := s.jobs[j];
    var e := Final(j, FinalCode(job.op, job.connOk, job.result));
    var s1 := SetClient(s, c, s.clients[c].(job := None));
    SendForm(s1, c, e);
    var s2 := s1.(log := s.log[c := s.log[c] + [e]]);
    if s.clients[c].aborPending {
      SendForm(s2, c, AbortOk);
      assert s.log[c] + [e] + [AbortOk] == s.log[c] + Answers(s, j);
      assert s2.log[c := s2.log[c] + [AbortOk]] == s.log[c := s.log[c] + Answers(s, j)];
      assert s1.clients[c := Answered(s.clients[c])] == s.clients[c := Answered(s.clients[c])];
    } else {
      assert [e] + [] == [e];
      assert s.clients[c].(job := None) == Answered(s.clients[c]);
    }
  }

  lemma CompleteOk(s: State)
    requires Inv(s) && s.phase.Completions?
    ensures ExecComplete(s).Ok? && Inv(ExecComplete(s).state)
  {
    if s.phase.jobBatch != [] {
      CompletionFacts(s);
      var j := s.phase.jobBatch[0];
      var c := s.jobs[j].client;
      JobBackedOf(s, j);
      CloseJobFdsOk(s, j);
      if s.clients[c].refs == 1 {
        SoleHolder(s, c);
      }
      var live := s.jobs[j].generation == s.clients[c].generation;
      if live {
        CurrentIsLive(s, j);
        AnswerInv(s, j, Answered(s.clients[c]));
      } else {
        DiscardInv(s, j);
      }
      CompleteForm(s, j, c, live);
    }
  }

  /** A current generation means the client is connected; its descriptor is not one of the job's. */
  lemma CurrentIsLive(s: State, j: JobId)
    requires Inv(s) && j in s.jobs && s.jobs[j].client in s.clients
    requires s.jobs[j].generation == s.clients[s.jobs[j].client].generation
    ensures s.jobs[j].client in s.registry && s.jobs[j].client in s.log
    ensures s.clients[s.jobs[j].client].fd >= 0
    ensures Backed(s.fds - JobFds(s.jobs[j]), s.clients[s.jobs[j].client].fd, Control(s.jobs[j].client))
  {
    CurrentIsRegistered(s, j);
    Live(s, s.jobs[j].client);
    JobBackedOf(s, j);
  }

  lemma CurrentIsRegistered(s: State, j: JobId)
    requires Pointed(s.clients, s.jobs, s.registry, Pending(s.phase))
    requires j in s.jobs && s.jobs[j].client in s.clients
    requires s.jobs[j].generation == s.clients[s.jobs[j].client].generation
    ensures s.jobs[j].client in s.registry
  {
    assert Unfold(0);
  }
}
