/** Starting a transfer: the job is built, handed over, and only then pointed at. */
module DispatchProofs {
  import opened Common
  import opened Addresses
  import opened ServerState
  import opened ServerSteps
  import opened ServerInvariant
  import opened PlaceProofs
  import opened CountProofs
  import opened DescriptorProofs
  import opened LinkProofs
  import opened ReactorProofs

  function JobFor(c: ClientId, cl: Client, op: JobOp, pipe: (int, int)): Job {
    Job(c, cl.generation, op, false, pipe.0, pipe.1, NO_FD,
        if op != Copy then cl.pasvFd else NO_FD, op != Copy && cl.haveDataPeer, cl.dataPeer, cl.peer,
        false, None, Success)
  }

  function ClientAfter(cl: Client, op: JobOp): Client {
    cl.(pasvFd := if op != Copy then NO_FD else cl.pasvFd, haveDataPeer := op == Copy && cl.haveDataPeer)
  }

  function FdsAfter(fds: map<int, Owner>, cl: Client, op: JobOp, pipe: (int, int), j: JobId): map<int, Owner> {
    var fds1 := fds[pipe.0 := PipeReader(j)][pipe.1 := PipeWriter(j)];
    if op != Copy && cl.pasvFd >= 0 then fds1[cl.pasvFd := JobListener(j)] else fds1
  }

  lemma NewJobForm(s: State, c: ClientId, op: JobOp, pipe: (int, int))
    requires c in s.clients
    ensures NewJob(s, c, op, pipe) ==
            s.(jobs := s.jobs[s.next := JobFor(c, s.clients[c], op, pipe)],
               clients := s.clients[c := ClientAfter(s.clients[c], op).(refs := s.clients[c].refs + 1)],
               next := s.next + 1, fds := FdsAfter(s.fds, s.clients[c], op, pipe, s.next))
  {
  }

  lemma OwnedLaunch(clients: map<ClientId, Client>, jobs: map<JobId, Job>, fds: map<int, Owner>,
                    c: ClientId, cl: Client, op: JobOp, pipe: (int, int), j: JobId)
    requires Owned(clients, jobs, fds) && c in clients && j !in jobs
    requires pipe.0 >= 0 && pipe.1 >= 0 && pipe.0 != pipe.1 && pipe.0 !in fds && pipe.1 !in fds
    requires cl == ClientAfter(clients[c], op).(refs := cl.refs)
    ensures Owned(clients[c := cl], jobs[j := JobFor(c, clients[c], op, pipe)], FdsAfter(fds, clients[c], op, pipe, j))
  {
    var job := JobFor(c, clients[c], op, pipe);
    var job0 := job.(pasvFd := NO_FD);
    var fds1 := fds[pipe.0 := PipeReader(j)][pipe.1 := PipeWriter(j)];
    OwnedPipe(clients, jobs, fds, j, job0);
    if op == Copy {
      OwnedSetClient(clients, jobs[j := job0], fds1, c, cl);
    } else {
      OwnedMove(clients, jobs[j := job0], fds1, c, cl, j, job0.(pasvFd := clients[c].pasvFd));
      assert jobs[j := job0][j := job0.(pasvFd := clients[c].pasvFd)] == jobs[j := job];
    }
  }

  // ---- accepted by the queue ----

  lemma LaunchInv(s: State, c: ClientId, cl: Client, op: JobOp, pipe: (int, int))
    requires Inv(s) && s.phase.Events? && s.phase.ready != [] && c == s.phase.ready[0]
    requires c in s.registry && c in s.clients && s.next !in s.jobs && s.clients[c].job.None?
    requires FreshPipe(s, Some(pipe)) && |s.queue| < QueueCap(s)
    requires op != Copy && s.clients[c].haveDataPeer ==> PeerMatches(s, s.clients[c])
    requires s.clients[c].pasvFd < 0 || !s.clients[c].haveDataPeer
    requires cl == ClientAfter(s.clients[c], op).(refs := s.clients[c].refs + 1)
    ensures Inv(s.(jobs := s.jobs[s.next := JobFor(c, s.clients[c], op, pipe)], clients := s.clients[c := cl],
                   next := s.next + 1, fds := FdsAfter(s.fds, s.clients[c], op, pipe, s.next),
                   queue := s.queue + [s.next], phase := Dispatched(s.next, s.phase.ready)))
  {
    var job := JobFor(c, s.clients[c], op, pipe);
    LaunchHeld(s, c, cl, job);
    LaunchKept(s, c, cl, op, pipe, job);
  }

  lemma LaunchHeld(s: State, c: ClientId, cl: Client, job: Job)
    requires Held(s) && s.phase.Events? && s.phase.ready != [] && c == s.phase.ready[0]
    requires c in s.registry && c in s.clients && s.next !in s.jobs && s.clients[c].job.None?
    requires |s.queue| < QueueCap(s) && job.client == c && job.generation == s.clients[c].generation
    requires cl == s.clients[c].(refs := s.clients[c].refs + 1, pasvFd := cl.pasvFd, haveDataPeer := cl.haveDataPeer)
    ensures Held(s.(jobs := s.jobs[s.next := job], clients := s.clients[c := cl], next := s.next + 1,
                    queue := s.queue + [s.next], phase := Dispatched(s.next, s.phase.ready)))
  {
    RegisteredSetClient(s.clients, s.registry, Ready(s.phase), c, cl);
    CountedAddJob(s.clients, s.jobs, s.replies, s.registry, s.next, job, cl);
    EnqueuePlaces(s.jobs.Keys, s.queue, s.workers, s.posted, s.next);
    assert s.jobs[s.next := job].Keys == s.jobs.Keys + {s.next};
    PointedLaunch(s.clients, s.jobs, s.registry, c, cl, s.next, job);
    LaunchIds(s, c, cl, job);
    LaunchedHeld(s, s.clients[c := cl], s.jobs[s.next := job]);
  }

  lemma LaunchedHeld(s: State, clients: map<ClientId, Client>, jobs: map<JobId, Job>)
    requires Held(s) && s.phase.Events? && s.phase.ready != []
    requires Ids(clients, jobs, s.replies, s.log, s.next + 1) && Registered(clients, s.registry, s.phase.ready)
    requires Counted(clients, jobs, s.replies, s.registry) && Pointed(clients, jobs, s.registry, Some(s.next))
    requires JobsPlaced(jobs.Keys, s.queue + [s.next], s.workers, s.posted, [])
    requires s.next in jobs && jobs[s.next].client == s.phase.ready[0]
    ensures Held(s.(jobs := jobs, clients := clients, next := s.next + 1, queue := s.queue + [s.next],
                    phase := Dispatched(s.next, s.phase.ready)))
  {
    var phase := Dispatched(s.next, s.phase.ready);
    assert Ready(phase) == s.phase.ready && Pending(phase) == Some(s.next) && JobBatch(phase) == [];
    assert ReplyBatch(phase) == [];
  }

  lemma LaunchKept(s: State, c: ClientId, cl: Client, op: JobOp, pipe: (int, int), job: Job)
    requires Inv(s) && s.phase.Events? && c in s.clients && s.next !in s.jobs && s.clients[c].job.None?
    requires job == JobFor(c, s.clients[c], op, pipe) && FreshPipe(s, Some(pipe))
    requires op != Copy && s.clients[c].haveDataPeer ==> PeerMatches(s, s.clients[c])
    requires s.clients[c].pasvFd < 0 || !s.clients[c].haveDataPeer
    requires cl == ClientAfter(s.clients[c], op).(refs := s.clients[c].refs + 1)
    ensures Kept(s.(jobs := s.jobs[s.next := job], clients := s.clients[c := cl], next := s.next + 1,
                    fds := FdsAfter(s.fds, s.clients[c], op, pipe, s.next),
                    queue := s.queue + [s.next], phase := Dispatched(s.next, s.phase.ready)))
  {
    OwnedLaunch(s.clients, s.jobs, s.fds, c, cl, op, pipe, s.next);
    PeersLaunch(s, c, cl, job);
    LoggedSetClient(s.clients, s.registry, s.log, c, cl);
    LaunchExplained(s, job);
    StartedLaunch(s.log, s.next);
    var phase := Dispatched(s.next, s.phase.ready);
    assert Pending(phase) == Some(s.next) && JobBatch(phase) == [];
  }

  lemma PeersLaunch(s: State, c: ClientId, cl: Client, job: Job)
    requires Peers(s.clients, s.jobs, s.allowForeignPort) && c in s.clients
    requires cl.peer == s.clients[c].peer && (cl.pasvFd < 0 || !cl.haveDataPeer)
    requires job.client == c && job.ctlPeer == cl.peer && !job.connOk && (job.pasvFd < 0 || !job.haveDataPeer)
    requires !s.allowForeignPort && job.haveDataPeer ==> AddrEq(job.ctlPeer, job.dataPeer)
    ensures Peers(s.clients[c := cl], s.jobs[s.next := job], s.allowForeignPort)
  {
    PeersSetClient(s.clients, s.jobs, s.allowForeignPort, c, cl);
    PeersSetJob(s.clients[c := cl], s.jobs, s.allowForeignPort, s.next, job);
  }

  lemma LaunchIds(s: State, c: ClientId, cl: Client, job: Job)
    requires Ids(s.clients, s.jobs, s.replies, s.log, s.next) && c in s.clients
    ensures Ids(s.clients[c := cl], s.jobs[s.next := job], s.replies, s.log, s.next + 1)
  {
    assert Unfold(0);
  }

  lemma LaunchExplained(s: State, job: Job)
    requires JobsPlaced(s.jobs.Keys, s.queue, s.workers, s.posted, []) && s.next !in s.jobs
    requires Explained(s.jobs, s.posted, [])
    ensures Explained(s.jobs[s.next := job], s.posted, [])
  {
    assert Unfold(0);
  }

  lemma LaunchAcceptedOk(s: State, c: ClientId, op: JobOp, pipe: (int, int))
    requires Inv(s) && s.phase.Events? && s.phase.ready != [] && c == s.phase.ready[0] && c in s.clients
    requires s.clients[c].job.None? && FreshPipe(s, Some(pipe)) && |s.queue| < QueueCap(s)
    requires op != Copy && s.clients[c].haveDataPeer ==> PeerMatches(s, s.clients[c])
    ensures Launch(s, c, op, pipe).Ok? && Inv(Launch(s, c, op, pipe).state)
  {
    ReadyHead(s);
    Live(s, c);
    NextFresh(s);
    var cl := ClientAfter(s.clients[c], op).(refs := s.clients[c].refs + 1);
    NewJobForm(s, c, op, pipe);
    LaunchInv(s, c, cl, op, pipe);
  }

  // ---- refused: everything is undone, except that the set-up is spent ----

  lemma FdsUndone(fds: map<int, Owner>, cl: Client, op: JobOp, pipe: (int, int), j: JobId)
    requires pipe.0 >= 0 && pipe.1 >= 0 && pipe.0 !in fds && pipe.1 !in fds
    requires forall fd :: fd in fds ==> fd >= 0
    requires op != Copy && cl.pasvFd >= 0 ==> cl.pasvFd in fds
    ensures FdsAfter(fds, cl, op, pipe, j) - JobFds(JobFor(0, cl, op, pipe)) ==
            fds - {if op != Copy then cl.pasvFd else NO_FD}
  {
  }

  lemma LaunchRefusedForm(s: State, c: ClientId, op: JobOp, pipe: (int, int))
    requires c in s.clients && c in s.log && s.phase.Events? && s.next !in s.jobs
    requires Owned(s.clients, s.jobs, s.fds) && s.clients[c].fd >= 0 && s.clients[c].refs > 0
    requires FreshPipe(s, Some(pipe)) && |s.queue| >= QueueCap(s)
    ensures Launch(s, c, op, pipe) ==
            Send(s.(clients := s.clients[c := ClientAfter(s.clients[c], op)], next := s.next + 1,
                    fds := s.fds - {if op != Copy then s.clients[c].pasvFd else NO_FD}), c, Line)
  {
    var j := s.next;
    var job := JobFor(c, s.clients[c], op, pipe);
    var cl := ClientAfter(s.clients[c], op).(refs := s.clients[c].refs + 1);
    NewJobForm(s, c, op, pipe);
    var s1 := NewJob(s, c, op, pipe);
    OwnedLaunch(s.clients, s.jobs, s.fds, c, cl, op, pipe, j);
    JobBackedOf(s1, j);
    CloseJobFdsOk(s1, j);
    JobFdsSame(job);
    BackedAfter(s.clients, s.jobs, s.fds, c);
    NonNegative(s.clients, s.jobs, s.fds);
    FdsUndone(s.fds, s.clients[c], op, pipe, j);
    assert s.jobs[j := job] - {j} == s.jobs;
    assert s.clients[c := cl][c := ClientAfter(s.clients[c], op)] == s.clients[c := ClientAfter(s.clients[c], op)];
  }

  lemma NonNegative(clients: map<ClientId, Client>, jobs: map<JobId, Job>, fds: map<int, Owner>)
    requires Owned(clients, jobs, fds)
    ensures forall fd :: fd in fds ==> fd >= 0
  {
    assert Unfold(0);
  }

  lemma JobFdsSame(job: Job)
    ensures JobFds(job) == JobFds(job.(client := 0))
  {
  }

  lemma LaunchRefusedOk(s: State, c: ClientId, op: JobOp, pipe: (int, int))
    requires Inv(s) && s.phase.Events? && s.phase.ready != [] && c == s.phase.ready[0] && c in s.clients
    requires FreshPipe(s, Some(pipe)) && |s.queue| >= QueueCap(s)
    ensures Launch(s, c, op, pipe).Ok? && Inv(Launch(s, c, op, pipe).state)
  {
    ReadyHead(s);
    Live(s, c);
    NextFresh(s);
    Positive(s, c);
    LaunchRefusedForm(s, c, op, pipe);
    var s1 := s.(next := s.next + 1);
    BumpInv(s);
    var cl := ClientAfter(s.clients[c], op);
    if op == Copy {
      assert s.fds - {NO_FD} == s.fds;
      OwnedSetClient(s.clients, s.jobs, s.fds, c, cl);
    } else {
      OwnedDropListener(s.clients, s.jobs, s.fds, c, cl);
    }
    UpdateAndReply(s1, c, cl, s.fds - {if op != Copy then s.clients[c].pasvFd else NO_FD});
  }

  lemma Positive(s: State, c: ClientId)
    requires Counted(s.clients, s.jobs, s.replies, s.registry) && c in s.clients
    ensures s.clients[c].refs > 0
  {
    assert Unfold(0);
  }

  // ---- the commands ----

  lemma TransferOk(s: State, c: ClientId, op: JobOp, pipe: Option<(int, int)>)
    requires Inv(s) && s.phase.Events? && s.phase.ready != [] && c == s.phase.ready[0] && c in s.clients
    requires FreshPipe(s, pipe)
    ensures ExecTransfer(s, c, op, pipe).Ok? && Inv(ExecTransfer(s, c, op, pipe).state)
  {
    ReadyHead(s);
    var cl := s.clients[c];
    if cl.job.Some? || (cl.haveDataPeer && !PeerMatches(s, cl)) || (cl.pasvFd < 0 && !cl.haveDataPeer) || pipe.None? {
      ReplyOk(s, c);
    } else if |s.queue| >= QueueCap(s) {
      LaunchRefusedOk(s, c, op, pipe.value);
    } else {
      LaunchAcceptedOk(s, c, op, pipe.value);
    }
  }

  lemma CopyToOk(s: State, c: ClientId, valid: bool, pipe: Option<(int, int)>)
    requires Inv(s) && s.phase.Events? && s.phase.ready != [] && c == s.phase.ready[0] && c in s.clients
    requires FreshPipe(s, pipe)
    ensures ExecCopyTo(s, c, valid, pipe).Ok? && Inv(ExecCopyTo(s, c, valid, pipe).state)
  {
    ReadyHead(s);
    if s.clients[c].job.Some? || !valid || pipe.None? {
      ReplyOk(s, c);
    } else if |s.queue| >= QueueCap(s) {
      LaunchRefusedOk(s, c, Copy, pipe.value);
    } else {
      LaunchAcceptedOk(s, c, Copy, pipe.value);
    }
  }

  // ---- after the hand-over ----

  lemma FinishInv(s: State, c: ClientId, cl: Client, e: Event)
    requires Inv(s) && s.phase.Dispatched? && s.phase.rest != [] && c == s.phase.rest[0] && c in s.registry
    requires c in s.clients && c in s.log && s.phase.newJob in s.jobs && s.jobs[s.phase.newJob].client == c
    requires s.clients[c].job.None? && !s.clients[c].aborPending
    requires s.clients[c].pasvFd < 0 || !s.clients[c].haveDataPeer
    requires cl == s.clients[c].(job := Some(s.phase.newJob))
    requires e == Preliminary(s.phase.newJob) || e == CopyBegun(s.phase.newJob)
    ensures Inv(s.(clients := s.clients[c := cl], phase := Events(s.phase.rest), log := s.log[c := s.log[c] + [e]]))
  {
    RegisteredSetClient(s.clients, s.registry, Ready(s.phase), c, cl);
    CountedSetClient(s.clients, s.jobs, s.replies, s.registry, c, cl);
    PointedAssign(s.clients, s.jobs, s.registry, c, cl, s.phase.newJob);
    OwnedSetClient(s.clients, s.jobs, s.fds, c, cl);
    PeersSetClient(s.clients, s.jobs, s.allowForeignPort, c, cl);
    assert AdvanceAll(Expected(s.clients, s.registry, c), [e]) == Expected(s.clients[c := cl], s.registry, c);
    LoggedMove(s.clients, s.registry, s.log, c, cl, s.registry, [e]);
    var log := s.log[c := s.log[c] + [e]];
    assert log.Keys == s.log.Keys;
    IdsSetLog(s.clients, s.jobs, s.replies, s.log, s.next, c, cl, log);
    JobIdBound(s, s.phase.newJob);
    StartedOpen(s.log, s.next, s.phase.newJob, c, e);
  }

  lemma JobIdBound(s: State, j: JobId)
    requires Ids(s.clients, s.jobs, s.replies, s.log, s.next) && j in s.jobs
    ensures j < s.next
  {
    assert Unfold(0);
  }

  lemma StagedFacts(s: State)
    requires Inv(s) && s.phase.Dispatched?
    ensures s.phase.rest != [] && s.phase.newJob in s.jobs && s.jobs[s.phase.newJob].client == s.phase.rest[0]
    ensures s.phase.rest[0] in s.registry && s.phase.rest[0] in s.clients
    ensures s.clients[s.phase.rest[0]].job.None?
  {
    assert Unfold(0);
  }

  lemma FinishDispatchOk(s: State)
    requires Inv(s) && s.phase.Dispatched? && s.phase.rest != []
    ensures ExecFinishDispatch(s).Ok? && Inv(ExecFinishDispatch(s).state)
  {
    StagedFacts(s);
    var c := s.phase.rest[0];
    var j := s.phase.newJob;
    Live(s, c);
    var cl := s.clients[c].(job := Some(j));
    var e := if s.jobs[j].op == Copy then CopyBegun(j) else Preliminary(j);
    FinishInv(s, c, cl, e);
    FinishForm(s, c, e);
  }

  lemma FinishForm(s: State, c: ClientId, e: Event)
    requires s.phase.Dispatched? && s.phase.rest != [] && c == s.phase.rest[0]
    requires c in s.clients && c in s.log && s.clients[c].fd >= 0 && Backed(s.fds, s.clients[c].fd, Control(c))
    requires s.phase.newJob in s.jobs
    requires e == if s.jobs[s.phase.newJob].op == Copy then CopyBegun(s.phase.newJob) else Preliminary(s.phase.newJob)
    ensures ExecFinishDispatch(s) ==
            Ok(s.(clients := s.clients[c := s.clients[c].(job := Some(s.phase.newJob))],
                  phase := Events(s.phase.rest), log := s.log[c := s.log[c] + [e]]))
  {
  }
}
