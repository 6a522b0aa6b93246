/** Every step of a pool worker is safe and keeps the invariant. */
module WorkerProofs {
  import opened Common
  import opened Addresses
  import opened ServerState
  import opened ServerSteps
  import opened ServerInvariant
  import opened PlaceProofs
  import opened CountProofs
  import opened DescriptorProofs
  import opened LinkProofs

  /** The job a worker runs, and its client, are allocated. */
  lemma JobAlive(s: State, w: nat)
    requires Inv(s) && w < |s.workers| && !s.workers[w].Idle?
    ensures s.workers[w].job in s.jobs && s.jobs[s.workers[w].job].client in s.clients
    ensures s.workers[w].job !in s.posted && s.workers[w].job !in JobBatch(s.phase)
  {
    assert Unfold(0);
    assert Runs(s.workers, s.workers[w].job);
  }

  lemma TakeOk(s: State, w: nat)
    requires Inv(s) && w < |s.workers| && s.workers[w].Idle? && s.queue != []
    ensures Inv(SetWorker(s, w, Busy(s.queue[0])).(queue := s.queue[1..]))
  {
    TakePlaces(s.jobs.Keys, s.queue, s.workers, s.posted, JobBatch(s.phase), w);
    RestageReplies(s.replies.Keys, s.workers, s.fifo, ReplyBatch(s.phase), w, Busy(s.queue[0]));
    StampedWorker(s.replies, s.workers, w, Busy(s.queue[0]));
  }

  /** Changes to a job that concern its data connection or its outcome only. */
  lemma SetJobOk(s: State, j: JobId, job: Job, fds: map<int, Owner>)
    requires Inv(s) && j in s.jobs
    requires job.client == s.jobs[j].client && job.generation == s.jobs[j].generation
    requires Owned(s.clients, s.jobs[j := job], fds)
    requires JobPeer(s.clients, s.allowForeignPort, job)
    requires j in s.posted || j in JobBatch(s.phase) ==>
      job.result == s.jobs[j].result && job.connOk == s.jobs[j].connOk && job.op == s.jobs[j].op
    ensures Inv(SetJob(s, j, job).(fds := fds))
  {
    CountedSetJob(s.clients, s.jobs, s.replies, s.registry, j, job);
    PointedSetJob(s.clients, s.jobs, s.registry, Pending(s.phase), j, job);
    PeersSetJob(s.clients, s.jobs, s.allowForeignPort, j, job);
    ExplainedSetJob(s.jobs, s.posted, JobBatch(s.phase), j, job);
    IdsSetJob(s, j, job);
    assert s.jobs[j := job].Keys == s.jobs.Keys;
  }

  lemma ExplainedSetJob(jobs: map<JobId, Job>, posted: seq<JobId>, batch: seq<JobId>, j: JobId, job: Job)
    requires Explained(jobs, posted, batch) && j in jobs
    requires j in posted || j in batch ==>
      job.result == jobs[j].result && job.connOk == jobs[j].connOk && job.op == jobs[j].op
    ensures Explained(jobs[j := job], posted, batch)
  {
  }

  lemma IdsSetJob(s: State, j: JobId, job: Job)
    requires Ids(s.clients, s.jobs, s.replies, s.log, s.next) && j in s.jobs && Staged(s.phase, s.jobs)
    requires job.client == s.jobs[j].client
    ensures Ids(s.clients, s.jobs[j := job], s.replies, s.log, s.next) && Staged(s.phase, s.jobs[j := job])
  {
  }

  lemma AcceptDataOk(s: State, w: nat, fd: int, from: Addr)
    requires Inv(s) && Possible(s, AcceptData(w, fd, from))
    ensures ExecAcceptData(s, s.workers[w].job, fd, from).Ok?
    ensures Inv(ExecAcceptData(s, s.workers[w].job, fd, from).state)
  {
    JobAlive(s, w);
    var j := s.workers[w].job;
    var ok := s.allowForeignPort || AddrEq(from, s.jobs[j].ctlPeer);
    var job := s.jobs[j].(dataFd := fd, connOk := ok, endpoint := if ok then Some(from) else None);
    PeerOf(s, j);
    OwnedDataFd(s.clients, s.jobs, s.fds, j, job);
    SetJobOk(s, j, job, s.fds[fd := JobData(j)]);
  }

  lemma ConnectDataOk(s: State, w: nat, fd: int, established: bool)
    requires Inv(s) && Possible(s, ConnectData(w, fd, established))
    ensures ExecConnectData(s, s.workers[w].job, fd, established).Ok?
    ensures Inv(ExecConnectData(s, s.workers[w].job, fd, established).state)
  {
    JobAlive(s, w);
    var j := s.workers[w].job;
    var job := s.jobs[j].(dataFd := fd, connOk := established,
                          endpoint := if established then Some(s.jobs[j].dataPeer) else None);
    PeerOf(s, j);
    OwnedDataFd(s.clients, s.jobs, s.fds, j, job);
    SetJobOk(s, j, job, s.fds[fd := JobData(j)]);
  }

  lemma StampOk(s: State, w: nat)
    requires Inv(s) && WorkerRuns(s, w)
    ensures ExecStamp(s, w, s.workers[w].job).Ok?
    ensures Inv(ExecStamp(s, w, s.workers[w].job).state)
  {
    JobAlive(s, w);
    var j := s.workers[w].job;
    var c := s.jobs[j].client;
    var k := Composing(j, s.clients[c].generation, c !in s.registry);
    GenerationOf(s, c);
    StampedWorker(s.replies, s.workers, w, k);
    RestagePlaces(s.jobs.Keys, s.queue, s.workers, s.posted, JobBatch(s.phase), w, k);
    RestageReplies(s.replies.Keys, s.workers, s.fifo, ReplyBatch(s.phase), w, k);
  }

  lemma GenerationOf(s: State, c: ClientId)
    requires Registered(s.clients, s.registry, Ready(s.phase)) && c in s.clients
    ensures s.clients[c].generation == StampOf(c !in s.registry)
  {
    assert Unfold(0);
  }

  /** Nothing but the counter of `c` changes. */
  lemma RecountKeeps(s: State, c: ClientId, cl: Client)
    requires Registered(s.clients, s.registry, Ready(s.phase)) && Owned(s.clients, s.jobs, s.fds)
    requires Pointed(s.clients, s.jobs, s.registry, Pending(s.phase)) && Logged(s.clients, s.registry, s.log)
    requires Peers(s.clients, s.jobs, s.allowForeignPort)
    requires c in s.clients && cl == s.clients[c].(refs := cl.refs)
    ensures Registered(s.clients[c := cl], s.registry, Ready(s.phase)) && Owned(s.clients[c := cl], s.jobs, s.fds)
    ensures Pointed(s.clients[c := cl], s.jobs, s.registry, Pending(s.phase))
    ensures Logged(s.clients[c := cl], s.registry, s.log)
    ensures Peers(s.clients[c := cl], s.jobs, s.allowForeignPort)
  {
    RegisteredSetClient(s.clients, s.registry, Ready(s.phase), c, cl);
    PointedSetClient(s.clients, s.jobs, s.registry, Pending(s.phase), c, cl);
    OwnedSetClient(s.clients, s.jobs, s.fds, c, cl);
    PeersSetClient(s.clients, s.jobs, s.allowForeignPort, c, cl);
    LoggedSetClient(s.clients, s.registry, s.log, c, cl);
  }

  lemma RetainInv(s: State, w: nat, c: ClientId, cl: Client, reply: Reply)
    requires Inv(s) && w < |s.workers| && s.workers[w].Composing?
    requires s.workers[w].job in s.jobs && c in s.clients
    requires cl == s.clients[c].(refs := s.clients[c].refs + 1)
    requires reply == Reply(c, s.workers[w].stamp, s.workers[w].late)
    ensures Inv(s.(clients := s.clients[c := cl], replies := s.replies[s.next := reply], next := s.next + 1,
                   workers := s.workers[w := Holding(s.workers[w].job, s.next)]))
  {
    var j := s.workers[w].job;
    NextFresh(s);
    RestagePlaces(s.jobs.Keys, s.queue, s.workers, s.posted, JobBatch(s.phase), w, Holding(j, s.next));
    RetainReplies(s.replies.Keys, s.workers, s.fifo, ReplyBatch(s.phase), w, j, s.next);
    assert s.replies[s.next := reply].Keys == s.replies.Keys + {s.next};
    CountedAddReply(s.clients, s.jobs, s.replies, s.registry, s.next, reply, cl);
    RecountKeeps(s, c, cl);
    IdsAddReply(s.clients, s.jobs, s.replies, s.log, s.next, c, cl, reply);
    StartedNext(s.log, s.next, Pending(s.phase));
    StampedReply(s.replies, s.workers, s.next, w, Holding(j, s.next));
  }

  lemma RetainForm(s: State, w: nat, j: JobId, stamp: nat, late: bool, c: ClientId, cl: Client)
    requires w < |s.workers| && j in s.jobs && c == s.jobs[j].client && c in s.clients
    requires cl == s.clients[c].(refs := s.clients[c].refs + 1)
    ensures ExecRetain(s, w, j, stamp, late) ==
            Ok(s.(clients := s.clients[c := cl], replies := s.replies[s.next := Reply(c, stamp, late)],
                  next := s.next + 1, workers := s.workers[w := Holding(j, s.next)]))
  {
  }

  lemma RetainOk(s: State, w: nat)
    requires Inv(s) && w < |s.workers| && s.workers[w].Composing?
    ensures ExecRetain(s, w, s.workers[w].job, s.workers[w].stamp, s.workers[w].late).Ok?
    ensures Inv(ExecRetain(s, w, s.workers[w].job, s.workers[w].stamp, s.workers[w].late).state)
  {
    JobAlive(s, w);
    var c := s.jobs[s.workers[w].job].client;
    var cl := s.clients[c].(refs := s.clients[c].refs + 1);
    RetainForm(s, w, s.workers[w].job, s.workers[w].stamp, s.workers[w].late, c, cl);
    RetainInv(s, w, c, cl, Reply(c, s.workers[w].stamp, s.workers[w].late));
  }

  lemma PushOk(s: State, w: nat)
    requires Inv(s) && w < |s.workers| && s.workers[w].Holding?
    ensures Inv(SetWorker(s, w, Busy(s.workers[w].job)).(fifo := s.fifo + [s.workers[w].reply]))
  {
    var k := Busy(s.workers[w].job);
    RestagePlaces(s.jobs.Keys, s.queue, s.workers, s.posted, JobBatch(s.phase), w, k);
    PushReplies(s.replies.Keys, s.workers, s.fifo, ReplyBatch(s.phase), w);
    StampedWorker(s.replies, s.workers, w, k);
  }

  lemma NotedInv(s: State, j: JobId, result: JobResult)
    requires Inv(s)
    ensures Inv(Noted(s, j, result))
  {
  }

  lemma PostOk(s: State, w: nat, result: JobResult)
    requires Inv(s) && WorkerRuns(s, w)
    requires s.workers[w].job in s.jobs && result.Success? ==>
      s.jobs[s.workers[w].job].connOk || s.jobs[s.workers[w].job].op == Copy
    ensures ExecPost(s, w, s.workers[w].job, result).Ok?
    ensures Inv(ExecPost(s, w, s.workers[w].job, result).state)
  {
    JobAlive(s, w);
    var j := s.workers[w].job;
    var job := s.jobs[j].(result := result);
    OwnedSetJob(s.clients, s.jobs, s.fds, j, job);
    PeerOf(s, j);
    SetJobOk(s, j, job, s.fds);
    PostMoveOk(SetJob(s, j, job), w);
  }

  lemma PostNotedOk(s: State, w: nat, result: JobResult)
    requires Inv(s) && Possible(s, Post(w, result))
    ensures var j := s.workers[w].job;
            ExecPost(Noted(s, j, result), w, j, result).Ok? && Inv(ExecPost(Noted(s, j, result), w, j, result).state)
  {
    NotedInv(s, s.workers[w].job, result);
    PostOk(Noted(s, s.workers[w].job, result), w, result);
  }

  lemma PostMoveOk(s: State, w: nat)
    requires Inv(s) && WorkerRuns(s, w) && s.workers[w].job in s.jobs
    requires s.jobs[s.workers[w].job].result.Success? ==>
      s.jobs[s.workers[w].job].connOk || s.jobs[s.workers[w].job].op == Copy
    ensures Inv(SetWorker(s, w, Idle).(posted := [s.workers[w].job] + s.posted))
  {
    PostPlaces(s.jobs.Keys, s.queue, s.workers, s.posted, JobBatch(s.phase), w);
    RestageReplies(s.replies.Keys, s.workers, s.fifo, ReplyBatch(s.phase), w, Idle);
    ExplainedPost(s.jobs, s.posted, JobBatch(s.phase), s.workers[w].job);
    StampedWorker(s.replies, s.workers, w, Idle);
  }

  lemma ExplainedPost(jobs: map<JobId, Job>, posted: seq<JobId>, batch: seq<JobId>, j: JobId)
    requires Explained(jobs, posted, batch) && j in jobs
    requires jobs[j].result.Success? ==> jobs[j].connOk || jobs[j].op == Copy
    ensures Explained(jobs, [j] + posted, batch)
  {
    assert forall k :: k in [j] + posted <==> k == j || k in posted;
  }
}
