/** The descriptor table and its owners stay in step. */
module DescriptorProofs {
  import opened Common
  import opened ServerState
  import opened ServerSteps
  import opened ServerInvariant

  function JobFds(job: Job): set<int> {
    {job.dataFd, job.pasvFd, job.pipeRead, job.pipeWrite}
  }

  lemma OwnedSetClient(clients: map<ClientId, Client>, jobs: map<JobId, Job>, fds: map<int, Owner>,
                       c: ClientId, cl: Client)
    requires Owned(clients, jobs, fds) && c in clients
    requires cl.fd == clients[c].fd && cl.pasvFd == clients[c].pasvFd
    ensures Owned(clients[c := cl], jobs, fds)
  {
    assert Unfold(0);
  }

  lemma OwnedSetJob(clients: map<ClientId, Client>, jobs: map<JobId, Job>, fds: map<int, Owner>,
                    j: JobId, job: Job)
    requires Owned(clients, jobs, fds) && j in jobs
    requires job.dataFd == jobs[j].dataFd && job.pasvFd == jobs[j].pasvFd
    requires job.pipeRead == jobs[j].pipeRead && job.pipeWrite == jobs[j].pipeWrite
    ensures Owned(clients, jobs[j := job], fds)
  {
    assert Unfold(0);
  }

  lemma OwnedAccept(clients: map<ClientId, Client>, jobs: map<JobId, Job>, fds: map<int, Owner>,
                    c: ClientId, cl: Client)
    requires Owned(clients, jobs, fds) && c !in clients
    requires cl.fd >= 0 && cl.fd !in fds && cl.pasvFd < 0
    ensures Owned(clients[c := cl], jobs, fds[cl.fd := Control(c)])
  {
    assert Unfold(0);
  }

  lemma OwnedFreeClient(clients: map<ClientId, Client>, jobs: map<JobId, Job>, fds: map<int, Owner>, c: ClientId)
    requires Owned(clients, jobs, fds) && c in clients
    requires clients[c].fd < 0 && clients[c].pasvFd < 0
    ensures Owned(clients - {c}, jobs, fds)
  {
    assert Unfold(0);
  }

  lemma OwnedDropListener(clients: map<ClientId, Client>, jobs: map<JobId, Job>, fds: map<int, Owner>,
                          c: ClientId, cl: Client)
    requires Owned(clients, jobs, fds) && c in clients
    requires cl.fd == clients[c].fd && cl.pasvFd < 0
    ensures Owned(clients[c := cl], jobs, fds - {clients[c].pasvFd})
  {
    assert Unfold(0);
  }

  lemma OwnedListen(clients: map<ClientId, Client>, jobs: map<JobId, Job>, fds: map<int, Owner>,
                    c: ClientId, cl: Client)
    requires Owned(clients, jobs, fds) && c in clients
    requires clients[c].pasvFd < 0 && cl.fd == clients[c].fd && cl.pasvFd >= 0 && cl.pasvFd !in fds
    ensures Owned(clients[c := cl], jobs, fds[cl.pasvFd := Listener(c)])
  {
    assert Unfold(0);
  }

  lemma OwnedFactsHangup(clients: map<ClientId, Client>, jobs: map<JobId, Job>, fds: map<int, Owner>,
                    c: ClientId, cl: Client)
    requires OwnedFacts(clients, jobs, fds) && c in clients
    requires cl.fd < 0 && cl.pasvFd < 0
    ensures OwnedFacts(clients[c := cl], jobs, fds - {clients[c].pasvFd} - {clients[c].fd})
  {
  }

  lemma OwnedHangup(clients: map<ClientId, Client>, jobs: map<JobId, Job>, fds: map<int, Owner>,
                    c: ClientId, cl: Client)
    requires Owned(clients, jobs, fds) && c in clients
    requires cl.fd < 0 && cl.pasvFd < 0
    ensures Owned(clients[c := cl], jobs, fds - {clients[c].pasvFd} - {clients[c].fd})
  {
    assert Unfold(0);
    OwnedFactsHangup(clients, jobs, fds, c, cl);
  }

  lemma OwnedDataFd(clients: map<ClientId, Client>, jobs: map<JobId, Job>, fds: map<int, Owner>,
                    j: JobId, job: Job)
    requires Owned(clients, jobs, fds) && j in jobs
    requires jobs[j].dataFd < 0 && job.dataFd >= 0 && job.dataFd !in fds && job.pasvFd == jobs[j].pasvFd
    requires job.pipeRead == jobs[j].pipeRead && job.pipeWrite == jobs[j].pipeWrite
    ensures Owned(clients, jobs[j := job], fds[job.dataFd := JobData(j)])
  {
    assert Unfold(0);
  }

  /** The pipe of a new job. */
  lemma OwnedPipe(clients: map<ClientId, Client>, jobs: map<JobId, Job>, fds: map<int, Owner>,
                  j: JobId, job: Job)
    requires Owned(clients, jobs, fds) && j !in jobs
    requires job.dataFd < 0 && job.pasvFd < 0
    requires job.pipeRead >= 0 && job.pipeWrite >= 0 && job.pipeRead != job.pipeWrite
    requires job.pipeRead !in fds && job.pipeWrite !in fds
    ensures Owned(clients, jobs[j := job], fds[job.pipeRead := PipeReader(j)][job.pipeWrite := PipeWriter(j)])
  {
    assert Unfold(0);
  }

  /** The listener moves from the client to the job. */
  lemma OwnedMove(clients: map<ClientId, Client>, jobs: map<JobId, Job>, fds: map<int, Owner>,
                  c: ClientId, cl: Client, j: JobId, job: Job)
    requires Owned(clients, jobs, fds) && c in clients && j in jobs
    requires cl.fd == clients[c].fd && cl.pasvFd < 0
    requires jobs[j].pasvFd < 0 && job == jobs[j].(pasvFd := clients[c].pasvFd)
    ensures Owned(clients[c := cl], jobs[j := job],
                  if clients[c].pasvFd >= 0 then fds[clients[c].pasvFd := JobListener(j)] else fds)
  {
    assert Unfold(0);
  }

  lemma OwnedFactsFreeJob(clients: map<ClientId, Client>, jobs: map<JobId, Job>, fds: map<int, Owner>, j: JobId)
    requires OwnedFacts(clients, jobs, fds) && j in jobs
    ensures OwnedFacts(clients, jobs - {j}, fds - JobFds(jobs[j]))
  {
  }

  lemma OwnedFreeJob(clients: map<ClientId, Client>, jobs: map<JobId, Job>, fds: map<int, Owner>, j: JobId)
    requires Owned(clients, jobs, fds) && j in jobs
    ensures Owned(clients, jobs - {j}, fds - JobFds(jobs[j]))
  {
    assert Unfold(0);
    OwnedFactsFreeJob(clients, jobs, fds, j);
  }

  lemma CloseOk(s: State, fd: int, o: Owner)
    requires Backed(s.fds, fd, o) && (fd < 0 ==> fd !in s.fds)
    ensures Close(s, fd, o) == Ok(s.(fds := s.fds - {fd}))
  {
    if fd < 0 {
      assert s.fds - {fd} == s.fds;
    }
  }

  /** Closing a job's descriptors never touches another holder's. */
  lemma CloseJobFdsOk(s: State, j: JobId)
    requires j in s.jobs && JobBacked(s.jobs[j], j, s.fds)
    requires forall fd :: fd in s.fds ==> fd >= 0
    ensures CloseJobFds(s, j) == Ok(s.(fds := s.fds - JobFds(s.jobs[j])))
  {
    var job := s.jobs[j];
    CloseOk(s, job.dataFd, JobData(j));
    var s1 := s.(fds := s.fds - {job.dataFd});
    CloseOk(s1, job.pasvFd, JobListener(j));
    var s2 := s1.(fds := s1.fds - {job.pasvFd});
    CloseOk(s2, job.pipeRead, PipeReader(j));
    var s3 := s2.(fds := s2.fds - {job.pipeRead});
    CloseOk(s3, job.pipeWrite, PipeWriter(j));
    assert s.fds - {job.dataFd} - {job.pasvFd} - {job.pipeRead} - {job.pipeWrite} == s.fds - JobFds(job);
  }
}
