/** The reference counts follow the references. */
module CountProofs {
  import opened Common
  import opened ServerState
  import opened ServerInvariant

  /** The client heap after one reference to `c` is dropped: the last one frees it. */
  function Drop(clients: map<ClientId, Client>, c: ClientId): map<ClientId, Client>
    requires c in clients
  {
    if clients[c].refs == 1 then clients - {c} else clients[c := clients[c].(refs := clients[c].refs - 1)]
  }

  lemma JobsOfAdd(jobs: map<JobId, Job>, j: JobId, job: Job, c: ClientId)
    requires j !in jobs
    ensures |JobsOf(jobs[j := job], c)| == |JobsOf(jobs, c)| + if job.client == c then 1 else 0
  {
    if job.client == c {
      assert JobsOf(jobs[j := job], c) == JobsOf(jobs, c) + {j};
    } else {
      assert JobsOf(jobs[j := job], c) == JobsOf(jobs, c);
    }
  }

  lemma JobsOfDrop(jobs: map<JobId, Job>, j: JobId, c: ClientId)
    requires j in jobs
    ensures |JobsOf(jobs - {j}, c)| == |JobsOf(jobs, c)| - if jobs[j].client == c then 1 else 0
  {
    assert (jobs - {j})[j := jobs[j]] == jobs;
    JobsOfAdd(jobs - {j}, j, jobs[j], c);
  }

  lemma RepliesOfAdd(replies: map<ReplyId, Reply>, r: ReplyId, reply: Reply, c: ClientId)
    requires r !in replies
    ensures |RepliesOf(replies[r := reply], c)| == |RepliesOf(replies, c)| + if reply.client == c then 1 else 0
  {
    if reply.client == c {
      assert RepliesOf(replies[r := reply], c) == RepliesOf(replies, c) + {r};
    } else {
      assert RepliesOf(replies[r := reply], c) == RepliesOf(replies, c);
    }
  }

  lemma RepliesOfDrop(replies: map<ReplyId, Reply>, r: ReplyId, c: ClientId)
    requires r in replies
    ensures |RepliesOf(replies - {r}, c)| == |RepliesOf(replies, c)| - if replies[r].client == c then 1 else 0
  {
    assert (replies - {r})[r := replies[r]] == replies;
    RepliesOfAdd(replies - {r}, r, replies[r], c);
  }

  /** A client whose holders are all gone has no job and no reply. */
  lemma NoHolders(registry: seq<ClientId>, jobs: map<JobId, Job>, replies: map<ReplyId, Reply>, c: ClientId)
    requires Holders(registry, jobs, replies, c) == 0
    ensures c !in registry
    ensures forall j :: j in jobs ==> jobs[j].client != c
    ensures forall r :: r in replies ==> replies[r].client != c
  {
    assert JobsOf(jobs, c) == {} && RepliesOf(replies, c) == {};
    assert forall j :: j in JobsOf(jobs, c) <==> j in jobs && jobs[j].client == c;
    assert forall r :: r in RepliesOf(replies, c) <==> r in replies && replies[r].client == c;
  }

  /** Dropping one holder of `c` and one of its references keeps the books balanced. */
  lemma CountedDrop(clients: map<ClientId, Client>, jobs: map<JobId, Job>, replies: map<ReplyId, Reply>,
                    registry: seq<ClientId>, c: ClientId,
                    jobs': map<JobId, Job>, replies': map<ReplyId, Reply>, registry': seq<ClientId>)
    requires Counted(clients, jobs, replies, registry) && c in clients
    requires forall j :: j in jobs' ==> j in jobs && jobs'[j] == jobs[j]
    requires forall r :: r in replies' ==> r in replies && replies'[r] == replies[r]
    requires forall d :: d in clients ==>
      Holders(registry', jobs', replies', d) == Holders(registry, jobs, replies, d) - if d == c then 1 else 0
    ensures Counted(Drop(clients, c), jobs', replies', registry')
    ensures clients[c].refs == 1 ==> c !in registry'
  {
    assert Unfold(0);
    if clients[c].refs == 1 {
      NoHolders(registry', jobs', replies', c);
      CountedFree(clients, jobs, replies, registry, c, jobs', replies', registry');
    } else {
      CountedDecrement(clients, jobs, replies, registry, c, jobs', replies', registry');
    }
  }

  lemma CountedFree(clients: map<ClientId, Client>, jobs: map<JobId, Job>, replies: map<ReplyId, Reply>,
                    registry: seq<ClientId>, c: ClientId,
                    jobs': map<JobId, Job>, replies': map<ReplyId, Reply>, registry': seq<ClientId>)
    requires Counted(clients, jobs, replies, registry)
    requires forall j :: j in jobs' ==> j in jobs && jobs'[j] == jobs[j] && jobs'[j].client != c
    requires forall r :: r in replies' ==> r in replies && replies'[r] == replies[r] && replies'[r].client != c
    requires forall d :: d in clients && d != c ==>
      Holders(registry', jobs', replies', d) == Holders(registry, jobs, replies, d)
    ensures Counted(clients - {c}, jobs', replies', registry')
  {
    assert Unfold(0);
  }

  lemma CountedDecrement(clients: map<ClientId, Client>, jobs: map<JobId, Job>, replies: map<ReplyId, Reply>,
                         registry: seq<ClientId>, c: ClientId,
                         jobs': map<JobId, Job>, replies': map<ReplyId, Reply>, registry': seq<ClientId>)
    requires Counted(clients, jobs, replies, registry) && c in clients && clients[c].refs != 1
    requires forall j :: j in jobs' ==> j in jobs && jobs'[j] == jobs[j]
    requires forall r :: r in replies' ==> r in replies && replies'[r] == replies[r]
    requires forall d :: d in clients ==>
      Holders(registry', jobs', replies', d) == Holders(registry, jobs, replies, d) - if d == c then 1 else 0
    ensures Counted(clients[c := clients[c].(refs := clients[c].refs - 1)], jobs', replies', registry')
  {
    assert Unfold(0);
  }

  lemma CountedDropJob(clients: map<ClientId, Client>, jobs: map<JobId, Job>, replies: map<ReplyId, Reply>,
                       registry: seq<ClientId>, j: JobId)
    requires Counted(clients, jobs, replies, registry) && j in jobs && jobs[j].client in clients
    ensures Counted(Drop(clients, jobs[j].client), jobs - {j}, replies, registry)
    ensures clients[jobs[j].client].refs == 1 ==> jobs[j].client !in registry
  {
    assert Unfold(0);
    forall d ensures Holders(registry, jobs - {j}, replies, d) ==
                     Holders(registry, jobs, replies, d) - if d == jobs[j].client then 1 else 0 {
      JobsOfDrop(jobs, j, d);
    }
    CountedDrop(clients, jobs, replies, registry, jobs[j].client, jobs - {j}, replies, registry);
  }

  lemma CountedDropReply(clients: map<ClientId, Client>, jobs: map<JobId, Job>, replies: map<ReplyId, Reply>,
                         registry: seq<ClientId>, r: ReplyId)
    requires Counted(clients, jobs, replies, registry) && r in replies && replies[r].client in clients
    ensures Counted(Drop(clients, replies[r].client), jobs, replies - {r}, registry)
    ensures clients[replies[r].client].refs == 1 ==> replies[r].client !in registry
  {
    assert Unfold(0);
    forall d ensures Holders(registry, jobs, replies - {r}, d) ==
                     Holders(registry, jobs, replies, d) - if d == replies[r].client then 1 else 0 {
      RepliesOfDrop(replies, r, d);
    }
    CountedDrop(clients, jobs, replies, registry, replies[r].client, jobs, replies - {r}, registry);
  }

  lemma CountedUnregister(clients: map<ClientId, Client>, jobs: map<JobId, Job>, replies: map<ReplyId, Reply>,
                          registry: seq<ClientId>, c: ClientId)
    requires Counted(clients, jobs, replies, registry) && c in registry && c in clients
    ensures Counted(Drop(clients, c), jobs, replies, Without(registry, c))
  {
    assert Unfold(0);
    WithoutFacts(registry, c);
    CountedDrop(clients, jobs, replies, registry, c, jobs, replies, Without(registry, c));
  }

  lemma CountedAccept(clients: map<ClientId, Client>, jobs: map<JobId, Job>, replies: map<ReplyId, Reply>,
                      registry: seq<ClientId>, c: ClientId, cl: Client)
    requires Counted(clients, jobs, replies, registry)
    requires c !in clients && c !in registry && cl.refs == 1
    ensures Counted(clients[c := cl], jobs, replies, [c] + registry)
  {
    assert Unfold(0);
    assert JobsOf(jobs, c) == {};
    assert RepliesOf(replies, c) == {};
    assert forall d :: d in [c] + registry <==> d == c || d in registry;
  }

  lemma CountedFactsAddJob(clients: map<ClientId, Client>, jobs: map<JobId, Job>, replies: map<ReplyId, Reply>,
                      registry: seq<ClientId>, j: JobId, job: Job, cl: Client)
    requires CountedFacts(clients, jobs, replies, registry)
    requires j !in jobs && job.client in clients && cl.refs == clients[job.client].refs + 1
    ensures CountedFacts(clients[job.client := cl], jobs[j := job], replies, registry)
  {
    forall d ensures Holders(registry, jobs[j := job], replies, d) ==
                     Holders(registry, jobs, replies, d) + if d == job.client then 1 else 0 {
      JobsOfAdd(jobs, j, job, d);
    }
  }

  lemma CountedAddJob(clients: map<ClientId, Client>, jobs: map<JobId, Job>, replies: map<ReplyId, Reply>,
                      registry: seq<ClientId>, j: JobId, job: Job, cl: Client)
    requires Counted(clients, jobs, replies, registry)
    requires j !in jobs && job.client in clients && cl.refs == clients[job.client].refs + 1
    ensures Counted(clients[job.client := cl], jobs[j := job], replies, registry)
  {
    assert Unfold(0);
    CountedFactsAddJob(clients, jobs, replies, registry, j, job, cl);
  }

  lemma CountedFactsAddReply(clients: map<ClientId, Client>, jobs: map<JobId, Job>, replies: map<ReplyId, Reply>,
                        registry: seq<ClientId>, r: ReplyId, reply: Reply, cl: Client)
    requires CountedFacts(clients, jobs, replies, registry)
    requires r !in replies && reply.client in clients && cl.refs == clients[reply.client].refs + 1
    ensures CountedFacts(clients[reply.client := cl], jobs, replies[r := reply], registry)
  {
    forall d ensures Holders(registry, jobs, replies[r := reply], d) ==
                     Holders(registry, jobs, replies, d) + if d == reply.client then 1 else 0 {
      RepliesOfAdd(replies, r, reply, d);
    }
  }

  lemma CountedAddReply(clients: map<ClientId, Client>, jobs: map<JobId, Job>, replies: map<ReplyId, Reply>,
                        registry: seq<ClientId>, r: ReplyId, reply: Reply, cl: Client)
    requires Counted(clients, jobs, replies, registry)
    requires r !in replies && reply.client in clients && cl.refs == clients[reply.client].refs + 1
    ensures Counted(clients[reply.client := cl], jobs, replies[r := reply], registry)
  {
    assert Unfold(0);
    CountedFactsAddReply(clients, jobs, replies, registry, r, reply, cl);
  }

  lemma CountedSetClient(clients: map<ClientId, Client>, jobs: map<JobId, Job>, replies: map<ReplyId, Reply>,
                         registry: seq<ClientId>, c: ClientId, cl: Client)
    requires Counted(clients, jobs, replies, registry)
    requires c in clients && cl.refs == clients[c].refs
    ensures Counted(clients[c := cl], jobs, replies, registry)
  {
    assert Unfold(0);
  }

  lemma CountedSetJob(clients: map<ClientId, Client>, jobs: map<JobId, Job>, replies: map<ReplyId, Reply>,
                      registry: seq<ClientId>, j: JobId, job: Job)
    requires Counted(clients, jobs, replies, registry)
    requires j in jobs && job.client == jobs[j].client
    ensures Counted(clients, jobs[j := job], replies, registry)
  {
    assert Unfold(0);
    forall d ensures JobsOf(jobs[j := job], d) == JobsOf(jobs, d) {
    }
  }

  lemma KeysMinus<K, V>(m: map<K, V>, k: K)
    ensures (m - {k}).Keys == m.Keys - {k}
  {
  }
}
