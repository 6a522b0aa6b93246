/** What a run leaves behind: cancellation flags match the requests, completion replies the reports. */
module ServerHistory {
  import opened Common
  import opened Addresses
  import opened ServerState
  import opened ServerSteps
  import opened ServerInvariant
  import opened CountProofs
  import opened DescriptorProofs
  import opened LinkProofs
  import opened WorkerProofs
  import opened ReactorProofs
  import opened DispatchProofs
  import opened RetireProofs
  import opened StepForms
  import opened ServerTheorems

  // ---- the invariant ----

  /** As Unfold, for the parts below. */
  ghost predicate Told(k: int) { true }

  /** A job is flagged exactly if its client hung up or sent ABOR while pointing at it. */
  ghost predicate FlagExact(clients: map<ClientId, Client>, registry: seq<ClientId>, j: JobId, job: Job) {
    && job.generation == 1
    && (job.client in clients ==>
          (job.cancelled <==>
             job.client !in registry || (clients[job.client].job == Some(j) && clients[job.client].aborPending)))
  }

  ghost predicate Flagged(clients: map<ClientId, Client>, jobs: map<JobId, Job>, registry: seq<ClientId>) {
    forall k {:trigger Told(k)} :: Told(k) ==> forall j :: j in jobs ==> FlagExact(clients, registry, j, jobs[j])
  }

  function ReportOf(j: JobId, job: Job): Posting {
    Posting(j, job.result, job.op, job.connOk)
  }

  /** A job waiting for completion is as its worker reported it. */
  ghost predicate Reported(jobs: map<JobId, Job>, posted: seq<JobId>, batch: seq<JobId>, posts: seq<Posting>) {
    forall k {:trigger Told(k)} :: Told(k) ==>
      forall j :: j in jobs && (j in posted || j in batch) ==> ReportOf(j, jobs[j]) in posts
  }

  /** Only a copy can succeed without a data connection. */
  predicate Sound(p: Posting) {
    p.result.Success? ==> p.connected || p.op == Copy
  }

  /** No job is reported twice, and none that still waits for a worker or runs on one. */
  ghost predicate ReportedOnce(posts: seq<Posting>, next: nat, queue: seq<JobId>, ws: seq<Worker>) {
    forall k {:trigger Told(k)} :: Told(k) ==>
      && (forall p, q :: 0 <= p < q < |posts| ==> posts[p].job != posts[q].job)
      && (forall p :: 0 <= p < |posts| ==>
            posts[p].job < next && posts[p].job !in queue && !Runs(ws, posts[p].job) && Sound(posts[p]))
  }

  /** Jobs wait in the order in which they were dispatched. */
  ghost predicate InOrder(queue: seq<JobId>, next: nat) {
    forall k {:trigger Told(k)} :: Told(k) ==>
      (forall i, k :: 0 <= i < k < |queue| ==> queue[i] < queue[k]) && (forall i :: 0 <= i < |queue| ==> queue[i] < next)
  }

  ghost predicate Justified(posts: seq<Posting>, e: Event) {
    e.Final? ==>
      exists p :: 0 <= p < |posts| && posts[p].job == e.job &&
                  e.code == FinalCode(posts[p].op, posts[p].connected, posts[p].result)
  }

  /** Every completion reply comes from a report. */
  ghost predicate Answering(log: map<ClientId, seq<Event>>, posts: seq<Posting>) {
    forall k {:trigger Told(k)} :: Told(k) ==>
      forall c, i :: c in log && 0 <= i < |log[c]| ==> Justified(posts, log[c][i])
  }

  ghost predicate History(s: State) {
    && Flagged(s.clients, s.jobs, s.registry)
    && Reported(s.jobs, s.posted, JobBatch(s.phase), s.posts)
    && ReportedOnce(s.posts, s.next, s.queue, s.workers)
    && InOrder(s.queue, s.next)
    && Answering(s.log, s.posts)
  }

  lemma InitHistory(workers: nat, foreign: bool)
    ensures History(Init(workers, foreign))
  {
    assert Told(0);
  }

  // ---- carrying the parts over ----

  /** What flags depend on, for the jobs that are left. */
  ghost predicate SameFor(clients: map<ClientId, Client>, registry: seq<ClientId>,
                          clients': map<ClientId, Client>, registry': seq<ClientId>, c: ClientId) {
    c in clients' ==>
      && c in clients && clients'[c].job == clients[c].job && clients'[c].aborPending == clients[c].aborPending
      && (c in registry' <==> c in registry)
  }

  ghost predicate SameJobs(jobs: map<JobId, Job>, jobs': map<JobId, Job>) {
    forall j :: j in jobs' ==>
      j in jobs && jobs'[j].client == jobs[j].client && jobs'[j].generation == jobs[j].generation &&
      jobs'[j].cancelled == jobs[j].cancelled
  }

  lemma FlaggedSame(clients: map<ClientId, Client>, jobs: map<JobId, Job>, registry: seq<ClientId>,
                    clients': map<ClientId, Client>, jobs': map<JobId, Job>, registry': seq<ClientId>)
    requires Flagged(clients, jobs, registry) && SameJobs(jobs, jobs')
    requires forall j :: j in jobs' ==> SameFor(clients, registry, clients', registry', jobs'[j].client)
    ensures Flagged(clients', jobs', registry')
  {
    assert Told(0);
    forall j | j in jobs' ensures FlagExact(clients', registry', j, jobs'[j]) {
      assert FlagExact(clients, registry, j, jobs[j]);
    }
  }

  lemma ReportedSame(jobs: map<JobId, Job>, posted: seq<JobId>, batch: seq<JobId>, posts: seq<Posting>,
                     jobs': map<JobId, Job>, posted': seq<JobId>, batch': seq<JobId>)
    requires Reported(jobs, posted, batch, posts)
    requires forall j :: j in jobs' && (j in posted' || j in batch') ==>
               j in jobs && (j in posted || j in batch) && ReportOf(j, jobs'[j]) == ReportOf(j, jobs[j])
    ensures Reported(jobs', posted', batch', posts)
  {
    assert Told(0);
  }

  lemma OnceSame(posts: seq<Posting>, next: nat, queue: seq<JobId>, ws: seq<Worker>,
                 next': nat, queue': seq<JobId>, ws': seq<Worker>)
    requires ReportedOnce(posts, next, queue, ws) && next <= next'
    requires forall j :: j in queue' ==> j in queue || j >= next
    requires forall j :: Runs(ws', j) ==> Runs(ws, j) || j in queue
    ensures ReportedOnce(posts, next', queue', ws')
  {
    assert Told(0);
  }

  lemma OrderKept(queue: seq<JobId>, next: nat, next': nat)
    requires InOrder(queue, next) && next <= next'
    ensures InOrder(queue, next')
    ensures queue != [] ==> InOrder(queue[1..], next)
    ensures next < next' ==> InOrder(queue + [next], next')
  {
    assert Told(0);
  }

  lemma AnsweringWrote(log: map<ClientId, seq<Event>>, posts: seq<Posting>, c: ClientId, es: seq<Event>)
    requires Answering(log, posts) && forall i :: 0 <= i < |es| ==> Justified(posts, es[i])
    ensures Answering(Wrote(log, c, es), posts)
  {
    assert Told(0);
    var log' := Wrote(log, c, es);
    forall d, i | d in log' && 0 <= i < |log'[d]| ensures Justified(posts, log'[d][i]) {
      var was := if d in log then log[d] else [];
      if d == c && i >= |was| {
        assert log'[d][i] == es[i - |was|];
      } else {
        assert d in log && log'[d][i] == log[d][i];
      }
    }
  }

  lemma AnsweringMore(log: map<ClientId, seq<Event>>, posts: seq<Posting>, p: Posting)
    requires Answering(log, posts)
    ensures Answering(log, posts + [p])
  {
    assert Told(0);
    forall c, i | c in log && 0 <= i < |log[c]| ensures Justified(posts + [p], log[c][i]) {
      assert Justified(posts, log[c][i]);
      if log[c][i].Final? {
        var q :| 0 <= q < |posts| && posts[q].job == log[c][i].job &&
                 log[c][i].code == FinalCode(posts[q].op, posts[q].connected, posts[q].result);
        assert (posts + [p])[q] == posts[q];
      }
    }
  }

  lemma RunsSet(ws: seq<Worker>, w: nat, k: Worker)
    requires w < |ws|
    ensures forall j :: Runs(ws[w := k], j) ==> Runs(ws, j) || (!k.Idle? && k.job == j)
  {
    forall j | Runs(ws[w := k], j) ensures Runs(ws, j) || (!k.Idle? && k.job == j) {
      var i :| 0 <= i < |ws| && !ws[w := k][i].Idle? && ws[w := k][i].job == j;
      assert i != w ==> ws[i] == ws[w := k][i];
    }
  }

  /** Steps that touch jobs, reports and places not at all. */
  lemma Unmoved(s: State, t: State)
    requires History(s) && t.jobs == s.jobs && t.posted == s.posted && JobBatch(t.phase) == JobBatch(s.phase)
    requires t.posts == s.posts && t.queue == s.queue && t.workers == s.workers && s.next <= t.next
    requires forall j :: j in s.jobs ==> SameFor(s.clients, s.registry, t.clients, t.registry, s.jobs[j].client)
    requires Answering(t.log, s.posts)
    ensures History(t)
  {
    FlaggedSame(s.clients, s.jobs, s.registry, t.clients, t.jobs, t.registry);
    OnceSame(s.posts, s.next, s.queue, s.workers, t.next, t.queue, t.workers);
    OrderKept(s.queue, s.next, t.next);
  }

  // ---- connections ----

  lemma AcceptedHistory(s: State, cl: Client, fds: map<int, Owner>, polled: set<ClientId>)
    requires History(s) && s.next !in s.clients && s.next !in s.log
    requires forall j :: j in s.jobs ==> s.jobs[j].client in s.clients
    ensures History(s.(clients := s.clients[s.next := cl], next := s.next + 1, fds := fds,
                       registry := [s.next] + s.registry, polled := polled, log := s.log[s.next := [Line]]))
  {
    AnsweringWrote(s.log, s.posts, s.next, [Line]);
    assert Wrote(s.log, s.next, [Line]) == s.log[s.next := [Line]] by { assert [] + [Line] == [Line]; }
    Unmoved(s, s.(clients := s.clients[s.next := cl], next := s.next + 1, fds := fds,
                  registry := [s.next] + s.registry, polled := polled, log := s.log[s.next := [Line]]));
  }

  lemma AcceptHistory(s: State, fd: int, peer: Addr)
    requires Inv(s) && History(s) && FreshFd(s, fd)
    ensures ExecAccept(s, fd, peer, true).Ok? && History(ExecAccept(s, fd, peer, true).state)
  {
    NextFresh(s);
    JobClientsExist(s);
    AcceptForm(s, fd, peer);
    AcceptedHistory(s, NewClient(fd, peer), s.fds[fd := Control(s.next)], s.polled + {s.next});
  }

  lemma AcceptRefusedHistory(s: State, fd: int, peer: Addr)
    requires Inv(s) && History(s) && FreshFd(s, fd)
    ensures ExecAccept(s, fd, peer, false).Ok? && History(ExecAccept(s, fd, peer, false).state)
  {
    AcceptRefusedOk(s, fd, peer);
    Unmoved(s, s.(next := s.next + 1));
  }

  /** A registered client points at its one job, or has none. */
  lemma OneJob(s: State, c: ClientId, j: JobId)
    requires Inv(s) && c in s.registry && c in s.clients && Pending(s.phase).None?
    requires j in s.jobs && s.jobs[j].client == c && s.jobs[j].generation == 1
    ensures s.clients[c].job == Some(j)
  {
    assert Unfold(0);
  }

  lemma FlagOnly(jobs: map<JobId, Job>, which: Option<JobId>)
    ensures Flag(jobs, which).Keys == jobs.Keys
    ensures forall j :: j in jobs ==>
              Flag(jobs, which)[j] == if which == Some(j) then jobs[j].(cancelled := true) else jobs[j]
  {
  }

  lemma HangupFlagged(s: State, c: ClientId)
    requires Inv(s) && Flagged(s.clients, s.jobs, s.registry) && c in s.registry && c in s.clients
    requires Pending(s.phase).None?
    ensures Flagged(Drop(s.clients[c := HungUp(s.clients[c])], c), Flag(s.jobs, s.clients[c].job),
                    Without(s.registry, c))
  {
    var clients := Drop(s.clients[c := HungUp(s.clients[c])], c);
    var jobs := Flag(s.jobs, s.clients[c].job);
    var registry := Without(s.registry, c);
    WithoutFacts(s.registry, c);
    FlagOnly(s.jobs, s.clients[c].job);
    FlaggedFacts(s.clients, s.jobs, s.registry);
    forall j | j in jobs ensures FlagExact(clients, registry, j, jobs[j]) {
      assert FlagExact(s.clients, s.registry, j, s.jobs[j]);
      if s.jobs[j].client == c {
        OneJob(s, c, j);
      } else if s.clients[c].job == Some(j) {
        LiveJob(s, c);
      }
    }
  }

  lemma FlaggedFacts(clients: map<ClientId, Client>, jobs: map<JobId, Job>, registry: seq<ClientId>)
    requires Flagged(clients, jobs, registry)
    ensures forall j :: j in jobs ==> FlagExact(clients, registry, j, jobs[j])
  {
    assert Told(0);
  }

  lemma HungUpHistory(s: State, c: ClientId, fds: map<int, Owner>)
    requires Inv(s) && History(s) && c in s.registry && c in s.clients && Pending(s.phase).None?
    ensures History(s.(jobs := Flag(s.jobs, s.clients[c].job),
                       clients := Drop(s.clients[c := HungUp(s.clients[c])], c), registry := Without(s.registry, c),
                       polled := s.polled - {c}, fds := fds, log := Wrote(s.log, c, [Hangup])))
  {
    HangupFlagged(s, c);
    FlagOnly(s.jobs, s.clients[c].job);
    ReportedSame(s.jobs, s.posted, JobBatch(s.phase), s.posts, Flag(s.jobs, s.clients[c].job), s.posted, JobBatch(s.phase));
    AnsweringWrote(s.log, s.posts, c, [Hangup]);
  }

  lemma DisconnectHistory(s: State, c: ClientId)
    requires Inv(s) && History(s) && c in s.registry && Pending(s.phase).None?
    ensures Disconnect(s, c).Ok? && History(Disconnect(s, c).state)
  {
    DisconnectForm(s, c);
    HungUpHistory(s, c, s.fds - {s.clients[c].pasvFd} - {s.clients[c].fd});
  }

  /** Between commands, the phase holds nothing that the history speaks of. */
  lemma PhaseHistory(s: State, phase: Phase)
    requires History(s) && JobBatch(phase) == JobBatch(s.phase)
    ensures History(s.(phase := phase))
  {
  }

  lemma EndEventsHistory(s: State)
    requires Inv(s) && History(s) && s.phase.Events?
    ensures ExecEndEvents(s).Ok? && History(ExecEndEvents(s).state)
  {
    if s.phase.ready == [] {
      PhaseHistory(s, Waiting);
    } else {
      var c := s.phase.ready[0];
      ReadyHead(s);
      Live(s, c);
      NextReadyInv(s);
      var s1 := s.(phase := Events(s.phase.ready[1..]));
      PhaseHistory(s, Events(s.phase.ready[1..]));
      if s.clients[c].disconnectRequested {
        DisconnectHistory(s1, c);
      }
    }
  }

  // ---- worker output ----

  lemma DrainedHistory(s: State, c: ClientId, replies: map<ReplyId, Reply>, write: bool, batch: seq<ReplyId>)
    requires History(s) && c in s.clients && s.phase.Replies?
    ensures History(s.(clients := Drop(s.clients, c), replies := replies,
                       log := if write then Wrote(s.log, c, [Line]) else s.log, phase := Replies(batch)))
  {
    AnsweringWrote(s.log, s.posts, c, [Line]);
    Unmoved(s, s.(clients := Drop(s.clients, c), replies := replies,
                  log := if write then Wrote(s.log, c, [Line]) else s.log, phase := Replies(batch)));
  }

  lemma DrainReplyHistory(s: State)
    requires Inv(s) && History(s) && s.phase.Replies?
    ensures ExecDrainReply(s).Ok? && History(ExecDrainReply(s).state)
  {
    if s.phase.replyBatch == [] {
      PhaseHistory(s, Waiting);
    } else {
      DrainedForm(s);
      var r := s.phase.replyBatch[0];
      var c := s.replies[r].client;
      DrainedHistory(s, c, s.replies - {r}, s.clients[c].generation == s.replies[r].generation && c in s.registry,
                     s.phase.replyBatch[1..]);
    }
  }

  lemma TakeCompletionsHistory(s: State)
    requires History(s) && s.phase.Waiting?
    ensures History(s.(phase := Completions(s.posted), posted := []))
  {
    ReportedSame(s.jobs, s.posted, [], s.posts, s.jobs, [], s.posted);
  }

  /** Once the job is gone and nothing points at it, the flags of the others are as before. */
  lemma AnsweredFlagged(clients: map<ClientId, Client>, jobs: map<JobId, Job>, registry: seq<ClientId>,
                        c: ClientId, j: JobId)
    requires Flagged(clients, jobs, registry) && c in clients && clients[c].job == Some(j)
    ensures Flagged(Drop(clients[c := Answered(clients[c])], c), jobs - {j}, registry)
  {
    FlaggedFacts(clients, jobs, registry);
    var clients' := Drop(clients[c := Answered(clients[c])], c);
    forall i | i in jobs - {j} ensures FlagExact(clients', registry, i, jobs[i]) {
      assert FlagExact(clients, registry, i, jobs[i]);
    }
  }

  lemma DiscardedFlagged(clients: map<ClientId, Client>, jobs: map<JobId, Job>, registry: seq<ClientId>,
                         c: ClientId, j: JobId)
    requires Flagged(clients, jobs, registry) && c in clients
    ensures Flagged(Drop(clients, c), jobs - {j}, registry)
  {
    FlaggedSame(clients, jobs, registry, Drop(clients, c), jobs - {j}, registry);
  }

  /** The replies to a completed job are those its report calls for. */
  lemma AnswersJustified(s: State, j: JobId)
    requires Reported(s.jobs, s.posted, JobBatch(s.phase), s.posts)
    requires j in s.jobs && s.jobs[j].client in s.clients && j in JobBatch(s.phase)
    ensures forall i :: 0 <= i < |Answers(s, j)| ==> Justified(s.posts, Answers(s, j)[i])
  {
    assert Told(0);
    var p :| 0 <= p < |s.posts| && s.posts[p] == ReportOf(j, s.jobs[j]);
  }

  lemma CompletedHistory(s: State, j: JobId, clients: map<ClientId, Client>, log: map<ClientId, seq<Event>>,
                         fds: map<int, Owner>)
    requires History(s) && s.phase.Completions? && s.phase.jobBatch != [] && j == s.phase.jobBatch[0]
    requires Flagged(clients, s.jobs - {j}, s.registry) && Answering(log, s.posts)
    ensures History(s.(clients := clients, jobs := s.jobs - {j}, fds := fds, log := log,
                       phase := Completions(s.phase.jobBatch[1..])))
  {
    ReportedSame(s.jobs, s.posted, s.phase.jobBatch, s.posts, s.jobs - {j}, s.posted, s.phase.jobBatch[1..]);
  }

  lemma PointedAt(s: State, j: JobId)
    requires Inv(s) && Pending(s.phase).None? && j in s.jobs && s.jobs[j].client in s.clients
    requires s.jobs[j].generation == s.clients[s.jobs[j].client].generation
    ensures s.clients[s.jobs[j].client].job == Some(j)
  {
    assert Unfold(0);
  }

  lemma CompleteHistory(s: State)
    requires Inv(s) && History(s) && s.phase.Completions?
    ensures ExecComplete(s).Ok? && History(ExecComplete(s).state)
  {
    if s.phase.jobBatch == [] {
      PhaseHistory(s, Waiting);
    } else {
      CompletedForm(s);
      var j := s.phase.jobBatch[0];
      var c := s.jobs[j].client;
      var fds := s.fds - JobFds(s.jobs[j]);
      if s.jobs[j].generation == s.clients[c].generation {
        PointedAt(s, j);
        AnsweredFlagged(s.clients, s.jobs, s.registry, c, j);
        AnswersJustified(s, j);
        AnsweringWrote(s.log, s.posts, c, Answers(s, j));
        CompletedHistory(s, j, Drop(s.clients[c := Answered(s.clients[c])], c), Wrote(s.log, c, Answers(s, j)), fds);
      } else {
        DiscardedFlagged(s.clients, s.jobs, s.registry, c, j);
        CompletedHistory(s, j, Drop(s.clients, c), s.log, fds);
      }
    }
  }

  // ---- commands ----

  /** The client's own fields apart from its job, and lines that are not completion replies. */
  lemma UpdatedHistory(s: State, c: ClientId, cl: Client, fds: map<int, Owner>, next: nat, es: seq<Event>)
    requires History(s) && c in s.clients && cl.job == s.clients[c].job && cl.aborPending == s.clients[c].aborPending
    requires s.next <= next && forall i :: 0 <= i < |es| ==> !es[i].Final?
    ensures History(s.(clients := s.clients[c := cl], fds := fds, next := next, log := Wrote(s.log, c, es)))
  {
    AnsweringWrote(s.log, s.posts, c, es);
    Unmoved(s, s.(clients := s.clients[c := cl], fds := fds, next := next, log := Wrote(s.log, c, es)));
  }

  lemma AborFlagged(clients: map<ClientId, Client>, jobs: map<JobId, Job>, registry: seq<ClientId>, c: ClientId)
    requires Flagged(clients, jobs, registry) && c in clients && clients[c].job.Some?
    requires clients[c].job.value in jobs && jobs[clients[c].job.value].client == c
    ensures Flagged(clients[c := clients[c].(aborPending := true)], Flag(jobs, clients[c].job), registry)
  {
    FlaggedFacts(clients, jobs, registry);
    FlagOnly(jobs, clients[c].job);
    var clients' := clients[c := clients[c].(aborPending := true)];
    var jobs' := Flag(jobs, clients[c].job);
    forall j | j in jobs' ensures FlagExact(clients', registry, j, jobs'[j]) {
      assert FlagExact(clients, registry, j, jobs[j]);
    }
  }

  lemma AborHistory(s: State)
    requires Inv(s) && History(s) && s.phase.Events? && s.phase.ready != []
    ensures ExecHandle(s, Abor).Ok? && History(ExecHandle(s, Abor).state)
  {
    AborForm(s);
    var c := s.phase.ready[0];
    if s.clients[c].job.Some? {
      LiveJob(s, c);
      var jobs := Flag(s.jobs, s.clients[c].job);
      AborFlagged(s.clients, s.jobs, s.registry, c);
      FlagOnly(s.jobs, s.clients[c].job);
      ReportedSame(s.jobs, s.posted, JobBatch(s.phase), s.posts, jobs, s.posted, JobBatch(s.phase));
      AnsweringWrote(s.log, s.posts, c, [AborSeen]);
    } else {
      assert s.clients[c := s.clients[c]] == s.clients;
      UpdatedHistory(s, c, s.clients[c], s.fds, s.next, [AborSeen, AbortOk]);
    }
  }

  lemma LaunchedHistory(s: State, c: ClientId, cl: Client, job: Job, fds: map<int, Owner>, phase: Phase)
    requires Inv(s) && History(s) && c in s.clients && c in s.registry && s.next !in s.jobs
    requires cl.job == s.clients[c].job == None && cl.aborPending == s.clients[c].aborPending
    requires job.client == c && job.generation == 1 && !job.cancelled && JobBatch(phase) == JobBatch(s.phase)
    ensures History(s.(jobs := s.jobs[s.next := job], clients := s.clients[c := cl], next := s.next + 1, fds := fds,
                       queue := s.queue + [s.next], phase := phase))
  {
    LaunchedFlagged(s.clients, s.jobs, s.registry, c, cl, s.next, job);
    LaunchedReported(s, job);
    OnceSame(s.posts, s.next, s.queue, s.workers, s.next + 1, s.queue + [s.next], s.workers);
    OrderKept(s.queue, s.next, s.next + 1);
  }

  lemma LaunchedReported(s: State, job: Job)
    requires Inv(s) && Reported(s.jobs, s.posted, JobBatch(s.phase), s.posts) && s.next !in s.jobs
    ensures Reported(s.jobs[s.next := job], s.posted, JobBatch(s.phase), s.posts)
  {
    FinishedAllocated(s);
    ReportedSame(s.jobs, s.posted, JobBatch(s.phase), s.posts, s.jobs[s.next := job], s.posted, JobBatch(s.phase));
  }

  lemma FinishedAllocated(s: State)
    requires Inv(s)
    ensures forall j :: j in s.posted || j in JobBatch(s.phase) ==> j in s.jobs
  {
    assert Unfold(0);
  }

  lemma LaunchedFlagged(clients: map<ClientId, Client>, jobs: map<JobId, Job>, registry: seq<ClientId>,
                        c: ClientId, cl: Client, j: JobId, job: Job)
    requires Flagged(clients, jobs, registry) && c in clients && c in registry && j !in jobs
    requires cl.job == clients[c].job == None && cl.aborPending == clients[c].aborPending
    requires job.client == c && job.generation == 1 && !job.cancelled
    ensures Flagged(clients[c := cl], jobs[j := job], registry)
  {
    FlaggedFacts(clients, jobs, registry);
    var jobs' := jobs[j := job];
    forall i | i in jobs' ensures FlagExact(clients[c := cl], registry, i, jobs'[i]) {
      if i != j {
        assert FlagExact(clients, registry, i, jobs[i]);
      }
    }
  }

  lemma QueuedHistory(s: State, c: ClientId, op: JobOp, pipe: (int, int))
    requires Inv(s) && History(s) && s.phase.Events? && s.phase.ready != [] && c == s.phase.ready[0]
    requires c in s.clients && c in s.registry && s.clients[c].job.None?
    ensures History(Queued(s, c, op, pipe))
  {
    var cl := s.clients[c];
    NextFresh(s);
    GenerationOf(s, c);
    var job := JobFor(c, cl, op, pipe);
    assert job.client == c && job.generation == cl.generation && !job.cancelled;
    var now := ClientAfter(cl, op).(refs := cl.refs + 1);
    assert now.job == cl.job && now.aborPending == cl.aborPending;
    LaunchedHistory(s, c, now, job, FdsAfter(s.fds, cl, op, pipe, s.next), Dispatched(s.next, s.phase.ready));
  }

  lemma RefusedHistory(s: State, c: ClientId, op: JobOp)
    requires History(s) && c in s.clients
    ensures History(Refused(s, c, op))
  {
    var cl := s.clients[c];
    var now := ClientAfter(cl, op);
    assert now.job == cl.job && now.aborPending == cl.aborPending;
    UpdatedHistory(s, c, now, s.fds - {if op != Copy then cl.pasvFd else NO_FD}, s.next + 1, [Line]);
  }

  lemma LaunchHistory(s: State, op: JobOp, pipe: (int, int), r: Outcome)
    requires Inv(s) && History(s) && s.phase.Events? && s.phase.ready != [] && FreshPipe(s, Some(pipe))
    requires s.phase.ready[0] in s.clients && s.clients[s.phase.ready[0]].job.None?
    requires r == Launch(s, s.phase.ready[0], op, pipe)
    ensures r.Ok? && History(r.state)
  {
    var c := Served(s);
    LaunchForm(s, op, pipe);
    QueuedHistory(s, c, op, pipe);
    RefusedHistory(s, c, op);
  }

  lemma ReplyHistory(s: State)
    requires Inv(s) && History(s) && s.phase.Events? && s.phase.ready != []
    ensures Send(s, s.phase.ready[0], Line).Ok? && History(Send(s, s.phase.ready[0], Line).state)
  {
    var c := Served(s);
    SendForm(s, c, Line);
    assert s.clients[c := s.clients[c]] == s.clients;
    UpdatedHistory(s, c, s.clients[c], s.fds, s.next, [Line]);
  }

  lemma TransferHistory(s: State, op: JobOp, pipe: Option<(int, int)>)
    requires Inv(s) && History(s) && s.phase.Events? && s.phase.ready != [] && FreshPipe(s, pipe)
    requires s.phase.ready[0] in s.clients
    ensures ExecTransfer(s, s.phase.ready[0], op, pipe).Ok?
    ensures History(ExecTransfer(s, s.phase.ready[0], op, pipe).state)
  {
    ReplyHistory(s);
    var cl := s.clients[s.phase.ready[0]];
    if cl.job.None? && pipe.Some? {
      LaunchHistory(s, op, pipe.value, Launch(s, s.phase.ready[0], op, pipe.value));
    }
  }

  lemma CopyToHistory(s: State, valid: bool, pipe: Option<(int, int)>)
    requires Inv(s) && History(s) && s.phase.Events? && s.phase.ready != [] && FreshPipe(s, pipe)
    requires s.phase.ready[0] in s.clients
    ensures ExecCopyTo(s, s.phase.ready[0], valid, pipe).Ok?
    ensures History(ExecCopyTo(s, s.phase.ready[0], valid, pipe).state)
  {
    ReplyHistory(s);
    var cl := s.clients[s.phase.ready[0]];
    if cl.job.None? && pipe.Some? {
      LaunchHistory(s, Copy, pipe.value, Launch(s, s.phase.ready[0], Copy, pipe.value));
    }
  }

  lemma SetUpHistory(s: State, m: Command)
    requires Inv(s) && History(s) && s.phase.Events? && s.phase.ready != []
    requires CommandPossible(s, s.phase.ready[0], m)
    requires m.Passive? || m.PassiveFails? || m.ActiveTarget? || m.ActiveRejected?
    ensures ExecHandle(s, m).Ok? && History(ExecHandle(s, m).state)
  {
    var c := Served(s);
    var cl := s.clients[c];
    var fds := s.fds - {cl.pasvFd};
    if m.Passive? {
      PassiveForm(s, Some(m.fd));
      UpdatedHistory(s, c, cl.(pasvFd := m.fd, haveDataPeer := false), fds[m.fd := Listener(c)], s.next, [Line]);
    } else if m.PassiveFails? {
      PassiveForm(s, None);
      UpdatedHistory(s, c, cl.(pasvFd := NO_FD), fds, s.next, [Line]);
    } else if m.ActiveTarget? {
      ActiveForm(s, m.addr);
      UpdatedHistory(s, c, cl.(pasvFd := NO_FD, haveDataPeer := true, dataPeer := m.addr), fds, s.next, [Line]);
    } else {
      RejectedForm(s, m.addr);
      UpdatedHistory(s, c, cl.(dataPeer := m.addr), s.fds, s.next, [Line]);
    }
  }

  lemma LeaveHistory(s: State, c: ClientId)
    requires History(s) && c in s.clients
    ensures History(SetClient(s, c, s.clients[c].(disconnectRequested := true)))
  {
    Unmoved(s, SetClient(s, c, s.clients[c].(disconnectRequested := true)));
  }

  lemma HandleHistory(s: State, m: Command)
    requires Inv(s) && History(s) && s.phase.Events? && s.phase.ready != []
    requires CommandPossible(s, s.phase.ready[0], m)
    ensures ExecHandle(s, m).Ok? && History(ExecHandle(s, m).state)
  {
    var c := Served(s);
    match m {
      case Simple => ReplyHistory(s);
      case Abor => AborHistory(s);
      case Passive(_) => SetUpHistory(s, m);
      case PassiveFails => SetUpHistory(s, m);
      case ActiveTarget(_) => SetUpHistory(s, m);
      case ActiveRejected(_) => SetUpHistory(s, m);
      case Transfer(op, pipe) => TransferHistory(s, op, pipe);
      case CopyTo(valid, pipe) => CopyToHistory(s, valid, pipe);
      case Leave => LeaveHistory(s, c);
    }
  }

  /** A job that has just been dispatched is not flagged, and pointing at it changes that for no job. */
  lemma FinishFlagged(s: State, c: ClientId)
    requires Inv(s) && s.phase.Dispatched? && s.phase.rest != [] && c == s.phase.rest[0]
    requires Flagged(s.clients, s.jobs, s.registry) && c in s.clients && c in s.registry && s.clients[c].job.None?
    ensures Flagged(s.clients[c := s.clients[c].(job := Some(s.phase.newJob))], s.jobs, s.registry)
  {
    Live(s, c);
    FlaggedFacts(s.clients, s.jobs, s.registry);
    var clients := s.clients[c := s.clients[c].(job := Some(s.phase.newJob))];
    forall j | j in s.jobs ensures FlagExact(clients, s.registry, j, s.jobs[j]) {
      assert FlagExact(s.clients, s.registry, j, s.jobs[j]);
    }
  }

  lemma FinishHistory(s: State)
    requires Inv(s) && History(s) && s.phase.Dispatched? && s.phase.rest != []
    ensures ExecFinishDispatch(s).Ok? && History(ExecFinishDispatch(s).state)
  {
    DispatchEnds(s);
    StagedFacts(s);
    var c := s.phase.rest[0];
    var j := s.phase.newJob;
    FinishFlagged(s, c);
    AnsweringWrote(s.log, s.posts, c, [if s.jobs[j].op == Copy then CopyBegun(j) else Preliminary(j)]);
    assert JobBatch(Events(s.phase.rest)) == JobBatch(s.phase) == [];
  }

  // ---- workers ----

  lemma WorkerHistory(s: State, w: nat, k: Worker, queue: seq<JobId>)
    requires History(s) && w < |s.workers| && (forall j :: j in queue ==> j in s.queue)
    requires !k.Idle? ==> Runs(s.workers, k.job) || k.job in s.queue
    ensures ReportedOnce(s.posts, s.next, queue, s.workers[w := k])
  {
    RunsSet(s.workers, w, k);
    OnceSame(s.posts, s.next, s.queue, s.workers, s.next, queue, s.workers[w := k]);
  }

  lemma LineHistory(s: State, e: Step)
    requires Inv(s) && History(s) && Possible(s, e) && LineStep(e)
    ensures Exec(s, e).Ok? && History(Exec(s, e).state)
  {
    if e.Take? {
      WorkerHistory(s, e.w, Busy(s.queue[0]), s.queue[1..]);
      OrderKept(s.queue, s.next, s.next);
    } else {
      var j := s.workers[e.w].job;
      assert Runs(s.workers, j);
      JobAlive(s, e.w);
      if e.Stamp? {
        var c := s.jobs[j].client;
        WorkerHistory(s, e.w, Composing(j, s.clients[c].generation, c !in s.registry), s.queue);
      } else if e.Retain? {
        RetainHistory(s, e.w, j);
      } else {
        WorkerHistory(s, e.w, Busy(j), s.queue);
      }
    }
  }

  lemma RetainHistory(s: State, w: nat, j: JobId)
    requires History(s) && w < |s.workers| && s.workers[w].Composing? && s.workers[w].job == j
    requires j in s.jobs && s.jobs[j].client in s.clients
    ensures ExecRetain(s, w, j, s.workers[w].stamp, s.workers[w].late).Ok?
    ensures History(ExecRetain(s, w, j, s.workers[w].stamp, s.workers[w].late).state)
  {
    var c := s.jobs[j].client;
    var cl := s.clients[c].(refs := s.clients[c].refs + 1);
    RetainForm(s, w, j, s.workers[w].stamp, s.workers[w].late, c, cl);
    assert Runs(s.workers, j);
    RunsSet(s.workers, w, Holding(j, s.next));
    OnceSame(s.posts, s.next, s.queue, s.workers, s.next + 1, s.queue, s.workers[w := Holding(j, s.next)]);
    OrderKept(s.queue, s.next, s.next + 1);
    FlaggedSame(s.clients, s.jobs, s.registry, s.clients[c := cl], s.jobs, s.registry);
  }

  lemma SetJobHistory(s: State, j: JobId, job: Job)
    requires History(s) && j in s.jobs && j !in s.posted && j !in JobBatch(s.phase)
    requires job.client == s.jobs[j].client && job.generation == s.jobs[j].generation
    requires job.cancelled == s.jobs[j].cancelled
    ensures Flagged(s.clients, s.jobs[j := job], s.registry)
    ensures Reported(s.jobs[j := job], s.posted, JobBatch(s.phase), s.posts)
  {
    FlaggedSame(s.clients, s.jobs, s.registry, s.clients, s.jobs[j := job], s.registry);
    ReportedSame(s.jobs, s.posted, JobBatch(s.phase), s.posts, s.jobs[j := job], s.posted, JobBatch(s.phase));
  }

  lemma ConnectHistory(s: State, e: Step)
    requires Inv(s) && History(s) && Possible(s, e) && (e.AcceptData? || e.ConnectData?)
    ensures Exec(s, e).Ok? && History(Exec(s, e).state)
  {
    JobAlive(s, e.w);
    var j := s.workers[e.w].job;
    SetJobHistory(s, j, Exec(s, e).state.jobs[j]);
  }

  /** The report of a running job is the first of that job. */
  lemma PostOnce(s: State, w: nat, p: Posting)
    requires Inv(s) && ReportedOnce(s.posts, s.next, s.queue, s.workers) && WorkerRuns(s, w)
    requires p.job == s.workers[w].job && Sound(p)
    ensures ReportedOnce(s.posts + [p], s.next, s.queue, s.workers[w := Idle])
  {
    var j := p.job;
    assert Runs(s.workers, j);
    RunningPlace(s, w);
    RunsSet(s.workers, w, Idle);
    assert Told(0);
    var posts := s.posts + [p];
    forall a, b | 0 <= a < b < |posts| ensures posts[a].job != posts[b].job {
      assert posts[a] == s.posts[a];
      assert b < |s.posts| ==> posts[b] == s.posts[b];
    }
  }

  lemma RunningPlace(s: State, w: nat)
    requires Inv(s) && w < |s.workers| && !s.workers[w].Idle?
    ensures s.workers[w].job < s.next && s.workers[w].job !in s.queue
    ensures !Runs(s.workers[w := Idle], s.workers[w].job)
  {
    var j := s.workers[w].job;
    assert Runs(s.workers, j);
    JobAlive(s, w);
    JobIdBound(s, j);
    RunsAlone(s.jobs.Keys, s.queue, s.workers, s.posted, JobBatch(s.phase), w);
  }

  lemma RunsAlone(jobs: set<JobId>, queue: seq<JobId>, ws: seq<Worker>, posted: seq<JobId>, batch: seq<JobId>, w: nat)
    requires JobsPlaced(jobs, queue, ws, posted, batch) && w < |ws| && !ws[w].Idle?
    ensures ws[w].job !in queue && !Runs(ws[w := Idle], ws[w].job)
  {
    assert Runs(ws, ws[w].job);
    assert Unfold(0);
  }

  lemma PostReported(s: State, j: JobId, job: Job)
    requires Reported(s.jobs, s.posted, JobBatch(s.phase), s.posts) && j in s.jobs
    ensures Reported(s.jobs[j := job], [j] + s.posted, JobBatch(s.phase), s.posts + [ReportOf(j, job)])
  {
    assert Told(0);
    var posts := s.posts + [ReportOf(j, job)];
    assert posts[|s.posts|] == ReportOf(j, job);
    forall i | i in s.jobs && i != j && (i in s.posted || i in JobBatch(s.phase))
      ensures ReportOf(i, s.jobs[i]) in posts
    {
      assert ReportOf(i, s.jobs[i]) in s.posts;
    }
  }

  lemma PostHistory(s: State, w: nat, result: JobResult)
    requires Inv(s) && History(s) && Possible(s, Post(w, result))
    ensures var j := s.workers[w].job;
            ExecPost(Noted(s, j, result), w, j, result).Ok? &&
            History(ExecPost(Noted(s, j, result), w, j, result).state)
  {
    JobAlive(s, w);
    var j := s.workers[w].job;
    var job := s.jobs[j].(result := result);
    var p := ReportOf(j, job);
    PostOnce(s, w, p);
    PostReported(s, j, job);
    AnsweringMore(s.log, s.posts, p);
    FlaggedSame(s.clients, s.jobs, s.registry, s.clients, s.jobs[j := job], s.registry);
  }

  // ---- every step, every run ----

  lemma ReactorStepHistory(s: State, e: Step)
    requires Inv(s) && History(s) && Possible(s, e) && (ConnectionStep(e) || EventStep(e))
    ensures Exec(s, e).Ok? && History(Exec(s, e).state)
  {
    if e.Accept? {
      if e.polled {
        AcceptHistory(s, e.fd, e.peer);
      } else {
        AcceptRefusedHistory(s, e.fd, e.peer);
      }
    } else if e.EndEvents? {
      EndEventsHistory(s);
    } else if e.DropFirst? {
      DisconnectHistory(s, s.registry[0]);
    } else if e.Collect? {
      PhaseHistory(s, Events(e.users));
    } else if e.Handle? {
      HandleHistory(s, e.command);
    } else {
      FinishHistory(s);
    }
  }

  lemma DrainStepHistory(s: State, e: Step)
    requires Inv(s) && History(s) && Possible(s, e) && DrainStep(e)
    ensures Exec(s, e).Ok? && History(Exec(s, e).state)
  {
    if e.TakeReplies? {
      PhaseHistory(s, Replies(s.fifo));
    } else if e.DrainReply? {
      DrainReplyHistory(s);
    } else if e.TakeCompletions? {
      TakeCompletionsHistory(s);
    } else if e.Complete? {
      CompleteHistory(s);
    } else {
      SnapshotOk(s);
    }
  }

  lemma StepHistory(s: State, e: Step)
    requires Inv(s) && History(s) && Possible(s, e)
    ensures Exec(s, e).Ok? && History(Exec(s, e).state)
  {
    if ConnectionStep(e) || EventStep(e) {
      ReactorStepHistory(s, e);
    } else if DrainStep(e) {
      DrainStepHistory(s, e);
    } else if LineStep(e) {
      LineHistory(s, e);
    } else if e.Post? {
      PostHistory(s, e.w, e.result);
    } else {
      ConnectHistory(s, e);
    }
  }

  lemma {:induction false} RunHistory(s: State, run: seq<Step>)
    requires Inv(s) && History(s) && Feasible(s, run)
    ensures Execute(s, run).Ok? && History(Execute(s, run).state)
    decreases |run|
  {
    if run != [] {
      StepSafe(s, run[0]);
      StepHistory(s, run[0]);
      RunHistory(Exec(s, run[0]).state, run[1..]);
    }
  }

  lemma ReachableHistory(s: State)
    requires Reachable(s)
    ensures History(s)
  {
    var workers: nat, foreign: bool, run: seq<Step> :|
      Feasible(Init(workers, foreign), run) && Execute(Init(workers, foreign), run) == Ok(s);
    InitInv(workers, foreign);
    InitHistory(workers, foreign);
    RunHistory(Init(workers, foreign), run);
  }
}
