/** What every reachable server state satisfies. */
module ServerInvariant {
  import opened Common
  import opened Addresses
  import opened ServerState

  // ---- views of the containers ----

  function JobBatch(p: Phase): seq<JobId> {
    if p.Completions? then p.jobBatch else []
  }

  function ReplyBatch(p: Phase): seq<ReplyId> {
    if p.Replies? then p.replyBatch else []
  }

  function Ready(p: Phase): seq<ClientId> {
    match p
    case Events(ready) => ready
    case Dispatched(_, rest) => rest
    case Waiting => []
    case Replies(_) => []
    case Completions(_) => []
  }

  ghost predicate Runs(ws: seq<Worker>, j: JobId) {
    exists i :: 0 <= i < |ws| && !ws[i].Idle? && ws[i].job == j
  }

  ghost predicate Carries(ws: seq<Worker>, r: ReplyId) {
    exists i :: 0 <= i < |ws| && ws[i].Holding? && ws[i].reply == r
  }

  function JobsOf(jobs: map<JobId, Job>, c: ClientId): set<JobId> {
    set j | j in jobs && jobs[j].client == c
  }

  function RepliesOf(replies: map<ReplyId, Reply>, c: ClientId): set<ReplyId> {
    set r | r in replies && replies[r].client == c
  }

  /** The references that exist to `c`: the registry's, one per job, one per pending reply. */
  function Holders(registry: seq<ClientId>, jobs: map<JobId, Job>, replies: map<ReplyId, Reply>, c: ClientId): nat {
    (if c in registry then 1 else 0) + |JobsOf(jobs, c)| + |RepliesOf(replies, c)|
  }

  function Pending(p: Phase): Option<JobId> {
    if p.Dispatched? then Some(p.newJob) else None
  }

  // ---- the reply protocol of one control connection ----

  datatype Dialogue = Quiet | Active(job: JobId, aborted: bool) | OwesAbortOk | Gone | Broken

  /** Section 4.1.3 of RFC 959 as the server implements it: a transfer is opened, then closed by one
      completion reply; ABOR earns one more 226, after the completion reply if a transfer is
      active and at once otherwise; nothing follows the hang-up. */
  function Advance(d: Dialogue, e: Event): Dialogue {
    if d == Gone || d == Broken then Broken
    else if e == Hangup then (if d == OwesAbortOk then Broken else Gone)
    else
      match d
      case Quiet =>
        (match e
         case Line => Quiet
         case Preliminary(j) => Active(j, false)
         case CopyBegun(j) => Active(j, false)
         case AborSeen => OwesAbortOk
         case _ => Broken)
      case Active(j, a) =>
        (match e
         case Line => d
         case AborSeen => Active(j, true)
         case Final(k, _) => if k != j then Broken else if a then OwesAbortOk else Quiet
         case _ => Broken)
      case OwesAbortOk => if e == AbortOk then Quiet else Broken
      case Gone => Broken
      case Broken => Broken
  }

  function Follow(log: seq<Event>): Dialogue {
    if log == [] then Quiet else Advance(Follow(log[..|log| - 1]), log[|log| - 1])
  }

  /** Where the dialogue of `c` must stand, given the client's fields. */
  function Expected(clients: map<ClientId, Client>, registry: seq<ClientId>, c: ClientId): Dialogue {
    if c !in registry || c !in clients then Gone
    else if clients[c].job.Some? then Active(clients[c].job.value, clients[c].aborPending)
    else Quiet
  }

  // ---- the invariant, each part over just the fields it speaks of ----

  ghost predicate Ids(clients: map<ClientId, Client>, jobs: map<JobId, Job>, replies: map<ReplyId, Reply>,
                      log: map<ClientId, seq<Event>>, next: nat) {
    forall k {:trigger Unfold(k)} :: Unfold(k) ==>
      && (forall c :: c in clients ==> c < next)
      && (forall j :: j in jobs ==> j < next)
      && (forall r :: r in replies ==> r < next)
      && (forall c :: c in log ==> c < next)
  }

  /** A client is registered exactly while its control descriptor is open and its generation is the
      first, and the ready list the reactor is working through names registered clients only. */
  ghost predicate Registered(clients: map<ClientId, Client>, registry: seq<ClientId>, ready: seq<ClientId>) {
    forall k {:trigger Unfold(k)} :: Unfold(k) ==>
      && NoDup(registry)
      && (forall c :: c in registry ==> c in clients && clients[c].fd >= 0 && clients[c].generation == 1)
      && (forall c :: c in clients && c !in registry ==>
            clients[c].fd < 0 && clients[c].pasvFd < 0 && clients[c].job.None? && clients[c].generation == 2)
      && NoDup(ready)
      && (forall c :: c in ready ==> c in registry)
  }

  ghost predicate CountedFacts(clients: map<ClientId, Client>, jobs: map<JobId, Job>, replies: map<ReplyId, Reply>,
                               registry: seq<ClientId>) {
    && (forall c :: c in clients ==>
          clients[c].refs == Holders(registry, jobs, replies, c) && clients[c].refs > 0)
    && (forall j :: j in jobs ==> jobs[j].client in clients)
    && (forall r :: r in replies ==> replies[r].client in clients)
  }

  ghost predicate Counted(clients: map<ClientId, Client>, jobs: map<JobId, Job>, replies: map<ReplyId, Reply>,
                          registry: seq<ClientId>) {
    forall k {:trigger Unfold(k)} :: Unfold(k) ==> CountedFacts(clients, jobs, replies, registry)
  }

  /** Every allocated job is in exactly one container. */
  ghost predicate JobsPlaced(jobs: set<JobId>, queue: seq<JobId>, ws: seq<Worker>, posted: seq<JobId>,
                             batch: seq<JobId>) {
    forall k {:trigger Unfold(k)} :: Unfold(k) ==>
      && NoDup(queue) && NoDup(posted) && NoDup(batch) && |queue| <= 2 * |ws|
      && (forall i, k :: 0 <= i < k < |ws| && !ws[i].Idle? && !ws[k].Idle? ==> ws[i].job != ws[k].job)
      && (forall j :: j in jobs <==> j in queue || Runs(ws, j) || j in posted || j in batch)
      && (forall j :: j in queue ==> !Runs(ws, j) && j !in posted && j !in batch)
      && (forall j :: j in posted ==> !Runs(ws, j) && j !in batch)
      && (forall j :: j in batch ==> !Runs(ws, j))
  }

  /** Every allocated reply is in exactly one container. */
  ghost predicate RepliesPlaced(replies: set<ReplyId>, ws: seq<Worker>, fifo: seq<ReplyId>, batch: seq<ReplyId>) {
    forall k {:trigger Unfold(k)} :: Unfold(k) ==>
      && NoDup(fifo) && NoDup(batch)
      && (forall i, k :: 0 <= i < k < |ws| && ws[i].Holding? && ws[k].Holding? ==> ws[i].reply != ws[k].reply)
      && (forall r :: r in replies <==> Carries(ws, r) || r in fifo || r in batch)
      && (forall r :: r in fifo ==> !Carries(ws, r) && r !in batch)
      && (forall r :: r in batch ==> !Carries(ws, r))
  }

  /** A job carries its client's current generation exactly when the client points at it (or is
      about to: `pending`), and only registered clients point at jobs. */
  ghost predicate Pointed(clients: map<ClientId, Client>, jobs: map<JobId, Job>, registry: seq<ClientId>,
                          pending: Option<JobId>) {
    forall k {:trigger Unfold(k)} :: Unfold(k) ==>
      && (forall c :: c in clients && clients[c].job.Some? ==>
            var j := clients[c].job.value;
            j in jobs && jobs[j].client == c && jobs[j].generation == clients[c].generation)
      && (forall j :: j in jobs && jobs[j].client in clients ==>
            var c := jobs[j].client;
            && jobs[j].generation <= clients[c].generation
            && (jobs[j].generation == clients[c].generation ==>
                  c in registry && (clients[c].job == Some(j) || pending == Some(j))))
      && (pending.Some? ==>
            && pending.value in jobs
            && var c := jobs[pending.value].client;
               c in clients ==> clients[c].job.None? && jobs[pending.value].generation == clients[c].generation)
      && (forall c :: c in clients && c in registry && clients[c].job.None? ==> !clients[c].aborPending)
  }

  /** Between dispatch and the preliminary reply the reactor is serving the job's own client. */
  ghost predicate Staged(p: Phase, jobs: map<JobId, Job>) {
    p.Dispatched? ==> p.rest != [] && p.newJob in jobs && jobs[p.newJob].client == p.rest[0]
  }

  /** The descriptor the given owner believes it holds. */
  function Slot(clients: map<ClientId, Client>, jobs: map<JobId, Job>, o: Owner): int {
    match o
    case Control(c) => if c in clients then clients[c].fd else NO_FD
    case Listener(c) => if c in clients then clients[c].pasvFd else NO_FD
    case JobListener(j) => if j in jobs then jobs[j].pasvFd else NO_FD
    case JobData(j) => if j in jobs then jobs[j].dataFd else NO_FD
    case PipeReader(j) => if j in jobs then jobs[j].pipeRead else NO_FD
    case PipeWriter(j) => if j in jobs then jobs[j].pipeWrite else NO_FD
  }

  ghost predicate Backed(fds: map<int, Owner>, fd: int, o: Owner) {
    fd >= 0 ==> fd in fds && fds[fd] == o
  }

  ghost predicate ClientBacked(cl: Client, c: ClientId, fds: map<int, Owner>) {
    Backed(fds, cl.fd, Control(c)) && Backed(fds, cl.pasvFd, Listener(c))
  }

  ghost predicate JobBacked(job: Job, j: JobId, fds: map<int, Owner>) {
    && job.pipeRead >= 0 && job.pipeWrite >= 0
    && Backed(fds, job.pasvFd, JobListener(j)) && Backed(fds, job.dataFd, JobData(j))
    && Backed(fds, job.pipeRead, PipeReader(j)) && Backed(fds, job.pipeWrite, PipeWriter(j))
  }

  /** The open descriptors are exactly the held ones, each held once. */
  ghost predicate OwnedFacts(clients: map<ClientId, Client>, jobs: map<JobId, Job>, fds: map<int, Owner>) {
    && (forall fd {:trigger fd in fds} :: fd in fds ==> fd >= 0 && Slot(clients, jobs, fds[fd]) == fd)
    && (forall c :: c in clients ==> ClientBacked(clients[c], c, fds))
    && (forall j :: j in jobs ==> JobBacked(jobs[j], j, fds))
  }

  ghost predicate Owned(clients: map<ClientId, Client>, jobs: map<JobId, Job>, fds: map<int, Owner>) {
    forall k {:trigger Unfold(k)} :: Unfold(k) ==> OwnedFacts(clients, jobs, fds)
  }

  /** A finished job without a data connection has failed, unless it is a copy. */
  ghost predicate Explained(jobs: map<JobId, Job>, posted: seq<JobId>, batch: seq<JobId>) {
    forall k {:trigger Unfold(k)} :: Unfold(k) ==>
      forall j :: j in jobs && (j in posted || j in batch) && jobs[j].result.Success? ==>
        jobs[j].connOk || jobs[j].op == Copy
  }

  ghost predicate JobPeer(clients: map<ClientId, Client>, foreign: bool, job: Job) {
    && !(job.pasvFd >= 0 && job.haveDataPeer)
    && (job.client in clients ==> job.ctlPeer == clients[job.client].peer)
    && (!foreign && job.haveDataPeer ==> AddrEq(job.ctlPeer, job.dataPeer))
    && (job.connOk ==> job.endpoint.Some?)
    && (!foreign && job.connOk ==>
          AddrEq(job.ctlPeer, job.endpoint.value) || AddrEq(job.endpoint.value, job.ctlPeer))
  }

  /** One data-channel set-up at a time, and no data connection to a stranger. */
  ghost predicate Peers(clients: map<ClientId, Client>, jobs: map<JobId, Job>, foreign: bool) {
    forall k {:trigger Unfold(k)} :: Unfold(k) ==>
      && (forall c :: c in clients ==> !(clients[c].pasvFd >= 0 && clients[c].haveDataPeer))
      && (forall j :: j in jobs ==> JobPeer(clients, foreign, jobs[j]))
  }

  /** What each control connection has seen obeys the dialogue. */
  ghost predicate Logged(clients: map<ClientId, Client>, registry: seq<ClientId>, log: map<ClientId, seq<Event>>) {
    forall k {:trigger Unfold(k)} :: Unfold(k) ==>
      && (forall c :: c in registry ==> c in log)
      && (forall c :: c in log ==> Follow(log[c]) == Expected(clients, registry, c))
  }

  predicate Opens(e: Event, j: JobId) {
    e == Preliminary(j) || e == CopyBegun(j)
  }

  /** How often a dialogue opens job j. */
  function Openings(log: seq<Event>, j: JobId): nat {
    if log == [] then 0 else Openings(log[..|log| - 1], j) + if Opens(log[|log| - 1], j) then 1 else 0
  }

  /** No job is opened twice, and the one about to be opened has not been. */
  ghost predicate OpensOnce(log: seq<Event>, next: nat, pending: Option<JobId>) {
    forall j: JobId ::
      Openings(log, j) <= 1 && (Openings(log, j) == 1 ==> j < next && pending != Some(j))
  }

  ghost predicate Started(log: map<ClientId, seq<Event>>, next: nat, pending: Option<JobId>) {
    forall k {:trigger Unfold(k)} :: Unfold(k) ==>
      forall c :: c in log ==> OpensOnce(log[c], next, pending)
  }

  /** The poll set points at the registered clients. */
  ghost predicate Watched(polled: set<ClientId>, registry: seq<ClientId>) {
    forall k {:trigger Unfold(k)} :: Unfold(k) ==> forall c :: c in polled <==> c in registry
  }

  function StampOf(late: bool): nat {
    if late then 2 else 1
  }

  /** Stamps tell whether they were taken before or after the hang-up. */
  ghost predicate Stamped(replies: map<ReplyId, Reply>, ws: seq<Worker>) {
    forall k {:trigger Unfold(k)} :: Unfold(k) ==>
      && (forall r :: r in replies ==> replies[r].generation == StampOf(replies[r].late))
      && (forall i :: 0 <= i < |ws| && ws[i].Composing? ==> ws[i].stamp == StampOf(ws[i].late))
  }

  /** Who holds what. */
  ghost predicate Held(s: State) {
    && Ids(s.clients, s.jobs, s.replies, s.log, s.next)
    && Registered(s.clients, s.registry, Ready(s.phase))
    && Counted(s.clients, s.jobs, s.replies, s.registry)
    && JobsPlaced(s.jobs.Keys, s.queue, s.workers, s.posted, JobBatch(s.phase))
    && RepliesPlaced(s.replies.Keys, s.workers, s.fifo, ReplyBatch(s.phase))
    && Pointed(s.clients, s.jobs, s.registry, Pending(s.phase))
    && Staged(s.phase, s.jobs)
  }

  /** What was done with it. */
  ghost predicate Kept(s: State) {
    && Owned(s.clients, s.jobs, s.fds)
    && Explained(s.jobs, s.posted, JobBatch(s.phase))
    && Peers(s.clients, s.jobs, s.allowForeignPort)
    && Logged(s.clients, s.registry, s.log)
    && Started(s.log, s.next, Pending(s.phase))
    && Watched(s.polled, s.registry)
    && Stamped(s.replies, s.workers)
  }

  ghost predicate Inv(s: State) {
    Held(s) && Kept(s)
  }

  /** Nothing allocated, nothing open, every worker idle. */
  ghost predicate Empty(s: State) {
    && s.clients == map[] && s.jobs == map[] && s.replies == map[] && s.fds == map[] && s.log == map[]
    && s.registry == [] && s.polled == {} && s.queue == [] && s.posted == [] && s.fifo == [] && s.phase == Waiting
    && (forall w :: w in s.workers ==> w.Idle?)
  }

  lemma EmptyPlaced(s: State)
    requires Empty(s)
    ensures JobsPlaced(s.jobs.Keys, s.queue, s.workers, s.posted, JobBatch(s.phase))
    ensures RepliesPlaced(s.replies.Keys, s.workers, s.fifo, ReplyBatch(s.phase))
  {
    assert forall i :: 0 <= i < |s.workers| ==> s.workers[i] in s.workers;
    assert forall j :: !Runs(s.workers, j);
    assert forall r :: !Carries(s.workers, r);
    assert s.jobs.Keys == {} && s.replies.Keys == {};
  }

  lemma EmptyLinked(s: State)
    requires Empty(s)
    ensures Registered(s.clients, s.registry, Ready(s.phase))
    ensures Pointed(s.clients, s.jobs, s.registry, Pending(s.phase))
    ensures Counted(s.clients, s.jobs, s.replies, s.registry)
    ensures Logged(s.clients, s.registry, s.log) && Started(s.log, s.next, Pending(s.phase))
    ensures Watched(s.polled, s.registry) && Stamped(s.replies, s.workers)
  {
    assert forall i :: 0 <= i < |s.workers| ==> s.workers[i] in s.workers;
  }

  lemma EmptyOwned(s: State)
    requires Empty(s)
    ensures Owned(s.clients, s.jobs, s.fds)
    ensures Peers(s.clients, s.jobs, s.allowForeignPort)
    ensures Ids(s.clients, s.jobs, s.replies, s.log, s.next)
  {
  }

  lemma InitInv(workers: nat, allowForeignPort: bool)
    ensures Inv(Init(workers, allowForeignPort))
  {
    var s := Init(workers, allowForeignPort);
    EmptyPlaced(s);
    EmptyLinked(s);
    EmptyOwned(s);
  }
}
