/**
 Every step the reactor and the workers can take, at the grain of what other threads can observe:
 a lock-protected section or one read of shared memory is one step. System outcomes (which
 descriptor number is handed out, who connects, whether a call fails) are parameters of the step.
 */
module ServerSteps {
  import opened Common
  import opened Addresses
  import opened ServerState

  /** What one control line, or one out-of-band byte, asks of the head of the ready list. */
  datatype Command =
    | Simple                                   // handlers that only reply
    | Abor
    | Passive(fd: int)                         // PASV, EPSV: a listener was bound
    | PassiveFails                             // no listener: the previous one is gone all the same
    | ActiveTarget(addr: Addr)                 // PORT, EPRT
    | ActiveRejected(addr: Addr)               // EPRT whose address does not parse
    | Transfer(op: JobOp, pipe: Option<(int, int)>)
    | CopyTo(valid: bool, pipe: Option<(int, int)>)
    | Leave                                    // QUIT, end of stream, read error

  datatype Step =
    // reactor
    | Accept(fd: int, peer: Addr, polled: bool)
    | TakeReplies
    | DrainReply
    | TakeCompletions
    | Complete
    | Snapshot
    | Collect(users: seq<ClientId>)
    | Handle(command: Command)
    | FinishDispatch
    | EndEvents
    | DropFirst
    // worker w
    | Take(w: nat)
    | AcceptData(w: nat, fd: int, from: Addr)
    | ConnectData(w: nat, fd: int, established: bool)
    | Stamp(w: nat)
    | Retain(w: nat)
    | Push(w: nat)
    | Post(w: nat, result: JobResult)

  predicate FreshFd(s: State, fd: int) {
    fd >= 0 && fd !in s.fds
  }

  predicate FreshPipe(s: State, pipe: Option<(int, int)>) {
    pipe.Some? ==>
      FreshFd(s, pipe.value.0) && FreshFd(s, pipe.value.1) && pipe.value.0 != pipe.value.1
  }

  /** For client c. The old listener is closed before the new one is made, so its number may come
      back. */
  predicate CommandPossible(s: State, c: ClientId, m: Command) {
    match m
    case Passive(fd) => FreshFd(s, fd) || (fd >= 0 && c in s.clients && fd == s.clients[c].pasvFd)
    case Transfer(op, pipe) => op != Copy && FreshPipe(s, pipe)
    case CopyTo(_, pipe) => FreshPipe(s, pipe)
    case _ => true
  }

  predicate WorkerRuns(s: State, w: nat) {
    w < |s.workers| && s.workers[w].Busy?
  }

  /** Control flow only: the thread stands at that point and the system may answer so. Nothing here
      assumes that what a pointer points at is still allocated. */
  predicate Possible(s: State, e: Step) {
    match e
    case Accept(fd, peer, _) => (s.phase.Waiting? || s.phase.Events?) && FreshFd(s, fd) && WellFormed(peer)
    case TakeReplies => s.phase.Waiting?
    case DrainReply => s.phase.Replies?
    case TakeCompletions => s.phase.Waiting?
    case Complete => s.phase.Completions?
    case Snapshot => s.phase.Waiting?
    case Collect(users) => s.phase.Waiting? && Elems(users) <= s.polled && |Elems(users)| == |users|
    case Handle(m) => s.phase.Events? && s.phase.ready != [] && CommandPossible(s, s.phase.ready[0], m)
    case FinishDispatch => s.phase.Dispatched? && s.phase.rest != []
    case EndEvents => s.phase.Events?
    case DropFirst => s.phase.Waiting? && s.registry != []
    case Take(w) => w < |s.workers| && s.workers[w].Idle? && s.queue != []
    case AcceptData(w, fd, from) =>
      WorkerRuns(s, w) && FreshFd(s, fd) && WellFormed(from) &&
      (s.workers[w].job in s.jobs ==>
        var job := s.jobs[s.workers[w].job];
        job.op != Copy && job.pasvFd >= 0 && job.dataFd < 0)
    case ConnectData(w, fd, _) =>
      WorkerRuns(s, w) && FreshFd(s, fd) &&
      (s.workers[w].job in s.jobs ==>
        var job := s.jobs[s.workers[w].job];
        job.op != Copy && job.pasvFd < 0 && job.haveDataPeer && job.dataFd < 0)
    case Stamp(w) => WorkerRuns(s, w)
    case Retain(w) => w < |s.workers| && s.workers[w].Composing?
    case Push(w) => w < |s.workers| && s.workers[w].Holding?
    case Post(w, result) =>
      // opftp_transfer_run fails unless the data connection was made, or none is needed
      WorkerRuns(s, w) &&
      (s.workers[w].job in s.jobs && result.Success? ==>
        s.jobs[s.workers[w].job].connOk || s.jobs[s.workers[w].job].op == Copy)
  }

  // ---- reactor: connections ----

  function NewClient(fd: int, peer: Addr): Client {
    Client(1, 1, fd, peer, None, false, NO_FD, false, OtherFamily(0), false)
  }

  function ExecAccept(s: State, fd: int, peer: Addr, polled: bool): Outcome {
    var c := s.next;
    var s1 := SetClient(s, c, NewClient(fd, peer)).(next := s.next + 1, fds := s.fds[fd := Control(c)]);
    if polled then
      Send(s1.(registry := [c] + s1.registry, polled := s1.polled + {c}), c, Line)
    else
      var s2 :- Close(s1, fd, Control(c));
      Release(SetClient(s2, c, s2.clients[c].(fd := NO_FD)), c)
  }

  /** client_disconnect. */
  function Disconnect(s: State, c: ClientId): Outcome {
    if c !in s.clients then Crash(UseAfterFree)
    else
      var s1 :- if s.clients[c].job.Some? then Cancel(s, s.clients[c].job.value) else Ok(s);
      var s2 :- Close(s1, s.clients[c].pasvFd, Listener(c));
      var s3 :- Close(s2, s.clients[c].fd, Control(c));
      var cl := s.clients[c].(job := None, generation := s.clients[c].generation + 1,
                              pasvFd := NO_FD, fd := NO_FD);
      var s4 := Record(SetClient(s3, c, cl), c, Hangup);
      Release(s4.(registry := Without(s4.registry, c), polled := s4.polled - {c}), c)
  }

  /** The end of handle_client_events for the client at the head. */
  function ExecEndEvents(s: State): Outcome
    requires s.phase.Events?
  {
    if s.phase.ready == [] then
      Ok(s.(phase := Waiting))
    else
      var c := s.phase.ready[0];
      var s1 := s.(phase := Events(s.phase.ready[1..]));
      if c !in s.clients then Crash(UseAfterFree)
      else if s.clients[c].disconnectRequested then Disconnect(s1, c)
      else Ok(s1)
  }

  // ---- reactor: worker output ----

  function ExecDrainReply(s: State): Outcome
    requires s.phase.Replies?
  {
    if s.phase.replyBatch == [] then
      Ok(s.(phase := Waiting))
    else
      var r := s.phase.replyBatch[0];
      if r !in s.replies then Crash(UseAfterFree)
      else
        var c := s.replies[r].client;
        if c !in s.clients then Crash(UseAfterFree)
        else
          var s1 :- if s.clients[c].generation == s.replies[r].generation then Send(s, c, Line) else Ok(s);
          var s2 :- Release(s1, c);
          Ok(s2.(replies := s2.replies - {r}, phase := Replies(s.phase.replyBatch[1..])))
  }

  /** The descriptors a finished or refused job still holds. */
  function CloseJobFds(s: State, j: JobId): Outcome {
    if j !in s.jobs then Crash(UseAfterFree)
    else
      var job := s.jobs[j];
      var s1 :- Close(s, job.dataFd, JobData(j));
      var s2 :- Close(s1, job.pasvFd, JobListener(j));
      var s3 :- Close(s2, job.pipeRead, PipeReader(j));
      Close(s3, job.pipeWrite, PipeWriter(j))
  }

  /** Replies of a completion whose client is still the one that started it. */
  function Answer(s: State, j: JobId): Outcome {
    if j !in s.jobs || s.jobs[j].client !in s.clients then Crash(UseAfterFree)
    else
      var job := s.jobs[j];
      var c := job.client;
      var s1 := SetClient(s, c, s.clients[c].(job := None));
      var s2 :- Send(s1, c, Final(j, FinalCode(job.op, job.connOk, job.result)));
      if s2.clients[c].aborPending then
        var s3 :- Send(s2, c, AbortOk);
        Ok(SetClient(s3, c, s3.clients[c].(aborPending := false)))
      else
        Ok(s2)
  }

  /** opftp_datachan_complete on the head of the detached stack. */
  function ExecComplete(s: State): Outcome
    requires s.phase.Completions?
  {
    if s.phase.jobBatch == [] then
      Ok(s.(phase := Waiting))
    else
      var j := s.phase.jobBatch[0];
      var s1 :- CloseJobFds(s, j);
      var job := s.jobs[j];
      if job.client !in s1.clients then Crash(UseAfterFree)
      else
        var s2 :- if job.generation == s1.clients[job.client].generation then Answer(s1, j) else Ok(s1);
        var s3 :- Release(s2, job.client);
        Ok(s3.(jobs := s3.jobs - {j}, phase := Completions(s.phase.jobBatch[1..])))
  }

  predicate SnapshotReads(s: State, c: ClientId) {
    c in s.clients && (s.clients[c].job.Some? ==> s.clients[c].job.value in s.jobs)
  }

  /** snapshot_refresh walks the registry and follows every job pointer. */
  function ExecSnapshot(s: State): Outcome {
    if forall c :: c in s.registry ==> SnapshotReads(s, c) then Ok(s) else Crash(UseAfterFree)
  }

  // ---- reactor: commands of client c ----

  function ExecAbor(s: State, c: ClientId): Outcome
    requires c in s.clients
  {
    if s.clients[c].job.Some? then
      var s1 :- Cancel(s, s.clients[c].job.value);
      Ok(Record(SetClient(s1, c, s.clients[c].(aborPending := true)), c, AborSeen))
    else
      Send(Record(s, c, AborSeen), c, AbortOk)
  }

  function DropListener(s: State, c: ClientId): Outcome
    requires c in s.clients
  {
    var s1 :- Close(s, s.clients[c].pasvFd, Listener(c));
    Ok(SetClient(s1, c, s.clients[c].(pasvFd := NO_FD)))
  }

  /** bound == None: the old listener is closed before the new one is known to bind. */
  function ExecPassive(s: State, c: ClientId, bound: Option<int>): Outcome
    requires c in s.clients
  {
    var s1 :- DropListener(s, c);
    var s2 :=
      if bound.Some? then
        SetClient(s1, c, s1.clients[c].(pasvFd := bound.value, haveDataPeer := false))
          .(fds := s1.fds[bound.value := Listener(c)])
      else s1;
    Send(s2, c, Line)
  }

  function ExecActive(s: State, c: ClientId, addr: Addr): Outcome
    requires c in s.clients
  {
    var s1 :- DropListener(s, c);
    Send(SetClient(s1, c, s1.clients[c].(haveDataPeer := true, dataPeer := addr)), c, Line)
  }

  /** job_new, and the hand-over of the data-channel set-up for a data transfer. */
  function NewJob(s: State, c: ClientId, op: JobOp, pipe: (int, int)): State
    requires c in s.clients
  {
    var j := s.next;
    var cl := s.clients[c];
    var data := op != Copy;
    var job := Job(c, cl.generation, op, false, pipe.0, pipe.1, NO_FD,
                   if data then cl.pasvFd else NO_FD, data && cl.haveDataPeer, cl.dataPeer, cl.peer,
                   false, None, Success);
    var fds := s.fds[pipe.0 := PipeReader(j)][pipe.1 := PipeWriter(j)];
    var cl' := cl.(refs := cl.refs + 1, pasvFd := if data then NO_FD else cl.pasvFd,
                   haveDataPeer := !data && cl.haveDataPeer);
    s.(jobs := s.jobs[j := job], clients := s.clients[c := cl'], next := s.next + 1,
       fds := if data && cl.pasvFd >= 0 then fds[cl.pasvFd := JobListener(j)] else fds)
  }

  /** opftp_job_dispatch, and job_free with an error reply when the queue is full. */
  function Launch(s: State, c: ClientId, op: JobOp, pipe: (int, int)): Outcome
    requires c in s.clients && s.phase.Events?
  {
    var j := s.next;
    var s1 := NewJob(s, c, op, pipe);
    if |s.queue| >= QueueCap(s) then
      var s2 :- CloseJobFds(s1, j);
      var s3 :- Release(s2, c);
      Send(s3.(jobs := s3.jobs - {j}), c, Line)
    else
      Ok(s1.(queue := s1.queue + [j], phase := Dispatched(j, s.phase.ready)))
  }

  predicate PeerMatches(s: State, cl: Client) {
    s.allowForeignPort || AddrEq(cl.peer, cl.dataPeer)
  }

  /** start_transfer. */
  function ExecTransfer(s: State, c: ClientId, op: JobOp, pipe: Option<(int, int)>): Outcome
    requires c in s.clients && s.phase.Events?
  {
    var cl := s.clients[c];
    if cl.job.Some? then Send(s, c, Line)                                      // 450
    else if cl.haveDataPeer && !PeerMatches(s, cl) then Send(s, c, Line)       // 425 bounce
    else if cl.pasvFd < 0 && !cl.haveDataPeer then Send(s, c, Line)            // 425 no set-up
    else if pipe.None? then Send(s, c, Line)                                   // 425
    else Launch(s, c, op, pipe.value)
  }

  /** cmd_cpto; `valid` covers the argument checks. */
  function ExecCopyTo(s: State, c: ClientId, valid: bool, pipe: Option<(int, int)>): Outcome
    requires c in s.clients && s.phase.Events?
  {
    if s.clients[c].job.Some? || !valid || pipe.None? then Send(s, c, Line)
    else Launch(s, c, Copy, pipe.value)
  }

  function ExecHandle(s: State, m: Command): Outcome
    requires s.phase.Events? && s.phase.ready != []
  {
    var c := s.phase.ready[0];
    if c !in s.clients then Crash(UseAfterFree)
    else
      match m
      case Simple => Send(s, c, Line)
      case Abor => ExecAbor(s, c)
      case Passive(fd) => ExecPassive(s, c, Some(fd))
      case PassiveFails => ExecPassive(s, c, None)
      case ActiveTarget(addr) => ExecActive(s, c, addr)
      case ActiveRejected(addr) => Send(SetClient(s, c, s.clients[c].(dataPeer := addr)), c, Line)
      case Transfer(op, pipe) => ExecTransfer(s, c, op, pipe)
      case CopyTo(valid, pipe) => ExecCopyTo(s, c, valid, pipe)
      case Leave => Ok(SetClient(s, c, s.clients[c].(disconnectRequested := true)))
  }

  /** The lines of start_transfer and cmd_cpto after dispatch: workers may already have run. */
  function ExecFinishDispatch(s: State): Outcome
    requires s.phase.Dispatched? && s.phase.rest != []
  {
    var c := s.phase.rest[0];
    var j := s.phase.newJob;
    // start_transfer knows the operation without touching the job again
    if c !in s.clients then Crash(UseAfterFree)
    else
      var s1 := SetClient(s, c, s.clients[c].(job := Some(j))).(phase := Events(s.phase.rest));
      if j in s.jobs && s.jobs[j].op == Copy then Ok(Record(s1, c, CopyBegun(j)))
      else Send(s1, c, Preliminary(j))
  }

  // ---- workers ----

  function SetWorker(s: State, w: nat, k: Worker): State
    requires w < |s.workers|
  {
    s.(workers := s.workers[w := k])
  }

  /** The worker half of opftp_datachan_connect_job for a passive set-up. */
  function ExecAcceptData(s: State, j: JobId, fd: int, from: Addr): Outcome {
    if j !in s.jobs then Crash(UseAfterFree)
    else
      var job := s.jobs[j];
      var ok := s.allowForeignPort || AddrEq(from, job.ctlPeer);
      var job' := job.(dataFd := fd, connOk := ok, endpoint := if ok then Some(from) else None);
      Ok(SetJob(s, j, job').(fds := s.fds[fd := JobData(j)]))
  }

  /** The worker half of opftp_datachan_connect_job for an active set-up. */
  function ExecConnectData(s: State, j: JobId, fd: int, established: bool): Outcome {
    if j !in s.jobs then Crash(UseAfterFree)
    else
      var job := s.jobs[j];
      var job' := job.(dataFd := fd, connOk := established,
                       endpoint := if established then Some(job.dataPeer) else None);
      Ok(SetJob(s, j, job').(fds := s.fds[fd := JobData(j)]))
  }

  /** queue_reply, first part: read the client's generation. */
  function ExecStamp(s: State, w: nat, j: JobId): Outcome
    requires w < |s.workers|
  {
    if j !in s.jobs || s.jobs[j].client !in s.clients then Crash(UseAfterFree)
    else
      var c := s.jobs[j].client;
      Ok(SetWorker(s, w, Composing(j, s.clients[c].generation, c !in s.registry)))
  }

  /** queue_reply, second part: take a reference. */
  function ExecRetain(s: State, w: nat, j: JobId, stamp: nat, late: bool): Outcome
    requires w < |s.workers|
  {
    if j !in s.jobs || s.jobs[j].client !in s.clients then Crash(UseAfterFree)
    else
      var c := s.jobs[j].client;
      var s1 := SetClient(s, c, s.clients[c].(refs := s.clients[c].refs + 1));
      Ok(SetWorker(s1.(replies := s1.replies[s.next := Reply(c, stamp, late)], next := s.next + 1),
                   w, Holding(j, s.next)))
  }

  /** The end of opftp_transfer_run: record the result and push on the completion stack. */
  function ExecPost(s: State, w: nat, j: JobId, result: JobResult): Outcome
    requires w < |s.workers|
  {
    if j !in s.jobs then Crash(UseAfterFree)
    else Ok(SetWorker(SetJob(s, j, s.jobs[j].(result := result)), w, Idle).(posted := [j] + s.posted))
  }

  /** The report goes down in the history. */
  function Noted(s: State, j: JobId, result: JobResult): State {
    if j in s.jobs then s.(posts := s.posts + [Posting(j, result, s.jobs[j].op, s.jobs[j].connOk)]) else s
  }

  function Exec(s: State, e: Step): Outcome
    requires Possible(s, e)
  {
    match e
    case Accept(fd, peer, polled) => ExecAccept(s, fd, peer, polled)
    case TakeReplies => Ok(s.(phase := Replies(s.fifo), fifo := []))
    case DrainReply => ExecDrainReply(s)
    case TakeCompletions => Ok(s.(phase := Completions(s.posted), posted := []))
    case Complete => ExecComplete(s)
    case Snapshot => ExecSnapshot(s)
    case Collect(users) => Ok(s.(phase := Events(users)))
    case Handle(m) => ExecHandle(s, m)
    case FinishDispatch => ExecFinishDispatch(s)
    case EndEvents => ExecEndEvents(s)
    case DropFirst => Disconnect(s, s.registry[0])
    case Take(w) => Ok(SetWorker(s, w, Busy(s.queue[0])).(queue := s.queue[1..]))
    case AcceptData(w, fd, from) => ExecAcceptData(s, s.workers[w].job, fd, from)
    case ConnectData(w, fd, est) => ExecConnectData(s, s.workers[w].job, fd, est)
    case Stamp(w) => ExecStamp(s, w, s.workers[w].job)
    case Retain(w) => ExecRetain(s, w, s.workers[w].job, s.workers[w].stamp, s.workers[w].late)
    case Push(w) => Ok(SetWorker(s, w, Busy(s.workers[w].job)).(fifo := s.fifo + [s.workers[w].reply]))
    case Post(w, result) => ExecPost(Noted(s, s.workers[w].job, result), w, s.workers[w].job, result)
  }
}
