/**
 The memory of a running server as its threads share it: clients, transfer jobs and pending
 replies on the heap, the containers that hold them, the descriptor table, and what each control
 connection has seen. The structures are those of src/opftp.h.

 Heap objects are named by numbers that are never reused, so touching an object that has been
 freed is visible as a missing key. Descriptor numbers are reused freely, as the system does.
 */
module ServerState {
  import opened Common
  import opened Addresses

  type ClientId = nat
  type JobId = nat
  type ReplyId = nat

  const NO_FD := -1

  datatype JobOp = List | Stor | Appe | Retr | Copy

  datatype Errno =
    | ECANCELED | EPIPE | ECONNRESET | ETIMEDOUT | EACCES | ENOENT | ENOTDIR | EISDIR
    | EINVAL | ENAMETOOLONG | ELOOP | OtherErrno(n: nat)

  datatype JobResult = Success | Failed(error: Errno)

  datatype Client = Client(
    refs: int,
    generation: nat,
    fd: int,
    peer: Addr,
    job: Option<JobId>,
    aborPending: bool,
    pasvFd: int,
    haveDataPeer: bool,
    dataPeer: Addr,
    disconnectRequested: bool)

  datatype Job = Job(
    client: ClientId,
    generation: nat,
    op: JobOp,
    cancelled: bool,
    pipeRead: int,
    pipeWrite: int,
    dataFd: int,
    pasvFd: int,
    haveDataPeer: bool,
    dataPeer: Addr,
    ctlPeer: Addr,
    connOk: bool,
    endpoint: Option<Addr>,   // remote end of the established data connection
    result: JobResult)

  /** A pending line; `late` records that its client had hung up when it was stamped. The server does
      not keep that and no step looks at it. */
  datatype Reply = Reply(client: ClientId, generation: nat, late: bool)

  /** Where a pool worker is: waiting for a job, running one, or part-way through queueing a
      control line for the client of the job it runs. */
  datatype Worker =
    | Idle
    | Busy(job: JobId)
    | Composing(job: JobId, stamp: nat, late: bool)
    | Holding(job: JobId, reply: ReplyId)

  /** Where the reactor thread is. Detached batches are local to it. */
  datatype Phase =
    | Waiting
    | Replies(replyBatch: seq<ReplyId>)
    | Completions(jobBatch: seq<JobId>)
    | Events(ready: seq<ClientId>)
    | Dispatched(newJob: JobId, rest: seq<ClientId>)

  /** The one holder responsible for closing a descriptor. */
  datatype Owner =
    | Control(client: ClientId)
    | Listener(client: ClientId)
    | JobListener(job: JobId)
    | JobData(job: JobId)
    | PipeReader(job: JobId)
    | PipeWriter(job: JobId)

  /** What happened on one control connection, oldest first: replies written to it and the
      requests that open or abort a transfer. */
  datatype Event =
    | Line                              // any reply that does not belong to a transfer
    | Preliminary(job: JobId)           // 150
    | CopyBegun(job: JobId)             // CPTO accepted, which has no preliminary reply
    | AborSeen                          // ABOR arrived
    | Final(job: JobId, code: nat)      // the completion reply
    | AbortOk                           // 226 Abort successful.
    | Hangup                            // control connection closed

  /** A worker's report: the job, how it ended, what it was, and whether its data connection was made. */
  datatype Posting = Posting(job: JobId, result: JobResult, op: JobOp, connected: bool)

  datatype State = State(
    clients: map<ClientId, Client>,
    jobs: map<JobId, Job>,
    replies: map<ReplyId, Reply>,
    registry: seq<ClientId>,
    polled: set<ClientId>,       // user pointers in the poll set, which hold no reference
    queue: seq<JobId>,
    workers: seq<Worker>,
    posted: seq<JobId>,
    fifo: seq<ReplyId>,
    phase: Phase,
    fds: map<int, Owner>,
    log: map<ClientId, seq<Event>>,
    posts: seq<Posting>,         // what workers have posted, which the server does not keep
    next: nat,
    allowForeignPort: bool)

  function Init(workers: nat, allowForeignPort: bool): State {
    State(map[], map[], map[], [], {}, [], seq(workers, _ => Idle), [], [], Waiting, map[], map[], [], 0,
          allowForeignPort)
  }

  /** Queue slots: twice the number of workers. */
  function QueueCap(s: State): nat {
    2 * |s.workers|
  }

  /** The reply a completed job produces (opftp_datachan_complete). */
  function FinalCode(op: JobOp, connOk: bool, result: JobResult): nat {
    if !connOk && op != Copy then
      if result == Failed(ECANCELED) then 426
      else if result == Failed(ETIMEDOUT) || result == Failed(EACCES) then 425
      else 451
    else if result.Success? then
      if op == Copy then 250 else 226
    else if result.error in {ECANCELED, EPIPE, ECONNRESET, ETIMEDOUT} then 426
    else if result.error in {ENOENT, EACCES, ENOTDIR, EISDIR, EINVAL, ENAMETOOLONG, ELOOP} then 550
    else 451
  }

  // ---- checked memory and descriptor operations ----

  datatype Fault = UseAfterFree | ForeignClose | StaleWrite

  /** A thread's next state, or the way in which it would have corrupted the process. */
  datatype Outcome = Ok(state: State) | Crash(fault: Fault) {
    predicate IsFailure() { Crash? }
    function PropagateFailure(): Outcome requires Crash? { this }
    function Extract(): State requires Ok? { state }
  }

  /** Closing a negative number does nothing; closing a number whose holder is someone else, or
      nobody, is a fault. */
  function Close(s: State, fd: int, owner: Owner): Outcome {
    if fd < 0 then Ok(s)
    else if fd in s.fds && s.fds[fd] == owner then Ok(s.(fds := s.fds - {fd}))
    else Crash(ForeignClose)
  }

  function SetClient(s: State, c: ClientId, cl: Client): State {
    s.(clients := s.clients[c := cl])
  }

  function SetJob(s: State, j: JobId, job: Job): State {
    s.(jobs := s.jobs[j := job])
  }

  function Record(s: State, c: ClientId, e: Event): State {
    s.(log := s.log[c := (if c in s.log then s.log[c] else []) + [e]])
  }

  /** opftp_client_send_raw on the reactor: a closed descriptor swallows the line. */
  function Send(s: State, c: ClientId, e: Event): Outcome {
    if c !in s.clients then Crash(UseAfterFree)
    else if s.clients[c].fd < 0 then Ok(s)
    else if s.clients[c].fd in s.fds && s.fds[s.clients[c].fd] == Control(c) then Ok(Record(s, c, e))
    else Crash(StaleWrite)
  }

  /** opftp_client_release: the last reference closes the control descriptor and frees. */
  function Release(s: State, c: ClientId): Outcome {
    if c !in s.clients then Crash(UseAfterFree)
    else
      var cl := s.clients[c];
      var s1 := SetClient(s, c, cl.(refs := cl.refs - 1));
      if cl.refs == 1 then
        var s2 :- Close(s1, cl.fd, Control(c));
        Ok(s2.(clients := s2.clients - {c}))
      else
        Ok(s1)
  }

  /** Ask a job to stop: set its flag and poke its cancel pipe. */
  function Cancel(s: State, j: JobId): Outcome {
    if j !in s.jobs then Crash(UseAfterFree)
    else
      var fd := s.jobs[j].pipeWrite;
      if fd in s.fds && s.fds[fd] == PipeWriter(j) then
        Ok(SetJob(s, j, s.jobs[j].(cancelled := true)))
      else
        Crash(StaleWrite)
  }
}
