/** What the log of a control connection tells about cancellations and results. */
module ServerReports {
  import opened Common
  import opened ServerState
  import opened ServerSteps
  import opened ServerInvariant
  import opened LinkProofs
  import opened WorkerProofs
  import opened ReactorProofs
  import opened RetireProofs
  import opened StepForms
  import opened ServerTheorems
  import opened ServerHistory

  // ---- what cancels a job ----

  /** ABOR came after the request that opened j. */
  ghost predicate AbortedSince(log: seq<Event>, j: JobId) {
    exists k, m :: 0 <= k < m < |log| && Opens(log[k], j) && log[m] == AborSeen
  }

  /** What the log says of the job its client points at. */
  lemma AbortSeen(log: seq<Event>, next: nat, pending: Option<JobId>, j: JobId, aborted: bool)
    requires Follow(log) == Active(j, aborted) && OpensOnce(log, next, pending)
    ensures aborted <==> AbortedSince(log, j)
  {
    var k := ActiveSince(log, j);
    if AbortedSince(log, j) {
      var k', m :| 0 <= k' < m < |log| && Opens(log[k'], j) && log[m] == AborSeen;
      if k < k' {
        OpenedOnce(log, next, pending, j, k', k);
      } else if k' < k {
        OpenedOnce(log, next, pending, j, k, k');
      }
    }
  }

  lemma {:induction false} OpeningsOf(log: seq<Event>, j: JobId, k: nat)
    requires k < |log| && Opens(log[k], j)
    ensures Openings(log, j) >= 1
  {
    OpeningCounts(log, k, j);
  }

  lemma NotYetOpened(log: seq<Event>, next: nat, j: JobId)
    requires OpensOnce(log, next, Some(j))
    ensures !AbortedSince(log, j)
  {
    if AbortedSince(log, j) {
      var k, m :| 0 <= k < m < |log| && Opens(log[k], j) && log[m] == AborSeen;
      OpeningsOf(log, j, k);
    }
  }

  lemma PointedOrPending(s: State, j: JobId)
    requires Inv(s) && j in s.jobs && s.jobs[j].client in s.clients && s.jobs[j].client in s.registry
    requires s.jobs[j].generation == 1
    ensures s.clients[s.jobs[j].client].job == Some(j) || Pending(s.phase) == Some(j)
    ensures Pending(s.phase) == Some(j) ==> s.clients[s.jobs[j].client].job.None?
  {
    assert Unfold(0);
  }

  /** A job is asked to stop exactly if its client has hung up, or has sent ABOR since the job was
      accepted. */
  lemma CancelledExactly(s: State, j: JobId)
    requires Reachable(s) && j in s.jobs
    ensures var c := s.jobs[j].client;
            s.jobs[j].cancelled <==> c !in s.registry || (c in s.log && AbortedSince(s.log[c], j))
  {
    ReachableInv(s);
    ReachableHistory(s);
    JobClientsExist(s);
    FlaggedFacts(s.clients, s.jobs, s.registry);
    var c := s.jobs[j].client;
    assert FlagExact(s.clients, s.registry, j, s.jobs[j]);
    if c in s.registry {
      Live(s, c);
      DialogueKept(s, c);
      StartedOnce(s, c);
      PointedOrPending(s, j);
      if Pending(s.phase) == Some(j) {
        NotYetOpened(s.log[c], s.next, j);
      } else {
        AbortSeen(s.log[c], s.next, Pending(s.phase), j, s.clients[c].aborPending);
      }
    }
  }

  // ---- what a completion reply tells ----

  /** The report a step makes, if it makes one. */
  function ReportIn(s: State, e: Step): seq<Posting> {
    if e.Post? && e.w < |s.workers| && s.workers[e.w].Busy? && s.workers[e.w].job in s.jobs then
      var job := s.jobs[s.workers[e.w].job];
      [Posting(s.workers[e.w].job, e.result, job.op, job.connOk)]
    else []
  }

  /** The reports made along a run, oldest first. */
  function Reports(s: State, run: seq<Step>): seq<Posting>
    requires Feasible(s, run)
    decreases |run|
  {
    if run == [] then []
    else ReportIn(s, run[0]) + if Exec(s, run[0]).Ok? then Reports(Exec(s, run[0]).state, run[1..]) else []
  }

  lemma ConnectionReports(s: State, e: Step)
    requires Inv(s) && Possible(s, e) && ConnectionStep(e)
    ensures Exec(s, e).Ok? && Exec(s, e).state.posts == s.posts
  {
    if e.Accept? {
      NextFresh(s);
      if e.polled {
        AcceptForm(s, e.fd, e.peer);
      } else {
        AcceptRefusedOk(s, e.fd, e.peer);
      }
    } else if e.DropFirst? {
      DisconnectForm(s, s.registry[0]);
    } else if s.phase.ready != [] {
      var c := Served(s);
      NextReadyInv(s);
      DisconnectForm(s.(phase := Events(s.phase.ready[1..])), c);
    }
  }

  lemma HandleReports(s: State, m: Command)
    requires Inv(s) && s.phase.Events? && s.phase.ready != [] && CommandPossible(s, s.phase.ready[0], m)
    ensures ExecHandle(s, m).Ok? && ExecHandle(s, m).state.posts == s.posts
  {
    var c := Served(s);
    SimpleForm(s);
    match m {
      case Simple =>
      case Abor => AborForm(s);
      case Passive(fd) => PassiveForm(s, Some(fd));
      case PassiveFails => PassiveForm(s, None);
      case ActiveTarget(addr) => ActiveForm(s, addr);
      case ActiveRejected(addr) => RejectedForm(s, addr);
      case Transfer(op, pipe) => if pipe.Some? { LaunchForm(s, op, pipe.value); }
      case CopyTo(_, pipe) => if pipe.Some? { LaunchForm(s, Copy, pipe.value); }
      case Leave =>
    }
  }

  lemma StepReports(s: State, e: Step)
    requires Inv(s) && Possible(s, e)
    ensures Exec(s, e).Ok? && Exec(s, e).state.posts == s.posts + ReportIn(s, e)
  {
    if ConnectionStep(e) {
      ConnectionReports(s, e);
    } else if DrainStep(e) {
      DrainReports(s, e);
    } else if e.Handle? {
      HandleReports(s, e.command);
    } else if e.FinishDispatch? {
      DispatchEnds(s);
    } else if !e.Collect? {
      WorkerReports(s, e);
    }
  }

  lemma WorkerReports(s: State, e: Step)
    requires Inv(s) && Possible(s, e) && (LineStep(e) || DataStep(e))
    ensures Exec(s, e).Ok? && Exec(s, e).state.posts == s.posts + ReportIn(s, e)
  {
    if !e.Take? {
      JobAlive(s, e.w);
    }
  }

  lemma DrainReports(s: State, e: Step)
    requires Inv(s) && Possible(s, e) && DrainStep(e)
    ensures Exec(s, e).Ok? && Exec(s, e).state.posts == s.posts
  {
    if e.DrainReply? {
      if s.phase.replyBatch != [] {
        DrainedForm(s);
      }
    } else if e.Complete? {
      if s.phase.jobBatch != [] {
        CompletedForm(s);
      }
    } else if e.Snapshot? {
      SnapshotOk(s);
    }
  }

  lemma {:induction false} RunUnrolled(s: State, run: seq<Step>, s1: State)
    requires run != [] && Feasible(s, run) && Exec(s, run[0]) == Ok(s1)
    ensures Feasible(s1, run[1..]) && Execute(s, run) == Execute(s1, run[1..])
    ensures s.posts + Reports(s, run) == s.posts + ReportIn(s, run[0]) + Reports(s1, run[1..])
  {
    var one, more := ReportIn(s, run[0]), Reports(s1, run[1..]);
    assert Reports(s, run) == one + more;
    Associates(s.posts, one, more);
  }

  lemma Associates(a: seq<Posting>, b: seq<Posting>, c: seq<Posting>)
    ensures a + (b + c) == a + b + c
  {
  }

  lemma {:induction false} RunReports(s: State, run: seq<Step>)
    requires Inv(s) && Feasible(s, run)
    ensures Execute(s, run).Ok? && Execute(s, run).state.posts == s.posts + Reports(s, run)
    decreases |run|
  {
    if run != [] {
      StepSafe(s, run[0]);
      StepReports(s, run[0]);
      var s1 := Exec(s, run[0]).state;
      RunUnrolled(s, run, s1);
      RunReports(s1, run[1..]);
    }
  }

  /** What each completion code says about the job. */
  ghost predicate CodeTells(code: nat, p: Posting) {
    var open := p.connected || p.op == Copy;
    && (code == 226 <==> p.result.Success? && p.op != Copy)
    && (code == 250 <==> p.result.Success? && p.op == Copy)
    && (code == 425 <==> !open && p.result in {Failed(ETIMEDOUT), Failed(EACCES)})
    && (code == 426 <==>
          p.result == Failed(ECANCELED) ||
          (open && p.result in {Failed(EPIPE), Failed(ECONNRESET), Failed(ETIMEDOUT)}))
    && (code == 550 <==>
          open && p.result in {Failed(ENOENT), Failed(EACCES), Failed(ENOTDIR), Failed(EISDIR), Failed(EINVAL),
                               Failed(ENAMETOOLONG), Failed(ELOOP)})
    && code in {226, 250, 425, 426, 451, 550}
  }

  lemma CodeTable(p: Posting)
    requires Sound(p)
    ensures CodeTells(FinalCode(p.op, p.connected, p.result), p)
  {
    if p.result.Failed? {
      match p.result.error {
        case ECANCELED =>
        case EPIPE =>
        case ECONNRESET =>
        case ETIMEDOUT =>
        case EACCES =>
        case ENOENT =>
        case ENOTDIR =>
        case EISDIR =>
        case EINVAL =>
        case ENAMETOOLONG =>
        case ELOOP =>
        case OtherErrno(_) =>
      }
    }
  }

  /** posts[p] is the one report of job j. */
  ghost predicate OnlyReport(posts: seq<Posting>, p: int, j: JobId) {
    0 <= p < |posts| && posts[p].job == j && forall q :: 0 <= q < |posts| && posts[q].job == j ==> q == p
  }

  lemma AnswerReported(s: State, c: ClientId, i: nat) returns (p: int)
    requires History(s) && c in s.log && i < |s.log[c]| && s.log[c][i].Final?
    ensures OnlyReport(s.posts, p, s.log[c][i].job) && CodeTells(s.log[c][i].code, s.posts[p])
  {
    assert Told(0);
    var e := s.log[c][i];
    assert Justified(s.posts, e);
    p :| 0 <= p < |s.posts| && s.posts[p].job == e.job &&
         e.code == FinalCode(s.posts[p].op, s.posts[p].connected, s.posts[p].result);
    CodeTable(s.posts[p]);
  }

  lemma RunFrom(s0: State, run: seq<Step>, s: State)
    requires Inv(s0) && History(s0) && s0.posts == [] && Feasible(s0, run) && Execute(s0, run) == Ok(s)
    ensures History(s) && s.posts == Reports(s0, run)
  {
    RunHistory(s0, run);
    RunReports(s0, run);
    var made := Reports(s0, run);
    assert [] + made == made;
  }

  /** Every completion reply of every run reports the result its worker posted: the run has exactly
      one report of that job, and the code is the one that result calls for. */
  lemma RepliesTellResults(workers: nat, foreign: bool, run: seq<Step>, s: State, c: ClientId, i: nat)
    requires Feasible(Init(workers, foreign), run) && Execute(Init(workers, foreign), run) == Ok(s)
    requires c in s.log && i < |s.log[c]| && s.log[c][i].Final?
    ensures exists p :: OnlyReport(Reports(Init(workers, foreign), run), p, s.log[c][i].job) &&
                        CodeTells(s.log[c][i].code, Reports(Init(workers, foreign), run)[p])
  {
    InitInv(workers, foreign);
    InitHistory(workers, foreign);
    RunFrom(Init(workers, foreign), run, s);
    var p := AnswerReported(s, c, i);
  }
}
