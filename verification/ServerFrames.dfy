/** Which steps change a job or a client, and how; everything else leaves it alone. */
module ServerFrames {
  import opened Common
  import opened Addresses
  import opened ServerState
  import opened ServerSteps
  import opened ServerInvariant
  import opened CountProofs
  import opened LinkProofs
  import opened WorkerProofs
  import opened ReactorProofs
  import opened RetireProofs
  import opened StepForms
  import opened ServerTheorems
  import opened ServerHistory
  import opened ServerMeaning

  // ---- the life of a job ----

  /** Whether this step cancels j: its client points at it, and hangs up or sends ABOR. */
  predicate CancelledBy(s: State, e: Step, j: JobId, c: ClientId) {
    c in s.clients && s.clients[c].job == Some(j) && (HangsUpOn(s, e) == Some(c) || AbortsFor(s, e) == Some(c))
  }

  predicate Retires(s: State, e: Step, j: JobId) {
    e.Complete? && s.phase.Completions? && s.phase.jobBatch != [] && s.phase.jobBatch[0] == j
  }

  predicate WorksOn(s: State, w: nat, j: JobId) {
    w < |s.workers| && s.workers[w].Busy? && s.workers[w].job == j
  }

  /** What may become of the job j in one step, given what it was. */
  ghost predicate Follows(s: State, e: Step, j: JobId, was: Job, jobs: map<JobId, Job>) {
    && (j in jobs <==> !Retires(s, e, j))
    && (j in jobs ==>
          var now := jobs[j];
          && was == now.(cancelled := was.cancelled, dataFd := was.dataFd, connOk := was.connOk,
                         endpoint := was.endpoint, result := was.result)
          && (now.cancelled <==> was.cancelled || CancelledBy(s, e, j, was.client))
          && (now.result == if e.Post? && WorksOn(s, e.w, j) then e.result else was.result)
          && (if e.AcceptData? && WorksOn(s, e.w, j) then
                now.dataFd == e.fd && (now.connOk <==> s.allowForeignPort || SameHost(e.from, was.ctlPeer)) &&
                now.endpoint == if now.connOk then Some(e.from) else None
              else if e.ConnectData? && WorksOn(s, e.w, j) then
                now.dataFd == e.fd && now.connOk == e.established &&
                now.endpoint == if now.connOk then Some(was.dataPeer) else None
              else now.dataFd == was.dataFd && now.connOk == was.connOk && now.endpoint == was.endpoint))
  }

  lemma Untouched(s: State, e: Step, j: JobId, jobs: map<JobId, Job>)
    requires j in s.jobs && j in jobs && jobs[j] == s.jobs[j] && !Retires(s, e, j)
    requires !CancelledBy(s, e, j, s.jobs[j].client) && !DataStep(e)
    ensures Follows(s, e, j, s.jobs[j], jobs)
  {
  }

  /** Flagging the job that c points at, when c is the one who hangs up or sends ABOR. */
  lemma FlagFollows(s: State, e: Step, c: ClientId, j: JobId)
    requires Inv(s) && c in s.registry && c in s.clients && j in s.jobs
    requires HangsUpOn(s, e) == Some(c) || AbortsFor(s, e) == Some(c)
    requires forall d :: HangsUpOn(s, e) == Some(d) || AbortsFor(s, e) == Some(d) ==> d == c
    requires !DataStep(e) && !e.Complete?
    ensures Follows(s, e, j, s.jobs[j], Flag(s.jobs, s.clients[c].job))
  {
    FlagOnly(s.jobs, s.clients[c].job);
    if s.clients[c].job == Some(j) {
      LiveJob(s, c);
      assert CancelledBy(s, e, j, c);
    } else {
      Untouched(s, e, j, Flag(s.jobs, s.clients[c].job));
    }
  }

  lemma AcceptFollows(s: State, fd: int, peer: Addr, polled: bool, j: JobId)
    requires Inv(s) && FreshFd(s, fd) && j in s.jobs
    ensures ExecAccept(s, fd, peer, polled).Ok?
    ensures Follows(s, Accept(fd, peer, polled), j, s.jobs[j], ExecAccept(s, fd, peer, polled).state.jobs)
  {
    Untouched(s, Accept(fd, peer, polled), j, s.jobs);
    if polled {
      NextFresh(s);
      AcceptForm(s, fd, peer);
    } else {
      AcceptRefusedOk(s, fd, peer);
    }
  }

  lemma DropFirstFollows(s: State, j: JobId)
    requires Inv(s) && s.registry != [] && j in s.jobs
    ensures Disconnect(s, s.registry[0]).Ok?
    ensures Follows(s, DropFirst, j, s.jobs[j], Disconnect(s, s.registry[0]).state.jobs)
  {
    DisconnectForm(s, s.registry[0]);
    FlagFollows(s, DropFirst, s.registry[0], j);
  }

  lemma EndEventsFollows(s: State, j: JobId)
    requires Inv(s) && s.phase.Events? && j in s.jobs
    ensures ExecEndEvents(s).Ok? && Follows(s, EndEvents, j, s.jobs[j], ExecEndEvents(s).state.jobs)
  {
    if HangsUpOn(s, EndEvents).None? {
      Untouched(s, EndEvents, j, s.jobs);
      if s.phase.ready != [] {
        var c := Served(s);
      }
    } else {
      var c := Served(s);
      NextReadyInv(s);
      DisconnectForm(s.(phase := Events(s.phase.ready[1..])), c);
      FlagFollows(s, EndEvents, c, j);
    }
  }

  lemma ConnectionFollows(s: State, e: Step, j: JobId)
    requires Inv(s) && Possible(s, e) && ConnectionStep(e) && j in s.jobs
    ensures Exec(s, e).Ok? && Follows(s, e, j, s.jobs[j], Exec(s, e).state.jobs)
  {
    if e.Accept? {
      AcceptFollows(s, e.fd, e.peer, e.polled, j);
    } else if e.DropFirst? {
      DropFirstFollows(s, j);
    } else {
      EndEventsFollows(s, j);
    }
  }

  lemma AborFollows(s: State, j: JobId)
    requires Inv(s) && s.phase.Events? && s.phase.ready != [] && j in s.jobs
    ensures ExecHandle(s, Abor).Ok? && Follows(s, Handle(Abor), j, s.jobs[j], ExecHandle(s, Abor).state.jobs)
  {
    var c := Served(s);
    AborForm(s);
    FlagFollows(s, Handle(Abor), c, j);
  }

  lemma SetUpFollows(s: State, m: Command, j: JobId)
    requires Inv(s) && s.phase.Events? && s.phase.ready != [] && CommandPossible(s, s.phase.ready[0], m)
    requires !m.Abor? && !m.Transfer? && !m.CopyTo? && j in s.jobs
    ensures ExecHandle(s, m).Ok? && Follows(s, Handle(m), j, s.jobs[j], ExecHandle(s, m).state.jobs)
  {
    var c := Served(s);
    Untouched(s, Handle(m), j, s.jobs);
    match m {
      case Simple => SimpleForm(s);
      case Passive(fd) => PassiveForm(s, Some(fd));
      case PassiveFails => PassiveForm(s, None);
      case ActiveTarget(addr) => ActiveForm(s, addr);
      case ActiveRejected(addr) => RejectedForm(s, addr);
      case Leave =>
    }
  }

  lemma HandleFollows(s: State, m: Command, j: JobId)
    requires Inv(s) && s.phase.Events? && s.phase.ready != [] && CommandPossible(s, s.phase.ready[0], m)
    requires j in s.jobs
    ensures ExecHandle(s, m).Ok? && Follows(s, Handle(m), j, s.jobs[j], ExecHandle(s, m).state.jobs)
  {
    var c := s.phase.ready[0];
    if m.Abor? {
      AborFollows(s, j);
    } else if m.Transfer? {
      TransferMeans(s, c, m.op, m.pipe);
      Untouched(s, Handle(m), j, ExecTransfer(s, c, m.op, m.pipe).state.jobs);
    } else if m.CopyTo? {
      CopyMeans(s, c, m.valid, m.pipe);
      Untouched(s, Handle(m), j, ExecCopyTo(s, c, m.valid, m.pipe).state.jobs);
    } else {
      SetUpFollows(s, m, j);
    }
  }

  lemma CompleteFollows(s: State, j: JobId)
    requires Inv(s) && s.phase.Completions? && j in s.jobs
    ensures ExecComplete(s).Ok? && Follows(s, Complete, j, s.jobs[j], ExecComplete(s).state.jobs)
  {
    if s.phase.jobBatch != [] {
      CompletedForm(s);
    }
    if !Retires(s, Complete, j) {
      Untouched(s, Complete, j, ExecComplete(s).state.jobs);
    }
  }

  lemma DrainFollows(s: State, e: Step, j: JobId)
    requires Inv(s) && Possible(s, e) && DrainStep(e) && j in s.jobs
    ensures Exec(s, e).Ok? && Follows(s, e, j, s.jobs[j], Exec(s, e).state.jobs)
  {
    if e.Complete? {
      CompleteFollows(s, j);
    } else {
      Untouched(s, e, j, s.jobs);
      if e.Snapshot? {
        SnapshotOk(s);
      } else if e.DrainReply? && s.phase.replyBatch != [] {
        DrainedForm(s);
      }
    }
  }

  lemma LineFollows(s: State, e: Step, j: JobId)
    requires Inv(s) && Possible(s, e) && LineStep(e) && j in s.jobs
    ensures Exec(s, e).Ok? && Follows(s, e, j, s.jobs[j], Exec(s, e).state.jobs)
  {
    Untouched(s, e, j, s.jobs);
    if !e.Take? {
      JobAlive(s, e.w);
    }
  }

  lemma AcceptDataFollows(s: State, w: nat, fd: int, from: Addr, j: JobId)
    requires Inv(s) && WorkerRuns(s, w) && j in s.jobs
    ensures ExecAcceptData(s, s.workers[w].job, fd, from).Ok?
    ensures Follows(s, AcceptData(w, fd, from), j, s.jobs[j], ExecAcceptData(s, s.workers[w].job, fd, from).state.jobs)
  {
    JobAlive(s, w);
    AddrEqIsSameHost(from, s.jobs[s.workers[w].job].ctlPeer);
  }

  lemma ConnectDataFollows(s: State, w: nat, fd: int, established: bool, j: JobId)
    requires Inv(s) && WorkerRuns(s, w) && j in s.jobs
    ensures ExecConnectData(s, s.workers[w].job, fd, established).Ok?
    ensures Follows(s, ConnectData(w, fd, established), j, s.jobs[j],
                    ExecConnectData(s, s.workers[w].job, fd, established).state.jobs)
  {
    JobAlive(s, w);
  }

  lemma PostFollows(s: State, w: nat, result: JobResult, j: JobId)
    requires Inv(s) && WorkerRuns(s, w) && j in s.jobs
    ensures var i := s.workers[w].job;
            ExecPost(Noted(s, i, result), w, i, result).Ok? &&
            Follows(s, Post(w, result), j, s.jobs[j], ExecPost(Noted(s, i, result), w, i, result).state.jobs)
  {
    JobAlive(s, w);
  }

  lemma DataFollows(s: State, e: Step, j: JobId)
    requires Inv(s) && Possible(s, e) && DataStep(e) && j in s.jobs
    ensures Exec(s, e).Ok? && Follows(s, e, j, s.jobs[j], Exec(s, e).state.jobs)
  {
    if e.AcceptData? {
      AcceptDataFollows(s, e.w, e.fd, e.from, j);
    } else if e.ConnectData? {
      ConnectDataFollows(s, e.w, e.fd, e.established, j);
    } else {
      PostFollows(s, e.w, e.result, j);
    }
  }

  /** A job keeps the orders it was made with until its completion frees it. It is cancelled by the
      ABOR or the hang-up of its own client and by nothing else, connected only by the worker that
      runs it, and ends as that worker reports. */
  lemma JobFollows(s: State, e: Step, j: JobId)
    requires Reachable(s) && Possible(s, e) && j in s.jobs
    ensures Exec(s, e).Ok? && Follows(s, e, j, s.jobs[j], Exec(s, e).state.jobs)
  {
    ReachableInv(s);
    if ConnectionStep(e) {
      ConnectionFollows(s, e, j);
    } else if DrainStep(e) {
      DrainFollows(s, e, j);
    } else if e.Handle? {
      HandleFollows(s, e.command, j);
    } else if e.FinishDispatch? {
      DispatchEnds(s);
      Untouched(s, e, j, s.jobs);
    } else if e.Collect? {
      Untouched(s, e, j, s.jobs);
    } else if LineStep(e) {
      LineFollows(s, e, j);
    } else {
      DataFollows(s, e, j);
    }
  }

  // ---- the life of a client ----

  predicate Serves(s: State, e: Step, c: ClientId) {
    e.Handle? && s.phase.Events? && s.phase.ready != [] && s.phase.ready[0] == c
  }

  predicate Opened(s: State, e: Step, c: ClientId) {
    e.FinishDispatch? && s.phase.Dispatched? && s.phase.rest != [] && s.phase.rest[0] == c
  }

  /** The step completes the transfer that c points at. */
  predicate Closes(s: State, e: Step, c: ClientId) {
    c in s.clients && s.clients[c].job.Some? && Retires(s, e, s.clients[c].job.value)
  }

  /** What may become of the client c in one step, references aside. */
  function ClientAfterStep(s: State, e: Step, c: ClientId): Client
    requires c in s.clients
  {
    var was := s.clients[c];
    if Serves(s, e, c) then AfterCommand(s, was, e.command)
    else if Opened(s, e, c) then was.(job := Some(s.phase.newJob))
    else if Closes(s, e, c) then was.(job := None, aborPending := false)
    else if HangsUpOn(s, e) == Some(c) then
      was.(job := None, generation := was.generation + 1, pasvFd := NO_FD, fd := NO_FD)
    else was
  }

  ghost predicate Goes(s: State, e: Step, c: ClientId, clients: map<ClientId, Client>)
    requires c in s.clients
  {
    c in clients ==> clients[c] == ClientAfterStep(s, e, c).(refs := clients[c].refs)
  }

  lemma Bystander(s: State, e: Step, c: ClientId, clients: map<ClientId, Client>)
    requires c in s.clients && (c in clients ==> clients[c] == s.clients[c].(refs := clients[c].refs))
    requires !Serves(s, e, c) && !Opened(s, e, c) && !Closes(s, e, c) && HangsUpOn(s, e) != Some(c)
    ensures Goes(s, e, c, clients)
  {
  }

  lemma HangupGoes(s: State, e: Step, d: ClientId, c: ClientId)
    requires d in s.clients && HangsUpOn(s, e) == Some(d) && c in s.clients
    requires !e.Handle? && !e.FinishDispatch? && !e.Complete?
    ensures Goes(s, e, c, Drop(s.clients[d := HungUp(s.clients[d])], d))
  {
    if c != d {
      Bystander(s, e, c, Drop(s.clients[d := HungUp(s.clients[d])], d));
    }
  }

  lemma AdmittedGoes(s: State, e: Step, cl: Client, c: ClientId)
    requires e.Accept? && s.next !in s.clients && c in s.clients
    ensures Goes(s, e, c, s.clients[s.next := cl]) && Goes(s, e, c, s.clients)
  {
    Bystander(s, e, c, s.clients[s.next := cl]);
    Bystander(s, e, c, s.clients);
  }

  lemma AcceptGoes(s: State, fd: int, peer: Addr, polled: bool, c: ClientId)
    requires Inv(s) && FreshFd(s, fd) && c in s.clients
    ensures ExecAccept(s, fd, peer, polled).Ok?
    ensures Goes(s, Accept(fd, peer, polled), c, ExecAccept(s, fd, peer, polled).state.clients)
  {
    NextFresh(s);
    AdmittedGoes(s, Accept(fd, peer, polled), NewClient(fd, peer), c);
    if polled {
      AcceptForm(s, fd, peer);
    } else {
      AcceptRefusedForm(s, fd, peer);
    }
  }

  lemma EndEventsGoes(s: State, c: ClientId)
    requires Inv(s) && s.phase.Events? && c in s.clients
    ensures ExecEndEvents(s).Ok? && Goes(s, EndEvents, c, ExecEndEvents(s).state.clients)
  {
    if HangsUpOn(s, EndEvents).None? {
      Bystander(s, EndEvents, c, s.clients);
      if s.phase.ready != [] {
        var _ := Served(s);
      }
    } else {
      var d := Served(s);
      NextReadyInv(s);
      DisconnectForm(s.(phase := Events(s.phase.ready[1..])), d);
      HangupGoes(s, EndEvents, d, c);
    }
  }

  lemma ConnectionGoes(s: State, e: Step, c: ClientId)
    requires Inv(s) && Possible(s, e) && ConnectionStep(e) && c in s.clients
    ensures Exec(s, e).Ok? && Goes(s, e, c, Exec(s, e).state.clients)
  {
    if e.Accept? {
      AcceptGoes(s, e.fd, e.peer, e.polled, c);
    } else if e.DropFirst? {
      DisconnectForm(s, s.registry[0]);
      HangupGoes(s, e, s.registry[0], c);
    } else {
      EndEventsGoes(s, c);
    }
  }

  lemma CompleteGoes(s: State, c: ClientId)
    requires Inv(s) && s.phase.Completions? && c in s.clients
    ensures ExecComplete(s).Ok? && Goes(s, Complete, c, ExecComplete(s).state.clients)
  {
    if s.phase.jobBatch == [] {
      Bystander(s, Complete, c, s.clients);
    } else {
      CompletedForm(s);
      var j := s.phase.jobBatch[0];
      ClosesExactly(s, j, c);
      if !Closes(s, Complete, c) {
        Bystander(s, Complete, c, ExecComplete(s).state.clients);
      }
    }
  }

  /** The completion of j is current for its client exactly if the client still points at it. */
  lemma ClosesExactly(s: State, j: JobId, c: ClientId)
    requires Inv(s) && s.phase.Completions? && j in s.jobs && c in s.clients
    ensures s.clients[c].job == Some(j) <==>
              s.jobs[j].client == c && s.jobs[j].generation == s.clients[c].generation
  {
    if s.clients[c].job == Some(j) {
      PointsBack(s, c);
    } else if s.jobs[j].client == c && s.jobs[j].generation == s.clients[c].generation {
      PointedAt(s, j);
    }
  }

  lemma PointsBack(s: State, c: ClientId)
    requires Inv(s) && c in s.clients && s.clients[c].job.Some?
    ensures var j := s.clients[c].job.value;
            j in s.jobs && s.jobs[j].client == c && s.jobs[j].generation == s.clients[c].generation
  {
    assert Unfold(0);
  }

  lemma ReleasedGoes(s: State, d: ClientId, c: ClientId)
    requires d in s.clients && c in s.clients
    ensures Goes(s, DrainReply, c, Drop(s.clients, d)) && Goes(s, DrainReply, c, s.clients)
  {
    Bystander(s, DrainReply, c, Drop(s.clients, d));
    Bystander(s, DrainReply, c, s.clients);
  }

  lemma DrainReplyGoes(s: State, c: ClientId)
    requires Inv(s) && s.phase.Replies? && c in s.clients
    ensures ExecDrainReply(s).Ok? && Goes(s, DrainReply, c, ExecDrainReply(s).state.clients)
  {
    if s.phase.replyBatch == [] {
      ReleasedGoes(s, c, c);
    } else {
      DrainedForm(s);
      ReleasedGoes(s, s.replies[s.phase.replyBatch[0]].client, c);
    }
  }

  lemma DrainGoes(s: State, e: Step, c: ClientId)
    requires Inv(s) && Possible(s, e) && DrainStep(e) && c in s.clients
    ensures Exec(s, e).Ok? && Goes(s, e, c, Exec(s, e).state.clients)
  {
    if e.Complete? {
      CompleteGoes(s, c);
    } else if e.DrainReply? {
      DrainReplyGoes(s, c);
    } else {
      Bystander(s, e, c, s.clients);
      SnapshotOk(s);
    }
  }

  /** All other clients as they were, and the one served as its command leaves it. */
  lemma CommandGoes(s: State, m: Command, d: ClientId, c: ClientId, clients: map<ClientId, Client>)
    requires s.phase.Events? && s.phase.ready != [] && d == s.phase.ready[0] && d in s.clients && c in s.clients
    requires clients.Keys == s.clients.Keys
    requires forall x :: x in s.clients && x != d ==> clients[x] == s.clients[x]
    requires clients[d] == AfterCommand(s, s.clients[d], m).(refs := clients[d].refs)
    ensures Goes(s, Handle(m), c, clients)
  {
    if c != d {
      Bystander(s, Handle(m), c, clients);
    }
  }

  lemma LaunchGoes(s: State, m: Command, d: ClientId, c: ClientId)
    requires Inv(s) && s.phase.Events? && s.phase.ready != [] && d == s.phase.ready[0] && CommandPossible(s, d, m)
    requires d in s.clients && c in s.clients && (m.Transfer? || m.CopyTo?)
    ensures ExecHandle(s, m).Ok? && Goes(s, Handle(m), c, ExecHandle(s, m).state.clients)
  {
    if m.Transfer? {
      TransferMeans(s, d, m.op, m.pipe);
      CommandGoes(s, m, d, c, ExecTransfer(s, d, m.op, m.pipe).state.clients);
    } else {
      CopyMeans(s, d, m.valid, m.pipe);
      CommandGoes(s, m, d, c, ExecCopyTo(s, d, m.valid, m.pipe).state.clients);
    }
  }

  lemma HandleGoes(s: State, m: Command, c: ClientId)
    requires Inv(s) && s.phase.Events? && s.phase.ready != [] && CommandPossible(s, s.phase.ready[0], m)
    requires c in s.clients
    ensures ExecHandle(s, m).Ok? && Goes(s, Handle(m), c, ExecHandle(s, m).state.clients)
  {
    var d := Served(s);
    if m.Transfer? || m.CopyTo? {
      LaunchGoes(s, m, d, c);
    } else {
      CommandGoes(s, m, d, c, s.clients[d := AfterCommand(s, s.clients[d], m)]);
      if m.Abor? {
        AborMeans(s, d);
      } else if !m.Leave? {
        SetUpMeans(s, m, d);
      }
    }
  }

  lemma RetainGoes(s: State, w: nat, c: ClientId)
    requires Inv(s) && w < |s.workers| && s.workers[w].Composing? && c in s.clients
    ensures var r := ExecRetain(s, w, s.workers[w].job, s.workers[w].stamp, s.workers[w].late);
            r.Ok? && Goes(s, Retain(w), c, r.state.clients)
  {
    JobAlive(s, w);
    var d := s.jobs[s.workers[w].job].client;
    var cl := s.clients[d].(refs := s.clients[d].refs + 1);
    RetainForm(s, w, s.workers[w].job, s.workers[w].stamp, s.workers[w].late, d, cl);
    Bystander(s, Retain(w), c, s.clients[d := cl]);
  }

  lemma WorkerGoes(s: State, e: Step, c: ClientId)
    requires Inv(s) && Possible(s, e) && (LineStep(e) || DataStep(e)) && c in s.clients
    ensures Exec(s, e).Ok? && Goes(s, e, c, Exec(s, e).state.clients)
  {
    if e.Retain? {
      RetainGoes(s, e.w, c);
    } else {
      Bystander(s, e, c, s.clients);
      if !e.Take? {
        JobAlive(s, e.w);
      }
    }
  }

  lemma OpenedGoes(s: State, c: ClientId)
    requires Inv(s) && s.phase.Dispatched? && c in s.clients
    ensures s.phase.rest != [] && ExecFinishDispatch(s).Ok?
    ensures Goes(s, FinishDispatch, c, ExecFinishDispatch(s).state.clients)
  {
    DispatchEnds(s);
    if c != s.phase.rest[0] {
      Bystander(s, FinishDispatch, c, ExecFinishDispatch(s).state.clients);
    }
  }

  /** A client is changed by its own commands, by the opening and the completion of the transfer it
      points at and by its own hang-up; whatever is done for others, or by workers, leaves it alone. */
  lemma ClientFollows(s: State, e: Step, c: ClientId)
    requires Reachable(s) && Possible(s, e) && c in s.clients
    ensures Exec(s, e).Ok?
    ensures var clients := Exec(s, e).state.clients;
            c in clients ==> clients[c] == ClientAfterStep(s, e, c).(refs := clients[c].refs)
  {
    ReachableInv(s);
    if ConnectionStep(e) {
      ConnectionGoes(s, e, c);
    } else if DrainStep(e) {
      DrainGoes(s, e, c);
    } else if e.Handle? {
      HandleGoes(s, e.command, c);
    } else if e.FinishDispatch? {
      OpenedGoes(s, c);
    } else if e.Collect? {
      Bystander(s, e, c, s.clients);
    } else {
      WorkerGoes(s, e, c);
    }
  }
}
