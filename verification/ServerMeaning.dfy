/**
 What the steps of any run mean to the people at either end: when a transfer is accepted, what ABOR
 and a hang-up cancel, and what a completion reply tells.
 */
module ServerMeaning {
  import opened Common
  import opened Addresses
  import opened ServerState
  import opened ServerSteps
  import opened ServerInvariant
  import opened LinkProofs
  import opened ReactorProofs
  import opened DispatchProofs
  import opened RetireProofs
  import opened StepForms
  import opened ServerTheorems
  import opened ServerHistory

  // ---- accepting a transfer ----

  /** What a data transfer needs besides room in the queue. */
  predicate Eligible(s: State, cl: Client, pipe: Option<(int, int)>) {
    && cl.job.None?
    && (cl.pasvFd >= 0 || cl.haveDataPeer)
    && (cl.haveDataPeer ==> s.allowForeignPort || SameHost(cl.peer, cl.dataPeer))
    && pipe.Some?
  }

  /** One new job, last in the queue, that carries the client's request; the client's set-up is spent
      and nothing is written yet. */
  ghost predicate Begun(s: State, t: State, c: ClientId, cl: Client, op: JobOp, pipe: (int, int)) {
    && t.phase == Dispatched(s.next, Ready(s.phase)) && t.queue == s.queue + [s.next]
    && s.next !in s.jobs && t.jobs.Keys == s.jobs.Keys + {s.next}
    && (forall i :: i in s.jobs ==> t.jobs[i] == s.jobs[i])
    && (var job := t.jobs[s.next];
        && job.client == c && job.generation == cl.generation && job.op == op
        && job.pipeRead == pipe.0 && job.pipeWrite == pipe.1 && job.ctlPeer == cl.peer
        && !job.cancelled && !job.connOk && job.dataFd < 0
        && (op != Copy ==> job.pasvFd == cl.pasvFd && job.haveDataPeer == cl.haveDataPeer && job.dataPeer == cl.dataPeer)
        && (op == Copy ==> job.pasvFd < 0 && !job.haveDataPeer))
    && t.clients.Keys == s.clients.Keys && (forall d :: d in s.clients && d != c ==> t.clients[d] == s.clients[d])
    && c in t.clients
    && t.clients[c] == (if op == Copy then cl else cl.(pasvFd := NO_FD, haveDataPeer := false)).(refs := cl.refs + 1)
    && t.log == s.log && t.workers == s.workers
  }

  /** One line is written to c, which is left as `cl`; jobs, queue and other clients are not touched. */
  ghost predicate OnlyReplied(s: State, t: State, c: ClientId, cl: Client) {
    && t.phase == s.phase && t.jobs == s.jobs && t.queue == s.queue && t.workers == s.workers
    && t.clients == s.clients[c := cl]
    && c in s.log && t.log == s.log[c := s.log[c] + [Line]]
  }

  lemma QueuedMeans(s: State, c: ClientId, op: JobOp, pipe: (int, int))
    requires Inv(s) && s.phase.Events? && c in s.clients && s.clients[c].job.None?
    ensures Begun(s, Queued(s, c, op, pipe), c, s.clients[c], op, pipe)
  {
    NextFresh(s);
  }

  lemma LineMeans(s: State, c: ClientId)
    requires Inv(s) && s.phase.Events? && s.phase.ready != [] && c == s.phase.ready[0]
    ensures c in s.clients && c in s.log
    ensures Send(s, c, Line).Ok? && OnlyReplied(s, Send(s, c, Line).state, c, s.clients[c])
  {
    var _ := Served(s);
    SendForm(s, c, Line);
    assert s.clients[c := s.clients[c]] == s.clients;
  }

  lemma LaunchMeans(s: State, c: ClientId, op: JobOp, pipe: (int, int), r: Outcome)
    requires Inv(s) && s.phase.Events? && s.phase.ready != [] && c == s.phase.ready[0] && FreshPipe(s, Some(pipe))
    requires c in s.clients && c in s.log && s.clients[c].job.None? && r == Launch(s, c, op, pipe)
    ensures r.Ok?
    ensures if |s.queue| < 2 * |s.workers| then Begun(s, r.state, c, s.clients[c], op, pipe)
            else OnlyReplied(s, r.state, c, ClientAfter(s.clients[c], op))
  {
    LaunchForm(s, op, pipe);
    QueuedMeans(s, c, op, pipe);
  }

  lemma TransferMeans(s: State, c: ClientId, op: JobOp, pipe: Option<(int, int)>)
    requires Inv(s) && s.phase.Events? && s.phase.ready != [] && c == s.phase.ready[0] && FreshPipe(s, pipe)
    requires op != Copy
    ensures c in s.clients && ExecTransfer(s, c, op, pipe).Ok?
    ensures var cl, t := s.clients[c], ExecTransfer(s, c, op, pipe).state;
            if !Eligible(s, cl, pipe) then OnlyReplied(s, t, c, cl)
            else if |s.queue| < 2 * |s.workers| then Begun(s, t, c, cl, op, pipe.value)
            else OnlyReplied(s, t, c, cl.(pasvFd := NO_FD, haveDataPeer := false))
  {
    LineMeans(s, c);
    AddrEqIsSameHost(s.clients[c].peer, s.clients[c].dataPeer);
    if s.clients[c].job.None? && pipe.Some? {
      LaunchMeans(s, c, op, pipe.value, Launch(s, c, op, pipe.value));
    }
  }

  /** A data transfer is started exactly if the client has no transfer, has set up a data channel to
      its own host (or foreign ports are allowed), the cancel pipe was made and the queue has room.
      Otherwise one refusal is written and no job exists; only a full queue costs the client its
      set-up. */
  lemma TransferAccepted(s: State, op: JobOp, pipe: Option<(int, int)>)
    requires Reachable(s) && Possible(s, Handle(Transfer(op, pipe)))
    ensures s.phase.ready[0] in s.clients && Exec(s, Handle(Transfer(op, pipe))).Ok?
    ensures var c := s.phase.ready[0];
            var cl, t := s.clients[c], Exec(s, Handle(Transfer(op, pipe))).state;
            (t.phase.Dispatched? <==> Eligible(s, cl, pipe) && |s.queue| < 2 * |s.workers|) &&
            (t.phase.Dispatched? ==> Begun(s, t, c, cl, op, pipe.value)) &&
            (!t.phase.Dispatched? ==>
               OnlyReplied(s, t, c, if Eligible(s, cl, pipe) then cl.(pasvFd := NO_FD, haveDataPeer := false) else cl))
  {
    ReachableInv(s);
    TransferMeans(s, s.phase.ready[0], op, pipe);
  }

  lemma CopyMeans(s: State, c: ClientId, valid: bool, pipe: Option<(int, int)>)
    requires Inv(s) && s.phase.Events? && s.phase.ready != [] && c == s.phase.ready[0] && FreshPipe(s, pipe)
    ensures c in s.clients && ExecCopyTo(s, c, valid, pipe).Ok?
    ensures var cl, t := s.clients[c], ExecCopyTo(s, c, valid, pipe).state;
            if cl.job.None? && valid && pipe.Some? && |s.queue| < 2 * |s.workers|
            then Begun(s, t, c, cl, Copy, pipe.value) else OnlyReplied(s, t, c, cl)
  {
    LineMeans(s, c);
    if s.clients[c].job.None? && pipe.Some? {
      LaunchMeans(s, c, Copy, pipe.value, Launch(s, c, Copy, pipe.value));
      assert ClientAfter(s.clients[c], Copy) == s.clients[c];
    }
  }

  /** A server-side copy needs no data channel, and leaves the client's set-up alone. */
  lemma CopyAccepted(s: State, valid: bool, pipe: Option<(int, int)>)
    requires Reachable(s) && Possible(s, Handle(CopyTo(valid, pipe)))
    ensures s.phase.ready[0] in s.clients && Exec(s, Handle(CopyTo(valid, pipe))).Ok?
    ensures var c := s.phase.ready[0];
            var cl, t := s.clients[c], Exec(s, Handle(CopyTo(valid, pipe))).state;
            (t.phase.Dispatched? <==> cl.job.None? && valid && pipe.Some? && |s.queue| < 2 * |s.workers|) &&
            (t.phase.Dispatched? ==> Begun(s, t, c, cl, Copy, pipe.value)) &&
            (!t.phase.Dispatched? ==> OnlyReplied(s, t, c, cl))
  {
    ReachableInv(s);
    CopyMeans(s, s.phase.ready[0], valid, pipe);
  }

  /** Workers take the job that has waited longest. */
  lemma OldestFirst(s: State, w: nat, j: JobId)
    requires Reachable(s) && Possible(s, Take(w))
    ensures Exec(s, Take(w)).Ok?
    ensures var t := Exec(s, Take(w)).state;
            t.workers[w].Busy? && t.workers[w].job in s.queue && t.workers[w].job !in t.queue &&
            (j in s.queue ==> t.workers[w].job <= j && (j == t.workers[w].job || j in t.queue))
  {
    ReachableHistory(s);
    assert Told(0);
    assert s.queue[0] !in s.queue[1..];
  }

  // ---- the other commands ----

  /** What a command makes of the client that sent it, references aside. */
  function AfterCommand(s: State, cl: Client, m: Command): Client {
    match m
    case Simple => cl
    case Abor => cl.(aborPending := cl.job.Some?)
    case Passive(fd) => cl.(pasvFd := fd, haveDataPeer := false)
    case PassiveFails => cl.(pasvFd := NO_FD)
    case ActiveTarget(addr) => cl.(pasvFd := NO_FD, haveDataPeer := true, dataPeer := addr)
    case ActiveRejected(addr) => cl.(dataPeer := addr)
    case Transfer(_, pipe) => if Eligible(s, cl, pipe) then cl.(pasvFd := NO_FD, haveDataPeer := false) else cl
    case CopyTo(_, _) => cl
    case Leave => cl.(disconnectRequested := true)
  }

  /** Commands that only reply, or change the data-channel set-up, or ask to leave. */
  lemma SetUpMeans(s: State, m: Command, d: ClientId)
    requires Inv(s) && s.phase.Events? && s.phase.ready != [] && d == s.phase.ready[0] && CommandPossible(s, d, m)
    requires m.Passive? || m.PassiveFails? || m.ActiveTarget? || m.ActiveRejected? || m.Simple?
    ensures d in s.clients && ExecHandle(s, m).Ok?
    ensures OnlyReplied(s, ExecHandle(s, m).state, d, AfterCommand(s, s.clients[d], m))
  {
    var _ := Served(s);
    match m {
      case Simple => LineMeans(s, d);
      case Passive(fd) => PassiveForm(s, Some(fd));
      case PassiveFails => PassiveForm(s, None);
      case ActiveTarget(addr) => ActiveForm(s, addr);
      case ActiveRejected(addr) => RejectedForm(s, addr);
    }
  }

  lemma AborMeans(s: State, d: ClientId)
    requires Inv(s) && s.phase.Events? && s.phase.ready != [] && d == s.phase.ready[0]
    ensures d in s.clients && d in s.log && ExecHandle(s, Abor).Ok?
    ensures var t := ExecHandle(s, Abor).state;
            t.clients == s.clients[d := AfterCommand(s, s.clients[d], Abor)] &&
            t.log == s.log[d := s.log[d] + if s.clients[d].job.Some? then [AborSeen] else [AborSeen, AbortOk]]
  {
    var _ := Served(s);
    AborForm(s);
    if s.clients[d].job.None? {
      Live(s, d);
      assert s.clients[d := s.clients[d]] == s.clients;
    }
  }

  /** The client this step hangs up on, if it does. */
  function HangsUpOn(s: State, e: Step): Option<ClientId> {
    if e.DropFirst? && s.registry != [] then Some(s.registry[0])
    else if e.EndEvents? && s.phase.Events? && s.phase.ready != [] && s.phase.ready[0] in s.clients &&
            s.clients[s.phase.ready[0]].disconnectRequested then Some(s.phase.ready[0])
    else None
  }

  /** The client from which this step hears ABOR, if it does. */
  function AbortsFor(s: State, e: Step): Option<ClientId> {
    if e == Handle(Abor) && s.phase.Events? && s.phase.ready != [] then Some(s.phase.ready[0]) else None
  }

  /** After PASV, EPSV, PORT or EPRT the one set-up in force is the new one; the listener it replaces
      is closed. */
  lemma SetUpReplaced(s: State, m: Command)
    requires Reachable(s) && Possible(s, Handle(m))
    requires m.Passive? || m.PassiveFails? || m.ActiveTarget? || m.ActiveRejected?
    ensures s.phase.ready[0] in s.clients && Exec(s, Handle(m)).Ok?
    ensures var c := s.phase.ready[0];
            var cl, t := s.clients[c], Exec(s, Handle(m)).state;
            OnlyReplied(s, t, c, AfterCommand(s, cl, m)) &&
            (forall fd :: fd in t.fds <==>
               (m.Passive? && fd == m.fd) || (fd in s.fds && (fd == cl.pasvFd ==> m.ActiveRejected?)))
  {
    ReachableInv(s);
    var c := Served(s);
    SetUpMeans(s, m, c);
    match m {
      case Passive(fd) => PassiveForm(s, Some(fd));
      case PassiveFails => PassiveForm(s, None);
      case ActiveTarget(addr) => ActiveForm(s, addr);
      case ActiveRejected(addr) => RejectedForm(s, addr);
    }
  }

  /** A new connection is registered, polled and greeted, or leaves no trace. */
  lemma Admitted(s: State, fd: int, peer: Addr, polled: bool)
    requires Reachable(s) && Possible(s, Accept(fd, peer, polled))
    ensures Exec(s, Accept(fd, peer, polled)).Ok?
    ensures var t := Exec(s, Accept(fd, peer, polled)).state;
            if polled then
              s.next !in s.clients && s.next !in s.log &&
              t.clients == s.clients[s.next := Client(1, 1, fd, peer, None, false, NO_FD, false, OtherFamily(0), false)] &&
              t.registry == [s.next] + s.registry && t.log == s.log[s.next := [Line]] &&
              t.fds == s.fds[fd := Control(s.next)] && t.jobs == s.jobs
            else t == s.(next := s.next + 1)
  {
    ReachableInv(s);
    NextFresh(s);
    if polled {
      AcceptForm(s, fd, peer);
    } else {
      AcceptRefusedOk(s, fd, peer);
    }
  }

  /** A hang-up closes the client's descriptors and no others, and takes it off the registry. */
  lemma HangupEnds(s: State, e: Step, c: ClientId)
    requires Reachable(s) && Possible(s, e) && HangsUpOn(s, e) == Some(c)
    ensures c in s.clients && c in s.log && Exec(s, e).Ok?
    ensures var t := Exec(s, e).state;
            t.registry == Without(s.registry, c) && t.log == s.log[c := s.log[c] + [Hangup]] &&
            t.fds == s.fds - {s.clients[c].fd, s.clients[c].pasvFd}
  {
    ReachableInv(s);
    if e.DropFirst? {
      Live(s, c);
      DisconnectForm(s, c);
    } else {
      var _ := Served(s);
      NextReadyInv(s);
      DisconnectForm(s.(phase := Events(s.phase.ready[1..])), c);
    }
    assert s.fds - {s.clients[c].pasvFd} - {s.clients[c].fd} == s.fds - {s.clients[c].fd, s.clients[c].pasvFd};
  }

  /** ABOR is answered at once if nothing is active, and otherwise after the completion reply. */
  lemma AborHeard(s: State)
    requires Reachable(s) && s.phase.Events? && s.phase.ready != []
    ensures s.phase.ready[0] in s.clients && s.phase.ready[0] in s.log && Exec(s, Handle(Abor)).Ok?
    ensures var c := s.phase.ready[0];
            var t := Exec(s, Handle(Abor)).state;
            t.log == s.log[c := s.log[c] + if s.clients[c].job.Some? then [AborSeen] else [AborSeen, AbortOk]] &&
            (forall j :: j in s.jobs ==>
               j in t.jobs &&
               t.jobs[j] == if s.clients[c].job == Some(j) then s.jobs[j].(cancelled := true) else s.jobs[j])
  {
    ReachableInv(s);
    AborMeans(s, s.phase.ready[0]);
    AborFlags(s, s.phase.ready[0]);
  }

  lemma AborFlags(s: State, c: ClientId)
    requires Inv(s) && s.phase.Events? && s.phase.ready != [] && c == s.phase.ready[0]
    ensures c in s.clients && ExecHandle(s, Abor).Ok?
    ensures var jobs := ExecHandle(s, Abor).state.jobs;
            forall j :: j in s.jobs ==>
              j in jobs && jobs[j] == if s.clients[c].job == Some(j) then s.jobs[j].(cancelled := true) else s.jobs[j]
  {
    AborForm(s);
    FlagOnly(s.jobs, s.clients[c].job);
  }
}
