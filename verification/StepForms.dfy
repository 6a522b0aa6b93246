/** The state each step of the reactor leads to, written out. */
module StepForms {
  import opened Common
  import opened Addresses
  import opened ServerState
  import opened ServerSteps
  import opened ServerInvariant
  import opened CountProofs
  import opened DescriptorProofs
  import opened LinkProofs
  import opened ReactorProofs
  import opened DispatchProofs
  import opened RetireProofs

  /** A log with one more entry for c. */
  function Wrote(log: map<ClientId, seq<Event>>, c: ClientId, es: seq<Event>): map<ClientId, seq<Event>> {
    log[c := (if c in log then log[c] else []) + es]
  }

  function Flag(jobs: map<JobId, Job>, which: Option<JobId>): map<JobId, Job> {
    if which.Some? && which.value in jobs then jobs[which.value := jobs[which.value].(cancelled := true)] else jobs
  }

  // ---- commands ----

  /** The client being served is registered, and a line sent to it is written. */
  lemma Served(s: State) returns (c: ClientId)
    requires Inv(s) && s.phase.Events? && s.phase.ready != []
    ensures c == s.phase.ready[0] && c in s.registry && c in s.clients && c in s.log
    ensures s.clients[c].fd >= 0 && ClientBacked(s.clients[c], c, s.fds)
    ensures forall fd :: fd in s.fds ==> fd >= 0
  {
    c := s.phase.ready[0];
    ReadyHead(s);
    Live(s, c);
  }

  lemma SimpleForm(s: State)
    requires Inv(s) && s.phase.Events? && s.phase.ready != []
    ensures ExecHandle(s, Simple) == Ok(s.(log := Wrote(s.log, s.phase.ready[0], [Line])))
  {
    var c := Served(s);
    SendForm(s, c, Line);
  }

  lemma AborForm(s: State)
    requires Inv(s) && s.phase.Events? && s.phase.ready != []
    ensures var c := s.phase.ready[0];
            c in s.clients &&
            (s.clients[c].job.Some? ==> s.clients[c].job.value in s.jobs) &&
            ExecHandle(s, Abor) ==
            if s.clients[c].job.Some? then
              Ok(s.(jobs := Flag(s.jobs, s.clients[c].job), clients := s.clients[c := s.clients[c].(aborPending := true)],
                    log := Wrote(s.log, c, [AborSeen])))
            else Ok(s.(log := Wrote(s.log, c, [AborSeen, AbortOk])))
  {
    var c := Served(s);
    if s.clients[c].job.Some? {
      LiveJob(s, c);
      CancelOk(s, s.clients[c].job.value);
    } else {
      AborIdleForm(s, c);
    }
  }

  lemma PassiveForm(s: State, bound: Option<int>)
    requires Inv(s) && s.phase.Events? && s.phase.ready != []
    requires bound.Some? ==> CommandPossible(s, s.phase.ready[0], Passive(bound.value))
    ensures var c := s.phase.ready[0];
            c in s.clients &&
            var cl := s.clients[c];
            var fds := s.fds - {cl.pasvFd};
            ExecPassive(s, c, bound) ==
            if bound.Some? then
              Ok(s.(clients := s.clients[c := cl.(pasvFd := bound.value, haveDataPeer := false)],
                    fds := fds[bound.value := Listener(c)], log := Wrote(s.log, c, [Line])))
            else
              Ok(s.(clients := s.clients[c := cl.(pasvFd := NO_FD)], fds := fds, log := Wrote(s.log, c, [Line])))
  {
    var c := Served(s);
    var cl := s.clients[c];
    DropListenerForm(s, c);
    ControlKept(s, c);
    var cl0 := cl.(pasvFd := NO_FD);
    if bound.Some? {
      var cl1 := cl.(pasvFd := bound.value, haveDataPeer := false);
      assert s.clients[c := cl0][c := cl1] == s.clients[c := cl1];
      SendForm(s.(clients := s.clients[c := cl1], fds := (s.fds - {cl.pasvFd})[bound.value := Listener(c)]), c, Line);
    } else {
      SendForm(s.(clients := s.clients[c := cl0], fds := s.fds - {cl.pasvFd}), c, Line);
    }
  }

  /** The control descriptor is not the listener's. */
  lemma ControlKept(s: State, c: ClientId)
    requires c in s.clients && s.clients[c].fd >= 0 && ClientBacked(s.clients[c], c, s.fds)
    ensures Backed(s.fds - {s.clients[c].pasvFd}, s.clients[c].fd, Control(c))
    ensures s.clients[c].fd != s.clients[c].pasvFd
  {
  }

  lemma ActiveForm(s: State, addr: Addr)
    requires Inv(s) && s.phase.Events? && s.phase.ready != []
    ensures var c := s.phase.ready[0];
            c in s.clients &&
            ExecActive(s, c, addr) ==
            Ok(s.(clients := s.clients[c := s.clients[c].(pasvFd := NO_FD, haveDataPeer := true, dataPeer := addr)],
                  fds := s.fds - {s.clients[c].pasvFd}, log := Wrote(s.log, c, [Line])))
  {
    var c := Served(s);
    var cl0 := s.clients[c].(pasvFd := NO_FD);
    var cl1 := cl0.(haveDataPeer := true, dataPeer := addr);
    DropListenerForm(s, c);
    ControlKept(s, c);
    assert s.clients[c := cl0][c := cl1] == s.clients[c := cl1];
    SendForm(s.(clients := s.clients[c := cl1], fds := s.fds - {s.clients[c].pasvFd}), c, Line);
  }

  lemma RejectedForm(s: State, addr: Addr)
    requires Inv(s) && s.phase.Events? && s.phase.ready != []
    ensures var c := s.phase.ready[0];
            c in s.clients &&
            ExecHandle(s, ActiveRejected(addr)) ==
            Ok(s.(clients := s.clients[c := s.clients[c].(dataPeer := addr)], log := Wrote(s.log, c, [Line])))
  {
    var c := Served(s);
    SendForm(s.(clients := s.clients[c := s.clients[c].(dataPeer := addr)]), c, Line);
  }

  // ---- starting a transfer ----

  function Queued(s: State, c: ClientId, op: JobOp, pipe: (int, int)): State
    requires c in s.clients && s.phase.Events?
  {
    var cl := s.clients[c];
    s.(jobs := s.jobs[s.next := JobFor(c, cl, op, pipe)],
       clients := s.clients[c := ClientAfter(cl, op).(refs := cl.refs + 1)],
       next := s.next + 1, fds := FdsAfter(s.fds, cl, op, pipe, s.next),
       queue := s.queue + [s.next], phase := Dispatched(s.next, s.phase.ready))
  }

  function Refused(s: State, c: ClientId, op: JobOp): State
    requires c in s.clients
  {
    var cl := s.clients[c];
    s.(clients := s.clients[c := ClientAfter(cl, op)], next := s.next + 1,
       fds := s.fds - {if op != Copy then cl.pasvFd else NO_FD}, log := Wrote(s.log, c, [Line]))
  }

  lemma LaunchForm(s: State, op: JobOp, pipe: (int, int))
    requires Inv(s) && s.phase.Events? && s.phase.ready != [] && FreshPipe(s, Some(pipe))
    ensures var c := s.phase.ready[0];
            c in s.clients &&
            Launch(s, c, op, pipe) == Ok(if |s.queue| < QueueCap(s) then Queued(s, c, op, pipe) else Refused(s, c, op))
  {
    var c := Served(s);
    NewJobForm(s, c, op, pipe);
    if |s.queue| >= QueueCap(s) {
      NextFresh(s);
      Positive(s, c);
      LaunchRefusedForm(s, c, op, pipe);
      ControlKept(s, c);
      SendForm(s.(clients := s.clients[c := ClientAfter(s.clients[c], op)], next := s.next + 1,
                  fds := s.fds - {if op != Copy then s.clients[c].pasvFd else NO_FD}), c, Line);
    }
  }

  // ---- connections ----

  lemma DisconnectForm(s: State, c: ClientId)
    requires Inv(s) && c in s.registry
    ensures c in s.clients
    ensures Disconnect(s, c) ==
            Ok(s.(jobs := Flag(s.jobs, s.clients[c].job),
                  clients := Drop(s.clients[c := HungUp(s.clients[c])], c), registry := Without(s.registry, c),
                  polled := s.polled - {c}, fds := s.fds - {s.clients[c].pasvFd} - {s.clients[c].fd},
                  log := Wrote(s.log, c, [Hangup])))
  {
    Live(s, c);
    if s.clients[c].job.Some? {
      LiveJob(s, c);
      CancelOk(s, s.clients[c].job.value);
      HangupActiveForm(s, c, s.clients[c].job.value);
    } else {
      HangupForm(s, c);
    }
  }

  // ---- worker output ----

  lemma DrainedForm(s: State)
    requires Inv(s) && s.phase.Replies? && s.phase.replyBatch != []
    ensures var r := s.phase.replyBatch[0];
            r in s.replies && s.replies[r].client in s.clients &&
            var c := s.replies[r].client;
            ExecDrainReply(s) ==
            Ok(s.(clients := Drop(s.clients, c), replies := s.replies - {r},
                  log := if s.clients[c].generation == s.replies[r].generation && c in s.registry
                         then Wrote(s.log, c, [Line]) else s.log,
                  phase := Replies(s.phase.replyBatch[1..])))
  {
    ReplyFacts(s);
    var r := s.phase.replyBatch[0];
    var c := s.replies[r].client;
    if s.clients[c].refs == 1 {
      SoleHolder(s, c);
    }
    if c in s.registry {
      Live(s, c);
    } else {
      Unregistered(s.clients, s.registry, Ready(s.phase), c);
    }
    DrainForm(s, r, c, s.clients[c].generation == s.replies[r].generation && c in s.registry);
  }

  lemma CompletedForm(s: State)
    requires Inv(s) && s.phase.Completions? && s.phase.jobBatch != []
    ensures var j := s.phase.jobBatch[0];
            j in s.jobs && s.jobs[j].client in s.clients &&
            var c := s.jobs[j].client;
            var live := s.jobs[j].generation == s.clients[c].generation;
            (live ==> c in s.registry && c in s.log) &&
            ExecComplete(s) ==
            Ok(s.(clients := Drop(if live then s.clients[c := Answered(s.clients[c])] else s.clients, c),
                  jobs := s.jobs - {j}, fds := s.fds - JobFds(s.jobs[j]),
                  log := if live then Wrote(s.log, c, Answers(s, j)) else s.log,
                  phase := Completions(s.phase.jobBatch[1..])))
  {
    CompletionFacts(s);
    var j := s.phase.jobBatch[0];
    var c := s.jobs[j].client;
    JobBackedOf(s, j);
    CloseJobFdsOk(s, j);
    if s.clients[c].refs == 1 {
      SoleHolder(s, c);
    }
    var live := s.jobs[j].generation == s.clients[c].generation;
    if live {
      CurrentIsLive(s, j);
    }
    CompleteForm(s, j, c, live);
  }
}
