/**
 What holds of every run of the server: any number of workers, any interleaving of reactor and
 worker steps, any behaviour of clients, network and file system.
 */
module ServerTheorems {
  import opened Common
  import opened Addresses
  import opened ServerState
  import opened ServerSteps
  import opened ServerInvariant
  import opened PlaceProofs
  import opened LinkProofs
  import opened WorkerProofs
  import opened ReactorProofs
  import opened DispatchProofs
  import opened RetireProofs
  import opened StepForms

  // ---- one step ----

  lemma CollectRepliesOk(s: State)
    requires Inv(s) && s.phase.Waiting?
    ensures Inv(s.(phase := Replies(s.fifo), fifo := []))
  {
    CollectReplies(s.replies.Keys, s.workers, s.fifo);
    var phase := Replies(s.fifo);
    assert Ready(phase) == [] && Pending(phase) == None && JobBatch(phase) == [] && ReplyBatch(phase) == s.fifo;
  }

  lemma CollectCompletionsOk(s: State)
    requires Inv(s) && s.phase.Waiting?
    ensures Inv(s.(phase := Completions(s.posted), posted := []))
  {
    CollectPlaces(s.jobs.Keys, s.queue, s.workers, s.posted);
    ExplainedCollect(s.jobs, s.posted);
    var phase := Completions(s.posted);
    assert Ready(phase) == [] && Pending(phase) == None && JobBatch(phase) == s.posted && ReplyBatch(phase) == [];
  }

  lemma ExplainedCollect(jobs: map<JobId, Job>, posted: seq<JobId>)
    requires Explained(jobs, posted, [])
    ensures Explained(jobs, [], posted)
  {
    assert Unfold(0);
  }

  lemma CollectEventsOk(s: State, users: seq<ClientId>)
    requires Inv(s) && s.phase.Waiting?
    requires Elems(users) <= s.polled && |Elems(users)| == |users|
    ensures Inv(s.(phase := Events(users)))
  {
    DistinctIfFull(users);
    PolledRegistered(s);
    RegisteredReady(s.clients, s.registry, users);
    EnterEvents(s, users);
  }

  lemma EnterEvents(s: State, users: seq<ClientId>)
    requires Inv(s) && s.phase.Waiting? && Registered(s.clients, s.registry, users)
    ensures Inv(s.(phase := Events(users)))
  {
    var phase := Events(users);
    assert Ready(phase) == users && Pending(phase) == None && JobBatch(phase) == [] && ReplyBatch(phase) == [];
  }

  lemma PolledRegistered(s: State)
    requires Watched(s.polled, s.registry)
    ensures s.polled == Elems(s.registry)
  {
    assert Unfold(0);
  }

  lemma RegisteredReady(clients: map<ClientId, Client>, registry: seq<ClientId>, users: seq<ClientId>)
    requires Registered(clients, registry, []) && NoDup(users) && Elems(users) <= Elems(registry)
    ensures Registered(clients, registry, users)
  {
    assert Unfold(0);
    assert forall c :: c in users ==> c in Elems(users);
  }

  lemma SnapshotOk(s: State)
    requires Inv(s)
    ensures ExecSnapshot(s) == Ok(s)
  {
    assert Unfold(0);
  }

  lemma HandleOk(s: State, m: Command)
    requires Inv(s) && s.phase.Events? && s.phase.ready != [] && CommandPossible(s, s.phase.ready[0], m)
    ensures ExecHandle(s, m).Ok? && Inv(ExecHandle(s, m).state)
  {
    ReadyHead(s);
    var c := s.phase.ready[0];
    Live(s, c);
    match m {
      case Simple => ReplyOk(s, c);
      case Abor =>
        if s.clients[c].job.Some? {
          AborActiveOk(s, c);
        } else {
          AborIdleOk(s, c);
        }
      case Passive(fd) => PassiveOk(s, c, Some(fd));
      case PassiveFails => PassiveOk(s, c, None);
      case ActiveTarget(addr) => ActiveOk(s, c, addr);
      case ActiveRejected(addr) => RejectedOk(s, c, addr);
      case Transfer(op, pipe) => TransferOk(s, c, op, pipe);
      case CopyTo(valid, pipe) => CopyToOk(s, c, valid, pipe);
      case Leave => LeaveOk(s, c);
    }
  }

  predicate ConnectionStep(e: Step) {
    e.Accept? || e.EndEvents? || e.DropFirst?
  }

  lemma ConnectionStepSafe(s: State, e: Step)
    requires Inv(s) && Possible(s, e) && ConnectionStep(e)
    ensures Exec(s, e).Ok? && Inv(Exec(s, e).state)
  {
    if e.Accept? {
      if e.polled {
        AcceptOk(s, e.fd, e.peer);
      } else {
        AcceptRefusedOk(s, e.fd, e.peer);
      }
    } else if e.EndEvents? {
      EndEventsOk(s);
    } else {
      DisconnectOk(s, s.registry[0]);
    }
  }

  predicate DrainStep(e: Step) {
    e.TakeReplies? || e.DrainReply? || e.TakeCompletions? || e.Complete? || e.Snapshot?
  }

  lemma DrainStepSafe(s: State, e: Step)
    requires Inv(s) && Possible(s, e) && DrainStep(e)
    ensures Exec(s, e).Ok? && Inv(Exec(s, e).state)
  {
    if e.TakeReplies? {
      CollectRepliesOk(s);
    } else if e.DrainReply? {
      DrainReplyOk(s);
    } else if e.TakeCompletions? {
      CollectCompletionsOk(s);
    } else if e.Complete? {
      CompleteOk(s);
    } else {
      SnapshotOk(s);
    }
  }

  predicate EventStep(e: Step) {
    e.Collect? || e.Handle? || e.FinishDispatch?
  }

  lemma EventStepSafe(s: State, e: Step)
    requires Inv(s) && Possible(s, e) && EventStep(e)
    ensures Exec(s, e).Ok? && Inv(Exec(s, e).state)
  {
    if e.Collect? {
      CollectEventsOk(s, e.users);
    } else if e.Handle? {
      HandleOk(s, e.command);
    } else {
      FinishDispatchOk(s);
    }
  }

  predicate DataStep(e: Step) {
    e.AcceptData? || e.ConnectData? || e.Post?
  }

  lemma DataStepSafe(s: State, e: Step)
    requires Inv(s) && Possible(s, e) && DataStep(e)
    ensures Exec(s, e).Ok? && Inv(Exec(s, e).state)
  {
    if e.AcceptData? {
      AcceptDataOk(s, e.w, e.fd, e.from);
    } else if e.ConnectData? {
      ConnectDataOk(s, e.w, e.fd, e.established);
    } else {
      PostNotedOk(s, e.w, e.result);
    }
  }

  predicate LineStep(e: Step) {
    e.Take? || e.Stamp? || e.Retain? || e.Push?
  }

  lemma LineStepSafe(s: State, e: Step)
    requires Inv(s) && Possible(s, e) && LineStep(e)
    ensures Exec(s, e).Ok? && Inv(Exec(s, e).state)
  {
    if e.Take? {
      TakeOk(s, e.w);
    } else if e.Stamp? {
      StampOk(s, e.w);
    } else if e.Retain? {
      RetainOk(s, e.w);
    } else {
      PushOk(s, e.w);
    }
  }

  /** No step from a good state touches freed memory, closes or writes a descriptor it does not
      hold, or leaves the good states. */
  lemma StepSafe(s: State, e: Step)
    requires Inv(s) && Possible(s, e)
    ensures Exec(s, e).Ok? && Inv(Exec(s, e).state)
  {
    if ConnectionStep(e) {
      ConnectionStepSafe(s, e);
    } else if DrainStep(e) {
      DrainStepSafe(s, e);
    } else if EventStep(e) {
      EventStepSafe(s, e);
    } else if DataStep(e) {
      DataStepSafe(s, e);
    } else {
      LineStepSafe(s, e);
    }
  }

  // ---- whole runs ----

  /** Every step is one its thread could take at that point. */
  predicate Feasible(s: State, run: seq<Step>)
    decreases |run|
  {
    run == [] ||
    (Possible(s, run[0]) && (Exec(s, run[0]).Ok? ==> Feasible(Exec(s, run[0]).state, run[1..])))
  }

  function Execute(s: State, run: seq<Step>): Outcome
    requires Feasible(s, run)
    decreases |run|
  {
    if run == [] then Ok(s)
    else
      var s1 :- Exec(s, run[0]);
      Execute(s1, run[1..])
  }

  lemma {:induction false} RunSafe(s: State, run: seq<Step>)
    requires Inv(s) && Feasible(s, run)
    ensures Execute(s, run).Ok? && Inv(Execute(s, run).state)
    decreases |run|
  {
    if run != [] {
      StepSafe(s, run[0]);
      RunSafe(Exec(s, run[0]).state, run[1..]);
    }
  }

  /** The states some run of some server reaches. */
  ghost predicate Reachable(s: State) {
    exists workers: nat, foreign: bool, run: seq<Step> ::
      Feasible(Init(workers, foreign), run) && Execute(Init(workers, foreign), run) == Ok(s)
  }

  lemma ReachableInv(s: State)
    requires Reachable(s)
    ensures Inv(s)
  {
    var workers: nat, foreign: bool, run: seq<Step> :|
      Feasible(Init(workers, foreign), run) && Execute(Init(workers, foreign), run) == Ok(s);
    InitInv(workers, foreign);
    RunSafe(Init(workers, foreign), run);
  }

  /** Memory and descriptor safety of every run. */
  lemma NoRunCrashes(workers: nat, foreign: bool, run: seq<Step>)
    requires Feasible(Init(workers, foreign), run)
    ensures Execute(Init(workers, foreign), run).Ok?
  {
    InitInv(workers, foreign);
    RunSafe(Init(workers, foreign), run);
  }

  // ---- references ----

  /** The counter is the number of references, and a client is allocated exactly while it has one. */
  lemma ReferencesExact(s: State, c: ClientId)
    requires Reachable(s)
    ensures c in s.clients ==> s.clients[c].refs == Holders(s.registry, s.jobs, s.replies, c)
    ensures c in s.clients <==> Holders(s.registry, s.jobs, s.replies, c) > 0
  {
    ReachableInv(s);
    assert Unfold(0);
    if c !in s.clients {
      assert JobsOf(s.jobs, c) == {};
      assert RepliesOf(s.replies, c) == {};
    }
  }

  /** The poll set holds uncounted pointers; they are always those of the registered clients. */
  lemma PollSetIsRegistry(s: State, c: ClientId)
    requires Reachable(s)
    ensures c in s.polled <==> c in s.registry
    ensures c in s.polled ==> c in s.clients && s.clients[c].fd >= 0
  {
    ReachableInv(s);
    assert Unfold(0);
  }

  function Places(queue: seq<JobId>, ws: seq<Worker>, posted: seq<JobId>, batch: seq<JobId>, j: JobId): nat {
    (if j in queue then 1 else 0) + |set i | 0 <= i < |ws| && !ws[i].Idle? && ws[i].job == j| +
    (if j in posted then 1 else 0) + (if j in batch then 1 else 0)
  }

  lemma PlacedOnce(jobs: set<JobId>, queue: seq<JobId>, ws: seq<Worker>, posted: seq<JobId>, batch: seq<JobId>,
                   j: JobId)
    requires JobsPlaced(jobs, queue, ws, posted, batch)
    ensures Places(queue, ws, posted, batch, j) == if j in jobs then 1 else 0
  {
    assert Unfold(0);
    var at := set i | 0 <= i < |ws| && !ws[i].Idle? && ws[i].job == j;
    if Runs(ws, j) {
      var i :| 0 <= i < |ws| && !ws[i].Idle? && ws[i].job == j;
      assert at == {i};
    } else {
      assert at == {};
    }
  }

  /** A job is queued, running on one worker, posted, or being completed: always exactly one of
      these while it is allocated and none afterwards. */
  lemma JobInOnePlace(s: State, j: JobId)
    requires Reachable(s)
    ensures Places(s.queue, s.workers, s.posted, JobBatch(s.phase), j) == if j in s.jobs then 1 else 0
  {
    ReachableInv(s);
    PlacedOnce(s.jobs.Keys, s.queue, s.workers, s.posted, JobBatch(s.phase), j);
  }

  // ---- pointers and generations ----

  /** The in-flight jobs that carry the client's current generation. */
  function Current(clients: map<ClientId, Client>, jobs: map<JobId, Job>, c: ClientId): set<JobId>
    requires c in clients
  {
    set j | j in jobs && jobs[j].client == c && jobs[j].generation == clients[c].generation
  }

  lemma CurrentIsPointed(clients: map<ClientId, Client>, jobs: map<JobId, Job>, registry: seq<ClientId>,
                         pending: Option<JobId>, c: ClientId)
    requires Pointed(clients, jobs, registry, pending) && c in clients
    ensures clients[c].job.Some? ==> Current(clients, jobs, c) == {clients[c].job.value}
    ensures clients[c].job.None? ==> Current(clients, jobs, c) <= (if pending.Some? then {pending.value} else {})
  {
    assert Unfold(0);
  }

  /** Outside the instant between dispatch and assignment, the job pointer is set exactly when one
      job of the current generation is in flight, and it is that job; a client that has hung up has
      none. */
  lemma PointerMatchesGeneration(s: State, c: ClientId)
    requires Reachable(s) && c in s.clients && !s.phase.Dispatched?
    ensures Current(s.clients, s.jobs, c) == if s.clients[c].job.Some? then {s.clients[c].job.value} else {}
    ensures c !in s.registry ==> s.clients[c].job.None?
  {
    ReachableInv(s);
    CurrentIsPointed(s.clients, s.jobs, s.registry, Pending(s.phase), c);
    if c !in s.registry {
      Unregistered(s.clients, s.registry, Ready(s.phase), c);
    }
  }

  /** At that instant too there is never more than one. */
  lemma AtMostOneTransfer(s: State, c: ClientId)
    requires Reachable(s) && c in s.clients
    ensures |Current(s.clients, s.jobs, c)| <= 1
  {
    ReachableInv(s);
    CurrentIsPointed(s.clients, s.jobs, s.registry, Pending(s.phase), c);
    var now := Current(s.clients, s.jobs, c);
    if s.clients[c].job.None? && now != {} {
      assert Pending(s.phase).Some?;
      assert now == {Pending(s.phase).value};
    }
  }

  // ---- descriptors ----

  /** Open descriptors and holders correspond one to one: nothing leaks, nothing is shared, and no
      holder keeps the number of a closed descriptor. */
  lemma DescriptorsHeldOnce(s: State, o: Owner, p: Owner, fd: int)
    requires Reachable(s)
    ensures fd in s.fds <==> fd >= 0 && exists h :: Slot(s.clients, s.jobs, h) == fd
    ensures Slot(s.clients, s.jobs, o) == Slot(s.clients, s.jobs, p) >= 0 ==> o == p
  {
    ReachableInv(s);
    HolderBacked(s, o);
    HolderBacked(s, p);
    if fd in s.fds {
      OpenIsHeld(s, fd);
    } else if h :| fd >= 0 && Slot(s.clients, s.jobs, h) == fd {
      HolderBacked(s, h);
    }
  }

  lemma HolderBacked(s: State, o: Owner)
    requires Owned(s.clients, s.jobs, s.fds)
    ensures Backed(s.fds, Slot(s.clients, s.jobs, o), o)
  {
    assert Unfold(0);
  }

  lemma OpenIsHeld(s: State, fd: int)
    requires Owned(s.clients, s.jobs, s.fds) && fd in s.fds
    ensures fd >= 0 && Slot(s.clients, s.jobs, s.fds[fd]) == fd
  {
    assert Unfold(0);
  }

  // ---- data-channel peers ----

  lemma EqualNormals(a: Addr, b: Addr)
    requires AddrEq(a, b) || AddrEq(b, a)
    ensures Normal(a) == Normal(b)
  {
  }

  /** Unless foreign ports are allowed, an established data connection ends at the host that holds
      the control connection; and a client never has two data-channel set-ups at once. */
  lemma NoForeignDataConnection(s: State, j: JobId, c: ClientId)
    requires Reachable(s)
    ensures j in s.jobs && s.jobs[j].connOk && !s.allowForeignPort ==>
              s.jobs[j].endpoint.Some? && s.jobs[j].client in s.clients &&
              Normal(s.jobs[j].endpoint.value) == Normal(s.clients[s.jobs[j].client].peer)
    ensures c in s.clients ==> !(s.clients[c].pasvFd >= 0 && s.clients[c].haveDataPeer)
  {
    ReachableInv(s);
    assert Unfold(0);
    if j in s.jobs && s.jobs[j].connOk && !s.allowForeignPort {
      EqualNormals(s.jobs[j].ctlPeer, s.jobs[j].endpoint.value);
    }
  }

  // ---- dialogues ----

  lemma DialogueKept(s: State, c: ClientId)
    requires Reachable(s) && c in s.log
    ensures Follow(s.log[c]) == Expected(s.clients, s.registry, c)
    ensures Follow(s.log[c]) != Broken
  {
    ReachableInv(s);
    assert Unfold(0);
  }

  /** `k` opens job `j`, and up to `i` nothing but other lines and ABOR requests follow. */
  ghost predicate OpenSince(log: seq<Event>, k: int, i: int, j: JobId) {
    0 <= k < i <= |log| && Opens(log[k], j) && (forall m :: k < m < i ==> log[m] == Line || log[m] == AborSeen)
  }

  lemma {:induction false} ActiveSince(log: seq<Event>, j: JobId) returns (k: nat)
    requires Follow(log).Active? && Follow(log).job == j
    ensures OpenSince(log, k, |log|, j)
    ensures Follow(log).aborted <==> exists m :: k < m < |log| && log[m] == AborSeen
  {
    var n := |log| - 1;
    var before := log[..n];
    if Opens(log[n], j) && !Follow(before).Active? {
      k := n;
    } else {
      k := ActiveSince(before, j);
      assert forall m :: 0 <= m < n ==> before[m] == log[m];
      if Follow(before).aborted {
        var m :| k < m < |before| && before[m] == AborSeen;
        assert log[m] == AborSeen;
      }
    }
  }

  lemma {:induction false} FollowPrefix(log: seq<Event>, i: nat)
    requires Follow(log) != Broken && i <= |log|
    ensures Follow(log[..i]) != Broken
    ensures i < |log| ==> Follow(log[..i]) != Gone
    decreases |log|
  {
    if i < |log| {
      var before := log[..|log| - 1];
      assert before[..i] == log[..i];
      if i < |before| {
        FollowPrefix(before, i);
      } else {
        assert log[..i] == before;
      }
    } else {
      assert log[..i] == log;
    }
  }

  /** A completion reply finds its job active, and "226 Abort successful." comes next exactly if
      ABOR had been seen. */
  lemma AtFinal(log: seq<Event>, i: nat, j: JobId, code: nat)
    requires Follow(log) != Broken && i < |log| && log[i] == Final(j, code)
    ensures Follow(log[..i]).Active? && Follow(log[..i]).job == j
    ensures i + 1 < |log| ==> (log[i + 1] == AbortOk <==> Follow(log[..i]).aborted)
    ensures i + 1 == |log| && Follow(log) != OwesAbortOk ==> !Follow(log[..i]).aborted
  {
    FollowPrefix(log, i + 1);
    assert log[..i + 1][..i] == log[..i];
    if i + 1 == |log| {
      assert log[..i + 1] == log;
    } else {
      FollowPrefix(log, i + 2);
      assert log[..i + 2][..i + 1] == log[..i + 1];
    }
  }

  /** "226 Abort successful." follows the completion reply at `i`. */
  predicate AbortConfirmed(log: seq<Event>, i: nat) {
    i + 1 < |log| && log[i + 1] == AbortOk
  }

  lemma AnswersStart(log: seq<Event>, i: nat, j: JobId, code: nat) returns (k: nat)
    requires Follow(log) != Broken && Follow(log) != OwesAbortOk && i < |log| && log[i] == Final(j, code)
    ensures OpenSince(log, k, i, j)
    ensures AbortConfirmed(log, i) <==> exists m :: k < m < i && log[m] == AborSeen
  {
    AtFinal(log, i, j, code);
    var before := log[..i];
    k := ActiveSince(before, j);
    assert forall m :: 0 <= m < i ==> before[m] == log[m];
    assert (exists m :: k < m < i && log[m] == AborSeen) <==> (exists m :: k < m < i && before[m] == AborSeen);
  }

  /** Every completion reply answers an earlier acceptance of the same job, with no other transfer
      event in between; and "226 Abort successful." has been written after it exactly when ABOR
      arrived in between. */
  lemma FinalAnswersOneStart(s: State, c: ClientId, i: nat, j: JobId, code: nat)
    requires Reachable(s) && c in s.log && i < |s.log[c]| && s.log[c][i] == Final(j, code)
    ensures exists k: nat :: OpenSince(s.log[c], k, i, j) &&
              (AbortConfirmed(s.log[c], i) <==> exists m :: k < m < i && s.log[c][m] == AborSeen)
  {
    DialogueKept(s, c);
    var log := s.log[c];
    var k := AnswersStart(log, i, j, code);
  }

  lemma {:induction false} OpeningCounts(log: seq<Event>, i: nat, j: JobId)
    requires i < |log| && Opens(log[i], j)
    ensures Openings(log, j) >= 1 + Openings(log[..i], j)
  {
    var n := |log| - 1;
    if i < n {
      OpeningCounts(log[..n], i, j);
      assert log[..n][..i] == log[..i];
    }
  }

  lemma OpenedOnce(log: seq<Event>, next: nat, pending: Option<JobId>, j: JobId, i: nat, k: nat)
    requires OpensOnce(log, next, pending) && k < i < |log| && Opens(log[k], j)
    ensures !Opens(log[i], j)
  {
    if Opens(log[i], j) {
      OpeningCounts(log, i, j);
      OpeningCounts(log[..i], k, j);
    }
  }

  lemma FinalOnce(log: seq<Event>, next: nat, pending: Option<JobId>, j: JobId, i: nat, k: nat, code: nat, code': nat)
    requires OpensOnce(log, next, pending) && Follow(log) != Broken && Follow(log) != OwesAbortOk
    requires k < i < |log| && log[k] == Final(j, code)
    ensures log[i] != Final(j, code')
  {
    if log[i] == Final(j, code') {
      var k0 := AnswersStart(log, k, j, code);
      var k1 := AnswersStart(log, i, j, code');
      assert k0 < k < k1;
      OpenedOnce(log, next, pending, j, k1, k0);
    }
  }

  /** A job is accepted at most once and answered at most once. */
  lemma OneStartOneFinal(s: State, c: ClientId, j: JobId, i: nat, k: nat, code: nat, code': nat)
    requires Reachable(s) && c in s.log && k < i < |s.log[c]|
    ensures !(Opens(s.log[c][k], j) && Opens(s.log[c][i], j))
    ensures !(s.log[c][k] == Final(j, code) && s.log[c][i] == Final(j, code'))
  {
    StartedOnce(s, c);
    DialogueKept(s, c);
    var log := s.log[c];
    if Opens(log[k], j) {
      OpenedOnce(log, s.next, Pending(s.phase), j, i, k);
    }
    if log[k] == Final(j, code) && log[i] == Final(j, code') {
      FinalOnce(log, s.next, Pending(s.phase), j, i, k, code, code');
    }
  }

  lemma StartedOnce(s: State, c: ClientId)
    requires Reachable(s) && c in s.log
    ensures OpensOnce(s.log[c], s.next, Pending(s.phase))
  {
    ReachableInv(s);
    assert Unfold(0);
  }

  // ---- replies, step by step ----

  /** Once a data transfer is queued its 150 is written next, whether the job is still waiting,
      running, or already posted by its worker. */
  lemma PreliminaryWritten(s: State)
    requires Reachable(s) && s.phase.Dispatched?
    ensures s.phase.rest != [] && s.phase.newJob in s.jobs && s.phase.rest[0] in s.log
    ensures var c := s.phase.rest[0];
            var j := s.phase.newJob;
            Exec(s, FinishDispatch).Ok? &&
            Exec(s, FinishDispatch).state.log ==
            s.log[c := s.log[c] + [if s.jobs[j].op == Copy then CopyBegun(j) else Preliminary(j)]] &&
            c in Exec(s, FinishDispatch).state.clients &&
            Exec(s, FinishDispatch).state.clients[c].job == Some(j)
  {
    ReachableInv(s);
    DispatchEnds(s);
  }

  lemma DispatchEnds(s: State)
    requires Inv(s) && s.phase.Dispatched?
    ensures s.phase.rest != [] && s.phase.newJob in s.jobs && s.phase.rest[0] in s.log && s.phase.rest[0] in s.clients
    ensures var c, j := s.phase.rest[0], s.phase.newJob;
            var e := if s.jobs[j].op == Copy then CopyBegun(j) else Preliminary(j);
            ExecFinishDispatch(s) ==
            Ok(s.(clients := s.clients[c := s.clients[c].(job := Some(j))], phase := Events(s.phase.rest),
                  log := s.log[c := s.log[c] + [e]]))
  {
    StagedFacts(s);
    var c := s.phase.rest[0];
    var j := s.phase.newJob;
    Live(s, c);
    FinishForm(s, c, if s.jobs[j].op == Copy then CopyBegun(j) else Preliminary(j));
  }

  lemma CompletionLog(s: State)
    requires Inv(s) && s.phase.Completions? && s.phase.jobBatch != []
    ensures Exec(s, Complete).Ok?
    ensures var j := s.phase.jobBatch[0];
            j in s.jobs && s.jobs[j].client in s.clients &&
            var c := s.jobs[j].client;
            var live := s.jobs[j].generation == s.clients[c].generation;
            (live ==> c in s.registry && c in s.log) &&
            Exec(s, Complete).state.log ==
            if live then s.log[c := s.log[c] + Answers(s, j)] else s.log
  {
    CompletedForm(s);
  }

  /** Completing a job whose client is still connected writes its one completion reply, then
      "226 Abort successful." exactly if ABOR came while it was active. For a client that hung up, and
      for every other client, nothing is written. */
  lemma CompletionReplies(s: State, d: ClientId)
    requires Reachable(s) && s.phase.Completions? && s.phase.jobBatch != [] && d in s.log
    ensures Exec(s, Complete).Ok? && d in Exec(s, Complete).state.log
    ensures var j := s.phase.jobBatch[0];
            j in s.jobs && s.jobs[j].client in s.clients &&
            var job := s.jobs[j];
            var cl := s.clients[job.client];
            Exec(s, Complete).state.log[d] ==
            s.log[d] +
            (if d == job.client && d in s.registry && cl.generation == job.generation then
               [Final(j, FinalCode(job.op, job.connOk, job.result))] + (if cl.aborPending then [AbortOk] else [])
             else [])
  {
    ReachableInv(s);
    CompletionLog(s);
  }

  lemma FinishedExplained(jobs: map<JobId, Job>, posted: seq<JobId>, batch: seq<JobId>, j: JobId)
    requires Explained(jobs, posted, batch) && j in jobs && j in batch
    ensures jobs[j].result.Success? ==> jobs[j].connOk || jobs[j].op == Copy
  {
    assert Unfold(0);
  }

  /** Success codes mean success: 226 or 250 is sent exactly for a job that ended without error, and
      a job that ends as cancelled is always answered 426. */
  lemma SuccessCodesExact(s: State, j: JobId)
    requires Reachable(s) && s.phase.Completions? && s.phase.jobBatch != [] && j == s.phase.jobBatch[0]
    ensures j in s.jobs
    ensures FinalCode(s.jobs[j].op, s.jobs[j].connOk, s.jobs[j].result) in {226, 250} <==> s.jobs[j].result.Success?
    ensures s.jobs[j].result == Failed(ECANCELED) ==>
            FinalCode(s.jobs[j].op, s.jobs[j].connOk, s.jobs[j].result) == 426
  {
    ReachableInv(s);
    CompletionFacts(s);
    FinishedExplained(s.jobs, s.posted, JobBatch(s.phase), j);
  }

  // ---- replies queued by workers ----

  /** A queued line is written exactly if its stamp is current and its client is still connected. */
  lemma QueuedLineDelivered(s: State)
    requires Reachable(s) && s.phase.Replies? && s.phase.replyBatch != []
    ensures Exec(s, DrainReply).Ok?
    ensures var r := s.phase.replyBatch[0];
            r in s.replies && s.replies[r].client in s.clients &&
            var c := s.replies[r].client;
            Exec(s, DrainReply).state.log ==
            if s.replies[r].generation == s.clients[c].generation && c in s.registry && c in s.log
            then s.log[c := s.log[c] + [Line]] else s.log
  {
    ReachableInv(s);
    DrainedForm(s);
    var c := s.replies[s.phase.replyBatch[0]].client;
    if c in s.registry {
      Live(s, c);
    }
  }

  lemma StampFacts(s: State, r: ReplyId)
    requires Inv(s) && r in s.replies
    ensures s.replies[r].client in s.clients && s.replies[r].generation == StampOf(s.replies[r].late)
    ensures s.clients[s.replies[r].client].generation == StampOf(s.replies[r].client !in s.registry)
  {
    assert Unfold(0);
    GenerationOf(s, s.replies[r].client);
  }

  /** Which pending lines pass the generation test of the drain: those of a connected client stamped
      while it was connected, and those of a client that hung up stamped after the hang-up. */
  lemma LineIsCurrent(s: State, r: ReplyId)
    requires Reachable(s) && r in s.replies
    ensures s.replies[r].client in s.clients
    ensures var c := s.replies[r].client;
            s.replies[r].generation == s.clients[c].generation <==> (s.replies[r].late <==> c !in s.registry)
  {
    ReachableInv(s);
    StampFacts(s, r);
  }

  /** What `late` records: the line a worker queues is late exactly if its client was no longer
      registered when the worker read the generation, however long the rest of the call takes. */
  lemma LateIsAfterHangup(s: State, w: nat)
    requires Reachable(s) && WorkerRuns(s, w)
    ensures s.workers[w].job in s.jobs && s.jobs[s.workers[w].job].client in s.clients
    ensures var c := s.jobs[s.workers[w].job].client;
            Exec(s, Stamp(w)) == Ok(SetWorker(s, w, Composing(s.workers[w].job, StampOf(c !in s.registry),
                                                              c !in s.registry)))
  {
    ReachableInv(s);
    JobAlive(s, w);
    GenerationOf(s, s.jobs[s.workers[w].job].client);
  }

  lemma {:induction false} RunSnoc(s: State, run: seq<Step>, e: Step)
    requires Feasible(s, run) && Execute(s, run).Ok? && Possible(Execute(s, run).state, e)
    ensures Feasible(s, run + [e]) && Execute(s, run + [e]) == Exec(Execute(s, run).state, e)
    decreases |run|
  {
    if run == [] {
      assert run + [e] == [e];
      assert [e][1..] == [];
    } else {
      RunSnoc(Exec(s, run[0]).state, run[1..], e);
      assert (run + [e])[1..] == run[1..] + [e];
    }
  }

  /** The reachable states are closed under steps. */
  lemma ReachStep(s: State, e: Step)
    requires Reachable(s) && Possible(s, e)
    ensures Exec(s, e).Ok? && Reachable(Exec(s, e).state)
  {
    ReachableInv(s);
    StepSafe(s, e);
    var workers: nat, foreign: bool, run: seq<Step> :|
      Feasible(Init(workers, foreign), run) && Execute(Init(workers, foreign), run) == Ok(s);
    ReachSnoc(workers, foreign, run, s, e, Exec(s, e).state);
  }

  lemma ReachSnoc(workers: nat, foreign: bool, run: seq<Step>, s: State, e: Step, t: State)
    requires Feasible(Init(workers, foreign), run) && Execute(Init(workers, foreign), run) == Ok(s)
    requires Possible(s, e) && Exec(s, e) == Ok(t)
    ensures Reachable(t)
  {
    RunSnoc(Init(workers, foreign), run, e);
    assert Feasible(Init(workers, foreign), run + [e]) && Execute(Init(workers, foreign), run + [e]) == Ok(t);
  }

  lemma ReachInit(workers: nat, foreign: bool)
    ensures Reachable(Init(workers, foreign))
  {
    assert Feasible(Init(workers, foreign), []) && Execute(Init(workers, foreign), []) == Ok(Init(workers, foreign));
  }
}
