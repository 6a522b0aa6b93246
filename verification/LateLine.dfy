/**
 A run in which a line passes the generation test although its client hung up before the worker
 stamped it: the client starts a copy and leaves, and the worker that takes the copy then queues a
 line for it.
 */
module LateLine {
  import opened Common
  import opened Addresses
  import opened ServerState
  import opened ServerSteps
  import opened ServerTheorems
  import CountProofs

  const PEER := V4([127, 0, 0, 1])

  const COPIER := NewClient(3, PEER).(refs := 2, job := Some(1))

  const COPY := Job(0, 1, Copy, false, 4, 5, NO_FD, NO_FD, false, OtherFamily(0), PEER, false, None, Success)

  // ---- the states passed ----

  function Connected(): State {
    State(map[0 := NewClient(3, PEER)], map[], map[], [0], {0}, [], [Idle], [], [], Waiting,
          map[3 := Control(0)], map[0 := [Line]], [], 1, false)
  }

  function Ready(): State {
    Connected().(phase := Events([0]))
  }

  function Dispatching(): State {
    Connected().(clients := map[0 := COPIER.(job := None)], jobs := map[1 := COPY], queue := [1],
                 phase := Dispatched(1, [0]), fds := map[3 := Control(0), 4 := PipeReader(1), 5 := PipeWriter(1)],
                 next := 2)
  }

  function Copying(): State {
    Dispatching().(clients := map[0 := COPIER], phase := Events([0]), log := map[0 := [Line, CopyBegun(1)]])
  }

  function Leaving(): State {
    Copying().(clients := map[0 := COPIER.(disconnectRequested := true)])
  }

  function HungUp(): State {
    Copying().(clients := map[0 := COPIER.(refs := 1, generation := 2, job := None, fd := NO_FD,
                                           disconnectRequested := true)],
               jobs := map[1 := COPY.(cancelled := true)], registry := [], polled := {}, phase := Events([]),
               fds := map[4 := PipeReader(1), 5 := PipeWriter(1)],
               log := map[0 := [Line, CopyBegun(1), Hangup]])
  }

  function Left(): State {
    HungUp().(phase := Waiting)
  }

  function Taken(): State {
    Left().(queue := [], workers := [Busy(1)])
  }

  function Stamped(): State {
    Taken().(workers := [Composing(1, 2, true)])
  }

  function Held(): State {
    Taken().(clients := map[0 := Left().clients[0].(refs := 2)], replies := map[2 := Reply(0, 2, true)],
             workers := [Holding(1, 2)], next := 3)
  }

  function Pushed(): State {
    Held().(workers := [Busy(1)], fifo := [2])
  }

  function Detached(): State {
    Pushed().(phase := Replies([2]), fifo := [])
  }

  // ---- the steps between them ----

  /** Step `e` leads from `s` to `t`. */
  ghost predicate Leads(s: State, e: Step, t: State) {
    forall k {:trigger Unfold(k)} :: Unfold(k) ==> Possible(s, e) && Exec(s, e) == Ok(t)
  }

  lemma Onward(s: State, e: Step, t: State)
    requires Reachable(s) && Leads(s, e, t)
    ensures Reachable(t)
  {
    assert Unfold(0);
    ReachStep(s, e);
  }

  lemma Connects()
    ensures Leads(Init(1, false), Accept(3, PEER, true), Connected())
  {
    var s := Init(1, false);
    assert s.workers == [Idle];
    assert [0] + s.registry == [0];
    assert s.polled + {0} == {0};
    assert [] + [Line] == [Line];
  }

  lemma Collects()
    ensures Leads(Connected(), Collect([0]), Ready())
  {
    var users: seq<ClientId> := [0];
    assert Elems(users) == {0};
  }

  lemma Copies()
    ensures Leads(Ready(), Handle(CopyTo(true, Some((4, 5)))), Dispatching())
  {
    assert [] + [1] == [1];
  }

  lemma Begins()
    ensures Leads(Dispatching(), FinishDispatch, Copying())
  {
    assert [Line] + [CopyBegun(1)] == [Line, CopyBegun(1)];
  }

  lemma Leaves()
    ensures Leads(Copying(), Handle(Leave), Leaving())
  {
  }

  /** The hang-up of a client that runs a copy, told field by field. */
  lemma DisconnectsFrom(s: State, cl: Client, job: Job)
    requires s.clients == map[0 := cl] && s.jobs == map[1 := job] && s.registry == [0] && s.polled == {0}
    requires s.fds == map[3 := Control(0), 4 := PipeReader(1), 5 := PipeWriter(1)]
    requires cl.refs == 2 && cl.fd == 3 && cl.pasvFd == NO_FD && cl.job == Some(1) && job.pipeWrite == 5
    requires 0 in s.log
    ensures Disconnect(s, 0) ==
            Ok(s.(clients := map[0 := cl.(refs := 1, generation := cl.generation + 1, job := None, fd := NO_FD)],
                  jobs := map[1 := job.(cancelled := true)], registry := [], polled := {},
                  fds := map[4 := PipeReader(1), 5 := PipeWriter(1)], log := s.log[0 := s.log[0] + [Hangup]]))
  {
    CancelsFrom(s, job);
    RetireProofs.HangupActiveForm(s, 0, 1);
    ClientsLeft(cl);
    FdsLeft();
    assert map[1 := job][1 := job.(cancelled := true)] == map[1 := job.(cancelled := true)];
    assert Without([0], 0) == [];
    assert {0} - {0} == {};
  }

  lemma CancelsFrom(s: State, job: Job)
    requires s.jobs == map[1 := job] && job.pipeWrite == 5 && 5 in s.fds && s.fds[5] == PipeWriter(1)
    ensures Cancel(s, 1) == Ok(s.(jobs := s.jobs[1 := job.(cancelled := true)]))
  {
  }

  lemma ClientsLeft(cl: Client)
    requires cl.refs == 2 && cl.pasvFd == NO_FD
    ensures CountProofs.Drop(map[0 := cl][0 := RetireProofs.HungUp(cl)], 0) ==
            map[0 := cl.(refs := 1, generation := cl.generation + 1, job := None, fd := NO_FD)]
  {
  }

  lemma FdsLeft()
    ensures map[3 := Control(0), 4 := PipeReader(1), 5 := PipeWriter(1)] - {NO_FD} - {3} ==
            map[4 := PipeReader(1), 5 := PipeWriter(1)]
  {
  }

  lemma Disconnects()
    ensures Disconnect(Leaving().(phase := Events([])), 0) == Ok(HungUp())
  {
    var s := Leaving().(phase := Events([]));
    DisconnectsFrom(s, COPIER.(disconnectRequested := true), COPY);
    assert [Line, CopyBegun(1)] + [Hangup] == [Line, CopyBegun(1), Hangup];
  }

  /** The end of the events of a client that asked to leave. */
  lemma EventsEnd(s: State)
    requires s.phase == Events([0]) && 0 in s.clients && s.clients[0].disconnectRequested
    ensures Exec(s, EndEvents) == Disconnect(s.(phase := Events([])), 0)
  {
    assert s.phase.ready[1..] == [];
  }

  lemma HangsUp()
    ensures Leads(Leaving(), EndEvents, HungUp())
  {
    Disconnects();
    EventsEnd(Leaving());
  }

  lemma Ends()
    ensures Leads(HungUp(), EndEvents, Left())
  {
  }

  lemma Takes()
    ensures Leads(Left(), Take(0), Taken())
  {
    assert Left().queue[1..] == [];
  }

  lemma Stamps()
    ensures Leads(Taken(), Stamp(0), Stamped())
  {
  }

  lemma Retains()
    ensures Leads(Stamped(), Retain(0), Held())
  {
  }

  lemma Pushes()
    ensures Leads(Held(), Push(0), Pushed())
  {
    assert [] + [2] == [2];
  }

  lemma Detaches()
    ensures Leads(Pushed(), TakeReplies, Detached())
  {
  }

  // ---- the run ----

  lemma ReachLeft()
    ensures Reachable(Left())
  {
    ReachInit(1, false);
    Connects();
    Onward(Init(1, false), Accept(3, PEER, true), Connected());
    Collects();
    Onward(Connected(), Collect([0]), Ready());
    Copies();
    Onward(Ready(), Handle(CopyTo(true, Some((4, 5)))), Dispatching());
    Begins();
    Onward(Dispatching(), FinishDispatch, Copying());
    Leaves();
    Onward(Copying(), Handle(Leave), Leaving());
    HangsUp();
    Onward(Leaving(), EndEvents, HungUp());
    Ends();
    Onward(HungUp(), EndEvents, Left());
  }

  lemma ReachDetached()
    ensures Reachable(Detached())
  {
    ReachLeft();
    Takes();
    Onward(Left(), Take(0), Taken());
    Stamps();
    Onward(Taken(), Stamp(0), Stamped());
    Retains();
    Onward(Stamped(), Retain(0), Held());
    Pushes();
    Onward(Held(), Push(0), Pushed());
    Detaches();
    Onward(Pushed(), TakeReplies, Detached());
  }

  /** The generation test does not keep every line of a hung-up client back: here it lets one through,
      and the closed descriptor is what swallows it. */
  lemma LateLineReachable() returns (s: State, r: ReplyId)
    ensures Reachable(s) && s.phase == Replies([r]) && r in s.replies
    ensures var c := s.replies[r].client;
            c in s.clients && c !in s.registry && s.replies[r].generation == s.clients[c].generation
    ensures Exec(s, DrainReply).Ok? && Exec(s, DrainReply).state.log == s.log
  {
    ReachDetached();
    s, r := Detached(), 2;
    QueuedLineDelivered(s);
  }
}
