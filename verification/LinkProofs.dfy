/** Registry membership, job pointers, peers and dialogues across single updates. */
module LinkProofs {
  import opened Common
  import opened ServerState
  import opened ServerInvariant

  // ---- names ----

  lemma NextFresh(s: State)
    requires Ids(s.clients, s.jobs, s.replies, s.log, s.next)
    ensures s.next !in s.clients && s.next !in s.jobs && s.next !in s.replies && s.next !in s.log
  {
    assert Unfold(0);
  }

  lemma IdsAddReply(clients: map<ClientId, Client>, jobs: map<JobId, Job>, replies: map<ReplyId, Reply>,
                    log: map<ClientId, seq<Event>>, next: nat, c: ClientId, cl: Client, r: Reply)
    requires Ids(clients, jobs, replies, log, next) && c in clients
    ensures Ids(clients[c := cl], jobs, replies[next := r], log, next + 1)
  {
    assert Unfold(0);
  }

  // ---- registry ----

  lemma RegisteredSetClient(clients: map<ClientId, Client>, registry: seq<ClientId>, ready: seq<ClientId>,
                            c: ClientId, cl: Client)
    requires Registered(clients, registry, ready)
    requires c in clients && cl.fd == clients[c].fd && cl.generation == clients[c].generation
    requires c in registry || (cl.pasvFd == clients[c].pasvFd && cl.job == clients[c].job)
    ensures Registered(clients[c := cl], registry, ready)
  {
    assert Unfold(0);
  }

  lemma RegisteredFree(clients: map<ClientId, Client>, registry: seq<ClientId>, ready: seq<ClientId>, c: ClientId)
    requires Registered(clients, registry, ready) && c !in registry
    ensures Registered(clients - {c}, registry, ready)
  {
    assert Unfold(0);
  }

  lemma RegisteredAccept(clients: map<ClientId, Client>, registry: seq<ClientId>, ready: seq<ClientId>,
                         c: ClientId, cl: Client)
    requires Registered(clients, registry, ready)
    requires c !in clients && cl.fd >= 0 && cl.generation == 1
    ensures Registered(clients[c := cl], [c] + registry, ready)
  {
    assert Unfold(0);
  }

  lemma RegisteredHangup(clients: map<ClientId, Client>, registry: seq<ClientId>, ready: seq<ClientId>,
                         c: ClientId, cl: Client)
    requires Registered(clients, registry, ready)
    requires c in registry && c !in ready && cl.fd < 0 && cl.pasvFd < 0 && cl.job.None?
    requires c in clients && cl.generation == clients[c].generation + 1
    ensures Registered(clients[c := cl], Without(registry, c), ready)
  {
    assert Unfold(0);
    WithoutFacts(registry, c);
  }

  lemma RegisteredAdvance(clients: map<ClientId, Client>, registry: seq<ClientId>, ready: seq<ClientId>)
    requires Registered(clients, registry, ready) && ready != []
    ensures Registered(clients, registry, ready[1..]) && ready[0] !in ready[1..]
  {
    assert Unfold(0);
  }

  lemma DistinctIfFull<T(!new)>(s: seq<T>)
    requires |Elems(s)| == |s|
    ensures NoDup(s)
  {
    if s != [] {
      var t := s[..|s| - 1];
      var x := s[|s| - 1];
      assert s == t + [x];
      assert Elems(s) == Elems(t) + {x};
      ElemsSize(t);
      assert x !in t && |Elems(t)| == |t|;
      DistinctIfFull(t);
    }
  }

  lemma ElemsSize<T(!new)>(s: seq<T>)
    ensures |Elems(s)| <= |s|
  {
    if s != [] {
      var t := s[..|s| - 1];
      assert s == t + [s[|s| - 1]];
      assert Elems(s) == Elems(t) + {s[|s| - 1]};
      ElemsSize(t);
    }
  }

  // ---- pointers ----

  lemma PointedSetClient(clients: map<ClientId, Client>, jobs: map<JobId, Job>, registry: seq<ClientId>,
                         pending: Option<JobId>, c: ClientId, cl: Client)
    requires Pointed(clients, jobs, registry, pending) && c in clients
    requires cl.generation == clients[c].generation && cl.job == clients[c].job
    requires cl.job.None? ==> cl.aborPending == clients[c].aborPending
    ensures Pointed(clients[c := cl], jobs, registry, pending)
  {
    assert Unfold(0);
  }

  lemma PointedSetJob(clients: map<ClientId, Client>, jobs: map<JobId, Job>, registry: seq<ClientId>,
                      pending: Option<JobId>, j: JobId, job: Job)
    requires Pointed(clients, jobs, registry, pending) && j in jobs
    requires job.client == jobs[j].client && job.generation == jobs[j].generation
    ensures Pointed(clients, jobs[j := job], registry, pending)
  {
    assert Unfold(0);
  }

  lemma PointedAccept(clients: map<ClientId, Client>, jobs: map<JobId, Job>, registry: seq<ClientId>,
                      pending: Option<JobId>, c: ClientId, cl: Client)
    requires Pointed(clients, jobs, registry, pending) && c !in clients
    requires forall j :: j in jobs ==> jobs[j].client in clients
    requires cl.job.None? && !cl.aborPending
    ensures Pointed(clients[c := cl], jobs, [c] + registry, pending)
  {
    assert Unfold(0);
    assert forall d :: d in [c] + registry <==> d == c || d in registry;
  }

  lemma PointedFreeClient(clients: map<ClientId, Client>, jobs: map<JobId, Job>, registry: seq<ClientId>,
                          pending: Option<JobId>, c: ClientId)
    requires Pointed(clients, jobs, registry, pending)
    ensures Pointed(clients - {c}, jobs, registry, pending)
  {
    assert Unfold(0);
  }

  /** A completion whose generation is current: the client lets go of the job. */
  lemma PointedAnswer(clients: map<ClientId, Client>, jobs: map<JobId, Job>, registry: seq<ClientId>,
                      j: JobId, cl: Client)
    requires Pointed(clients, jobs, registry, None)
    requires j in jobs && jobs[j].client in clients
    requires jobs[j].generation == clients[jobs[j].client].generation
    requires cl.generation == clients[jobs[j].client].generation && cl.job.None? && !cl.aborPending
    ensures clients[jobs[j].client].job == Some(j) && jobs[j].client in registry
    ensures Pointed(clients[jobs[j].client := cl], jobs - {j}, registry, None)
  {
    assert Unfold(0);
  }

  /** A completion whose generation is stale: nobody points at the job. */
  lemma PointedDiscard(clients: map<ClientId, Client>, jobs: map<JobId, Job>, registry: seq<ClientId>, j: JobId)
    requires Pointed(clients, jobs, registry, None)
    requires j in jobs && jobs[j].client in clients
    requires jobs[j].generation != clients[jobs[j].client].generation
    ensures Pointed(clients, jobs - {j}, registry, None)
  {
    assert Unfold(0);
  }

  lemma PointedHangup(clients: map<ClientId, Client>, jobs: map<JobId, Job>, registry: seq<ClientId>,
                      c: ClientId, cl: Client)
    requires Pointed(clients, jobs, registry, None) && c in clients
    requires cl.generation == clients[c].generation + 1 && cl.job.None?
    ensures Pointed(clients[c := cl], jobs, Without(registry, c), None)
  {
    assert Unfold(0);
    WithoutFacts(registry, c);
  }

  lemma PointedLaunch(clients: map<ClientId, Client>, jobs: map<JobId, Job>, registry: seq<ClientId>,
                      c: ClientId, cl: Client, j: JobId, job: Job)
    requires Pointed(clients, jobs, registry, None) && c in clients && c in registry && j !in jobs
    requires clients[c].job.None? && cl.job.None? && cl.generation == clients[c].generation
    requires cl.aborPending == clients[c].aborPending
    requires job.client == c && job.generation == clients[c].generation
    ensures Pointed(clients[c := cl], jobs[j := job], registry, Some(j))
  {
    assert Unfold(0);
  }

  lemma PointedAssign(clients: map<ClientId, Client>, jobs: map<JobId, Job>, registry: seq<ClientId>,
                      c: ClientId, cl: Client, j: JobId)
    requires Pointed(clients, jobs, registry, Some(j)) && c in clients && j in jobs
    requires jobs[j].client == c && cl == clients[c].(job := Some(j))
    ensures Pointed(clients[c := cl], jobs, registry, None)
  {
    assert Unfold(0);
  }

  // ---- peers ----

  lemma PeersSetClient(clients: map<ClientId, Client>, jobs: map<JobId, Job>, foreign: bool, c: ClientId, cl: Client)
    requires Peers(clients, jobs, foreign) && c in clients
    requires cl.peer == clients[c].peer
    requires cl.pasvFd < 0 || !cl.haveDataPeer || cl == clients[c].(refs := cl.refs)
    ensures Peers(clients[c := cl], jobs, foreign)
  {
    assert Unfold(0);
  }

  lemma PeerOf(s: State, j: JobId)
    requires Peers(s.clients, s.jobs, s.allowForeignPort) && j in s.jobs
    ensures JobPeer(s.clients, s.allowForeignPort, s.jobs[j])
  {
    assert Unfold(0);
  }

  lemma PeersAccept(clients: map<ClientId, Client>, jobs: map<JobId, Job>, foreign: bool, c: ClientId, cl: Client)
    requires Peers(clients, jobs, foreign) && c !in clients
    requires forall j :: j in jobs ==> jobs[j].client in clients
    requires !(cl.pasvFd >= 0 && cl.haveDataPeer)
    ensures Peers(clients[c := cl], jobs, foreign)
  {
    assert Unfold(0);
  }

  lemma PeersFree(clients: map<ClientId, Client>, jobs: map<JobId, Job>, foreign: bool, c: ClientId)
    requires Peers(clients, jobs, foreign)
    ensures Peers(clients - {c}, jobs, foreign)
  {
    assert Unfold(0);
  }

  lemma PeersFreeJob(clients: map<ClientId, Client>, jobs: map<JobId, Job>, foreign: bool, j: JobId)
    requires Peers(clients, jobs, foreign)
    ensures Peers(clients, jobs - {j}, foreign)
  {
    assert Unfold(0);
  }

  lemma PeersSetJob(clients: map<ClientId, Client>, jobs: map<JobId, Job>, foreign: bool, j: JobId, job: Job)
    requires Peers(clients, jobs, foreign) && JobPeer(clients, foreign, job)
    ensures Peers(clients, jobs[j := job], foreign)
  {
    assert Unfold(0);
  }

  // ---- dialogues ----

  function AdvanceAll(d: Dialogue, es: seq<Event>): Dialogue
    decreases |es|
  {
    if es == [] then d else AdvanceAll(Advance(d, es[0]), es[1..])
  }

  lemma {:induction false} FollowAppend(log: seq<Event>, es: seq<Event>)
    ensures Follow(log + es) == AdvanceAll(Follow(log), es)
    decreases |es|
  {
    if es == [] {
      assert log + es == log;
    } else {
      assert (log + [es[0]])[..|log|] == log;
      assert log + es == (log + [es[0]]) + es[1..];
      FollowAppend(log + [es[0]], es[1..]);
    }
  }

  lemma LoggedSetClient(clients: map<ClientId, Client>, registry: seq<ClientId>, log: map<ClientId, seq<Event>>,
                        c: ClientId, cl: Client)
    requires Logged(clients, registry, log) && c in clients
    requires cl.job == clients[c].job && (cl.job.Some? ==> cl.aborPending == clients[c].aborPending)
    ensures Logged(clients[c := cl], registry, log)
  {
    assert Unfold(0);
  }

  lemma LoggedFree(clients: map<ClientId, Client>, registry: seq<ClientId>, log: map<ClientId, seq<Event>>,
                   c: ClientId)
    requires Logged(clients, registry, log) && c !in registry
    ensures Logged(clients - {c}, registry, log)
  {
    assert Unfold(0);
  }

  lemma LoggedAccept(clients: map<ClientId, Client>, registry: seq<ClientId>, log: map<ClientId, seq<Event>>,
                     c: ClientId, cl: Client)
    requires Logged(clients, registry, log)
    requires c !in clients && c !in log && c !in registry && cl.job.None?
    ensures Logged(clients[c := cl], [c] + registry, log[c := [Line]])
  {
    assert Unfold(0);
    FollowAppend([], [Line]);
    assert [] + [Line] == [Line];
    assert forall d :: d in [c] + registry <==> d == c || d in registry;
  }

  // ---- openings ----

  predicate NoOpening(es: seq<Event>) {
    forall i :: 0 <= i < |es| ==> !es[i].Preliminary? && !es[i].CopyBegun?
  }

  lemma {:induction false} OpeningsAppend(log: seq<Event>, es: seq<Event>, j: JobId)
    requires NoOpening(es)
    ensures Openings(log + es, j) == Openings(log, j)
  {
    if es == [] {
      assert log + es == log;
    } else {
      var init := es[..|es| - 1];
      OpeningsAppend(log, init, j);
      assert (log + es)[..|log + es| - 1] == log + init;
    }
  }

  lemma StartedMove(log: map<ClientId, seq<Event>>, next: nat, pending: Option<JobId>, c: ClientId, es: seq<Event>)
    requires Started(log, next, pending) && c in log && NoOpening(es)
    ensures Started(log[c := log[c] + es], next, pending)
  {
    assert Unfold(0);
    assert OpensOnce(log[c], next, pending);
    forall j: JobId ensures Openings(log[c] + es, j) == Openings(log[c], j) {
      OpeningsAppend(log[c], es, j);
    }
    assert OpensOnce(log[c] + es, next, pending);
  }

  lemma StartedNext(log: map<ClientId, seq<Event>>, next: nat, pending: Option<JobId>)
    requires Started(log, next, pending)
    ensures Started(log, next + 1, pending)
  {
    assert Unfold(0);
    forall c | c in log ensures OpensOnce(log[c], next + 1, pending) {
      assert OpensOnce(log[c], next, pending);
    }
  }

  lemma StartedAccept(log: map<ClientId, seq<Event>>, next: nat, pending: Option<JobId>, c: ClientId)
    requires Started(log, next, pending)
    ensures Started(log[c := [Line]], next + 1, pending)
  {
    StartedNext(log, next, pending);
    assert Unfold(0);
    forall j: JobId ensures Openings([Line], j) == 0 {
      OpeningsAppend([], [Line], j);
      assert [] + [Line] == [Line];
    }
    assert OpensOnce([Line], next + 1, pending);
  }

  lemma StartedLaunch(log: map<ClientId, seq<Event>>, next: nat)
    requires Started(log, next, None)
    ensures Started(log, next + 1, Some(next))
  {
    assert Unfold(0);
    forall c | c in log ensures OpensOnce(log[c], next + 1, Some(next)) {
      assert OpensOnce(log[c], next, None);
    }
  }

  lemma StartedOpen(log: map<ClientId, seq<Event>>, next: nat, j: JobId, c: ClientId, e: Event)
    requires Started(log, next, Some(j)) && c in log && j < next && Opens(e, j)
    ensures Started(log[c := log[c] + [e]], next, None)
  {
    assert Unfold(0);
    forall d | d in log ensures OpensOnce(log[d], next, None) {
      assert OpensOnce(log[d], next, Some(j));
    }
    assert OpensOnce(log[c], next, Some(j));
    assert (log[c] + [e])[..|log[c]|] == log[c];
    assert forall i: JobId :: Openings(log[c] + [e], i) == Openings(log[c], i) + if Opens(e, i) then 1 else 0;
    assert OpensOnce(log[c] + [e], next, None);
  }

  // ---- the poll set and stamps ----

  lemma WatchedAccept(polled: set<ClientId>, registry: seq<ClientId>, c: ClientId)
    requires Watched(polled, registry)
    ensures Watched(polled + {c}, [c] + registry)
  {
    assert Unfold(0);
    assert forall d :: d in [c] + registry <==> d == c || d in registry;
  }

  lemma WatchedHangup(polled: set<ClientId>, registry: seq<ClientId>, c: ClientId)
    requires Watched(polled, registry)
    ensures Watched(polled - {c}, Without(registry, c))
  {
    assert Unfold(0);
    WithoutFacts(registry, c);
  }

  lemma StampedWorker(replies: map<ReplyId, Reply>, ws: seq<Worker>, w: nat, k: Worker)
    requires Stamped(replies, ws) && w < |ws| && (k.Composing? ==> k.stamp == StampOf(k.late))
    ensures Stamped(replies, ws[w := k])
  {
    assert Unfold(0);
  }

  lemma StampedReply(replies: map<ReplyId, Reply>, ws: seq<Worker>, r: ReplyId, w: nat, k: Worker)
    requires Stamped(replies, ws) && w < |ws| && ws[w].Composing? && !k.Composing?
    ensures forall c :: Stamped(replies[r := Reply(c, ws[w].stamp, ws[w].late)], ws[w := k])
  {
    assert Unfold(0);
  }

  lemma StampedFree(replies: map<ReplyId, Reply>, ws: seq<Worker>, r: ReplyId)
    requires Stamped(replies, ws)
    ensures Stamped(replies - {r}, ws)
  {
    assert Unfold(0);
  }

  /** `c` moves on by `es`; everybody else stays where they were. */
  lemma LoggedMove(clients: map<ClientId, Client>, registry: seq<ClientId>, log: map<ClientId, seq<Event>>,
                   c: ClientId, cl: Client, registry': seq<ClientId>, es: seq<Event>)
    requires Logged(clients, registry, log) && c in log && c in clients
    requires forall d :: d != c ==> (d in registry <==> d in registry')
    requires AdvanceAll(Expected(clients, registry, c), es) == Expected(clients[c := cl], registry', c)
    ensures Logged(clients[c := cl], registry', log[c := log[c] + es])
  {
    assert Unfold(0);
    FollowAppend(log[c], es);
  }
}
