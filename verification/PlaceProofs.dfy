/** How jobs and replies move between the containers that hold them. */
module PlaceProofs {
  import opened Common
  import opened ServerState
  import opened ServerInvariant

  // ---- jobs ----

  lemma RunsSet(ws: seq<Worker>, w: nat, k: Worker, j: JobId)
    requires w < |ws|
    requires forall i, l :: 0 <= i < l < |ws| && !ws[i].Idle? && !ws[l].Idle? ==> ws[i].job != ws[l].job
    ensures Runs(ws[w := k], j) <==>
            (!k.Idle? && k.job == j) || (Runs(ws, j) && (ws[w].Idle? || ws[w].job != j))
  {
    var ws' := ws[w := k];
    if !k.Idle? && k.job == j {
      assert ws'[w].job == j;
    }
    if Runs(ws, j) && (ws[w].Idle? || ws[w].job != j) {
      var i :| 0 <= i < |ws| && !ws[i].Idle? && ws[i].job == j;
      assert ws'[i] == ws[i];
    }
    if Runs(ws', j) && (k.Idle? || k.job != j) {
      var i :| 0 <= i < |ws'| && !ws'[i].Idle? && ws'[i].job == j;
      assert ws'[i] == ws[i];
    }
  }

  lemma RunsAny(ws: seq<Worker>)
    ensures forall i :: 0 <= i < |ws| && !ws[i].Idle? ==> Runs(ws, ws[i].job)
  {
  }

  lemma TakePlaces(jobs: set<JobId>, queue: seq<JobId>, ws: seq<Worker>, posted: seq<JobId>, batch: seq<JobId>,
                   w: nat)
    requires JobsPlaced(jobs, queue, ws, posted, batch)
    requires w < |ws| && ws[w].Idle? && queue != []
    ensures JobsPlaced(jobs, queue[1..], ws[w := Busy(queue[0])], posted, batch)
  {
    assert Unfold(0);
    forall j ensures Runs(ws[w := Busy(queue[0])], j) <==> Runs(ws, j) || j == queue[0] {
      RunsSet(ws, w, Busy(queue[0]), j);
    }
    assert forall j :: j in queue <==> j == queue[0] || j in queue[1..];
    RunsAny(ws);
  }

  lemma RestagePlaces(jobs: set<JobId>, queue: seq<JobId>, ws: seq<Worker>, posted: seq<JobId>, batch: seq<JobId>,
                      w: nat, k: Worker)
    requires JobsPlaced(jobs, queue, ws, posted, batch)
    requires w < |ws| && !ws[w].Idle? && !k.Idle? && k.job == ws[w].job
    ensures JobsPlaced(jobs, queue, ws[w := k], posted, batch)
  {
    assert Unfold(0);
    RunsAny(ws);
    forall j ensures Runs(ws[w := k], j) <==> Runs(ws, j) {
      RunsSet(ws, w, k, j);
    }
  }

  lemma PostPlaces(jobs: set<JobId>, queue: seq<JobId>, ws: seq<Worker>, posted: seq<JobId>, batch: seq<JobId>,
                   w: nat)
    requires JobsPlaced(jobs, queue, ws, posted, batch)
    requires w < |ws| && !ws[w].Idle?
    ensures JobsPlaced(jobs, queue, ws[w := Idle], [ws[w].job] + posted, batch)
  {
    assert Unfold(0);
    RunsAny(ws);
    forall j ensures Runs(ws[w := Idle], j) <==> Runs(ws, j) && j != ws[w].job {
      RunsSet(ws, w, Idle, j);
    }
    assert forall j :: j in [ws[w].job] + posted <==> j == ws[w].job || j in posted;
  }

  lemma CollectPlaces(jobs: set<JobId>, queue: seq<JobId>, ws: seq<Worker>, posted: seq<JobId>)
    requires JobsPlaced(jobs, queue, ws, posted, [])
    ensures JobsPlaced(jobs, queue, ws, [], posted)
  {
    assert Unfold(0);
  }

  lemma FreePlaces(jobs: set<JobId>, queue: seq<JobId>, ws: seq<Worker>, posted: seq<JobId>, batch: seq<JobId>)
    requires JobsPlaced(jobs, queue, ws, posted, batch)
    requires batch != []
    ensures JobsPlaced(jobs - {batch[0]}, queue, ws, posted, batch[1..])
  {
    assert Unfold(0);
    assert forall j :: j in batch <==> j == batch[0] || j in batch[1..];
  }

  lemma EnqueuePlaces(jobs: set<JobId>, queue: seq<JobId>, ws: seq<Worker>, posted: seq<JobId>, j: JobId)
    requires JobsPlaced(jobs, queue, ws, posted, [])
    requires j !in jobs && |queue| < 2 * |ws|
    ensures JobsPlaced(jobs + {j}, queue + [j], ws, posted, [])
  {
    assert Unfold(0);
    assert forall k :: k in queue + [j] <==> k in queue || k == j;
  }

  // ---- replies ----

  lemma CarriesSet(ws: seq<Worker>, w: nat, k: Worker, r: ReplyId)
    requires w < |ws|
    requires forall i, l :: 0 <= i < l < |ws| && ws[i].Holding? && ws[l].Holding? ==> ws[i].reply != ws[l].reply
    ensures Carries(ws[w := k], r) <==>
            (k.Holding? && k.reply == r) || (Carries(ws, r) && !(ws[w].Holding? && ws[w].reply == r))
  {
    var ws' := ws[w := k];
    if k.Holding? && k.reply == r {
      assert ws'[w].reply == r;
    }
    if Carries(ws, r) && !(ws[w].Holding? && ws[w].reply == r) {
      var i :| 0 <= i < |ws| && ws[i].Holding? && ws[i].reply == r;
      assert ws'[i] == ws[i];
    }
    if Carries(ws', r) && !(k.Holding? && k.reply == r) {
      var i :| 0 <= i < |ws'| && ws'[i].Holding? && ws'[i].reply == r;
      assert ws'[i] == ws[i];
    }
  }

  lemma CarriesAny(ws: seq<Worker>)
    ensures forall i :: 0 <= i < |ws| && ws[i].Holding? ==> Carries(ws, ws[i].reply)
  {
  }

  lemma RestageReplies(replies: set<ReplyId>, ws: seq<Worker>, fifo: seq<ReplyId>, batch: seq<ReplyId>,
                       w: nat, k: Worker)
    requires RepliesPlaced(replies, ws, fifo, batch)
    requires w < |ws| && !ws[w].Holding? && !k.Holding?
    ensures RepliesPlaced(replies, ws[w := k], fifo, batch)
  {
    assert Unfold(0);
    forall r ensures Carries(ws[w := k], r) <==> Carries(ws, r) {
      CarriesSet(ws, w, k, r);
    }
  }

  lemma RetainReplies(replies: set<ReplyId>, ws: seq<Worker>, fifo: seq<ReplyId>, batch: seq<ReplyId>,
                      w: nat, j: JobId, r: ReplyId)
    requires RepliesPlaced(replies, ws, fifo, batch)
    requires w < |ws| && !ws[w].Holding? && r !in replies
    ensures RepliesPlaced(replies + {r}, ws[w := Holding(j, r)], fifo, batch)
  {
    assert Unfold(0);
    CarriesAny(ws);
    forall q ensures Carries(ws[w := Holding(j, r)], q) <==> Carries(ws, q) || q == r {
      CarriesSet(ws, w, Holding(j, r), q);
    }
  }

  lemma PushReplies(replies: set<ReplyId>, ws: seq<Worker>, fifo: seq<ReplyId>, batch: seq<ReplyId>, w: nat)
    requires RepliesPlaced(replies, ws, fifo, batch)
    requires w < |ws| && ws[w].Holding?
    ensures RepliesPlaced(replies, ws[w := Busy(ws[w].job)], fifo + [ws[w].reply], batch)
  {
    assert Unfold(0);
    CarriesAny(ws);
    forall q ensures Carries(ws[w := Busy(ws[w].job)], q) <==> Carries(ws, q) && q != ws[w].reply {
      CarriesSet(ws, w, Busy(ws[w].job), q);
    }
    assert forall q :: q in fifo + [ws[w].reply] <==> q in fifo || q == ws[w].reply;
  }

  lemma CollectReplies(replies: set<ReplyId>, ws: seq<Worker>, fifo: seq<ReplyId>)
    requires RepliesPlaced(replies, ws, fifo, [])
    ensures RepliesPlaced(replies, ws, [], fifo)
  {
    assert Unfold(0);
  }

  lemma FreeReplies(replies: set<ReplyId>, ws: seq<Worker>, fifo: seq<ReplyId>, batch: seq<ReplyId>)
    requires RepliesPlaced(replies, ws, fifo, batch)
    requires batch != []
    ensures RepliesPlaced(replies - {batch[0]}, ws, fifo, batch[1..])
  {
    assert Unfold(0);
    assert forall r :: r in batch <==> r == batch[0] || r in batch[1..];
  }
}
