/** The manager service: its handlers, in place, performing the moves of ManagerModel. */
module ManagerService {
  import opened Finite
  import opened Lineage
  import opened WorkerRecord
  import opened ManagerModel
  import opened Conservation
  import opened ManagerRuns
  import opened PriorityQueues
  import opened Discovery
  import opened Rebalancing
  import opened Expiry
  import opened OfferRecords
  import opened AssignCalls
  import opened Frontier
  import opened AssignResults

  datatype Given = Given(id: int, sequenceNumber: Mark)

  datatype AssignResponse = NotInService | Assignments(given: map<ShardId, Given>)

  datatype CheckpointResponse = CheckpointResponse(notInService: bool, ownershipChanged: bool)

  /** What a worker is told: its assignments, lent or not, with the checkpoints to start from. */
  ghost function ResponseTo(t: State, w: WorkerInfo): AssignResponse
    requires w in t.info
  {
    Assignments(map sh | sh in t.info[w].assignments :: Given(t.info[w].assignments[sh].id, t.MarkOf(sh)))
  }

  /** Whatever happened since a takeover, a response hands out no shard whose checkpoint is empty or CLOSED. */
  lemma ResponseStartable(cfg: Config, index: Index, s: State, before: seq<Action>, t: State,
                          id: WorkerId, w: WorkerInfo, maxShards: int, at: int, turn: Turn)
    requires index.Complete() && FromTakeover(cfg, index, s, before)
    requires CanRun(cfg, s, before) && Answers(cfg, index, Run(cfg, s, before), t, id, w, maxShards, at, turn)
      && w in t.info
    ensures forall sh :: sh in ResponseTo(t, w).given ==>
      ResponseTo(t, w).given[sh].sequenceNumber != Unset && ResponseTo(t, w).given[sh].sequenceNumber != Closed
  {
    hide FromTakeover, Answers, Index.Complete, CanRun, Run;
    AnswerOpen(cfg, index, s, before, t, id, w, maxShards, at, turn);
  }

  /** A response lists exactly the shards, lent or not, with exactly the ids, under which its worker passes the
      ownership check of a checkpoint afterwards, each with the checkpoint recorded for it. */
  lemma ResponseExact(t: State, name: WorkerId, w: WorkerInfo)
    requires t.Registered(w) && name in t.workers && t.workers[name] == w
    ensures ResponseTo(t, w).Assignments? && ResponseTo(t, w).given.Keys == t.info[w].assignments.Keys
    ensures var given := ResponseTo(t, w).given;
      && (forall sh, n :: sh in given && given[sh].id == n <==> OwnedUnder(t, name, sh, n))
      && (forall sh :: sh in given ==>
            given[sh].sequenceNumber == if sh in t.checkpoints then t.checkpoints[sh] else Unset)
  {
  }

  class Manager {
    const cfg: Config
    const discovery: ShardDiscoveryService
    var inService: bool
    var term: int
    var nextAssignmentOffset: int
    var checkpoints: map<ShardId, Mark>
    var unassignedShards: seq<ShardId>
    var liveShards: set<ShardId>
    var workers: map<WorkerId, WorkerInfo>
    var workerHeartbeats: PriorityQueue<WorkerId>
    var workerShardCount: PriorityQueue<WorkerInfo>
    var closed: seq<Note>
    ghost var known: set<WorkerInfo>  // every worker object made so far

    // ---------- What the fields hold, as a state ----------

    ghost predicate Queues()
      reads this`workerHeartbeats, this`workerShardCount
      reads workerHeartbeats, workerHeartbeats.pq, workerHeartbeats.pq.members
      reads workerShardCount, workerShardCount.pq, workerShardCount.pq.members
    {
      && workerHeartbeats.Valid() && !workerHeartbeats.pq.reversed
      && workerShardCount.Valid() && workerShardCount.pq.reversed
    }

    /** Offers list shards once per donor, and come from known donors. */
    ghost predicate Shaped()
      reads this`known, known`offer
    {
      forall w, d :: w in known && w.offer.Some? && d in w.offer.value.shards ==>
        (d in known && NoDup(w.offer.value.shards[d]))
    }

    /** The worker objects hold what info says. */
    ghost predicate WorkersAre(info: map<WorkerInfo, Worker>)
      reads this`known, known
    {
      info.Keys == known && forall w :: w in known ==> info[w] == ValueOf(w)
    }

    ghost predicate Fields(t: State)
      reads this, workerHeartbeats
    {
      && t.inService == inService && t.term == term && t.nextOffset == nextAssignmentOffset
      && t.checkpoints == checkpoints && t.pool == unassignedShards && t.live == liveShards
      && t.workers == workers && t.heartbeats == workerHeartbeats.Contents
      && t.closed == closed
    }

    /** The manager is in state t. */
    ghost predicate Shows(t: State)
      reads this, known
      reads workerHeartbeats, workerHeartbeats.pq, workerHeartbeats.pq.members
      reads workerShardCount, workerShardCount.pq, workerShardCount.pq.members
    {
      Queues() && Shaped() && Fields(t) && WorkersAre(t.info) && t.counts == workerShardCount.Contents
    }

    constructor (cfg: Config, discovery: ShardDiscoveryService)
      ensures Shows(Fresh()) && this.cfg == cfg && this.discovery == discovery && known == {}
    {
      this.cfg := cfg;
      this.discovery := discovery;
      inService, term, nextAssignmentOffset := false, 0, 0;
      checkpoints, unassignedShards, liveShards := map[], [], {};
      workers, closed := map[], [];
      workerHeartbeats := new PriorityQueue(false);
      workerShardCount := new PriorityQueue(true);
      known := {};
    }

    lemma IsWorker(info: map<WorkerInfo, Worker>, w: WorkerInfo)
      requires WorkersAre(info) && w in info
      ensures w in known && info[w] == ValueOf(w)
    {
    }

    method GetNextAssignmentId() returns (id: int)
      modifies this`nextAssignmentOffset
      ensures id == term + old(nextAssignmentOffset) && nextAssignmentOffset == old(nextAssignmentOffset) + 1
    {
      var offset := nextAssignmentOffset;
      nextAssignmentOffset := nextAssignmentOffset + 1;
      return term + offset;
    }

    // ---------- Releasing inactive workers ----------

    /** The unrequested assignments of w return to the pool, unless they have been released before. */
    method ReleaseAssignments(w: WorkerInfo, released: set<ShardId>, ghost s: State)
      returns (all: set<ShardId>, ghost order: seq<ShardId>)
      requires Shows(s) && w in s.info
      modifies this`unassignedShards
      ensures Lists(order, s.info[w].Open() - released) && all == released + s.info[w].Open()
      ensures Shows(s.(pool := s.pool + order))
    {
      hide Queues, Shaped;
      IsWorker(s.info, w);
      all, order := released, [];
      var todo := w.assignments.Keys;
      while todo != {}
        invariant todo <= w.assignments.Keys
        invariant unassignedShards == s.pool + order
        invariant Lists(order, s.info[w].Open() - todo - released) && all == released + (s.info[w].Open() - todo)
      {
        var sh :| sh in todo;
        todo := todo - {sh};
        if !w.assignments[sh].requested && sh !in all {
          assert sh !in Elements(order);
          NoDupAppend(order, sh);
          unassignedShards := unassignedShards + [sh];
          order := order + [sh];
          all := all + {sh};
        }
      }
    }

    /** The shards offered by donor d: those not released yet return to the pool, and d forgets them all. */
    method ReleaseDonor(d: WorkerInfo, shards: seq<ShardId>, released: set<ShardId>)
      returns (all: set<ShardId>, ghost order: seq<ShardId>)
      modifies this`unassignedShards, d`assignments
      ensures unassignedShards == old(unassignedShards) + order
      ensures Lists(order, Elements(shards) - released) && all == released + Elements(shards)
      ensures d.assignments == old(d.assignments) - Elements(shards)
    {
      all, order := released, [];
      for i := 0 to |shards|
        invariant unassignedShards == old(unassignedShards) + order
        invariant Lists(order, Elements(shards[..i]) - released) && all == released + Elements(shards[..i])
        invariant d.assignments == old(d.assignments) - Elements(shards[..i])
      {
        var sh := shards[i];
        assert Elements(shards[..i + 1])
          == Elements(shards[..i]) + {sh} by { assert shards[..i + 1] == shards[..i] + [sh]; }
        if sh !in all {
          assert sh !in Elements(order);
          NoDupAppend(order, sh);
          unassignedShards := unassignedShards + [sh];
          order := order + [sh];
          all := all + {sh};
        }
        d.assignments := d.assignments - {sh};
      }
      assert shards[..|shards|] == shards;
    }

    /** ... which changes just d's record. */
    method ReleaseFrom(d: WorkerInfo, shards: seq<ShardId>, released: set<ShardId>, ghost info: map<WorkerInfo, Worker>)
      returns (all: set<ShardId>, ghost order: seq<ShardId>)
      requires WorkersAre(info) && Shaped() && d in info
      modifies this`unassignedShards, d`assignments
      ensures unassignedShards == old(unassignedShards) + order
      ensures Lists(order, Elements(shards) - released) && all == released + Elements(shards)
      ensures WorkersAre(info[d := info[d].(assignments := info[d].assignments - Elements(shards))]) && Shaped()
    {
      hide Lists, Elements;
      all, order := ReleaseDonor(d, shards, released);
    }

    lemma IsDonor(w: WorkerInfo, d: WorkerInfo)
      requires Shaped() && w in known && w.offer.Some? && d in w.offer.value.shards
      ensures d in known && NoDup(w.offer.value.shards[d])
    {
    }

    lemma AreKnown(info: map<WorkerInfo, Worker>)
      requires WorkersAre(info)
      ensures info.Keys == known
    {
    }

    /** The shards offered to w return to the pool, and their donors forget them. */
    method ReleaseOffer(w: WorkerInfo, released: set<ShardId>, ghost info: map<WorkerInfo, Worker>)
      returns (all: set<ShardId>, ghost order: seq<ShardId>)
      requires WorkersAre(info) && Shaped() && w in info && w.offer.Some?
      modifies this`unassignedShards, known`assignments
      ensures unassignedShards == old(unassignedShards) + order
      ensures Lists(order, ShardsOf(info[w].Loans()) - released) && all == released + ShardsOf(info[w].Loans())
      ensures WorkersAre(Forget(info, info[w].Loans())) && Shaped()
    {
      hide WorkersAre, Shaped, Forget, Lists, ShardsOf, Elements, DonorLoans, LoansOf;
      IsWorker(info, w);
      all, order := released, [];
      var shards := w.offer.value.shards;
      var donors := shards.Keys;
      ghost var done: set<Loan> := {};
      NoneDone(info, shards);
      assert {} - released == {};
      while donors != {}
        invariant donors <= shards.Keys && w.offer.Some? && w.offer.value.shards == shards
        invariant done == LoansOf(shards - donors)
        invariant unassignedShards == old(unassignedShards) + order
        invariant Lists(order, ShardsOf(done) - released) && all == released + ShardsOf(done)
        invariant WorkersAre(Forget(info, done)) && Shaped()
      {
        var d :| d in donors;
        ghost var more;
        IsDonor(w, d);
        AreKnown(Forget(info, done));
        ForgetKeys(info, done);
        LoansDone(shards, donors, d);
        DoneShards(done, released, d, shards[d], all);
        ForgetMore(info, done, d, shards[d]);
        all, more := ReleaseFrom(d, shards[d], all, Forget(info, done));
        DoneOrder(done, released, d, shards[d], order, more);
        done := done + DonorLoans(d, shards[d]);
        order := order + more;
        donors := donors - {d};
      }
      assert shards - donors == shards;
    }

    /** The offer of w, if it has one, is dissolved. */
    method ReleaseAnyOffer(w: WorkerInfo, released: set<ShardId>, ghost s: State)
      returns (all: set<ShardId>, ghost order: seq<ShardId>)
      requires Shows(s) && w in s.info
      modifies this`unassignedShards, known`assignments
      ensures Lists(order, ShardsOf(s.info[w].Loans()) - released) && all == released + ShardsOf(s.info[w].Loans())
      ensures Shows(s.(pool := s.pool + order, info := Forget(s.info, s.info[w].Loans())))
    {
      hide Queues, WorkersAre, Shaped, Forget;
      IsWorker(s.info, w);
      if w.offer.Some? {
        all, order := ReleaseOffer(w, released, s.info);
      } else {
        all, order := released, [];
        ForgetNone(s.info);
      }
    }

    method PopHeartbeat(ghost id: WorkerId, ghost s: State)
      requires Shows(s) && id in s.heartbeats && workerHeartbeats.Top() == id
      modifies workerHeartbeats, workerHeartbeats.pq, workerHeartbeats.pq.members
      ensures fresh(workerHeartbeats.pq.members - old(workerHeartbeats.pq.members))
      ensures Shows(s.(heartbeats := s.heartbeats - {id}))
    {
      hide PriorityQueue.Valid, WorkersAre, Shaped;
      var popped := workerHeartbeats.Pop();
    }

    method RemoveCount(w: WorkerInfo, ghost s: State)
      requires Shows(s)
      modifies workerShardCount, workerShardCount.pq, workerShardCount.pq.members
      ensures fresh(workerShardCount.pq.members - old(workerShardCount.pq.members))
      ensures Shows(s.(counts := s.counts - {w}))
    {
      hide PriorityQueue.Valid, WorkersAre, Shaped;
      var found := workerShardCount.Remove(w);
    }

    method DeleteWorker(id: WorkerId, ghost s: State)
      requires Shows(s)
      modifies this`workers
      ensures Shows(s.(workers := s.workers - {id}))
    {
      hide Queues, WorkersAre, Shaped;
      workers := workers - {id};
    }

    /** Clean up w, whose id has the oldest heartbeat, from all data structures. */
    method CleanUp(id: WorkerId, w: WorkerInfo, ghost s: State)
      requires Shows(s) && id in s.heartbeats && workerHeartbeats.Top() == id
      modifies this`workers
      modifies workerHeartbeats, workerHeartbeats.pq, workerHeartbeats.pq.members
      modifies workerShardCount, workerShardCount.pq, workerShardCount.pq.members
      ensures fresh(workerHeartbeats.pq.members - old(workerHeartbeats.pq.members))
      ensures fresh(workerShardCount.pq.members - old(workerShardCount.pq.members))
      ensures Shows(s.(workers := s.workers - {id}, heartbeats := s.heartbeats - {id}, counts := s.counts - {w}))
    {
      hide Shows, PriorityQueue.Valid, PriorityQueue.Top;
      PopHeartbeat(id, s);
      RemoveCount(w, s.(heartbeats := s.heartbeats - {id}));
      DeleteWorker(id, s.(heartbeats := s.heartbeats - {id}, counts := s.counts - {w}));
    }

    /** The shards of w, and those offered to it, return to the pool. */
    method ReleaseShards(w: WorkerInfo, released: set<ShardId>, ghost s: State)
      returns (all: set<ShardId>, ghost order: seq<ShardId>)
      requires Shows(s) && w in s.info
      modifies this`unassignedShards, known`assignments
      ensures Lists(order, s.info[w].Open() + ShardsOf(s.info[w].Loans()) - released)
      ensures all == released + Elements(order)
      ensures Shows(s.(pool := s.pool + order, info := Forget(s.info, s.info[w].Loans())))
    {
      hide Shows, Forget, ShardsOf, Worker.Open, Worker.Loans, Lists, Elements;
      ghost var order1, order2;
      all, order1 := ReleaseAssignments(w, released, s);
      ghost var t := s.(pool := s.pool + order1);
      all, order2 := ReleaseAnyOffer(w, all, t);
      order := order1 + order2;
      ListsBoth(order1, s.info[w].Open(), order2, ShardsOf(s.info[w].Loans()), released);
      assert s.pool + order == s.pool + order1 + order2;
    }

    /** One turn of the release loop: w, whose id has the oldest heartbeat, is dropped. */
    method ReleaseWorker(id: WorkerId, w: WorkerInfo, released: set<ShardId>, ghost s: State)
      returns (all: set<ShardId>, ghost order: seq<ShardId>)
      requires Shows(s) && w in s.info && id == s.info[w].id && id in s.heartbeats && workerHeartbeats.Top() == id
      modifies this`unassignedShards, this`workers, known`assignments
      modifies workerHeartbeats, workerHeartbeats.pq, workerHeartbeats.pq.members
      modifies workerShardCount, workerShardCount.pq, workerShardCount.pq.members
      ensures fresh(workerHeartbeats.pq.members - old(workerHeartbeats.pq.members))
      ensures fresh(workerShardCount.pq.members - old(workerShardCount.pq.members))
      ensures Lists(order, s.info[w].Open() + ShardsOf(s.info[w].Loans()) - released)
      ensures all == released + Elements(order)
      ensures Shows(AfterExpire(s, w, order))
    {
      hide Shows, Forget, AfterExpire, PriorityQueue.Valid, PriorityQueue.Top, ShardsOf, Worker.Open, Worker.Loans,
           Lists, Elements;
      all, order := ReleaseShards(w, released, s);
      ghost var t := s.(pool := s.pool + order, info := Forget(s.info, s.info[w].Loans()));
      ExpireShape(s, w, order, t);
      CleanUp(id, w, t);
    }

    /** The id at the top of the heartbeat queue, and its worker. The source panics if the id is not
        registered; Sound rules that out. */
    method PeekOldest() returns (id: Option<WorkerId>, w: Option<WorkerInfo>)
      requires Queues()
      ensures id == None <==> workerHeartbeats.Contents == map[]
      ensures id.Some? ==> workerHeartbeats.Contents != map[] && id.value == workerHeartbeats.Top()
      ensures w == if id.Some? && id.value in workers then Some(workers[id.value]) else None
    {
      hide PriorityQueue.Valid, First;
      id := workerHeartbeats.Peek();
      w := if id.Some? && id.value in workers then Some(workers[id.value]) else None;
    }

    /** Expire workers, oldest heartbeat first, as long as the oldest is too old. */
    method ReleaseInactiveWorkers(at: int, ghost s: State, ghost loc: Places)
      returns (ghost t: State, ghost m: Places, ghost acts: seq<Action>)
      requires Shows(s) && Sound(s, loc) && s.inService && ClosesRecent(cfg, s, at)
      modifies this`unassignedShards, this`workers, known`assignments
      modifies workerHeartbeats, workerHeartbeats.pq, workerHeartbeats.pq.members
      modifies workerShardCount, workerShardCount.pq, workerShardCount.pq.members
      ensures fresh(workerHeartbeats.pq.members - old(workerHeartbeats.pq.members))
      ensures fresh(workerShardCount.pq.members - old(workerShardCount.pq.members))
      ensures Shows(t) && (exists released :: Releasing(cfg, s, t, m, acts, at, released)) && ReleaseStops(cfg, t, at)
    {
      hide Shows, Releasing, Silence, ReleaseStops, Sound, PriorityQueue.Valid;
      var released: set<ShardId> := {};
      t, m, acts := s, loc, [];
      ReleasingNone(cfg, s, loc, at);
      while true
        invariant Shows(t) && Releasing(cfg, s, t, m, acts, at, released)
        invariant fresh(workerHeartbeats.pq.members - old(workerHeartbeats.pq.members))
        invariant fresh(workerShardCount.pq.members - old(workerShardCount.pq.members))
        decreases |t.workers|
      {
        var leastActive := FindSilent(at, s, t, m, acts, released);
        if leastActive.None? {
          break;
        }
        released, t, m, acts := ReleaseNext(leastActive.value, at, released, s, t, m, acts);
      }
    }

    /** w has the oldest heartbeat, has been silent for too long, and holds nothing released before. */
    ghost predicate Silence(t: State, w: WorkerInfo, at: int, released: set<ShardId>)
      reads this, workerHeartbeats, workerHeartbeats.pq, workerHeartbeats.pq.members
    {
      && t.Registered(w) && t.info[w].id in t.heartbeats && Oldest(t, t.info[w].id)
      && at - t.info[w].heartbeat >= cfg.inactivityTimeout
      && workerHeartbeats.Valid() && t.info[w].id in workerHeartbeats.Contents && workerHeartbeats.Top() == t.info[w].id
      && released !! t.info[w].Open() && released !! ShardsOf(t.info[w].Loans())
      && t.info[w].Open() !! ShardsOf(t.info[w].Loans())
    }

    /** The worker with the oldest heartbeat, if that is too old. */
    method FindSilent(at: int, ghost s: State, ghost t: State, ghost m: Places, ghost acts: seq<Action>,
                      ghost released: set<ShardId>)
      returns (w: Option<WorkerInfo>)
      requires Shows(t) && Releasing(cfg, s, t, m, acts, at, released)
      ensures w.None? ==> ReleaseStops(cfg, t, at)
      ensures w.Some? ==> Silence(t, w.value, at, released) && w.value in known
    {
      hide Shows, Releasing, PriorityQueue.Valid, PriorityQueue.Top, First, Oldest, Worker.Open, Worker.Loans,
           ShardsOf, ReleaseStops;
      ShowsQueues(t);
      var id, leastActive := PeekOldest();
      if id.None? {
        NobodyLeft(cfg, t, at);
        return None;
      }
      TopOldest(t);
      ReleasingFound(cfg, s, t, m, acts, at, released, id.value);
      if at - leastActive.value.lastHeartbeat < cfg.inactivityTimeout {
        NobodySilent(cfg, s, t, m, acts, at, released, id.value);
        return None;
      }
      return leastActive;
    }

    /** One turn of the loop, as a step of a run: w has been silent for too long. */
    method ReleaseNext(w: WorkerInfo, at: int, released: set<ShardId>,
                       ghost s: State, ghost t0: State, ghost m0: Places, ghost acts0: seq<Action>)
      returns (all: set<ShardId>, ghost t: State, ghost m: Places, ghost acts: seq<Action>)
      requires Shows(t0) && Releasing(cfg, s, t0, m0, acts0, at, released) && Silence(t0, w, at, released)
      modifies this`unassignedShards, this`workers, known`assignments
      modifies workerHeartbeats, workerHeartbeats.pq, workerHeartbeats.pq.members
      modifies workerShardCount, workerShardCount.pq, workerShardCount.pq.members
      ensures fresh(workerHeartbeats.pq.members - old(workerHeartbeats.pq.members))
      ensures fresh(workerShardCount.pq.members - old(workerShardCount.pq.members))
      ensures Shows(t) && Releasing(cfg, s, t, m, acts, at, all) && |t.workers| < |t0.workers|
    {
      hide Shows, Releasing, PriorityQueue.Valid, PriorityQueue.Top, Oldest, Worker.Open, Worker.Loans, ShardsOf,
           Lists, Elements,
           AfterExpire;
      ShowsQueues(t0);
      ghost var order;
      all, order := ReleaseWorker(w.workerId, w, released, t0);
      assert t0.info[w].Open() + ShardsOf(t0.info[w].Loans()) - released
        == t0.info[w].Open() + ShardsOf(t0.info[w].Loans());
      ReleasingMore(cfg, s, t0, m0, acts0, at, released, w, order);
      FewerWorkers(t0, w, order);
      ghost var a := Expire(w, order, at);
      t, m, acts := AfterExpire(t0, w, order), Moved(cfg, t0, a, m0), acts0 + [a];
    }

    // ---------- Processing closed shards ----------

    /** w is queued under its active count: on the queue alone. */
    method QueueCount(w: WorkerInfo)
      requires Queues()
      modifies workerShardCount, workerShardCount.pq, workerShardCount.pq.members
      ensures fresh(workerShardCount.pq.members - old(workerShardCount.pq.members))
      ensures Queues() && workerShardCount.Contents == old(workerShardCount.Contents)[w := w.activeShardCount]
    {
      hide PriorityQueue.Valid;
      workerShardCount.Push(w, w.activeShardCount);
    }

    /** w is queued under its active count. */
    method PushCount(w: WorkerInfo, ghost s: State)
      requires Shows(s) && w in s.info
      modifies workerShardCount, workerShardCount.pq, workerShardCount.pq.members
      ensures fresh(workerShardCount.pq.members - old(workerShardCount.pq.members))
      ensures Shows(AfterEnlist(s, w))
    {
      hide Queues, WorkersAre, Shaped;
      IsWorker(s.info, w);
      QueueCount(w);
    }

    method LoseShard(w: WorkerInfo, shard: ShardId, ghost info: map<WorkerInfo, Worker>)
      requires WorkersAre(info) && Shaped() && w in info
      modifies w`assignments, w`activeShardCount
      ensures WorkersAre(info[w := info[w].(assignments := info[w].assignments - {shard},
                                            active := info[w].active - 1)]) && Shaped()
    {
      hide Shaped;
      w.assignments := w.assignments - {shard};
      w.activeShardCount := w.activeShardCount - 1;
    }

    /** The closed shard leaves its worker and the live set. */
    method TakeOff(w: WorkerInfo, shard: ShardId, ghost s: State)
      requires Shows(s) && w in s.info
      modifies this`liveShards, w`assignments, w`activeShardCount
      modifies workerShardCount, workerShardCount.pq, workerShardCount.pq.members
      ensures fresh(workerShardCount.pq.members - old(workerShardCount.pq.members))
      ensures Shows(Detach(s, Note(shard, Some(w))))
    {
      hide Shows;
      ShowsKnown(s);
      ghost var me := s.info[w].(assignments := s.info[w].assignments - {shard}, active := s.info[w].active - 1);
      Lose(w, shard, s);
      PushCount(w, s.(info := s.info[w := me], live := s.live - {shard}));
    }

    /** ... but for the queue. */
    method Lose(w: WorkerInfo, shard: ShardId, ghost s: State)
      requires Shows(s) && w in s.info
      modifies this`liveShards, w`assignments, w`activeShardCount
      ensures Shows(s.(info := s.info[w := s.info[w].(assignments := s.info[w].assignments - {shard},
                                                      active := s.info[w].active - 1)],
                       live := s.live - {shard}))
    {
      hide Queues, WorkersAre, Shaped;
      LoseShard(w, shard, s.info);
      liveShards := liveShards - {shard};
    }

    /** The checkpoint text recorded for a shard: empty if there is none. */
    function CheckpointOf(sh: ShardId): Mark
      reads this`checkpoints
    {
      if sh in checkpoints then checkpoints[sh] else Unset
    }

    /** The body of the loop over the children of a closed shard. The source dereferences the first
        parent of every child. */
    method VisitChild(child: Shard, ghost s: State, ghost index: Index)
      requires Shows(s) && child.id in index.shards && index.shards[child.id] == child && child.parent.Some?
      modifies this`checkpoints, this`unassignedShards, this`liveShards, this`closed
      ensures Shows(Visit(s, index, child.id))
    {
      hide Queues, Shaped, WorkersAre;
      var parentClosed := CheckpointOf(child.parent.value) == Closed;
      var adjacentClosed := child.adjacent.None? || CheckpointOf(child.adjacent.value) == Closed;
      assert parentClosed && adjacentClosed <==> Eligible(s, index, child.id);
      if parentClosed && adjacentClosed {
        ActivateOrPass(child.id, s);
      }
    }

    /** The child goes live, or the notification is passed on to it. */
    method ActivateOrPass(c: ShardId, ghost s: State)
      requires Shows(s)
      modifies this`checkpoints, this`unassignedShards, this`liveShards, this`closed
      ensures Shows(if !s.IsClosed(c) && c !in s.live then
        s.(checkpoints := if s.MarkOf(c) == Unset then s.checkpoints[c := Latest] else s.checkpoints,
           pool := s.pool + [c], live := s.live + {c})
        else s.(closed := s.closed + [Note(c, None)]))
    {
      hide Queues, Shaped, WorkersAre;
      var childCheckpoint := CheckpointOf(c);
      if childCheckpoint != Closed && c !in liveShards {
        if childCheckpoint == Unset {
          checkpoints := checkpoints[c := Latest];
        }
        unassignedShards := unassignedShards + [c];
        liveShards := liveShards + {c};
      } else {
        closed := closed + [Note(c, None)];
      }
    }

    method VisitChildren(children: seq<Shard>, ghost s: State, ghost index: Index)
      requires Shows(s) && forall i :: 0 <= i < |children| ==>
        (children[i].id in index.shards && index.shards[children[i].id] == children[i] && children[i].parent.Some?)
      modifies this`checkpoints, this`unassignedShards, this`liveShards, this`closed
      ensures forall c :: c in Ids(children) ==> c in index.shards
      ensures Shows(VisitAll(s, index, Ids(children)))
    {
      hide Shows, Visit;
      ghost var ids := Ids(children);
      for i := 0 to |children|
        invariant forall c :: c in ids[..i] ==> c in index.shards
        invariant Shows(VisitAll(s, index, ids[..i]))
      {
        assert ids[i] == children[i].id;
        assert ids[..i + 1][..i] == ids[..i] && ids[..i + 1][i] == ids[i];
        VisitChild(children[i], VisitAll(s, index, ids[..i]), index);
      }
      assert ids[..|children|] == ids;
    }

    method TakeHead(ghost s: State) returns (n: Note)
      requires Shows(s) && s.closed != []
      modifies this`closed
      ensures n == s.closed[0] && Shows(s.(closed := s.closed[1..]))
    {
      hide Queues, Shaped, WorkersAre;
      n := closed[0];
      closed := closed[1..];
    }

    /** The head of the worklist, taken off its worker if it still names one. */
    method DetachHead(ghost s: State) returns (n: Note)
      requires Shows(s) && s.closed != [] && (s.closed[0].worker.Some? ==> s.closed[0].worker.value in s.info)
      modifies this`liveShards, this`closed, known`assignments, known`activeShardCount
      modifies workerShardCount, workerShardCount.pq, workerShardCount.pq.members
      ensures fresh(workerShardCount.pq.members - old(workerShardCount.pq.members))
      ensures n == s.closed[0] && Shows(Detach(s.(closed := s.closed[1..]), n))
    {
      hide Shows;
      n := TakeHead(s);
      ghost var u := s.(closed := s.closed[1..]);
      if n.worker.Some? {
        ShowsKnown(u);
        TakeOff(n.worker.value, n.shard, u);
      }
    }

    /** One turn of the close worklist. A notification of a shard without children comes back. */
    method SettleNext(ghost s: State) returns (back: seq<Note>, ghost kids: seq<ShardId>)
      requires Shows(s) && s.closed != [] && discovery.Valid() && NotesReady(discovery.index, s)
      modifies this`checkpoints, this`unassignedShards, this`liveShards, this`closed
      modifies known`assignments, known`activeShardCount
      modifies workerShardCount, workerShardCount.pq, workerShardCount.pq.members
      ensures fresh(workerShardCount.pq.members - old(workerShardCount.pq.members))
      ensures KidsFor(discovery.index, s, kids)
      ensures Shows(AfterSettle(s, discovery.index, kids))
        && s.deferred + back == AfterSettle(s, discovery.index, kids).deferred
    {
      hide Shows, Detach, VisitAll, NotesReady, KidsFor, Index.Complete, ShardDiscoveryService.Valid;
      ghost var index := discovery.index;
      HeadReady(index, s);
      var n := DetachHead(s);
      var children := discovery.GetChildren(n.shard);
      kids := Ids(children);
      ChildrenReady(index, s, children);
      AfterKids(index, s, kids);
      ghost var t := Detach(s.(closed := s.closed[1..]), n);
      if |children| == 0 {
        back := [Note(n.shard, None)];
        StillShows(t, AfterSettle(s, index, kids));
      } else {
        back := [];
        VisitChildren(children, t, index);
      }
    }

    method PutBack(unresolved: seq<Note>, ghost s: State)
      requires Shows(s)
      modifies this`closed
      ensures Shows(s.(closed := unresolved, deferred := []))
    {
      hide Queues, Shaped, WorkersAre;
      closed := unresolved;
    }

    /** ... as a step of a run. */
    method SettleTurn(ghost height: map<ShardId, nat>, ghost s: State, ghost t0: State, ghost acts0: seq<Action>)
      returns (back: seq<Note>, ghost t: State, ghost acts: seq<Action>)
      requires Shows(t0) && Settling(cfg, discovery.index, s, t0, acts0) && t0.closed != []
      requires discovery.Valid() && discovery.index.Acyclic(height) && NotesReady(discovery.index, t0)
      modifies this`checkpoints, this`unassignedShards, this`liveShards, this`closed
      modifies known`assignments, known`activeShardCount
      modifies workerShardCount, workerShardCount.pq, workerShardCount.pq.members
      ensures fresh(workerShardCount.pq.members - old(workerShardCount.pq.members))
      ensures Shows(t) && Settling(cfg, discovery.index, s, t, acts) && NotesReady(discovery.index, t)
      ensures t.closed == closed && t.deferred == t0.deferred + back
      ensures 0 <= WorkWeight(discovery.index, height, t.closed) < WorkWeight(discovery.index, height, t0.closed)
    {
      hide Shows, Settling, NotesReady, KidsFor, AfterSettle, WorkWeight, Index.Acyclic, ShardDiscoveryService.Valid;
      ghost var kids;
      back, kids := SettleNext(t0);
      TurnDone(cfg, discovery.index, height, s, t0, acts0, kids);
      t, acts := AfterSettle(t0, discovery.index, kids), acts0 + [Settle(discovery.index, kids)];
      ShowsClosed(t);
    }

    /** Drain the close worklist. Notifications of shards without children are kept for the next time. */
    method ProcessClosedShards(ghost height: map<ShardId, nat>, ghost s: State)
      returns (ghost t: State, ghost acts: seq<Action>)
      requires Shows(s) && discovery.Valid() && discovery.index.Acyclic(height)
      requires s.inService && s.deferred == [] && NotesReady(discovery.index, s)
      modifies this`checkpoints, this`unassignedShards, this`liveShards, this`closed
      modifies known`assignments, known`activeShardCount
      modifies workerShardCount, workerShardCount.pq, workerShardCount.pq.members
      ensures fresh(workerShardCount.pq.members - old(workerShardCount.pq.members))
      ensures Settling(cfg, discovery.index, s, t, acts) && t.closed == []
      ensures Shows(t.(closed := t.deferred, deferred := []))
    {
      hide Shows, Settling, NotesReady, WorkWeight, Index.Acyclic, ShardDiscoveryService.Valid;
      ghost var index := discovery.index;
      var unresolved: seq<Note> := [];
      t, acts := s, [];
      SettlingNone(cfg, index, s);
      ShowsClosed(t);
      while |closed| > 0
        invariant Shows(t) && Settling(cfg, index, s, t, acts) && t.deferred == unresolved && t.closed == closed
        invariant NotesReady(index, t) && discovery.Valid()
        invariant fresh(workerShardCount.pq.members - old(workerShardCount.pq.members))
        decreases WorkWeight(index, height, t.closed)
      {
        var back;
        back, t, acts := SettleTurn(height, s, t, acts);
        unresolved := unresolved + back;
      }
      PutBack(unresolved, t);
    }

    lemma ShowsClosed(t: State)
      requires Shows(t)
      ensures t.closed == closed
    {
    }

    lemma StillShows(t: State, u: State)
      requires Shows(t) && u == t.(deferred := u.deferred)
      ensures Shows(u)
    {
      hide Queues, Shaped, WorkersAre;
    }

    lemma ShowsKnown(t: State)
      requires Shows(t)
      ensures t.info.Keys == known && t.closed == closed
    {
      hide Queues, Shaped;
    }

    // ---------- Resolving the requester ----------

    /** A new worker object, entered under id. */
    method AddWorker(id: WorkerId, ghost s: State) returns (w: WorkerInfo)
      requires Shows(s)
      modifies this`workers, this`known
      ensures fresh(w) && w !in s.info && known == old(known) + {w}
      ensures Shows(s.(workers := s.workers[id := w], info := s.info[w := Worker(id, w.lastHeartbeat, map[], None, 0)]))
    {
      hide Queues, WorkersAre, Shaped;
      w := MakeWorker(id, s.info);
      workers := workers[id := w];
    }

    /** ... on the objects alone. */
    method MakeWorker(id: WorkerId, ghost info: map<WorkerInfo, Worker>) returns (w: WorkerInfo)
      requires WorkersAre(info) && Shaped()
      modifies this`known
      ensures fresh(w) && w !in info && known == old(known) + {w}
      ensures WorkersAre(info[w := Worker(id, w.lastHeartbeat, map[], None, 0)]) && Shaped()
    {
      w := new WorkerInfo(id);
      known := known + {w};
    }

    method SetHeartbeat(w: WorkerInfo, at: int, ghost s: State)
      requires Shows(s) && w in s.info
      modifies w`lastHeartbeat
      ensures Shows(s.(info := s.info[w := s.info[w].(heartbeat := at)]))
    {
      hide Queues, Shaped;
      w.lastHeartbeat := at;
    }

    method PushHeartbeat(id: WorkerId, at: int, ghost s: State)
      requires Shows(s)
      modifies workerHeartbeats, workerHeartbeats.pq, workerHeartbeats.pq.members
      ensures fresh(workerHeartbeats.pq.members - old(workerHeartbeats.pq.members))
      ensures Shows(s.(heartbeats := s.heartbeats[id := at]))
    {
      hide PriorityQueue.Valid, WorkersAre, Shaped;
      workerHeartbeats.Push(id, at);
    }

    method ResolveActiveWorker(workerId: WorkerId, at: int, ghost s: State) returns (w: WorkerInfo)
      requires Shows(s) && (workerId in s.workers ==> s.workers[workerId] in s.info)
      modifies this`workers, this`known, known`lastHeartbeat
      modifies workerHeartbeats, workerHeartbeats.pq, workerHeartbeats.pq.members
      ensures fresh(workerHeartbeats.pq.members - old(workerHeartbeats.pq.members)) && fresh(known - old(known))
      ensures workerId !in s.workers ==> w !in s.info
      ensures Shows(AfterRegister(s, workerId, w, at)) && w == AfterRegister(s, workerId, w, at).workers[workerId]
      ensures old(known) <= known
    {
      hide Shows, PriorityQueue.Valid;
      ghost var t := s;
      ShowsWorkers(s);
      if workerId in workers {
        w := workers[workerId];
      } else {
        w := AddWorker(workerId, s);
        t := s.(workers := s.workers[workerId := w],
                info := s.info[w := Worker(workerId, w.lastHeartbeat, map[], None, 0)]);
      }
      Beat(workerId, w, at, t);
      assert t.info[w := t.info[w].(heartbeat := at)] == s.info[w := t.info[w].(heartbeat := at)];
    }

    /** The heartbeat of w, in its record and in the queue. */
    method Beat(id: WorkerId, w: WorkerInfo, at: int, ghost s: State)
      requires Shows(s) && w in s.info
      modifies w`lastHeartbeat
      modifies workerHeartbeats, workerHeartbeats.pq, workerHeartbeats.pq.members
      ensures fresh(workerHeartbeats.pq.members - old(workerHeartbeats.pq.members))
      ensures Shows(s.(info := s.info[w := s.info[w].(heartbeat := at)], heartbeats := s.heartbeats[id := at]))
    {
      hide Shows, PriorityQueue.Valid;
      SetHeartbeat(w, at, s);
      PushHeartbeat(id, at, s.(info := s.info[w := s.info[w].(heartbeat := at)]));
    }

    lemma ShowsWorkers(t: State)
      requires Shows(t)
      ensures t.workers == workers && t.info.Keys == known
    {
    }

    // ---------- Serving the requester ----------

    /** The worker objects hold what info says, but for the offer of w. */
    ghost predicate WorkersBut(info: map<WorkerInfo, Worker>, w: WorkerInfo)
      reads this`known, known
    {
      && info.Keys == known && w in known
      && (forall u :: u in known && u != w ==> info[u] == ValueOf(u))
      && info[w] == ValueOf(w).(offer := info[w].offer)
    }

    /** The manager is in state t, but for w: its due offer is being worked off, and its new active count
        has still to be pushed. */
    ghost predicate Serving(t: State, w: WorkerInfo)
      reads this, known
      reads workerHeartbeats, workerHeartbeats.pq, workerHeartbeats.pq.members
      reads workerShardCount, workerShardCount.pq, workerShardCount.pq.members
    {
      && Queues() && Shaped() && Fields(t) && WorkersBut(t.info, w)
      && t.counts == workerShardCount.Contents[w := t.info[w].active]
    }

    /** w's request is being served, and its offer is shown again. */
    ghost predicate Attending(t: State, m: Places, w: WorkerInfo, at: int)
      reads this, known
      reads workerHeartbeats, workerHeartbeats.pq, workerHeartbeats.pq.members
      reads workerShardCount, workerShardCount.pq, workerShardCount.pq.members
    {
      Serving(t, w) && w in t.info && OfferOf(w.offer) == t.info[w].offer && Admitted(t, m, w, at) && w in t.counts
    }

    lemma StartServing(s: State, loc: Places, w: WorkerInfo, at: int)
      requires Shows(s) && Admitted(s, loc, w, at)
      ensures w in s.info && Attending(AfterEnlist(s, w), loc, w, at) && w.activeShardCount == s.info[w].active
    {
      EnlistAdmitted(s, loc, w, at);
      hide Queues, Shaped, Sound;
    }

    lemma AttendingFacts(t: State, m: Places, w: WorkerInfo, at: int)
      requires Attending(t, m, w, at)
      ensures Serving(t, w) && w in t.info && OfferOf(w.offer) == t.info[w].offer && w in t.counts
      ensures Sound(t, m) && t.inService && t.Registered(w) && t.pool == unassignedShards
      ensures Admitted(t, m, w, at) && w in known && t.info.Keys == known
    {
      hide Queues, Shaped, Sound;
    }

    lemma StillAttending(cfg: Config, s: State, loc: Places, t: State, m: Places, w: WorkerInfo, acts: seq<Action>,
                         at: int)
      requires Admitted(s, loc, w, at) && w in s.counts && Served(cfg, s, t, w, m, acts)
      requires Serving(t, w) && w in t.info && OfferOf(w.offer) == t.info[w].offer
      ensures Attending(t, m, w, at)
    {
      hide Serving, Served, Admitted;
      ServedAdmitted(cfg, s, loc, t, w, m, acts, at);
    }

    /** w's record gains an assignment. */
    method Assign(w: WorkerInfo, sh: ShardId, id: int, ghost info: map<WorkerInfo, Worker>)
      requires WorkersBut(info, w)
      modifies w`assignments, w`activeShardCount
      ensures WorkersBut(info[w := info[w].(assignments := info[w].assignments[sh := Assignment(id, false)],
                                            active := info[w].active + 1)], w)
    {
      w.assignments := w.assignments[sh := Assignment(id, false)];
      w.activeShardCount := w.activeShardCount + 1;
    }

    /** w is given a shard under the next assignment id. */
    method GiveShard(w: WorkerInfo, sh: ShardId, ghost t: State)
      requires Serving(t, w) && w in t.info
      modifies this`nextAssignmentOffset, w`assignments, w`activeShardCount
      ensures Serving(Give(t, w, sh), w)
    {
      hide Queues, Shaped, WorkersBut;
      var id := GetNextAssignmentId();
      Assign(w, sh, id, t.info);
    }

    /** d's record loses an assignment. */
    method Unassign(d: WorkerInfo, sh: ShardId, w: WorkerInfo, ghost info: map<WorkerInfo, Worker>)
      requires WorkersBut(info, w) && d in info
      modifies d`assignments
      ensures WorkersBut(info[d := info[d].(assignments := info[d].assignments - {sh})], w)
    {
      d.assignments := d.assignments - {sh};
    }

    lemma OfferFree(info: map<WorkerInfo, Worker>, w: WorkerInfo, offer: Option<Offer>)
      requires WorkersBut(info, w)
      ensures w in info && WorkersBut(info[w := info[w].(offer := offer)], w)
    {
    }

    /** The donor forgets a shard that w acquires. */
    method ForgetShard(d: WorkerInfo, sh: ShardId, w: WorkerInfo, ghost t: State)
      requires Serving(t, w) && d in t.info && w in t.info && t.info[w].offer.Some?
      modifies d`assignments
      ensures Serving(Unlent(t, w, Loan(d, sh)), w)
    {
      hide Queues, Shaped, Forget, WorkersBut;
      Unassign(d, sh, w, t.info);
      ForgetOne(t.info, d, sh);
      ghost var info := Forget(t.info, {Loan(d, sh)});
      OfferFree(info, w, Some(info[w].offer.value.(loans := info[w].offer.value.loans - {Loan(d, sh)})));
    }

    method AcquireOne(d: WorkerInfo, sh: ShardId, w: WorkerInfo, ghost t: State)
      requires Serving(t, w) && d in t.info && w in t.info && t.info[w].offer.Some?
      modifies this`nextAssignmentOffset, d`assignments, w`assignments, w`activeShardCount
      ensures Serving(AfterAcquire(t, w, Loan(d, sh)), w)
    {
      hide Serving, Unlent;
      assert Unlent(t, w, Loan(d, sh)).info.Keys == t.info.Keys by { UnlentKeys(t, w, Loan(d, sh)); }
      ForgetShard(d, sh, w, t);
      GiveShard(w, sh, Unlent(t, w, Loan(d, sh)));
    }

    /** The shards offered by donor d change hands. */
    method AcquireFrom(d: WorkerInfo, shards: seq<ShardId>, w: WorkerInfo, at: int, since: int,
                       ghost rest: set<Loan>, ghost s: State, ghost t0: State, ghost m0: Places,
                         ghost claims0: seq<Action>)
      returns (n: int, ghost t: State, ghost m: Places, ghost claims: seq<Action>)
      requires Serving(t0, w) && Claimed(cfg, s, t0, w, m0, claims0, at, since, rest + DonorLoans(d, shards))
      requires d in s.info && NoDup(shards) && forall l :: l in rest ==> l.donor != d
      modifies this`nextAssignmentOffset, d`assignments, w`assignments, w`activeShardCount
      ensures Serving(t, w) && Claimed(cfg, s, t, w, m, claims, at, since, rest)
      ensures n == |shards| && |claims| == |claims0| + n
    {
      hide Serving, Claimed, AfterAcquire, DonorLoans, NoDup;
      n, t, m, claims := 0, t0, m0, claims0;
      assert shards[0..] == shards;
      for i := 0 to |shards|
        invariant Serving(t, w) && Claimed(cfg, s, t, w, m, claims, at, since, rest + DonorLoans(d, shards[i..]))
        invariant n == i && |claims| == |claims0| + n
      {
        var sh := shards[i];
        NextLoan(rest, d, shards, i);
        ghost var loan := Loan(d, sh);
        ClaimOne(cfg, s, t, w, m, claims, at, since, rest + DonorLoans(d, shards[i..]), loan);
        AcquireOne(d, sh, w, t);
        ghost var a := Acquire(w, loan, at);
        t, m, claims := AfterAcquire(t, w, loan), Moved(cfg, t, a, m), claims + [a];
        n := n + 1;
      }
      NoLoans(d, shards[|shards|..]);
      assert rest + DonorLoans(d, shards[|shards|..]) == rest;
    }

    lemma OfferShown(t: State, w: WorkerInfo)
      requires Serving(t, w) && OfferOf(w.offer) == t.info[w].offer
      ensures w in t.info && w.offer.None? == t.info[w].offer.None?
      ensures w.offer.Some? ==>
        t.info[w].offer == Some(Offer(LoansOf(w.offer.value.shards), w.offer.value.createdAt))
        && (forall d :: d in w.offer.value.shards ==> d in t.info && NoDup(w.offer.value.shards[d]))
    {
      hide Queues, LoansOf, NoDup;
    }

    /** All of w's offer changes hands. */
    method AcquireOffer(w: WorkerInfo, at: int, ghost s: State, ghost loc: Places)
      returns (n: int, ghost t: State, ghost m: Places, ghost claims: seq<Action>)
      requires Serving(s, w) && w in s.info && OfferOf(w.offer) == s.info[w].offer && Due(cfg, s, w, at)
        && w.offer.Some?
      requires Sound(s, loc) && s.inService && s.Registered(w)
      modifies this`nextAssignmentOffset, known`assignments, w`activeShardCount
      ensures Serving(t, w) && Claimed(cfg, s, t, w, m, claims, at, w.offer.value.createdAt, {}) && n == |claims|
    {
      hide Serving, Claimed, Sound, Served, LoansOf, Owing, DonorLoans, NoDup, OfferOf, Due, State.Registered;
      OfferShown(s, w);
      ServingKnown(s, w);
      var shards := w.offer.value.shards;
      var since := w.offer.value.createdAt;
      ClaimedNone(cfg, s, w, loc, at);
      OwingEnds(shards);
      n, t, m, claims := 0, s, loc, [];
      var donors := shards.Keys;
      while donors != {}
        invariant donors <= shards.Keys && n == |claims|
        invariant Serving(t, w) && Claimed(cfg, s, t, w, m, claims, at, since, Owing(shards, donors))
      {
        var d :| d in donors;
        OwingLess(shards, donors, d);
        var k;
        k, t, m, claims := AcquireFrom(d, shards[d], w, at, since, Owing(shards, donors - {d}), s, t, m, claims);
        n := n + k;
        donors := donors - {d};
      }
    }

    method DropOffer(w: WorkerInfo, ghost t: State)
      requires Serving(t, w) && w in t.info
      modifies w`offer
      ensures Serving(AfterDropOffer(t, w), w) && w.offer == None
    {
      hide Queues;
      w.offer := None;
    }

    /** If w's offer is due, all of it changes hands, and the offer is gone. */
    method AcquireDueReassignments(w: WorkerInfo, at: int, ghost s: State, ghost loc: Places)
      returns (n: int, ghost t: State, ghost m: Places, ghost claims: seq<Action>)
      requires Attending(s, loc, w, at)
      modifies this`nextAssignmentOffset, known`assignments, w`activeShardCount, w`offer
      ensures Attending(t, m, w, at) && Claiming(cfg, s, t, w, at, claims) && n == |claims|
      ensures w in s.info && w in t.info && var o := s.info[w].offer;
        var due := o.Some? && at - o.value.createdAt >= cfg.releaseTimeout;
        n == (if due then |o.value.loans| else 0) && t.info[w].offer == if due then None else o
    {
      hide Attending, Serving, Claimed, Claiming, Sound, Served, Admitted, State.Registered, LoansOf, NoDup;
      AttendingFacts(s, loc, w, at);
      n := 0;
      OfferShown(s, w);
      assert Due(cfg, s, w, at) <==> w.offer.Some? && at - w.offer.value.createdAt >= cfg.releaseTimeout;
      if w.offer.Some? && at - w.offer.value.createdAt >= cfg.releaseTimeout {
        ghost var u;
        n, u, m, claims := AcquireOffer(w, at, s, loc);
        ClaimsDone(cfg, s, u, w, m, claims, at, w.offer.value.createdAt);
        DropOffer(w, u);
        t := AfterDropOffer(u, w);
        StillAttending(cfg, s, loc, t, m, w, claims + [Action.DropOffer(w)], at);
      } else {
        NothingDue(cfg, s, w, at);
        t, m, claims := s, loc, [];
      }
      ClaimedInFull(cfg, s, t, w, at, claims);
    }

    /** w takes the first count shards of the pool. */
    method AssignFromUnassignedPool(count: nat, w: WorkerInfo, ghost at: int, ghost s: State, ghost loc: Places)
      returns (ghost t: State, ghost m: Places, ghost takes: seq<Action>)
      requires Attending(s, loc, w, at) && count <= |unassignedShards|
      modifies this`unassignedShards, this`nextAssignmentOffset, w`assignments, w`activeShardCount
      ensures Attending(t, m, w, at) && Taking(cfg, s, t, w, takes) && |takes| == count
    {
      hide Attending, Serving, Served, Sound, Admitted, Taking, OfferOf, State.Registered, AfterTake, Give;
      AttendingFacts(s, loc, w, at);
      assert s == s.(pool := unassignedShards);
      ServedNone(cfg, s, w, loc);
      TakingNone(cfg, s, w);
      t, m, takes := s, loc, [];
      for i := 0 to count
        invariant count <= |unassignedShards|
        invariant Serving(t.(pool := unassignedShards), w) && t.pool == unassignedShards[i..]
        invariant w in t.info && OfferOf(w.offer) == t.info[w].offer
        invariant Taking(cfg, s, t, w, takes) && Served(cfg, s, t, w, m, takes) && |takes| == i
      {
        var sh := unassignedShards[i];
        TakeOne(cfg, s, t, w, m, takes);
        GiveShard(w, sh, t.(pool := unassignedShards));
        TakeGives(t, w, unassignedShards);
        t, m, takes := AfterTake(t, w), Moved(cfg, t, Take(w), m), takes + [Take(w)];
      }
      DropFront(count, t, w);
      StillAttending(cfg, s, loc, t, m, w, takes, at);
    }

    method DropFront(count: nat, ghost t: State, ghost w: WorkerInfo)
      requires count <= |unassignedShards| && Serving(t.(pool := unassignedShards), w)
        && t.pool == unassignedShards[count..]
      modifies this`unassignedShards
      ensures Serving(t, w)
    {
      hide Queues, Shaped, WorkersBut;
      unassignedShards := unassignedShards[count..];
    }

    /** w has been served: its new active count is pushed. */
    method Relist(w: WorkerInfo, ghost t: State)
      requires Serving(t, w) && w in t.info && OfferOf(w.offer) == t.info[w].offer
      modifies workerShardCount, workerShardCount.pq, workerShardCount.pq.members
      ensures fresh(workerShardCount.pq.members - old(workerShardCount.pq.members))
      ensures Shows(t)
    {
      hide Queues, Shaped, WorkersBut, WorkersAre, Fields, OfferOf;
      ServedRecord(t.info, w);
      QueueCount(w);
    }

    lemma ServedRecord(info: map<WorkerInfo, Worker>, w: WorkerInfo)
      requires WorkersBut(info, w) && OfferOf(w.offer) == info[w].offer
      ensures WorkersAre(info) && w in info && info[w].active == w.activeShardCount
    {
    }

    // ---------- Rebalancing ----------

    /** The manager is in state t, but for w: the offer ro is being put together for it. */
    ghost predicate Offering(t: State, w: WorkerInfo, ro: map<WorkerInfo, seq<ShardId>>, now: int)
      reads this, known
      reads workerHeartbeats, workerHeartbeats.pq, workerHeartbeats.pq.members
      reads workerShardCount, workerShardCount.pq, workerShardCount.pq.members
    {
      && Queues() && Shaped() && Fields(t) && WorkersBut(t.info, w) && t.counts == workerShardCount.Contents
      && w.offer == None && t.info[w].offer == NewOffer(ro, now)
      && ro.Keys <= known && forall d :: d in ro ==> NoDup(ro[d])
    }

    /** An assignment of the donor without a reassignment request, if there is one. */
    method FindOpen(d: WorkerInfo) returns (found: Option<ShardId>)
      ensures found.Some? ==> found.value in d.assignments && !d.assignments[found.value].requested
      ensures found.None? ==> forall sh :: sh in d.assignments ==> d.assignments[sh].requested
    {
      var todo := d.assignments.Keys;
      while todo != {}
        invariant todo <= d.assignments.Keys
        invariant forall sh :: sh in d.assignments && sh !in todo ==> d.assignments[sh].requested
      {
        var sh :| sh in todo;
        if !d.assignments[sh].requested {
          return Some(sh);
        }
        todo := todo - {sh};
      }
      return None;
    }

    method MarkRequested(d: WorkerInfo, sh: ShardId, w: WorkerInfo, ghost info: map<WorkerInfo, Worker>)
      requires WorkersBut(info, w) && d in info && sh in info[d].assignments
      modifies d`assignments, d`activeShardCount
      ensures WorkersBut(info[d := Robbed(info[d], sh)], w)
    {
      d.assignments := d.assignments[sh := d.assignments[sh].(requested := true)];
      d.activeShardCount := d.activeShardCount - 1;
    }

    /** A shard of the donor is marked, and counts as offered. */
    method MarkStolen(d: WorkerInfo, sh: ShardId, w: WorkerInfo, now: int, ghost ro: map<WorkerInfo, seq<ShardId>>,
                      ghost t: State)
      requires WorkersBut(t.info, w) && w in t.info && d in t.info && d != w && sh in t.info[d].Open()
      requires t.info[w].offer == NewOffer(ro, now) && Loan(d, sh) !in t.info[w].Loans()
      requires forall e :: e in ro ==> NoDup(ro[e])
      modifies d`assignments, d`activeShardCount
      ensures WorkersBut(AfterSteal(t, w, d, sh, now).info, w)
      ensures AfterSteal(t, w, d, sh, now).info[w].offer == NewOffer(WithShard(ro, d, sh), now)
      ensures d.activeShardCount == t.info[d].active - 1
      ensures var more := WithShard(ro, d, sh);
        more != map[] && more.Keys == ro.Keys + {d} && (forall e :: e in more ==> NoDup(more[e])) && d in known
    {
      hide WorkersBut, AfterSteal, NewOffer, NoDup;
      MoreOffered(ro, d, sh, now);
      MarkRequested(d, sh, w, t.info);
      StealShape(t, w, d, sh, now);
      ButKnown(t.info[d := Robbed(t.info[d], sh)], w, d);
      OfferFree(t.info[d := Robbed(t.info[d], sh)], w, NewOffer(WithShard(ro, d, sh), now));
    }

    /** A shard of the donor goes into the offer. */
    method StealOne(d: WorkerInfo, sh: ShardId, w: WorkerInfo, now: int, ro: map<WorkerInfo, seq<ShardId>>,
                    ghost t: State)
      returns (more: map<WorkerInfo, seq<ShardId>>)
      requires Offering(t, w, ro, now) && w in t.info && d in t.info && d != w && sh in t.info[d].Open()
      requires Loan(d, sh) !in t.info[w].Loans()
      modifies d`assignments, d`activeShardCount
      modifies workerShardCount, workerShardCount.pq, workerShardCount.pq.members
      ensures fresh(workerShardCount.pq.members - old(workerShardCount.pq.members))
      ensures Offering(AfterSteal(t, w, d, sh, now), w, more, now) && more != map[]
    {
      hide Queues, Shaped, NoDup, WorkersBut, AfterSteal, NewOffer, WithShard;
      more := WithShard(ro, d, sh);
      MarkStolen(d, sh, w, now, ro, t);
      StealShape(t, w, d, sh, now);
      QueueCount(d);
    }

    /** The worker with the most active shards. */
    method PeekBusiest(ghost t: State, ghost w: WorkerInfo, ghost ro: map<WorkerInfo, seq<ShardId>>, ghost now: int)
      returns (d: Option<WorkerInfo>)
      requires Offering(t, w, ro, now) && w in t.counts
      ensures d.Some? && Busiest(t, d.value)
    {
      hide PriorityQueue.Valid, PriorityQueue.Top, Shaped, WorkersBut, NewOffer;
      d := workerShardCount.Peek();
    }

    /** The busiest worker, if shards are to be stolen from it for w. */
    method FindDonor(w: WorkerInfo, ideal: int, ghost s: State, ghost t: State, ghost m: Places,
                     ghost ro: map<WorkerInfo, seq<ShardId>>,
                     ghost now: int, ghost steals: seq<Action>, ghost target: int)
      returns (d: Option<WorkerInfo>)
      requires Offering(t, w, ro, now) && Robbing(cfg, s, t, w, now, m, steals, target) && target != 0
        && ideal == s.Ideal()
      ensures d.None? ==> StealingStops(t, w)
      ensures d.Some? ==> (
        Busiest(t, d.value) && d.value in known && w in t.info && w.workerId != d.value.workerId
          && d.value.activeShardCount > ideal)
    {
      hide Offering, Robbing, Sound, Busiest, StealingStops, State.Drained, State.Ideal, PriorityQueue.Valid;
      RobbingFacts(cfg, s, t, w, now, m, steals, target);
      d := PeekBusiest(t, w, ro, now);
      OfferingDonor(t, m, w, ro, now, d.value);
      if d.None? || d.value.workerId == w.workerId || d.value.activeShardCount <= ideal {
        RobStops(cfg, s, t, w, now, m, steals, target, d.value);
        d := None;
      }
    }

    /** One turn of the stealing loop. Without an assignment to mark the source would go round for ever;
        the counts rule that out. */
    method StealFrom(d: WorkerInfo, w: WorkerInfo, now: int, ro: map<WorkerInfo, seq<ShardId>>,
                     ghost s: State, ghost t0: State, ghost m0: Places, ghost steals0: seq<Action>, ghost target: int)
      returns (more: map<WorkerInfo, seq<ShardId>>, ghost t: State, ghost m: Places, ghost steals: seq<Action>)
      requires Offering(t0, w, ro, now) && Robbing(cfg, s, t0, w, now, m0, steals0, target) && target != 0
      requires w in t0.info && Busiest(t0, d) && w.workerId != d.workerId && d.activeShardCount > s.Ideal()
      modifies d`assignments, d`activeShardCount
      modifies workerShardCount, workerShardCount.pq, workerShardCount.pq.members
      ensures fresh(workerShardCount.pq.members - old(workerShardCount.pq.members))
      ensures Offering(t, w, more, now) && Robbing(cfg, s, t, w, now, m, steals, target - 1) && target > 0
    {
      hide Offering, Robbing, Sound, Busiest, AfterSteal, Worker.Open, State.Registered, State.Drained, State.Ideal;
      RobbingFacts(cfg, s, t0, w, now, m0, steals0, target);
      OfferingDonor(t0, m0, w, ro, now, d);
      var found := FindOpen(d);
      OpenFound(t0.info[d], found);
      var sh := found.value;
      RobOne(cfg, s, t0, w, now, m0, steals0, target, d, sh);
      more := StealOne(d, sh, w, now, ro, t0);
      ghost var a := Steal(w, d, sh, now);
      t, m, steals := AfterSteal(t0, w, d, sh, now), Moved(cfg, t0, a, m0), steals0 + [a];
    }

    /** Shards of the busiest workers are put on offer to w, until it has enough or nobody exceeds the ideal. */
    method Rebalance(w: WorkerInfo, now: int, ghost s: State, ghost loc: Places)
      returns (ghost t: State, ghost m: Places, ghost steals: seq<Action>)
      requires Shows(s) && w in s.info && Sound(s, loc) && s.inService && s.Registered(w)
      requires s.Drained() && w in s.counts && s.info[w].offer == None && s.info[w].heartbeat == now
      modifies known`assignments, known`activeShardCount, w`offer
      modifies workerShardCount, workerShardCount.pq, workerShardCount.pq.members
      ensures fresh(workerShardCount.pq.members - old(workerShardCount.pq.members))
      ensures Shows(t) && Served(cfg, s, t, w, m, steals) && Steals(steals, w) && StealingStops(t, w)
    {
      hide Shows, Offering, Robbing, Sound, Served, Busiest, StealingStops, Steals, State.Registered, State.Drained,
           State.Ideal, PriorityQueue.Valid;
      RegisteredSome(s, w);
      OpenOffer(s, w, now);
      var ideal := |liveShards| / |workers|;
      var target := Max(ideal - w.activeShardCount, 0);
      RobbingNone(cfg, s, w, now, loc);
      var ro;
      ro, target, t, m, steals := CollectOffer(w, now, ideal, target, s, loc);
      RobbingServed(cfg, s, t, w, now, m, steals, target);
      Attach(w, ro, now, t);
    }

    /** The stealing loop. */
    method CollectOffer(w: WorkerInfo, now: int, ideal: int, wanted: nat, ghost s: State, ghost loc: Places)
      returns (ro: map<WorkerInfo, seq<ShardId>>, target: nat, ghost t: State, ghost m: Places,
               ghost steals: seq<Action>)
      requires Offering(s, w, map[], now) && Robbing(cfg, s, s, w, now, loc, [], wanted) && ideal == s.Ideal()
      modifies known`assignments, known`activeShardCount
      modifies workerShardCount, workerShardCount.pq, workerShardCount.pq.members
      ensures fresh(workerShardCount.pq.members - old(workerShardCount.pq.members))
      ensures Offering(t, w, ro, now) && Robbing(cfg, s, t, w, now, m, steals, target) && StealingStops(t, w)
    {
      hide Offering, Robbing, Sound, Served, Busiest, StealingStops, State.Registered, State.Ideal, PriorityQueue.Valid;
      ro, target := map[], wanted;
      t, m, steals := s, loc, [];
      while target != 0
        invariant Offering(t, w, ro, now) && Robbing(cfg, s, t, w, now, m, steals, target)
        invariant fresh(workerShardCount.pq.members - old(workerShardCount.pq.members))
        decreases target
      {
        var donor := FindDonor(w, ideal, s, t, m, ro, now, steals, target);
        if donor.None? {
          break;
        }
        ro, t, m, steals := StealFrom(donor.value, w, now, ro, s, t, m, steals, target);
        target := target - 1;
      }
      if target == 0 {
        RobStops(cfg, s, t, w, now, m, steals, target, w);
      }
    }

    lemma OpenOffer(s: State, w: WorkerInfo, now: int)
      requires Shows(s) && w in s.info && s.info[w].offer == None
      ensures Offering(s, w, map[], now) && s.live == liveShards && s.workers == workers
      ensures w in known && w.activeShardCount == s.info[w].active && s.info.Keys == known
    {
      hide Queues, Shaped;
    }

    lemma OfferingDonor(t: State, m: Places, w: WorkerInfo, ro: map<WorkerInfo, seq<ShardId>>, now: int, d: WorkerInfo)
      requires Offering(t, w, ro, now) && w in t.info && Sound(t, m) && Busiest(t, d)
      ensures d in t.info && d in known && d.workerId == t.info[d].id && w.workerId == t.info[w].id
      ensures d.activeShardCount == t.info[d].active && d.assignments == t.info[d].assignments
      ensures t.info[d].active > t.Ideal() ==> t.info[d].Open() != {}
    {
      DonorFound(t, m, d);
      hide Queues, Shaped, Sound;
    }

    /** The offer is attached to the requester, unless it is empty. */
    method Attach(w: WorkerInfo, ro: map<WorkerInfo, seq<ShardId>>, now: int, ghost t: State)
      requires Offering(t, w, ro, now)
      modifies w`offer
      ensures Shows(t)
    {
      hide Queues, NoDup;
      if |ro| > 0 {
        w.offer := Some(ReassignmentOffer(ro, now));
      }
    }

    // ---------- Assign requests ----------

    lemma ShownOffer(s: State, w: WorkerInfo)
      requires Shows(s) && w in s.info
      ensures w in known && s.info.Keys == known && s.pool == unassignedShards
      ensures w.activeShardCount == s.info[w].active && OfferOf(w.offer) == s.info[w].offer
      ensures w.offer == None <==> s.info[w].offer == None
    {
      hide Queues, Shaped, LoansOf;
    }

    /** Any remaining capacity is filled from the pool, and the new active count is pushed. */
    method FillFromPool(w: WorkerInfo, remaining: nat, ghost at: int, ghost s: State, ghost loc: Places)
      returns (ghost t: State, ghost m: Places, ghost takes: seq<Action>)
      requires Attending(s, loc, w, at)
      modifies this`unassignedShards, this`nextAssignmentOffset, w`assignments, w`activeShardCount
      modifies workerShardCount, workerShardCount.pq, workerShardCount.pq.members
      ensures fresh(workerShardCount.pq.members - old(workerShardCount.pq.members))
      ensures Shows(t) && Admitted(t, m, w, at) && w in t.info && w in t.counts
      ensures Taking(cfg, s, t, w, takes) && |takes| == Min(remaining, |s.pool|)
    {
      hide Shows, Serving, Attending, Admitted, Taking, Sound, State.Registered, OfferOf;
      AttendingFacts(s, loc, w, at);
      var count := Min(remaining, |unassignedShards|);
      t, m, takes := AssignFromUnassignedPool(count, w, at, s, loc);
      AttendingFacts(t, m, w, at);
      Relist(w, t);
    }

    /** A due offer is claimed, and the room left is filled from the pool. */
    method FillUp(w: WorkerInfo, maxShards: int, at: int, ghost s: State, ghost loc: Places, ghost turn0: Turn)
      returns (ghost t: State, ghost m: Places, ghost turn: Turn)
      requires Attending(s, loc, w, at)
      modifies this`unassignedShards, this`nextAssignmentOffset
      modifies known`assignments, w`activeShardCount, w`offer
      modifies workerShardCount, workerShardCount.pq, workerShardCount.pq.members
      ensures fresh(workerShardCount.pq.members - old(workerShardCount.pq.members))
      ensures Shows(t) && Admitted(t, m, w, at) && w in t.info && w in t.counts
      ensures Filled(cfg, s, t, w, maxShards, at, turn)
      ensures turn == turn0.(claims := turn.claims, claimed := turn.claimed, takes := turn.takes, taken := t)
    {
      hide Shows, Serving, Attending, Admitted, Claiming, Taking, Filled, Sound, State.Registered, OfferOf;
      AttendingFacts(s, loc, w, at);
      ghost var claims, takes;
      var noOfReassignments;
      noOfReassignments, t, m, claims := AcquireDueReassignments(w, at, s, loc);
      AttendingFacts(t, m, w, at);
      turn := turn0.(claims := claims, claimed := t);
      var remaining := Max(maxShards - noOfReassignments, 0);
      t, m, takes := FillFromPool(w, remaining, at, t, m);
      FilledBy(cfg, s, t, w, maxShards, at, turn, takes);
      turn := turn.(takes := takes, taken := t);
    }

    /** Rebalancing, as a phase of a request. */
    method StealFor(w: WorkerInfo, at: int, ghost s: State, ghost loc: Places)
      returns (ghost t: State, ghost m: Places, ghost steals: seq<Action>)
      requires Shows(s) && Admitted(s, loc, w, at) && w in s.info && w in s.counts && s.info[w].offer == None
      modifies known`assignments, known`activeShardCount, w`offer
      modifies workerShardCount, workerShardCount.pq, workerShardCount.pq.members
      ensures fresh(workerShardCount.pq.members - old(workerShardCount.pq.members))
      ensures Shows(t) && Admitted(t, m, w, at) && w in t.info && StealPhase(cfg, s, t, w, steals)
    {
      hide Shows, Admitted, Sound, Served, State.Registered, State.Drained, Steals, StealingStops;
      AdmittedFacts(s, loc, w, at);
      t, m, steals := Rebalance(w, at, s, loc);
      ServedAdmitted(cfg, s, loc, t, w, m, steals, at);
    }

    /** w, being registered and not turned away, is served. */
    method ServeWorker(w: WorkerInfo, maxShards: int, at: int, ghost s: State, ghost loc: Places, ghost turn0: Turn)
      returns (ghost t: State, ghost m: Places, ghost turn: Turn)
      requires Shows(s) && Admitted(s, loc, w, at)
      modifies this`unassignedShards, this`nextAssignmentOffset
      modifies known`assignments, known`activeShardCount, known`offer
      modifies workerShardCount, workerShardCount.pq, workerShardCount.pq.members
      ensures fresh(workerShardCount.pq.members - old(workerShardCount.pq.members))
      ensures Shows(t) && Admitted(t, m, w, at) && ServePhase(cfg, s, t, w, maxShards, at, turn) && w in t.info
      ensures SameStart(turn, turn0)
    {
      hide Shows, Admitted, Attending, Sound, Filled, StealPhase, OfferOf, AfterEnlist;
      StartServing(s, loc, w, at);
      AttendingFacts(AfterEnlist(s, w), loc, w, at);
      var oldActiveShardCount := w.activeShardCount;
      t, m, turn := FillUp(w, maxShards, at, AfterEnlist(s, w), loc, turn0);
      ShownOffer(t, w);
      ghost var taken := t;
      // Shards are stolen only for a worker that got none and has no offer outstanding.
      if oldActiveShardCount == w.activeShardCount && w.offer == None {
        ghost var steals;
        t, m, steals := StealFor(w, at, t, m);
        turn := turn.(steals := steals);
      } else {
        turn := turn.(steals := []);
      }
      FilledServes(cfg, s, taken, t, w, maxShards, at, turn);
    }

    /** Before a request is served: silent workers are released and the close worklist is drained. */
    method Prepare(at: int, ghost height: map<ShardId, nat>, ghost s: State, ghost loc: Places)
      returns (ghost t: State, ghost m: Places, ghost turn: Turn)
      requires Shows(s) && Sound(s, loc) && s.inService && s.deferred == []
      requires discovery.Valid() && discovery.index.Acyclic(height) && NotesReady(discovery.index, s)
        && ClosesRecent(cfg, s, at)
      modifies this`unassignedShards, this`workers, this`checkpoints, this`liveShards, this`closed
      modifies known`assignments, known`activeShardCount
      modifies workerHeartbeats, workerHeartbeats.pq, workerHeartbeats.pq.members
      modifies workerShardCount, workerShardCount.pq, workerShardCount.pq.members
      ensures fresh(workerHeartbeats.pq.members - old(workerHeartbeats.pq.members))
      ensures fresh(workerShardCount.pq.members - old(workerShardCount.pq.members))
      ensures Shows(t) && Sound(t, m) && t.Drained() && t.inService && t == Ended(turn.settled)
      ensures ReleasePhase(cfg, s, turn.released, at, turn.expiries)
      ensures SettlePhase(cfg, discovery.index, turn.released, turn.settled, turn.settlings)
    {
      hide Shows, Sound, Releasing, ReleaseStops, ReleasePhase, SettlePhase, Settling, NotesReady, Index.Acyclic,
           State.Drained,
           ShardDiscoveryService.Valid, ClosesRecent;
      ghost var u, acts, turns;
      u, m, acts := ReleaseInactiveWorkers(at, s, loc);
      ghost var released :| Releasing(cfg, s, u, m, acts, at, released);
      ReleasingDone(cfg, discovery.index, s, u, m, acts, at, released);
      t, turns := ProcessClosedShards(height, u);
      m := SettlingDone(cfg, discovery.index, u, t, m, turns);
      turn := Turn(acts, u, turns, t, t, [], t, [], t, []);
      t := Ended(t);
    }

    /** The requester is registered, and its heartbeat recorded. */
    method Admit(workerId: WorkerId, at: int, ghost s: State, ghost loc: Places) returns (w: WorkerInfo, ghost t: State)
      requires Shows(s) && Sound(s, loc) && s.Drained() && s.inService
      modifies this`workers, this`known, known`lastHeartbeat
      modifies workerHeartbeats, workerHeartbeats.pq, workerHeartbeats.pq.members
      ensures fresh(workerHeartbeats.pq.members - old(workerHeartbeats.pq.members)) && fresh(known - old(known))
      ensures Shows(t) && Admitted(t, loc, w, at) && Resolves(s, t, workerId, w, at)
    {
      hide Shows, Sound, Admitted, State.Drained, AfterRegister;
      NamedWorker(s, loc, workerId);
      w := ResolveActiveWorker(workerId, at, s);
      t := AfterRegister(s, workerId, w, at);
      Admission(s, loc, workerId, w, at);
    }

    /** A worker that asks for nothing is given nothing; any other is served. */
    method Reply(w: WorkerInfo, maxShards: int, at: int, ghost s: State, ghost loc: Places, ghost start: Turn)
      returns (response: AssignResponse, ghost t: State, ghost m: Places, ghost turn: Turn)
      requires Shows(s) && Admitted(s, loc, w, at)
      modifies this`unassignedShards, this`nextAssignmentOffset
      modifies known`assignments, known`activeShardCount, known`offer
      modifies workerShardCount, workerShardCount.pq, workerShardCount.pq.members
      ensures fresh(workerShardCount.pq.members - old(workerShardCount.pq.members))
      ensures Shows(t) && Admitted(t, m, w, at) && w in t.info
      ensures if maxShards == 0 then t == s && turn == start
              else ServePhase(cfg, s, t, w, maxShards, at, turn) && SameStart(turn, start)
      ensures response == if maxShards == 0 then Assignments(map[]) else ResponseTo(t, w)
    {
      hide Shows, Admitted, Sound, ServePhase, SameStart, ResponseTo, State.Registered, State.Drained;
      AdmittedFacts(s, loc, w, at);
      if maxShards == 0 {
        return Assignments(map[]), s, loc, start;
      }
      t, m, turn := ServeWorker(w, maxShards, at, s, loc, start);
      response := Respond(w, t);
    }

    /** A request, on a manager in service. */
    method Answer(workerId: WorkerId, maxShards: int, at: int, ghost height: map<ShardId, nat>, ghost s: State,
                  ghost loc: Places)
      returns (response: AssignResponse, ghost t: State, ghost m: Places, ghost w: WorkerInfo, ghost turn: Turn)
      requires Shows(s) && Sound(s, loc) && s.inService && s.deferred == []
      requires discovery.Valid() && discovery.index.Acyclic(height) && NotesReady(discovery.index, s)
        && ClosesRecent(cfg, s, at)
      modifies this, known
      modifies workerHeartbeats, workerHeartbeats.pq, workerHeartbeats.pq.members
      modifies workerShardCount, workerShardCount.pq, workerShardCount.pq.members
      ensures Shows(t) && Admitted(t, m, w, at) && w in t.info
      ensures Answers(cfg, discovery.index, s, t, workerId, w, maxShards, at, turn)
      ensures response == if maxShards == 0 then Assignments(map[]) else ResponseTo(t, w)
    {
      hide Shows, Sound, Admitted, Answers, ReleasePhase, SettlePhase, ServePhase, Resolves, SameStart, NotesReady,
           Index.Acyclic,
           State.Drained, ShardDiscoveryService.Valid, ClosesRecent, Ended, ResponseTo;
      ghost var prepared, resolved, start;
      prepared, m, start := Prepare(at, height, s, loc);
      var worker;
      worker, resolved := Admit(workerId, at, prepared, m);
      start := start.(resolved := resolved);
      w := worker;
      response, t, m, turn := Reply(worker, maxShards, at, resolved, m, start);
      Answered(cfg, discovery.index, s, prepared, resolved, t, workerId, worker, maxShards, at, start, turn);
    }

    /** Each assign request is answered under the lock, in one go. */
    method HandleAssignRequest(workerId: WorkerId, maxShards: int, at: int,
                               ghost height: map<ShardId, nat>, ghost s: State, ghost loc: Places)
      returns (response: AssignResponse, ghost t: State, ghost m: Places, ghost w: Option<WorkerInfo>,
               ghost turn: Option<Turn>)
      requires Shows(s)
      requires s.inService ==> Sound(s, loc) && s.deferred == [] && ClosesRecent(cfg, s, at)
      requires s.inService ==> discovery.Valid() && discovery.index.Acyclic(height) && NotesReady(discovery.index, s)
      modifies this, known
      modifies workerHeartbeats, workerHeartbeats.pq, workerHeartbeats.pq.members
      modifies workerShardCount, workerShardCount.pq, workerShardCount.pq.members
      ensures Shows(t) && (s.inService ==> Sound(t, m))
      ensures s.inService ==> t.deferred == [] && NotesReady(discovery.index, t) && discovery.Valid()
      ensures response.NotInService? <==> !s.inService
      ensures !s.inService ==> t == s
      ensures s.inService ==> (
        w.Some? && turn.Some? && Answers(cfg, discovery.index, s, t, workerId, w.value, maxShards, at, turn.value)
        && w.value in t.info && response == if maxShards == 0 then Assignments(map[]) else ResponseTo(t, w.value))
      ensures s.inService && maxShards != 0 ==>
        response.Assignments?
        && (forall sh, n :: sh in response.given && response.given[sh].id == n <==> OwnedUnder(t, workerId, sh, n))
        && (forall sh :: sh in response.given ==>
              response.given[sh].sequenceNumber == if sh in t.checkpoints then t.checkpoints[sh] else Unset)
    {
      hide Shows, Sound, Answers, NotesReady, Index.Acyclic, ShardDiscoveryService.Valid, ClosesRecent;
      ShowsService(s);
      t, m, w, turn := s, loc, None, None;
      if !inService {
        return NotInService, t, m, w, turn;
      }
      ghost var me, phases;
      response, t, m, me, phases := Answer(workerId, maxShards, at, height, s, loc);
      w, turn := Some(me), Some(phases);
      AdmittedFacts(t, m, me, at);
      SoundRegistry(s, loc);
      AnswerReady(cfg, discovery.index, s, t, workerId, me, maxShards, at, phases);
      AnswerKeeps(cfg, discovery.index, s, t, workerId, me, maxShards, at, phases);
      ResponseExact(t, workerId, me);
    }

    method Respond(w: WorkerInfo, ghost t: State) returns (response: AssignResponse)
      requires Shows(t) && w in t.info
      ensures response == ResponseTo(t, w)
    {
      hide Queues, Shaped;
      var todo := w.assignments.Keys;
      var given: map<ShardId, Given> := map[];
      while todo != {}
        invariant todo <= w.assignments.Keys && given.Keys == w.assignments.Keys - todo
        invariant forall sh :: sh in given ==> given[sh] == Given(w.assignments[sh].id, CheckpointOf(sh))
      {
        var sh :| sh in todo;
        given := given[sh := Given(w.assignments[sh].id, CheckpointOf(sh))];
        todo := todo - {sh};
      }
      response := Assignments(given);
    }

    lemma ShowsService(s: State)
      requires Shows(s)
      ensures s.inService == inService
    {
    }

    // ---------- Checkpoint requests ----------

    /** The registered worker of that name owns the shard under that assignment id. */
    method IsOwner(workerId: WorkerId, shard: ShardId, id: int, ghost s: State) returns (owns: bool)
      requires Shows(s) && Named(s)
      ensures owns <==> OwnedUnder(s, workerId, shard, id)
    {
      hide Queues, Shaped;
      owns := workerId in workers && shard in workers[workerId].assignments
        && workers[workerId].assignments[shard].id == id;
    }

    /** The first, locked, half of a checkpoint request: no response means that the commit may go ahead. */
    method EnsureCheckpointOwnership(workerId: WorkerId, shard: ShardId, id: int, ghost s: State)
      returns (refusal: Option<CheckpointResponse>)
      requires Shows(s) && Named(s)
      ensures refusal == None <==> s.inService && OwnedUnder(s, workerId, shard, id)
      ensures refusal.Some? ==> refusal.value == CheckpointResponse(!s.inService, s.inService)
    {
      hide Shows, Named, OwnedUnder;
      ShowsService(s);
      if !inService {
        return Some(CheckpointResponse(true, false));
      }
      var owns := IsOwner(workerId, shard, id, s);
      refusal := if owns then None else Some(CheckpointResponse(false, true));
    }

    method RecordCheckpoint(w: WorkerInfo, shard: ShardId, mark: Mark, ghost s: State)
      requires Shows(s)
      modifies this`checkpoints, this`closed
      ensures Shows(AfterCheckpoint(s, w, shard, mark))
    {
      hide Queues, Shaped, WorkersAre;
      checkpoints := checkpoints[shard := mark];
      if mark == Closed {
        closed := closed + [Note(shard, Some(w))];
      }
    }

    /** The second, locked, half of a checkpoint request, after the commit. The manager may be out of
        service by then. */
    method FinishCheckpoint(workerId: WorkerId, shard: ShardId, id: int, mark: Mark, ghost s: State)
      returns (response: CheckpointResponse, ghost t: State)
      requires Shows(s) && Named(s)
      modifies this`checkpoints, this`closed
      ensures Shows(t)
      ensures OwnedUnder(s, workerId, shard, id) ==> (
        var w := s.workers[workerId];
        && Enabled(cfg, s, Checkpoint(w, shard, id, mark)) && t == Do(cfg, s, Checkpoint(w, shard, id, mark))
        && t.checkpoints == s.checkpoints[shard := mark]
        && t.closed == s.closed + (if mark == Closed then [Note(shard, Some(w))] else [])
        && response == CheckpointResponse(false, s.info[w].assignments[shard].requested))
      ensures !OwnedUnder(s, workerId, shard, id) ==> t == s && response == CheckpointResponse(false, true)
    {
      hide Shows, Named, OwnedUnder, AfterCheckpoint;
      t := s;
      var owns := IsOwner(workerId, shard, id, s);
      if !owns {
        return CheckpointResponse(false, true), t;
      }
      OwnerFacts(s, workerId, shard, id);
      OwnerShown(s, workerId, shard);
      var w := workers[workerId];
      CheckpointEnabled(cfg, s, w, shard, id, mark);
      var requested := w.assignments[shard].requested;
      RecordCheckpoint(w, shard, mark, s);
      t := AfterCheckpoint(s, w, shard, mark);
      MarkRecorded(s, w, shard, mark);
      response := CheckpointResponse(false, requested);
    }

    lemma MarkRecorded(s: State, w: WorkerInfo, shard: ShardId, mark: Mark)
      ensures var t := AfterCheckpoint(s, w, shard, mark);
        && t.checkpoints == s.checkpoints[shard := mark]
        && t.closed == s.closed + (if mark == Closed then [Note(shard, Some(w))] else [])
    {
    }

    lemma OwnerShown(s: State, workerId: WorkerId, shard: ShardId)
      requires Shows(s) && workerId in s.workers && s.workers[workerId] in s.info
      ensures workerId in workers && workers[workerId] == s.workers[workerId]
      ensures s.info[workers[workerId]].assignments == workers[workerId].assignments
    {
      hide Queues, Shaped;
    }

    // ---------- Taking over and standing down ----------

    /** The stored checkpoint of every known shard, or nothing if the context is canceled meanwhile. */
    method LoadCheckpoints(stored: map<ShardId, Mark>, canceled: set<ShardId>) returns (r: Option<map<ShardId, Mark>>)
      requires discovery.Valid()
      ensures r == None <==> exists sh :: sh in discovery.index.shards && sh in canceled
      ensures r.Some? ==> r.value == map sh | sh in discovery.index.shards :: StoredMark(stored, sh)
    {
      hide ShardDiscoveryService.Valid;
      var all := discovery.GetAll();
      NamesOf(all, discovery.index, discovery.index.shards.Keys);
      var found: map<ShardId, Mark> := map[];
      for i := 0 to |all|
        invariant forall j :: 0 <= j < i ==> all[j].id !in canceled
        invariant found.Keys == set j | 0 <= j < i :: all[j].id
        invariant forall sh :: sh in found ==> found[sh] == StoredMark(stored, sh)
      {
        if all[i].id in canceled {
          return None;
        }
        found := found[all[i].id := if all[i].id in stored then stored[all[i].id] else Latest];
      }
      forall sh | sh in discovery.index.shards ensures sh in found && sh !in canceled {
        var i :| 0 <= i < |all| && all[i].id == sh;
      }
      return Some(found);
    }

    /** The known roots, apart: those that are CLOSED, and those that are not. */
    method SplitRoots(found: map<ShardId, Mark>) returns (open: seq<ShardId>, shut: seq<ShardId>)
      requires discovery.Valid() && found.Keys == discovery.index.shards.Keys
      ensures Lists(open, set sh | sh in discovery.index.shards && discovery.index.IsRoot(sh) && found[sh] != Closed)
      ensures Lists(shut, set sh | sh in discovery.index.shards && discovery.index.IsRoot(sh) && found[sh] == Closed)
    {
      hide ShardDiscoveryService.Valid, Index.IsRoot;
      var index := discovery.index;
      var roots := discovery.GetRoots();
      ghost var all := set sh | sh in index.shards && index.IsRoot(sh);
      NamesOf(roots, index, all);
      open, shut := [], [];
      for i := 0 to |roots|
        invariant Lists(open, set sh | sh in Elements(Ids(roots)[..i]) && found[sh] != Closed)
        invariant Lists(shut, set sh | sh in Elements(Ids(roots)[..i]) && found[sh] == Closed)
      {
        NextName(roots, i);
        var sh := roots[i].id;
        assert sh !in Elements(open) && sh !in Elements(shut);
        if found[sh] != Closed {
          NoDupAppend(open, sh);
          open := open + [sh];
        } else {
          NoDupAppend(shut, sh);
          shut := shut + [sh];
        }
      }
      assert Ids(roots)[..|roots|] == Ids(roots);
    }

    method FreshQueues(ghost s: State)
      requires Shows(s)
      modifies this`workerHeartbeats, this`workerShardCount
      ensures Shows(s.(heartbeats := map[], counts := map[]))
    {
      hide WorkersAre, Shaped, PriorityQueue.Valid;
      workerHeartbeats := new PriorityQueue(false);
      workerShardCount := new PriorityQueue(true);
    }

    method InstallShards(found: map<ShardId, Mark>, open: seq<ShardId>, notes: seq<Note>, ghost s: State)
      requires Shows(s)
      modifies this`unassignedShards, this`checkpoints, this`closed, this`liveShards
      ensures Shows(s.(checkpoints := found, pool := open, live := (set sh | sh in open), closed := notes))
    {
      hide Shows;
      SetShards(open, s);
      SetMarks(found, notes, s.(pool := open, live := (set sh | sh in open)));
    }

    method SetShards(open: seq<ShardId>, ghost s: State)
      requires Shows(s)
      modifies this`unassignedShards, this`liveShards
      ensures Shows(s.(pool := open, live := (set sh | sh in open)))
    {
      hide WorkersAre, Shaped, Queues;
      unassignedShards := open;
      liveShards := set sh | sh in open;
    }

    method SetMarks(found: map<ShardId, Mark>, notes: seq<Note>, ghost s: State)
      requires Shows(s)
      modifies this`checkpoints, this`closed
      ensures Shows(s.(checkpoints := found, closed := notes))
    {
      hide WorkersAre, Shaped, Queues;
      checkpoints := found;
      closed := notes;
    }

    method EnterService(newTerm: int, ghost s: State)
      requires Shows(s)
      modifies this`workers, this`inService, this`term
      ensures Shows(s.(workers := map[], inService := true, term := newTerm))
    {
      hide WorkersAre, Shaped, Queues;
      workers, inService, term := map[], true, newTerm;
    }

    /** The new state, with fresh queues, all at once under the lock. */
    method Install(newTerm: int, found: map<ShardId, Mark>, open: seq<ShardId>, shut: seq<ShardId>, ghost index: Index,
                   ghost stored: map<ShardId, Mark>, ghost s: State)
      requires Shows(s) && found == map sh | sh in index.shards :: StoredMark(stored, sh)
      modifies this
      ensures Shows(AfterTakeover(s, index, stored, open, shut, newTerm))
    {
      hide Shows;
      var notes := seq(|shut|, i requires 0 <= i < |shut| => Note(shut[i], None));
      FreshQueues(s);
      ghost var t := s.(heartbeats := map[], counts := map[]);
      InstallShards(found, open, notes, t);
      t := t.(checkpoints := found, pool := open, live := (set sh | sh in open), closed := notes);
      EnterService(newTerm, t);
      t := t.(workers := map[], inService := true, term := newTerm);
      StillShows(t, t.(deferred := []));
    }

    /** Take over as leader under newTerm. If the context is canceled before all checkpoints are read, nothing
        happens. */
    method SetToInService(newTerm: int, stored: map<ShardId, Mark>, canceled: set<ShardId>, ghost s: State)
      returns (done: bool, ghost t: State, ghost a: Action)
      requires Shows(s) && discovery.Valid()
      modifies this
      ensures Shows(t) && (done <==> !exists sh :: sh in discovery.index.shards && sh in canceled)
      ensures done ==> (
        && a.Takeover? && a.index == discovery.index && a.stored == stored && a.newTerm == newTerm
        && Enabled(cfg, s, a) && t == Do(cfg, s, a)
        && t.checkpoints.Keys == discovery.index.shards.Keys
        && forall sh :: sh in t.checkpoints ==> t.checkpoints[sh] == if sh in stored then stored[sh] else Latest)
      ensures !done ==> t == s
    {
      hide Shows, ShardDiscoveryService.Valid, Index.IsRoot, Lists, AfterTakeover;
      t, a := s, Retire;
      var found := LoadCheckpoints(stored, canceled);
      if found.None? {
        return false, t, a;
      }
      var open, shut := SplitRoots(found.value);
      ghost var index := discovery.index;
      a := Takeover(index, stored, open, shut, newTerm);
      TakeoverEnabled(cfg, s, index, stored, open, shut, newTerm, found.value);
      Install(newTerm, found.value, open, shut, index, stored, s);
      done, t := true, AfterTakeover(s, index, stored, open, shut, newTerm);
      MarksTaken(s, index, stored, open, shut, newTerm);
    }

    lemma MarksTaken(s: State, index: Index, stored: map<ShardId, Mark>, open: seq<ShardId>, shut: seq<ShardId>,
                     newTerm: int)
      ensures var t := AfterTakeover(s, index, stored, open, shut, newTerm);
        && t.checkpoints.Keys == index.shards.Keys
        && forall sh :: sh in t.checkpoints ==> t.checkpoints[sh] == if sh in stored then stored[sh] else Latest
    {
    }

    method SetToOutOfService(ghost s: State)
      requires Shows(s)
      modifies this`inService
      ensures Enabled(cfg, s, Retire) && Shows(Do(cfg, s, Retire))
    {
      hide Queues, Shaped, WorkersAre;
      inService := false;
    }

    lemma ButKnown(info: map<WorkerInfo, Worker>, w: WorkerInfo, d: WorkerInfo)
      requires WorkersBut(info, w) && d in info
      ensures d in known && info[d].active == d.activeShardCount && info[d].assignments == d.assignments
      ensures info[d].id == d.workerId
    {
    }

    lemma ServingKnown(t: State, w: WorkerInfo)
      requires Serving(t, w)
      ensures w in known && t.info.Keys == known
    {
    }

    lemma ShowsQueues(t: State)
      requires Shows(t)
      ensures Queues() && workerHeartbeats.Contents == t.heartbeats && workers == t.workers
      ensures forall w :: w in t.info ==>
        w in known && w.lastHeartbeat == t.info[w].heartbeat && w.workerId == t.info[w].id
    {
    }

    lemma TopOldest(t: State)
      requires Shows(t) && t.heartbeats != map[] && Queues() && workerHeartbeats.Contents != map[]
      ensures Oldest(t, workerHeartbeats.Top())
    {
    }
  }
}
