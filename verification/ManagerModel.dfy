/** The manager's state as a value, and its atomic moves as functions.

    Every handler of the manager service is a sequence of these moves (module ManagerService proves
    it), so what holds along every run of moves holds along every run of handlers. */
module ManagerModel {
  import opened Finite
  import opened Lineage
  import opened WorkerRecord

  datatype Config = Config(inactivityTimeout: int, releaseTimeout: int)

  datatype Loan = Loan(donor: WorkerInfo, shard: ShardId)

  datatype Offer = Offer(loans: set<Loan>, createdAt: int)

  /** What a WorkerInfo object holds. */
  datatype Worker = Worker(id: WorkerId, heartbeat: int, assignments: map<ShardId, Assignment>,
                           offer: Option<Offer>, active: int) {
    /** The assignments without a reassignment request. */
    function Open(): set<ShardId> {
      set sh | sh in assignments && !assignments[sh].requested
    }

    function Loans(): set<Loan> {
      if offer.Some? then offer.value.loans else {}
    }
  }

  datatype Note = Note(shard: ShardId, worker: Option<WorkerInfo>)

  /** deferred holds the notifications set aside while the close worklist is being drained;
      between requests it is empty. */
  datatype State = State(
    inService: bool, term: int, nextOffset: int,
    checkpoints: map<ShardId, Mark>, pool: seq<ShardId>, live: set<ShardId>,
    workers: map<WorkerId, WorkerInfo>, info: map<WorkerInfo, Worker>,
    heartbeats: map<WorkerId, int>, counts: map<WorkerInfo, int>,
    closed: seq<Note>, deferred: seq<Note>) {

    predicate Registered(w: WorkerInfo) {
      w in info && info[w].id in workers && workers[info[w].id] == w
    }

    function MarkOf(sh: ShardId): Mark {
      if sh in checkpoints then checkpoints[sh] else Unset
    }

    predicate IsClosed(sh: ShardId) {
      MarkOf(sh) == Closed
    }

    function NextId(): int {
      term + nextOffset
    }

    /** No close notification still has to be taken off its worker. */
    ghost predicate Drained() {
      forall n :: n in closed ==> n.worker.None?
    }

    function Ideal(): int {
      if |workers| == 0 then 0 else |live| / |workers|
    }
  }

  datatype Action =
    | Expire(w: WorkerInfo, order: seq<ShardId>, at: int)
    | Settle(index: Index, kids: seq<ShardId>)
    | EndSettle
    | Register(name: WorkerId, w: WorkerInfo, at: int)
    | Enlist(w: WorkerInfo)
    | Acquire(w: WorkerInfo, loan: Loan, at: int)
    | DropOffer(w: WorkerInfo)
    | Take(w: WorkerInfo)
    | Steal(w: WorkerInfo, donor: WorkerInfo, shard: ShardId, at: int)
    | Checkpoint(w: WorkerInfo, shard: ShardId, id: int, mark: Mark)
    | Takeover(index: Index, stored: map<ShardId, Mark>, open: seq<ShardId>, shut: seq<ShardId>, newTerm: int)
    | Retire

  /** The assignments of lent shards disappear from the workers that lent them. */
  function Forget(info: map<WorkerInfo, Worker>, loans: set<Loan>): map<WorkerInfo, Worker> {
    map u | u in info ::
      info[u].(assignments := info[u].assignments - (set l | l in loans && l.donor == u :: l.shard))
  }

  /** An expired worker's shards return to the pool, in the order in which its maps deliver them. */
  function AfterExpire(s: State, w: WorkerInfo, order: seq<ShardId>): State
    requires w in s.info
  {
    s.(pool := s.pool + order,
       info := Forget(s.info, s.info[w].Loans()),
       workers := s.workers - {s.info[w].id},
       heartbeats := s.heartbeats - {s.info[w].id},
       counts := s.counts - {w})
  }

  /** The closed shard leaves its worker and the live set, once. */
  function Detach(s: State, n: Note): State
    requires n.worker.Some? ==> n.worker.value in s.info
  {
    if n.worker.None? then s else
      var w := n.worker.value;
      var me := s.info[w];
      s.(info := s.info[w := me.(assignments := me.assignments - {n.shard}, active := me.active - 1)],
         live := s.live - {n.shard},
         counts := s.counts[w := me.active - 1])
  }

  /** Both named parents are recorded CLOSED. */
  predicate Eligible(s: State, index: Index, c: ShardId)
    requires c in index.shards
  {
    var r := index.shards[c];
    r.parent.Some? && s.IsClosed(r.parent.value) && (r.adjacent.Some? ==> s.IsClosed(r.adjacent.value))
  }

  /** A child all of whose parents are closed goes live, or passes the notification on. */
  function Visit(s: State, index: Index, c: ShardId): State
    requires c in index.shards
  {
    if !Eligible(s, index, c) then s
    else if !s.IsClosed(c) && c !in s.live then
      s.(checkpoints := if s.MarkOf(c) == Unset then s.checkpoints[c := Latest] else s.checkpoints,
         pool := s.pool + [c],
         live := s.live + {c})
    else
      s.(closed := s.closed + [Note(c, None)])
  }

  function VisitAll(s: State, index: Index, kids: seq<ShardId>): State
    requires forall c :: c in kids ==> c in index.shards
    decreases |kids|
  {
    if kids == [] then s
    else Visit(VisitAll(s, index, kids[..|kids| - 1]), index, kids[|kids| - 1])
  }

  /** One turn of the close worklist. */
  function AfterSettle(s: State, index: Index, kids: seq<ShardId>): State
    requires s.closed != []
    requires s.closed[0].worker.Some? ==> s.closed[0].worker.value in s.info
    requires forall c :: c in kids ==> c in index.shards
  {
    var n := s.closed[0];
    var t := Detach(s.(closed := s.closed[1..]), n);
    if kids == [] then t.(deferred := t.deferred + [n.(worker := None)])
    else VisitAll(t, index, kids)
  }

  /** Visiting children only adds live shards. */
  lemma {:induction false} VisitAllLive(s: State, index: Index, kids: seq<ShardId>)
    requires forall c :: c in kids ==> c in index.shards
    ensures s.live <= VisitAll(s, index, kids).live
    decreases |kids|
  {
    hide Eligible;
    if kids != [] { VisitAllLive(s, index, kids[..|kids| - 1]); }
  }

  /** Visiting children touches neither workers nor queues. */
  lemma {:induction false} VisitAllInfo(s: State, index: Index, kids: seq<ShardId>)
    requires forall c :: c in kids ==> c in index.shards
    ensures var t := VisitAll(s, index, kids);
      t.info == s.info && t.workers == s.workers && t.heartbeats == s.heartbeats && t.counts == s.counts
      && t.term == s.term && t.nextOffset == s.nextOffset && t.inService == s.inService && t.deferred == s.deferred
    decreases |kids|
  {
    hide Eligible;
    if kids != [] { VisitAllInfo(s, index, kids[..|kids| - 1]); }
  }

  /** One turn of the worklist changes at most one worker's record: it loses the closed shard. */
  lemma SettleInfo(s: State, index: Index, kids: seq<ShardId>)
    requires s.closed != [] && (s.closed[0].worker.Some? ==> s.closed[0].worker.value in s.info)
    requires forall c :: c in kids ==> c in index.shards
    ensures var n := s.closed[0];
      var t := AfterSettle(s, index, kids);
      && t.workers == s.workers && t.heartbeats == s.heartbeats
      && t.term == s.term && t.nextOffset == s.nextOffset && t.inService == s.inService
      && (if n.worker.None? then t.info == s.info && t.counts == s.counts
          else var w := n.worker.value;
            t.info == s.info[w := s.info[w].(assignments := s.info[w].assignments - {n.shard},
                                             active := s.info[w].active - 1)]
            && t.counts == s.counts[w := s.info[w].active - 1])
  {
    VisitAllInfo(Detach(s.(closed := s.closed[1..]), s.closed[0]), index, kids);
    hide VisitAll;
  }

  function AfterRegister(s: State, id: WorkerId, w: WorkerInfo, at: int): State
    requires id in s.workers ==> s.workers[id] in s.info
  {
    if id in s.workers then
      var u := s.workers[id];
      s.(info := s.info[u := s.info[u].(heartbeat := at)], heartbeats := s.heartbeats[id := at])
    else
      s.(workers := s.workers[id := w],
         info := s.info[w := Worker(id, at, map[], None, 0)],
         heartbeats := s.heartbeats[id := at])
  }

  function AfterEnlist(s: State, w: WorkerInfo): State
    requires w in s.info
  {
    s.(counts := s.counts[w := s.info[w].active])
  }

  /** w is given sh under the next assignment id. */
  function Give(s: State, w: WorkerInfo, sh: ShardId): State
    requires w in s.info
  {
    var me := s.info[w];
    s.(info := s.info[w := me.(assignments := me.assignments[sh := Assignment(s.NextId(), false)],
                               active := me.active + 1)],
       counts := s.counts[w := me.active + 1],
       nextOffset := s.nextOffset + 1)
  }

  /** A loan leaves w's offer, and its donor forgets the shard. */
  function Unlent(s: State, w: WorkerInfo, loan: Loan): State
    requires w in s.info && s.info[w].offer.Some?
  {
    var info := Forget(s.info, {loan});
    var offer := info[w].offer.value;
    s.(info := info[w := info[w].(offer := Some(offer.(loans := offer.loans - {loan})))])
  }

  /** One loan of a due offer changes hands. */
  function AfterAcquire(s: State, w: WorkerInfo, loan: Loan): State
    requires w in s.info && s.info[w].offer.Some?
  {
    Give(Unlent(s, w, loan), w, loan.shard)
  }

  function AfterDropOffer(s: State, w: WorkerInfo): State
    requires w in s.info
  {
    s.(info := s.info[w := s.info[w].(offer := None)])
  }

  function AfterTake(s: State, w: WorkerInfo): State
    requires w in s.info && s.pool != []
  {
    Give(s.(pool := s.pool[1..]), w, s.pool[0])
  }

  /** The donor keeps the shard, under a reassignment request, until the offer is taken up. */
  function AfterSteal(s: State, w: WorkerInfo, donor: WorkerInfo, sh: ShardId, at: int): State
    requires w in s.info && donor in s.info && sh in s.info[donor].assignments
  {
    var d := s.info[donor];
    var t := s.(info := s.info[donor := d.(assignments := d.assignments[sh := d.assignments[sh].(requested := true)],
                                           active := d.active - 1)],
                counts := s.counts[donor := d.active - 1]);
    t.(info := t.info[w := t.info[w].(offer := Some(Offer(t.info[w].Loans() + {Loan(donor, sh)}, at)))])
  }

  function AfterCheckpoint(s: State, w: WorkerInfo, sh: ShardId, mark: Mark): State {
    s.(checkpoints := s.checkpoints[sh := mark],
       closed := if mark == Closed then s.closed + [Note(sh, Some(w))] else s.closed)
  }

  function StoredMark(stored: map<ShardId, Mark>, sh: ShardId): Mark {
    if sh in stored then stored[sh] else Latest
  }

  function AfterTakeover(s: State, index: Index, stored: map<ShardId, Mark>, open: seq<ShardId>,
                         shut: seq<ShardId>, newTerm: int): State {
    s.(inService := true, term := newTerm,
       checkpoints := (map sh | sh in index.shards :: StoredMark(stored, sh)),
       pool := open, live := (set sh | sh in open),
       workers := map[], heartbeats := map[], counts := map[],
       closed := seq(|shut|, i requires 0 <= i < |shut| => Note(shut[i], None)), deferred := [])
  }

  ghost predicate Oldest(s: State, id: WorkerId) {
    id in s.heartbeats && forall u :: u in s.heartbeats ==> s.heartbeats[id] <= s.heartbeats[u]
  }

  ghost predicate Busiest(s: State, w: WorkerInfo) {
    w in s.counts && forall u :: u in s.counts ==> s.counts[u] <= s.counts[w]
  }

  function ShardsOf(loans: set<Loan>): set<ShardId> {
    set l | l in loans :: l.shard
  }

  /** When the code makes the move: the guards of the branches that lead to it. */
  ghost predicate Enabled(cfg: Config, s: State, a: Action) {
    match a
    case Expire(w, order, at) =>
      s.inService && s.Registered(w) && Oldest(s, s.info[w].id) &&
      at - s.info[w].heartbeat >= cfg.inactivityTimeout &&
      Lists(order, s.info[w].Open() + ShardsOf(s.info[w].Loans()))
    case Settle(index, kids) =>
      s.inService && s.closed != [] && (s.closed[0].worker.Some? ==> s.closed[0].worker.value in s.info) &&
      s.closed[0].shard in index.children && Lists(kids, index.children[s.closed[0].shard]) &&
      forall c :: c in kids ==> c in index.shards
    case EndSettle => s.inService && s.closed == []
    case Register(id, w, at) =>
      s.inService && (id in s.workers ==> s.workers[id] in s.info) && (id !in s.workers ==> w !in s.info)
    case Enlist(w) => s.inService && s.Registered(w)
    case Acquire(w, loan, at) =>
      s.inService && s.Registered(w) && s.info[w].offer.Some? && loan in s.info[w].Loans() &&
      at - s.info[w].offer.value.createdAt >= cfg.releaseTimeout
    case DropOffer(w) => s.inService && s.Registered(w) && s.info[w].Loans() == {}
    case Take(w) => s.inService && s.Registered(w) && s.pool != []
    case Steal(w, donor, sh, at) =>
      s.inService && s.Drained() && s.Registered(w) && Busiest(s, donor) && donor in s.info &&
      s.info[donor].id != s.info[w].id && s.info[donor].active > s.Ideal() &&
      s.info[w].active + |s.info[w].Loans()| < s.Ideal() &&
      s.info[w].heartbeat == at && (s.info[w].offer.Some? ==> s.info[w].offer.value.createdAt == at) &&
      sh in s.info[donor].Open()
    case Checkpoint(w, sh, id, mark) =>
      s.Registered(w) && sh in s.info[w].assignments && s.info[w].assignments[sh].id == id
    case Takeover(index, stored, open, shut, newTerm) =>
      && Lists(open, set sh | sh in index.shards && index.IsRoot(sh) && StoredMark(stored, sh) != Closed)
      && Lists(shut, set sh | sh in index.shards && index.IsRoot(sh) && StoredMark(stored, sh) == Closed)
    case Retire => true
  }

  ghost function Do(cfg: Config, s: State, a: Action): State
    requires Enabled(cfg, s, a)
  {
    match a
    case Expire(w, order, at) => AfterExpire(s, w, order)
    case Settle(index, kids) => AfterSettle(s, index, kids)
    case EndSettle => s.(closed := s.deferred, deferred := [])
    case Register(id, w, at) => AfterRegister(s, id, w, at)
    case Enlist(w) => AfterEnlist(s, w)
    case Acquire(w, loan, at) => AfterAcquire(s, w, loan)
    case DropOffer(w) => AfterDropOffer(s, w)
    case Take(w) => AfterTake(s, w)
    case Steal(w, donor, sh, at) => AfterSteal(s, w, donor, sh, at)
    case Checkpoint(w, sh, id, mark) => AfterCheckpoint(s, w, sh, mark)
    case Takeover(index, stored, open, shut, newTerm) => AfterTakeover(s, index, stored, open, shut, newTerm)
    case Retire => s.(inService := false)
  }

  /** acts can be performed one after the other from s. */
  ghost predicate CanRun(cfg: Config, s: State, acts: seq<Action>)
    decreases |acts|, 0
  {
    acts == [] ||
    (var front := acts[..|acts| - 1];
     CanRun(cfg, s, front) && Enabled(cfg, Run(cfg, s, front), acts[|acts| - 1]))
  }

  /** The state that acts lead to. */
  ghost function Run(cfg: Config, s: State, acts: seq<Action>): State
    requires CanRun(cfg, s, acts)
    decreases |acts|, 1
  {
    if acts == [] then s
    else Do(cfg, Run(cfg, s, acts[..|acts| - 1]), acts[|acts| - 1])
  }

  lemma RunStep(cfg: Config, s: State, acts: seq<Action>, a: Action)
    requires CanRun(cfg, s, acts) && Enabled(cfg, Run(cfg, s, acts), a)
    ensures CanRun(cfg, s, acts + [a]) && Run(cfg, s, acts + [a]) == Do(cfg, Run(cfg, s, acts), a)
  {
    hide Enabled, Do;
    assert (acts + [a])[..|acts|] == acts;
  }

  lemma RunLast(cfg: Config, s: State, acts: seq<Action>)
    requires CanRun(cfg, s, acts) && acts != []
    ensures var front := acts[..|acts| - 1];
      var a := acts[|acts| - 1];
      && CanRun(cfg, s, front) && Enabled(cfg, Run(cfg, s, front), a)
      && Run(cfg, s, acts) == Do(cfg, Run(cfg, s, front), a)
  {
    hide Enabled, Do;
  }

  lemma RunNone(cfg: Config, s: State)
    ensures CanRun(cfg, s, []) && Run(cfg, s, []) == s
  {
  }

  lemma {:induction false} RunJoin(cfg: Config, s: State, acts: seq<Action>, more: seq<Action>)
    requires CanRun(cfg, s, acts) && CanRun(cfg, Run(cfg, s, acts), more)
    ensures CanRun(cfg, s, acts + more) && Run(cfg, s, acts + more) == Run(cfg, Run(cfg, s, acts), more)
    decreases |more|
  {
    hide Enabled, Do, CanRun, Run;
    if more == [] {
      RunNone(cfg, Run(cfg, s, acts));
      assert acts + more == acts;
    } else {
      var front := more[..|more| - 1];
      var a := more[|more| - 1];
      RunLast(cfg, Run(cfg, s, acts), more);
      RunJoin(cfg, s, acts, front);
      RunStep(cfg, s, acts + front, a);
      assert acts + front + [a] == acts + more;
    }
  }
}
