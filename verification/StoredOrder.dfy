/** What the shared store says of the lineage: under G3 no shard is stored CLOSED before its parents, whoever leads. A
    manager that takes over reads it key by key; what it reads is in order too if no shard is closed meanwhile. */
module StoredOrder {
  import opened Finite
  import opened Lineage
  import opened WorkerRecord
  import opened ManagerModel
  import opened Frontier
  import opened AssignCalls
  import opened Leadership
  import D = Delivery
  import F = Fencing

  /** The shards that the store records CLOSED. */
  function StoreShut(store: F.Store): set<ShardId> {
    set sh | sh in store && store[sh].mark == Closed
  }

  /** A root, or a shard whose named parents are all stored CLOSED. */
  predicate Allowed(index: Index, shut: set<ShardId>, c: ShardId) {
    c in index.shards && !index.IsRoot(c) ==> Ready(index, shut, c)
  }

  // ---------- Managers ----------

  /** A manager knows nothing CLOSED that is not stored so, and holds ready no shard whose parents are not. */
  ghost predicate StateOk(index: Index, shut: set<ShardId>, s: State) {
    && ShutOf(s) <= shut
    && (forall c :: c in s.pool ==> Allowed(index, shut, c))
    && HeldOk(index, shut, s.info)
  }

  ghost predicate HeldOk(index: Index, shut: set<ShardId>, info: map<WorkerInfo, Worker>) {
    && (forall u, c :: u in info && c in info[u].assignments ==> Allowed(index, shut, c))
    && (forall u, l :: u in info && l in info[u].Loans() ==> Allowed(index, shut, l.shard))
  }

  lemma GiveOk(index: Index, shut: set<ShardId>, s: State, w: WorkerInfo, sh: ShardId)
    requires StateOk(index, shut, s) && w in s.info && Allowed(index, shut, sh)
    ensures StateOk(index, shut, Give(s, w, sh))
  {
    hide Ready, Allowed;
  }

  lemma ForgetOk(index: Index, shut: set<ShardId>, info: map<WorkerInfo, Worker>, loans: set<Loan>)
    requires HeldOk(index, shut, info)
    ensures HeldOk(index, shut, Forget(info, loans))
  {
    hide Allowed;
  }

  lemma TakeOk(index: Index, shut: set<ShardId>, s: State, w: WorkerInfo)
    requires StateOk(index, shut, s) && w in s.info && s.pool != []
    ensures StateOk(index, shut, AfterTake(s, w))
  {
    hide Allowed, HeldOk;
    var t := s.(pool := s.pool[1..]);
    assert forall c :: c in t.pool ==> c in s.pool;
    assert s.pool[0] in s.pool && ShutOf(t) == ShutOf(s);
    GiveOk(index, shut, t, w, s.pool[0]);
  }

  lemma UnlentOk(index: Index, shut: set<ShardId>, s: State, w: WorkerInfo, loan: Loan)
    requires StateOk(index, shut, s) && w in s.info && s.info[w].offer.Some?
    ensures StateOk(index, shut, Unlent(s, w, loan))
  {
    ForgetOk(index, shut, s.info, {loan});
    hide Allowed, Forget;
    assert Forget(s.info, {loan}).Keys == s.info.Keys by { ForgetAll(s.info, {loan}); }
    assert ShutOf(Unlent(s, w, loan)) == ShutOf(s);
  }

  lemma ForgetAll(info: map<WorkerInfo, Worker>, loans: set<Loan>)
    ensures Forget(info, loans).Keys == info.Keys
  {
  }

  lemma AcquireOk(index: Index, shut: set<ShardId>, s: State, w: WorkerInfo, loan: Loan)
    requires StateOk(index, shut, s) && w in s.info && s.info[w].offer.Some? && loan in s.info[w].Loans()
    ensures StateOk(index, shut, AfterAcquire(s, w, loan))
  {
    UnlentOk(index, shut, s, w, loan);
    ForgetAll(s.info, {loan});
    assert w in Unlent(s, w, loan).info;
    hide Allowed, Unlent;
    GiveOk(index, shut, Unlent(s, w, loan), w, loan.shard);
  }

  lemma ExpireOk(index: Index, shut: set<ShardId>, s: State, w: WorkerInfo, order: seq<ShardId>)
    requires StateOk(index, shut, s) && w in s.info && Lists(order, s.info[w].Open() + ShardsOf(s.info[w].Loans()))
    ensures StateOk(index, shut, AfterExpire(s, w, order))
  {
    ForgetOk(index, shut, s.info, s.info[w].Loans());
    hide Allowed, Forget;
    forall c | c in order ensures Allowed(index, shut, c) {
      assert c in Elements(order);
      if c !in s.info[w].Open() {
        var l :| l in s.info[w].Loans() && l.shard == c;
      }
    }
    assert ShutOf(AfterExpire(s, w, order)) == ShutOf(s);
  }

  lemma StealOk(index: Index, shut: set<ShardId>, s: State, w: WorkerInfo, donor: WorkerInfo, sh: ShardId, at: int)
    requires StateOk(index, shut, s) && w in s.info && donor in s.info && sh in s.info[donor].assignments
    ensures StateOk(index, shut, AfterSteal(s, w, donor, sh, at))
  {
    hide Allowed;
    assert ShutOf(AfterSteal(s, w, donor, sh, at)) == ShutOf(s);
  }

  lemma VisitOk(index: Index, shut: set<ShardId>, s: State, c: ShardId)
    requires StateOk(index, shut, s) && c in index.shards
    ensures StateOk(index, shut, Visit(s, index, c))
  {
    EligibleAllowed(index, shut, s, c);
    VisitKeepsShut(s, index, c);
    hide HeldOk, Allowed, Eligible, ShutOf;
    assert forall x :: x in Visit(s, index, c).pool ==> x in s.pool || (x == c && Eligible(s, index, c));
  }

  lemma VisitKeepsShut(s: State, index: Index, c: ShardId)
    requires c in index.shards
    ensures ShutOf(Visit(s, index, c)) == ShutOf(s)
  {
    hide Eligible;
  }

  lemma EligibleAllowed(index: Index, shut: set<ShardId>, s: State, c: ShardId)
    requires ShutOf(s) <= shut && c in index.shards
    ensures Eligible(s, index, c) ==> Allowed(index, shut, c)
  {
  }

  lemma {:induction false} VisitAllOk(index: Index, shut: set<ShardId>, s: State, kids: seq<ShardId>)
    requires StateOk(index, shut, s) && forall c :: c in kids ==> c in index.shards
    ensures StateOk(index, shut, VisitAll(s, index, kids))
    decreases |kids|
  {
    hide StateOk, Visit;
    if kids != [] {
      VisitAllOk(index, shut, s, kids[..|kids| - 1]);
      VisitOk(index, shut, VisitAll(s, index, kids[..|kids| - 1]), kids[|kids| - 1]);
    }
  }

  lemma SettleOk(index: Index, shut: set<ShardId>, s: State, kids: seq<ShardId>)
    requires StateOk(index, shut, s) && forall c :: c in kids ==> c in index.shards
    requires s.closed != [] && (s.closed[0].worker.Some? ==> s.closed[0].worker.value in s.info)
    ensures StateOk(index, shut, AfterSettle(s, index, kids))
  {
    var t := Detach(s.(closed := s.closed[1..]), s.closed[0]);
    DetachOk(index, shut, s);
    hide Allowed, VisitAll, Detach, HeldOk;
    VisitAllOk(index, shut, t, kids);
    assert kids == [] ==> ShutOf(AfterSettle(s, index, kids)) == ShutOf(t);
  }

  lemma DetachOk(index: Index, shut: set<ShardId>, s: State)
    requires StateOk(index, shut, s) && s.closed != []
      && (s.closed[0].worker.Some? ==> s.closed[0].worker.value in s.info)
    ensures StateOk(index, shut, Detach(s.(closed := s.closed[1..]), s.closed[0]))
  {
    hide Allowed;
    assert ShutOf(Detach(s.(closed := s.closed[1..]), s.closed[0])) == ShutOf(s);
  }

  lemma TakeoverOk(index: Index, shut: set<ShardId>, s: State, a: Action)
    requires a.Takeover? && a.index == index && HeldOk(index, shut, s.info)
    requires Lists(a.open, set sh | sh in index.shards && index.IsRoot(sh) && StoredMark(a.stored, sh) != Closed)
    requires forall sh :: sh in index.shards && StoredMark(a.stored, sh) == Closed ==> sh in shut
    ensures StateOk(index, shut, AfterTakeover(s, index, a.stored, a.open, a.shut, a.newTerm))
  {
    hide HeldOk;
    forall c | c in a.open ensures Allowed(index, shut, c) {
      assert c in Elements(a.open);
    }
  }

  /** The pool and the checkpoints stay; workers hold and are offered no more than before. */
  ghost predicate NoMore(s: State, t: State) {
    && t.checkpoints == s.checkpoints && t.pool == s.pool
    && forall u :: u in t.info ==>
      if u in s.info then t.info[u].assignments == s.info[u].assignments && t.info[u].Loans() <= s.info[u].Loans()
      else t.info[u].assignments == map[] && t.info[u].Loans() == {}
  }

  lemma NoMoreOk(index: Index, shut: set<ShardId>, s: State, t: State)
    requires StateOk(index, shut, s) && NoMore(s, t)
    ensures StateOk(index, shut, t)
  {
    assert ShutOf(t) == ShutOf(s);
    hide Allowed, ShutOf;
  }

  lemma OtherSame(cfg: Config, s: State, a: Action)
    requires Enabled(cfg, s, a)
    requires a.EndSettle? || a.Register? || a.Enlist? || a.DropOffer? || a.Retire?
    ensures NoMore(s, Do(cfg, s, a))
  {
  }

  lemma OtherOk(cfg: Config, index: Index, shut: set<ShardId>, s: State, a: Action)
    requires StateOk(index, shut, s) && Enabled(cfg, s, a)
    requires a.EndSettle? || a.Register? || a.Enlist? || a.DropOffer? || a.Retire?
    ensures StateOk(index, shut, Do(cfg, s, a))
  {
    hide StateOk, NoMore, Enabled, Do;
    OtherSame(cfg, s, a);
    NoMoreOk(index, shut, s, Do(cfg, s, a));
  }

  lemma MoveOk(cfg: Config, index: Index, shut: set<ShardId>, s: State, a: Action)
    requires StateOk(index, shut, s) && Enabled(cfg, s, a) && !a.Checkpoint? && !a.Takeover?
    requires a.Settle? ==> a.index == index
    ensures StateOk(index, shut, Do(cfg, s, a))
  {
    hide StateOk;
    match a
    case Expire(w, order, at) => ExpireOk(index, shut, s, w, order);
    case Settle(i, kids) => SettleOk(index, shut, s, kids);
    case Acquire(w, loan, at) => AcquireOk(index, shut, s, w, loan);
    case Take(w) => TakeOk(index, shut, s, w);
    case Steal(w, donor, sh, at) => StealOk(index, shut, s, w, donor, sh, at);
    case _ => OtherOk(cfg, index, shut, s, a);
  }

  lemma AllowedMore(index: Index, shut: set<ShardId>, more: set<ShardId>, c: ShardId)
    requires shut <= more && Allowed(index, shut, c)
    ensures Allowed(index, more, c)
  {
  }

  lemma StateOkMore(index: Index, shut: set<ShardId>, more: set<ShardId>, s: State)
    requires shut <= more && StateOk(index, shut, s)
    ensures StateOk(index, more, s)
  {
    forall c | Allowed(index, shut, c) ensures Allowed(index, more, c) {
      AllowedMore(index, shut, more, c);
    }
    hide Allowed;
  }

  /** The end of a checkpoint request that has been accepted. */
  lemma FinishedOk(index: Index, shut: set<ShardId>, s: State, o: D.Origin, q: F.Request)
    requires StateOk(index, shut, s) && (q.mark == Closed ==> q.shard in shut)
    ensures StateOk(index, shut, D.Finished(s, o, q))
  {
    hide HeldOk;
    assert ShutOf(D.Finished(s, o, q)) <= ShutOf(s) + if q.mark == Closed then {q.shard} else {};
  }

  // ---------- The world ----------

  ghost predicate ManagersOk(index: Index, shut: set<ShardId>, managers: map<nat, State>) {
    forall m :: m in managers ==> StateOk(index, shut, managers[m])
  }

  ghost predicate LoadsOk(shut: set<ShardId>, loads: map<nat, map<ShardId, Mark>>) {
    forall m, sh :: m in loads && sh in loads[m] && loads[m][sh] == Closed ==> sh in shut
  }

  ghost predicate RequestsOk(index: Index, shut: set<ShardId>, requests: map<nat, F.Request>) {
    forall r :: r in requests ==> RequestOk(index, shut, requests[r])
  }

  /** Every manager, every read and every request agrees with the store, which is in order. */
  ghost predicate WorldOk(index: Index, w: D.World) {
    var shut := StoreShut(w.fence.store);
    && ShutOk(index, shut) && ManagersOk(index, shut, w.managers) && LoadsOk(shut, w.loads)
    && RequestsOk(index, shut, w.fence.requests)
  }

  /** A request is for a shard that might be handed out; once accepted, a CLOSED one is stored. */
  ghost predicate RequestOk(index: Index, shut: set<ShardId>, q: F.Request) {
    Allowed(index, shut, q.shard) && (q.outcome == F.Accepted && q.mark == Closed ==> q.shard in shut)
  }

  /** G3 for the store: no transaction puts anything else over CLOSED. */
  predicate StoreKeeps(w: D.World, e: D.Event) {
    e.Transact? && (e.s.Try? || (e.s.Lose? && e.s.applied)) && e.s.r in w.fence.requests ==>
      var q := w.fence.requests[e.s.r];
      F.Passes(w.fence.store, q.shard, q.id, q.tries) && q.shard in StoreShut(w.fence.store) ==> q.mark == Closed
  }

  /** The lineage is fixed, and the store keeps what is CLOSED. */
  ghost predicate StoreSteady(index: Index, w: D.World, e: D.Event) {
    && (e.Move? && e.a.Settle? ==> e.a.index == index) && (e.TakeOver? && e.a.Takeover? ==> e.a.index == index)
    && StoreKeeps(w, e)
  }

  ghost predicate SteadyRun(cfg: Config, index: Index, w: D.World, es: seq<D.Event>)
    requires D.CanAll(cfg, w, es)
    decreases |es|
  {
    es == [] || (SteadyRun(cfg, index, w, es[..|es| - 1])
                 && StoreSteady(index, D.WorldAfter(cfg, w, es[..|es| - 1]), es[|es| - 1]))
  }

  lemma RequestOkMore(index: Index, shut: set<ShardId>, more: set<ShardId>, q: F.Request)
    requires shut <= more && RequestOk(index, shut, q)
    ensures RequestOk(index, more, q)
  {
    AllowedMore(index, shut, more, q.shard);
    hide Allowed;
  }

  /** One transaction. */
  lemma TriedOk(index: Index, f: F.Fence, r: nat)
    requires r in f.requests && RequestOk(index, StoreShut(f.store), f.requests[r]) && ShutOk(index, StoreShut(f.store))
    requires var q := f.requests[r];
      F.Passes(f.store, q.shard, q.id, q.tries) && q.shard in StoreShut(f.store) ==> q.mark == Closed
    ensures var shut := StoreShut(f.store);
      var more := StoreShut(F.Tried(f, r).store);
      shut <= more && ShutOk(index, more) && RequestOk(index, more, F.Tried(f, r).requests[r])
  {
    var q := f.requests[r];
    var more := StoreShut(F.Tried(f, r).store);
    hide F.Passes, F.Text;
    assert more == StoreShut(f.store) || (q.mark == Closed && more == StoreShut(f.store) + {q.shard});
    AllowedMore(index, StoreShut(f.store), more, q.shard);
  }

  lemma StepOk(index: Index, f: F.Fence, s: F.Step)
    requires F.CanStep(f, s) && !s.Begin? && ShutOk(index, StoreShut(f.store))
    requires forall r :: r in f.requests ==> RequestOk(index, StoreShut(f.store), f.requests[r])
    requires s.Try? || s.applied ==>
      var q := f.requests[s.r];
      F.Passes(f.store, q.shard, q.id, q.tries) && q.shard in StoreShut(f.store) ==> q.mark == Closed
    ensures var shut := StoreShut(f.store);
      var g := F.StepOf(f, s);
      var more := StoreShut(g.store);
      && shut <= more && ShutOk(index, more)
      && forall r :: r in g.requests ==> RequestOk(index, more, g.requests[r])
  {
    var g := F.StepOf(f, s);
    var more := StoreShut(g.store);
    if s.Try? || s.applied { TriedOk(index, f, s.r); }
    assert StoreShut(f.store) <= more && ShutOk(index, more);
    OthersSame(f, s);
    hide ShutOk, F.Tried, F.Passes, Allowed;
    forall r | r in g.requests ensures RequestOk(index, more, g.requests[r]) {
      if r != s.r || !s.Try? { RequestOkMore(index, StoreShut(f.store), more, f.requests[r]); }
    }
  }

  lemma OthersSame(f: F.Fence, s: F.Step)
    requires F.CanStep(f, s) && !s.Begin?
    ensures var g := F.StepOf(f, s);
      && g.requests.Keys == f.requests.Keys
      && (forall r :: r in f.requests && r != s.r ==> g.requests[r] == f.requests[r])
      && (s.Lose? ==> g.requests[s.r] == f.requests[s.r].(outcome := F.Failed))
  {
    hide F.Passes, F.Text;
  }

  lemma ManagersOkMore(index: Index, shut: set<ShardId>, more: set<ShardId>, managers: map<nat, State>)
    requires shut <= more && ManagersOk(index, shut, managers)
    ensures ManagersOk(index, more, managers)
  {
    hide StateOk;
    forall m | m in managers ensures StateOk(index, more, managers[m]) {
      StateOkMore(index, shut, more, managers[m]);
    }
  }

  lemma TransactOk(cfg: Config, index: Index, w: D.World, e: D.Event)
    requires WorldOk(index, w) && D.CanHappen(cfg, w, e) && e.Transact? && StoreKeeps(w, e)
    ensures WorldOk(index, D.Happened(cfg, w, e))
    ensures StoreShut(w.fence.store) <= StoreShut(D.Happened(cfg, w, e).fence.store)
  {
    StepOk(index, w.fence, e.s);
    hide F.StepOf, F.Passes, ShutOk, StateOk, RequestOk, StoreShut;
    ManagersOkMore(index, StoreShut(w.fence.store), StoreShut(F.StepOf(w.fence, e.s).store), w.managers);
  }

  lemma ManagerMoved(cfg: Config, index: Index, w: D.World, e: D.Event)
    requires WorldOk(index, w) && D.CanHappen(cfg, w, e) && StoreSteady(index, w, e) && (e.Move? || e.TakeOver?)
    ensures var v := D.Happened(cfg, w, e);
      && v.fence == w.fence && v.loads == w.loads && e.m in w.managers
      && v.managers == w.managers[e.m := Do(cfg, w.managers[e.m], e.a)]
      && StateOk(index, StoreShut(w.fence.store), Do(cfg, w.managers[e.m], e.a))
  {
    var s := w.managers[e.m];
    var shut := StoreShut(w.fence.store);
    if e.Move? {
      hide Enabled, Do, StateOk, ShutOk;
      MoveOk(cfg, index, shut, s, e.a);
    } else {
      assert HeldOk(index, shut, s.info) by { assert StateOk(index, shut, s); }
      hide ShutOk, StateOk, HeldOk, StoreShut;
      TakeoverOk(index, shut, s, e.a);
    }
  }

  lemma ManagerOk(cfg: Config, index: Index, w: D.World, e: D.Event)
    requires WorldOk(index, w) && D.CanHappen(cfg, w, e) && StoreSteady(index, w, e) && (e.Move? || e.TakeOver?)
    ensures WorldOk(index, D.Happened(cfg, w, e)) && D.Happened(cfg, w, e).fence == w.fence
  {
    ManagerMoved(cfg, index, w, e);
    hide StateOk, ShutOk, RequestsOk, LoadsOk, D.CanHappen, D.Happened, Enabled, Do, StoreShut;
  }

  lemma FinishOk(cfg: Config, index: Index, w: D.World, e: D.Event)
    requires WorldOk(index, w) && D.CanHappen(cfg, w, e) && e.Finish?
    ensures WorldOk(index, D.Happened(cfg, w, e)) && D.Happened(cfg, w, e).fence == w.fence
  {
    var o, q := w.origins[e.r], w.fence.requests[e.r];
    assert RequestOk(index, StoreShut(w.fence.store), q);
    hide StateOk, ShutOk, Allowed, StoreShut, D.Finished;
    FinishedOk(index, StoreShut(w.fence.store), w.managers[o.manager], o, q);
  }

  lemma LoadOk(cfg: Config, index: Index, w: D.World, e: D.Event)
    requires WorldOk(index, w) && D.CanHappen(cfg, w, e) && (e.StartLoad? || e.LoadKey?)
    ensures WorldOk(index, D.Happened(cfg, w, e)) && D.Happened(cfg, w, e).fence == w.fence
  {
    hide ManagersOk, ShutOk, RequestsOk;
  }

  lemma SendOk(cfg: Config, index: Index, w: D.World, e: D.Event)
    requires WorldOk(index, w) && D.CanHappen(cfg, w, e) && e.Send?
    ensures WorldOk(index, D.Happened(cfg, w, e)) && D.Happened(cfg, w, e).fence.store == w.fence.store
  {
    var s := w.managers[e.origin.manager];
    var sh := w.processors[e.p].grant.shard;
    assert StateOk(index, StoreShut(w.fence.store), s);
    assert sh in s.info[s.workers[e.origin.worker]].assignments;
    assert Allowed(index, StoreShut(w.fence.store), sh);
    hide ManagersOk, ShutOk, StateOk, LoadsOk, Allowed, D.Locally, D.CanLocally, StoreShut, OwnedUnder;
  }

  lemma EventOk(cfg: Config, index: Index, w: D.World, e: D.Event)
    requires WorldOk(index, w) && D.CanHappen(cfg, w, e) && StoreSteady(index, w, e)
    ensures WorldOk(index, D.Happened(cfg, w, e))
    ensures StoreShut(w.fence.store) <= StoreShut(D.Happened(cfg, w, e).fence.store)
  {
    hide D.CanHappen, D.Happened, ManagersOk, ShutOk, LoadsOk, RequestsOk;
    match e
    case Move(m, a) => ManagerOk(cfg, index, w, e);
    case TakeOver(m, a) => ManagerOk(cfg, index, w, e);
    case Finish(r) => FinishOk(cfg, index, w, e);
    case StartLoad(m) => LoadOk(cfg, index, w, e);
    case LoadKey(m, sh) => LoadOk(cfg, index, w, e);
    case Send(p, r, origin, mark) => SendOk(cfg, index, w, e);
    case Transact(s) => TransactOk(cfg, index, w, e);
    case _ =>
      D.ManagersAlone(cfg, w, e);
      D.StoreAlone(cfg, w, e);
  }

  lemma {:induction false} RunOk(cfg: Config, index: Index, w: D.World, es: seq<D.Event>)
    requires WorldOk(index, w) && D.CanAll(cfg, w, es) && SteadyRun(cfg, index, w, es)
    ensures WorldOk(index, D.WorldAfter(cfg, w, es))
    ensures StoreShut(w.fence.store) <= StoreShut(D.WorldAfter(cfg, w, es).fence.store)
    decreases |es|
  {
    hide WorldOk, D.CanHappen, D.Happened, StoreSteady, StoreShut;
    if es != [] {
      var front := es[..|es| - 1];
      RunOk(cfg, index, w, front);
      EventOk(cfg, index, D.WorldAfter(cfg, w, front), es[|es| - 1]);
    }
  }

  lemma StartOk(index: Index, managers: set<nat>)
    ensures WorldOk(index, D.Start(managers))
  {
  }

  /** The store is in order, whoever has led: in every run in which it keeps what is CLOSED, a shard that is stored
      CLOSED is a root, or all its named parents are stored CLOSED; and no manager knows more of it than the store. */
  lemma StoreInOrder(cfg: Config, index: Index, managers: set<nat>, es: seq<D.Event>)
    requires D.CanAll(cfg, D.Start(managers), es) && SteadyRun(cfg, index, D.Start(managers), es)
    ensures var w := D.WorldAfter(cfg, D.Start(managers), es);
      && ShutOk(index, StoreShut(w.fence.store))
      && forall m :: m in w.managers ==> ShutOf(w.managers[m]) <= StoreShut(w.fence.store)
  {
    StartOk(index, managers);
    RunOk(cfg, index, D.Start(managers), es);
    hide D.CanAll, D.WorldAfter, SteadyRun, ShutOk, HeldOk, ShutOf, StoreShut;
    var w := D.WorldAfter(cfg, D.Start(managers), es);
    forall m | m in w.managers ensures ShutOf(w.managers[m]) <= StoreShut(w.fence.store) {
      assert StateOk(index, StoreShut(w.fence.store), w.managers[m]);
    }
  }

  // ---------- Taking over ----------

  /** What m has read still says all that the store does of what is CLOSED. */
  ghost predicate UpToDate(index: Index, w: D.World, m: nat) {
    m in w.loads
    && forall sh :: sh in index.shards && sh in StoreShut(w.fence.store) ==>
         sh in w.loads[m] && w.loads[m][sh] == Closed
  }

  /** Then it takes over in order, and forgets nothing CLOSED. */
  lemma TakesOverInOrder(cfg: Config, index: Index, w: D.World, e: D.Event)
    requires index.Complete() && WorldOk(index, w)
    requires e.TakeOver? && D.CanHappen(cfg, w, e) && e.a.index == index && UpToDate(index, w, e.m)
    ensures StoredInOrder(index, e.a.stored)
    ensures var t := D.Happened(cfg, w, e).managers[e.m];
      ShutOf(t) == StoreShut(w.fence.store) * index.shards.Keys
        && ShutOf(w.managers[e.m]) * index.shards.Keys <= ShutOf(t)
  {
    hide ManagersOk, RequestsOk, Enabled;
    var shut := StoreShut(w.fence.store);
    var read := set c | c in index.shards && StoredMark(e.a.stored, c) == Closed;
    assert read == shut * index.shards.Keys;
    KnownInOrder(index, shut);
    assert StateOk(index, shut, w.managers[e.m]) by { OneOk(index, shut, w.managers, e.m); }
    TakenShut(w.managers[e.m], e.a);
    hide StoreShut, HeldOk, ShutOk, Index.Complete;
  }

  lemma OneOk(index: Index, shut: set<ShardId>, managers: map<nat, State>, m: nat)
    requires ManagersOk(index, shut, managers) && m in managers
    ensures StateOk(index, shut, managers[m])
  {
  }

  lemma KnownInOrder(index: Index, shut: set<ShardId>)
    requires ShutOk(index, shut) && index.Complete()
    ensures ShutOk(index, shut * index.shards.Keys)
  {
  }

  lemma TakenShut(s: State, a: Action)
    requires a.Takeover?
    ensures ShutOf(AfterTakeover(s, a.index, a.stored, a.open, a.shut, a.newTerm))
         == set c | c in a.index.shards && StoredMark(a.stored, c) == Closed
  {
  }

  /** No transaction stores CLOSED. */
  predicate ClosesNothing(w: D.World, e: D.Event) {
    e.Transact? && (e.s.Try? || (e.s.Lose? && e.s.applied)) && e.s.r in w.fence.requests ==>
      var q := w.fence.requests[e.s.r];
      F.Passes(w.fence.store, q.shard, q.id, q.tries) ==> q.mark != Closed
  }

  ghost predicate NothingCloses(cfg: Config, w: D.World, es: seq<D.Event>)
    requires D.CanAll(cfg, w, es)
    decreases |es|
  {
    es == [] || (NothingCloses(cfg, w, es[..|es| - 1])
                 && ClosesNothing(D.WorldAfter(cfg, w, es[..|es| - 1]), es[|es| - 1]))
  }

  /** What m has read of CLOSED shards is what the store says. */
  ghost predicate ReadRight(w: D.World, m: nat) {
    m in w.loads && forall sh :: sh in w.loads[m] ==> (w.loads[m][sh] == Closed <==> sh in StoreShut(w.fence.store))
  }

  lemma SameShut(f: F.Fence, s: F.Step)
    requires F.CanStep(f, s) && !s.Begin?
    requires s.Try? || s.applied ==>
      var q := f.requests[s.r];
      F.Passes(f.store, q.shard, q.id, q.tries) ==> q.mark != Closed && q.shard !in StoreShut(f.store)
    ensures StoreShut(F.StepOf(f, s).store) == StoreShut(f.store)
  {
    hide F.Passes, F.Text;
  }

  lemma ShutSame(cfg: Config, w: D.World, e: D.Event)
    requires D.CanHappen(cfg, w, e) && StoreKeeps(w, e) && ClosesNothing(w, e)
    ensures StoreShut(D.Happened(cfg, w, e).fence.store) == StoreShut(w.fence.store)
  {
    if e.Transact? {
      SameShut(w.fence, e.s);
      hide F.StepOf, F.Passes, StoreShut;
    } else if e.Send? {
      hide D.Locally, D.CanLocally, OwnedUnder, StoreShut;
    } else {
      D.StoreAlone(cfg, w, e);
      hide D.CanHappen, D.Happened;
    }
  }

  lemma ReadStays(cfg: Config, w: D.World, e: D.Event, m: nat)
    requires D.CanHappen(cfg, w, e) && StoreKeeps(w, e) && ClosesNothing(w, e) && ReadRight(w, m)
    ensures ReadRight(D.Happened(cfg, w, e), m)
  {
    ShutSame(cfg, w, e);
    if e.StartLoad? || e.LoadKey? {
      LoadRight(cfg, w, e, m);
    } else {
      LoadsAlone(cfg, w, e);
      hide D.CanHappen, D.Happened, StoreShut, ClosesNothing, StoreKeeps;
    }
  }

  lemma LoadsAlone(cfg: Config, w: D.World, e: D.Event)
    requires D.CanHappen(cfg, w, e) && !e.StartLoad? && !e.LoadKey?
    ensures D.Happened(cfg, w, e).loads == w.loads
  {
    hide Enabled, Do, D.Finished, F.StepOf, D.Locally, D.CanLocally, OwnedUnder;
  }

  lemma LoadRight(cfg: Config, w: D.World, e: D.Event, m: nat)
    requires D.CanHappen(cfg, w, e) && (e.StartLoad? || e.LoadKey?) && ReadRight(w, m)
    ensures ReadRight(D.Happened(cfg, w, e), m)
  {
  }

  lemma {:induction false} ReadsRight(cfg: Config, index: Index, w: D.World, es: seq<D.Event>, m: nat)
    requires ReadRight(w, m) && D.CanAll(cfg, w, es) && SteadyRun(cfg, index, w, es) && NothingCloses(cfg, w, es)
    ensures ReadRight(D.WorldAfter(cfg, w, es), m)
    decreases |es|
  {
    hide ReadRight, D.CanHappen, D.Happened, StoreKeeps, ClosesNothing;
    if es != [] {
      var front := es[..|es| - 1];
      ReadsRight(cfg, index, w, front, m);
      ReadStays(cfg, D.WorldAfter(cfg, w, front), es[|es| - 1], m);
    }
  }

  lemma RightUpToDate(cfg: Config, index: Index, w: D.World, e: D.Event)
    requires e.TakeOver? && D.CanHappen(cfg, w, e) && e.a.index == index && ReadRight(w, e.m)
    ensures UpToDate(index, w, e.m)
  {
    hide StoreShut, Enabled;
  }

  /** If nothing is stored CLOSED while a manager reads, then whatever has happened before, it takes over in order,
      and what it has recorded CLOSED in earlier terms is CLOSED still. */
  lemma TakeoverInOrder(cfg: Config, index: Index, managers: set<nat>, before: seq<D.Event>, m: nat,
                        since: seq<D.Event>, a: Action)
    requires index.Complete() && a.Takeover? && a.index == index
    requires D.CanAll(cfg, D.Start(managers), before) && SteadyRun(cfg, index, D.Start(managers), before)
    requires var w := D.Happened(cfg, D.WorldAfter(cfg, D.Start(managers), before), D.StartLoad(m));
      && D.CanAll(cfg, w, since) && SteadyRun(cfg, index, w, since) && NothingCloses(cfg, w, since)
      && D.CanHappen(cfg, D.WorldAfter(cfg, w, since), D.TakeOver(m, a))
    ensures StoredInOrder(index, a.stored)
    ensures var w := D.Happened(cfg, D.WorldAfter(cfg, D.Start(managers), before), D.StartLoad(m));
      var u := D.WorldAfter(cfg, w, since);
      var t := D.Happened(cfg, u, D.TakeOver(m, a)).managers[m];
      ShutOf(t) == StoreShut(u.fence.store) * index.shards.Keys
        && ShutOf(u.managers[m]) * index.shards.Keys <= ShutOf(t)
  {
    var v := D.WorldAfter(cfg, D.Start(managers), before);
    StartOk(index, managers);
    RunOk(cfg, index, D.Start(managers), before);
    EventOk(cfg, index, v, D.StartLoad(m));
    var w := D.Happened(cfg, v, D.StartLoad(m));
    assert ReadRight(w, m);
    hide *;
    RunOk(cfg, index, w, since);
    ReadsRight(cfg, index, w, since, m);
    RightUpToDate(cfg, index, D.WorldAfter(cfg, w, since), D.TakeOver(m, a));
    TakesOverInOrder(cfg, index, D.WorldAfter(cfg, w, since), D.TakeOver(m, a));
  }

  // ---------- A manager's own memory ----------

  /** G3 for the managers' memory: no accepted request puts anything else over what its manager has recorded CLOSED. */
  predicate MemoryKeeps(w: D.World, e: D.Event) {
    e.Finish? && e.r in w.fence.requests && e.r in w.origins && w.origins[e.r].manager in w.managers
    && w.managers[w.origins[e.r].manager].IsClosed(w.fence.requests[e.r].shard) ==>
      w.fence.requests[e.r].mark == Closed
  }

  /** G3, and a takeover of m comes after reads that are still right. */
  ghost predicate Keeping(index: Index, m: nat, w: D.World, e: D.Event) {
    StoreSteady(index, w, e) && MemoryKeeps(w, e) && (e.TakeOver? && e.m == m ==> UpToDate(index, w, m))
  }

  ghost predicate KeepingRun(cfg: Config, index: Index, m: nat, w: D.World, es: seq<D.Event>)
    requires D.CanAll(cfg, w, es)
    decreases |es|
  {
    es == []
    || (KeepingRun(cfg, index, m, w, es[..|es| - 1])
        && Keeping(index, m, D.WorldAfter(cfg, w, es[..|es| - 1]), es[|es| - 1]))
  }

  lemma FinishShut(s: State, o: D.Origin, q: F.Request)
    requires s.IsClosed(q.shard) ==> q.mark == Closed
    ensures ShutOf(s) <= ShutOf(D.Finished(s, o, q))
  {
  }

  lemma EventShut(cfg: Config, index: Index, m: nat, w: D.World, e: D.Event)
    requires index.Complete() && WorldOk(index, w) && m in w.managers && D.CanHappen(cfg, w, e)
      && Keeping(index, m, w, e)
    ensures var v := D.Happened(cfg, w, e);
      m in v.managers && ShutOf(w.managers[m]) * index.shards.Keys <= ShutOf(v.managers[m])
  {
    hide WorldOk, Enabled, Do, ShutOf, D.Finished, UpToDate, StoreKeeps, Index.Complete;
    if e.Move? {
      hide *;
      MovedShut(cfg, m, w, e);
    } else if e.TakeOver? && e.m == m {
      hide D.CanHappen, D.Happened;
      TakesOverInOrder(cfg, index, w, e);
    } else if e.Finish? {
      FinishShut(w.managers[w.origins[e.r].manager], w.origins[e.r], w.fence.requests[e.r]);
    } else if !e.TakeOver? {
      ManagersSame(cfg, w, e);
    }
  }

  lemma MovedShut(cfg: Config, m: nat, w: D.World, e: D.Event)
    requires m in w.managers && e.Move? && D.CanHappen(cfg, w, e)
    ensures var v := D.Happened(cfg, w, e); m in v.managers && ShutOf(w.managers[m]) <= ShutOf(v.managers[m])
  {
    hide Enabled, Do, ShutOf;
    ShutKept(cfg, w.managers[e.m], e.a);
  }

  /** What a manager has recorded CLOSED stays CLOSED in it, through all its terms. */
  lemma {:induction false} ShutStaysThrough(cfg: Config, index: Index, m: nat, w: D.World, es: seq<D.Event>)
    requires index.Complete() && WorldOk(index, w) && m in w.managers
    requires D.CanAll(cfg, w, es) && KeepingRun(cfg, index, m, w, es)
    ensures var v := D.WorldAfter(cfg, w, es);
      WorldOk(index, v) && m in v.managers && ShutOf(w.managers[m]) * index.shards.Keys <= ShutOf(v.managers[m])
    decreases |es|
  {
    hide WorldOk, D.CanHappen, D.Happened, StoreSteady, MemoryKeeps, UpToDate, ShutOf, Index.Complete;
    if es != [] {
      var front := es[..|es| - 1];
      ShutStaysThrough(cfg, index, m, w, front);
      EventOk(cfg, index, D.WorldAfter(cfg, w, front), es[|es| - 1]);
      EventShut(cfg, index, m, D.WorldAfter(cfg, w, front), es[|es| - 1]);
    }
  }
}
