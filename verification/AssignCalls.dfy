/** An assign call in phases: release, close worklist, registration, acquisitions, takes, steals. */
module AssignCalls {
  import opened Finite
  import opened Lineage
  import opened WorkerRecord
  import opened ManagerModel
  import opened Conservation
  import opened ManagerRuns
  import opened Discovery
  import opened Worklist
  import opened Expiry
  import opened Rebalancing

  /** The notifications are about known shards, and name recorded workers. */
  ghost predicate NotesReady(index: Index, s: State) {
    && index.Complete()
    && forall n :: n in s.closed ==> n.shard in index.shards && (n.worker.Some? ==> n.worker.value in s.info)
  }

  lemma HeadReady(index: Index, s: State)
    requires NotesReady(index, s) && s.closed != []
    ensures s.closed[0].shard in index.shards && s.closed[0].shard in index.children
    ensures s.closed[0].worker.Some? ==> s.closed[0].worker.value in s.info
  {
    assert s.closed[0] in s.closed;
  }

  ghost function WorkWeight(index: Index, height: map<ShardId, nat>, notes: seq<Note>): int {
    if index.Complete() && index.Acyclic(height) && (forall n :: n in notes ==> n.shard in index.shards)
    then NotesWeight(index, height, notes) else 0
  }

  lemma WorkFalls(index: Index, height: map<ShardId, nat>, t: State, kids: seq<ShardId>)
    requires NotesReady(index, t) && index.Acyclic(height) && KidsFor(index, t, kids)
    ensures 0 <= WorkWeight(index, height, AfterSettle(t, index, kids).closed) < WorkWeight(index, height, t.closed)
    ensures NotesReady(index, AfterSettle(t, index, kids))
  {
    hide NotesWeight;
    SettleFalls(index, height, t, kids);
    SettleNotes(index, t, kids);
  }

  lemma SettleNotes(index: Index, t: State, kids: seq<ShardId>)
    requires KidsFor(index, t, kids) && forall n :: n in t.closed && n.worker.Some? ==> n.worker.value in t.info
    ensures forall n :: n in AfterSettle(t, index, kids).closed && n.worker.Some? ==>
      n.worker.value in AfterSettle(t, index, kids).info
  {
    var u := Detach(t.(closed := t.closed[1..]), t.closed[0]);
    VisitAllInfo(u, index, kids);
    VisitAllNotes(u, index, kids);
    hide VisitAll;
    assert forall n :: n in t.closed[1..] ==> n in t.closed;
  }

  lemma {:induction false} VisitAllNotes(s: State, index: Index, kids: seq<ShardId>)
    requires forall c :: c in kids ==> c in index.shards
    ensures forall n :: n in VisitAll(s, index, kids).closed && n.worker.Some? ==> n in s.closed
    decreases |kids|
  {
    hide Eligible;
    if kids != [] { VisitAllNotes(s, index, kids[..|kids| - 1]); }
  }

  /** The worklist has been turned acts times from s. */
  ghost predicate Settling(cfg: Config, index: Index, s: State, t: State, acts: seq<Action>) {
    && CanRun(cfg, s, acts) && t == Run(cfg, s, acts) && Along(cfg, s, acts, Orderly) && t.inService
    && forall i :: 0 <= i < |acts| ==> acts[i].Settle? && acts[i].index == index
  }

  lemma SettlingNone(cfg: Config, index: Index, s: State)
    requires s.inService
    ensures Settling(cfg, index, s, s, [])
  {
  }

  lemma SettlingMore(cfg: Config, index: Index, s: State, t: State, acts: seq<Action>, kids: seq<ShardId>)
    requires Settling(cfg, index, s, t, acts) && KidsFor(index, t, kids)
    ensures Settling(cfg, index, s, AfterSettle(t, index, kids), acts + [Settle(index, kids)])
  {
    hide CanRun, Run, Along, AfterSettle;
    var a := Settle(index, kids);
    SettleServes(index, t, kids);
    assert Orderly(t, a);
    RunMore(cfg, s, acts, a, Orderly);
  }

  lemma TurnDone(cfg: Config, index: Index, height: map<ShardId, nat>, s: State, t: State, acts: seq<Action>,
                 kids: seq<ShardId>)
    requires NotesReady(index, t) && index.Acyclic(height) && KidsFor(index, t, kids)
      && Settling(cfg, index, s, t, acts)
    ensures t.closed != [] && (t.closed[0].worker.Some? ==> t.closed[0].worker.value in t.info)
    ensures forall c :: c in kids ==> c in index.shards
    ensures var u := AfterSettle(t, index, kids);
      && 0 <= WorkWeight(index, height, u.closed) < WorkWeight(index, height, t.closed)
      && NotesReady(index, u) && Settling(cfg, index, s, u, acts + [Settle(index, kids)])
  {
    hide Settling, WorkWeight, NotesReady, AfterSettle;
    WorkFalls(index, height, t, kids);
    SettlingMore(cfg, index, s, t, acts, kids);
  }

  lemma SettleServes(index: Index, t: State, kids: seq<ShardId>)
    requires KidsFor(index, t, kids)
    ensures AfterSettle(t, index, kids).inService == t.inService
  {
    VisitAllInfo(Detach(t.(closed := t.closed[1..]), t.closed[0]), index, kids);
    hide VisitAll;
  }

  /** kids lists the children of the shard at the head of the worklist. */
  ghost predicate KidsFor(index: Index, s: State, kids: seq<ShardId>) {
    && s.closed != [] && (s.closed[0].worker.Some? ==> s.closed[0].worker.value in s.info)
    && s.closed[0].shard in index.children && Lists(kids, index.children[s.closed[0].shard])
    && forall c :: c in kids ==> c in index.shards
  }

  lemma ChildrenReady(index: Index, s: State, children: seq<Shard>)
    requires NotesReady(index, s) && s.closed != []
    requires s.closed[0].shard in index.children && Names(children, index, index.children[s.closed[0].shard])
    ensures KidsFor(index, s, Ids(children))
    ensures forall i :: 0 <= i < |children| ==>
      (children[i].id in index.shards && index.shards[children[i].id] == children[i] && children[i].parent.Some?)
    ensures |children| == 0 <==> Ids(children) == []
    ensures forall c :: c in Ids(children) ==> c in index.shards
  {
    assert s.closed[0] in s.closed;
    forall i | 0 <= i < |children| ensures children[i].parent.Some? {
      assert Ids(children)[i] in Elements(Ids(children));
      assert index.IsParent(s.closed[0].shard, children[i].id);
    }
  }

  lemma AfterKids(index: Index, s: State, kids: seq<ShardId>)
    requires s.closed != [] && (s.closed[0].worker.Some? ==> s.closed[0].worker.value in s.info)
    requires forall c :: c in kids ==> c in index.shards
    ensures var t := Detach(s.(closed := s.closed[1..]), s.closed[0]);
      AfterSettle(s, index, kids) ==
        (if kids == [] then t.(deferred := s.deferred + [Note(s.closed[0].shard, None)]) else VisitAll(t, index, kids))
    ensures AfterSettle(s, index, kids).deferred
         == s.deferred + if kids == [] then [Note(s.closed[0].shard, None)] else []
  {
    VisitAllInfo(Detach(s.(closed := s.closed[1..]), s.closed[0]), index, kids);
    hide VisitAll;
  }

  /** Hypothesis G2, for one request: no worker with an unprocessed close is due to expire. */
  ghost predicate ClosesRecent(cfg: Config, s: State, at: int) {
    forall n :: n in s.closed && n.worker.Some? && n.worker.value in s.info ==>
      at - s.info[n.worker.value].heartbeat < cfg.inactivityTimeout
  }

  /** The release loop has made the moves acts from s, and put the shards in released back in the pool. */
  ghost predicate Releasing(cfg: Config, s: State, t: State, m: Places, acts: seq<Action>, at: int,
                            released: set<ShardId>) {
    && CanRun(cfg, s, acts) && t == Run(cfg, s, acts) && Along(cfg, s, acts, Orderly) && Expires(acts, at)
    && Sound(t, m) && t.inService && ClosesRecent(cfg, t, at)
    && t.closed == s.closed && t.deferred == s.deferred && t.info.Keys == s.info.Keys
    && forall sh :: sh in released ==> sh in m && m[sh] == Pooled
  }

  lemma ReleasingNone(cfg: Config, s: State, loc: Places, at: int)
    requires Sound(s, loc) && s.inService && ClosesRecent(cfg, s, at)
    ensures Releasing(cfg, s, s, loc, [], at, {})
  {
    hide Sound;
  }

  lemma ReleasingFound(cfg: Config, s: State, t: State, m: Places, acts: seq<Action>, at: int, released: set<ShardId>,
                       id: WorkerId)
    requires Releasing(cfg, s, t, m, acts, at, released) && id in t.heartbeats
    ensures id in t.workers && t.workers[id] in t.info
    ensures var w := t.workers[id];
      && id == t.info[w].id && t.Registered(w)
      && released !! t.info[w].Open() && released !! ShardsOf(t.info[w].Loans())
      && t.info[w].Open() !! ShardsOf(t.info[w].Loans())
  {
    LeavingApart(t, m, t.workers[id], released);
  }

  lemma FewerWorkers(t: State, w: WorkerInfo, order: seq<ShardId>)
    requires t.Registered(w)
    ensures |AfterExpire(t, w, order).workers| < |t.workers|
  {
    MinusSmaller(t.workers, t.info[w].id);
  }

  lemma NobodyLeft(cfg: Config, t: State, at: int)
    requires t.heartbeats == map[]
    ensures ReleaseStops(cfg, t, at)
  {
  }

  lemma NobodySilent(cfg: Config, s: State, t: State, m: Places, acts: seq<Action>, at: int, released: set<ShardId>,
                     id: WorkerId)
    requires Releasing(cfg, s, t, m, acts, at, released) && Oldest(t, id) && id in t.workers && t.workers[id] in t.info
    requires at - t.info[t.workers[id]].heartbeat < cfg.inactivityTimeout
    ensures ReleaseStops(cfg, t, at)
  {
    assert Beating(t);
  }

  lemma ExpireShape(s: State, w: WorkerInfo, order: seq<ShardId>, t: State)
    requires w in s.info && t == s.(pool := s.pool + order, info := Forget(s.info, s.info[w].Loans()))
    ensures t.heartbeats == s.heartbeats
    ensures AfterExpire(s, w, order) == t.(
      workers := t.workers - {s.info[w].id}, heartbeats := t.heartbeats - {s.info[w].id}, counts := t.counts - {w})
  {
    hide Forget;
  }

  lemma ExpireEnabled(cfg: Config, t: State, at: int, w: WorkerInfo, order: seq<ShardId>)
    requires t.inService && ClosesRecent(cfg, t, at) && t.Registered(w) && Oldest(t, t.info[w].id)
    requires at - t.info[w].heartbeat >= cfg.inactivityTimeout
    requires Lists(order, t.info[w].Open() + ShardsOf(t.info[w].Loans()))
    ensures Enabled(cfg, t, Expire(w, order, at)) && Orderly(t, Expire(w, order, at))
    ensures var u := AfterExpire(t, w, order);
      ClosesRecent(cfg, u, at) && u.inService && u.closed == t.closed && u.deferred == t.deferred
        && u.info.Keys == t.info.Keys
  {
    ForgetKeeps(t.info, t.info[w].Loans());
    hide Forget;
  }

  lemma RunMore(cfg: Config, s: State, acts: seq<Action>, a: Action, g: (State, Action) -> bool)
    requires CanRun(cfg, s, acts) && Enabled(cfg, Run(cfg, s, acts), a)
    requires Along(cfg, s, acts, g) && g(Run(cfg, s, acts), a)
    ensures CanRun(cfg, s, acts + [a]) && Run(cfg, s, acts + [a]) == Do(cfg, Run(cfg, s, acts), a)
    ensures Along(cfg, s, acts + [a], g)
  {
    hide Enabled, Do;
    assert (acts + [a])[..|acts|] == acts;
  }

  lemma PooledStays(t: State, m: Places, released: set<ShardId>, order: seq<ShardId>)
    requires forall sh :: sh in released ==> sh in m && m[sh] == Pooled
    requires forall sh :: sh in order ==> sh in m
    ensures var p := map sh | sh in m :: if sh in order then Pooled else m[sh];
      forall sh :: sh in released + Elements(order) ==> sh in p && p[sh] == Pooled
  {
  }

  lemma LeavingKnown(s: State, loc: Places, w: WorkerInfo)
    requires Sound(s, loc) && s.Registered(w)
    ensures s.info[w].Open() + ShardsOf(s.info[w].Loans()) <= loc.Keys
  {
    assert w in RosterOf(s);
    forall l | l in s.info[w].Loans() ensures l.shard in loc {
      LentWhere(RosterOf(s), loc, w, l);
    }
  }

  lemma ReleasingMore(cfg: Config, s: State, t: State, m: Places, acts: seq<Action>, at: int, released: set<ShardId>,
                      w: WorkerInfo, order: seq<ShardId>)
    requires Releasing(cfg, s, t, m, acts, at, released) && t.Registered(w) && Oldest(t, t.info[w].id)
    requires at - t.info[w].heartbeat >= cfg.inactivityTimeout
    requires Lists(order, t.info[w].Open() + ShardsOf(t.info[w].Loans()))
    ensures var a := Expire(w, order, at);
      Enabled(cfg, t, a) && Releasing(cfg, s, AfterExpire(t, w, order), Moved(cfg, t, a, m), acts + [a], at,
                                      released + Elements(order))
  {
    hide Sound, Enabled, CanRun, Run, Along, Orderly, ClosesRecent, Oldest, AfterExpire, Worker.Open, Worker.Loans,
         ShardsOf, State.Registered;
    var a := Expire(w, order, at);
    ExpireEnabled(cfg, t, at, w, order);
    OrderlyParts(t, a);
    LeavingKnown(t, m, w);
    PooledStays(t, m, released, order);
    MoveSound(cfg, t, a, m);
    RunMore(cfg, s, acts, a, Orderly);
  }

  lemma OrderlyParts(s: State, a: Action)
    requires Orderly(s, a)
    ensures ClosedOnce(s, a) && ClosesSettled(s, a)
  {
  }

  /** An expiring worker's own shards, those offered to it, and the pool are apart. */
  lemma LeavingApart(s: State, loc: Places, w: WorkerInfo, released: set<ShardId>)
    requires Sound(s, loc) && s.Registered(w)
    requires forall sh :: sh in released ==> sh in loc && loc[sh] == Pooled
    ensures released !! s.info[w].Open() && released !! ShardsOf(s.info[w].Loans())
    ensures s.info[w].Open() !! ShardsOf(s.info[w].Loans())
  {
    var r := RosterOf(s);
    assert w in r;
    forall l | l in s.info[w].Loans() ensures l.shard in loc && loc[l.shard] == Lent(w, l.donor) {
      LentWhere(r, loc, w, l);
    }
    forall sh | sh in s.info[w].Open() ensures sh in loc && loc[sh] == Owned(w) {
      OpenWhere(r, loc, w, sh);
    }
  }

  // ---------- Serving the requester ----------

  /** acts lead from s to t in service, and leave the shards in the places m. */
  ghost predicate Leads(cfg: Config, s: State, t: State, m: Places, acts: seq<Action>) {
    CanRun(cfg, s, acts) && t == Run(cfg, s, acts) && Along(cfg, s, acts, Orderly) && Sound(t, m) && t.inService
  }

  lemma LeadsNone(cfg: Config, s: State, loc: Places)
    requires Sound(s, loc) && s.inService
    ensures Leads(cfg, s, s, loc, [])
  {
    hide Sound;
  }

  lemma StaysInService(cfg: Config, s: State, a: Action)
    requires Enabled(cfg, s, a) && s.inService && !a.Retire?
    ensures Do(cfg, s, a).inService
  {
    if a.Settle? {
      VisitAllInfo(Detach(s.(closed := s.closed[1..]), s.closed[0]), a.index, a.kids);
    }
    hide VisitAll, Detach;
  }

  predicate ServingMove(a: Action) {
    a.Enlist? || a.Acquire? || a.DropOffer? || a.Take? || a.Steal?
  }

  lemma LeadsMore(cfg: Config, s: State, t: State, m: Places, acts: seq<Action>, a: Action)
    requires Leads(cfg, s, t, m, acts) && Enabled(cfg, t, a) && (ServingMove(a) || a.Register? || a.EndSettle?)
    ensures Leads(cfg, s, Do(cfg, t, a), Moved(cfg, t, a, m), acts + [a])
  {
    assert Orderly(t, a);
    hide Sound, Do, Moved, CanRun, Run, Along, Enabled;
    MoveSound(cfg, t, a, m);
    StaysInService(cfg, t, a);
    RunMore(cfg, s, acts, a, Orderly);
  }

  /** acts serve w: they lead from s to t, and leave the registry, the live set and the worklist alone. */
  ghost predicate Served(cfg: Config, s: State, t: State, w: WorkerInfo, m: Places, acts: seq<Action>) {
    && Leads(cfg, s, t, m, acts) && SameRegistry(s, t) && s.Registered(w)
    && t == s.(info := t.info, counts := t.counts, nextOffset := t.nextOffset, pool := t.pool)
    && s.counts.Keys <= t.counts.Keys
  }

  lemma ServedNone(cfg: Config, s: State, w: WorkerInfo, loc: Places)
    requires Sound(s, loc) && s.inService && s.Registered(w)
    ensures Served(cfg, s, s, w, loc, [])
  {
    LeadsNone(cfg, s, loc);
    hide Leads;
  }

  lemma ServingFrame(cfg: Config, s: State, a: Action)
    requires Enabled(cfg, s, a) && ServingMove(a)
    ensures var t := Do(cfg, s, a);
      t == s.(info := t.info, counts := t.counts, nextOffset := t.nextOffset, pool := t.pool)
        && s.counts.Keys <= t.counts.Keys
  {
    hide Forget;
  }

  lemma ServedMore(cfg: Config, s: State, t: State, w: WorkerInfo, m: Places, acts: seq<Action>, a: Action)
    requires Served(cfg, s, t, w, m, acts) && Enabled(cfg, t, a) && ServingMove(a)
    ensures Served(cfg, s, Do(cfg, t, a), w, Moved(cfg, t, a, m), acts + [a])
  {
    hide Leads, Enabled, Do, Moved;
    LeadsMore(cfg, s, t, m, acts, a);
    MoveRegistry(cfg, t, a);
    ServingFrame(cfg, t, a);
  }

  lemma ServedFacts(cfg: Config, s: State, t: State, w: WorkerInfo, m: Places, acts: seq<Action>)
    requires Served(cfg, s, t, w, m, acts)
    ensures s.Registered(w) && t.Registered(w) && t.inService && Sound(t, m) && t.closed == s.closed && t.live == s.live
    ensures t.workers == s.workers && t.info.Keys == s.info.Keys && s.counts.Keys <= t.counts.Keys
    ensures t.info[w].id == s.info[w].id && t.info[w].heartbeat == s.info[w].heartbeat
    ensures CanRun(cfg, s, acts) && t == Run(cfg, s, acts)
  {
  }

  ghost predicate Due(cfg: Config, s: State, w: WorkerInfo, at: int) {
    w in s.info && s.info[w].offer.Some? && at - s.info[w].offer.value.createdAt >= cfg.releaseTimeout
  }

  ghost predicate Acquires(acts: seq<Action>, w: WorkerInfo, at: int) {
    forall i :: 0 <= i < |acts| ==> acts[i].Acquire? && acts[i].w == w && acts[i].at == at
  }

  /** If w's offer is due, every shard of it changes hands, and the offer is gone. */
  ghost predicate Claiming(cfg: Config, s: State, t: State, w: WorkerInfo, at: int, claims: seq<Action>) {
    CanRun(cfg, s, claims) && Acquires(claims, w, at) &&
    if Due(cfg, s, w, at) then
      var u := Run(cfg, s, claims);
      w in u.info && u.info[w].Loans() == {} && t == AfterDropOffer(u, w)
    else
      claims == [] && t == s
  }

  lemma ServingEnabled(cfg: Config, t: State, a: Action)
    requires t.inService
    requires match a
      case Acquire(w, loan, at) => t.Registered(w) && Due(cfg, t, w, at) && loan in t.info[w].Loans()
      case DropOffer(w) => t.Registered(w) && t.info[w].Loans() == {}
      case Take(w) => t.Registered(w) && t.pool != []
      case _ => false
    ensures Enabled(cfg, t, a)
  {
  }

  lemma AcquireOffer(t: State, w: WorkerInfo, loan: Loan)
    requires w in t.info && t.info[w].offer.Some?
    ensures var u := AfterAcquire(t, w, loan);
      && w in u.info && u.info[w].offer == Some(t.info[w].offer.value.(loans := t.info[w].offer.value.loans - {loan}))
      && u.info[w].active == t.info[w].active + 1 && u.pool == t.pool
  {
    ForgetKeeps(t.info, {loan});
    hide Forget;
  }

  /** The due offer of w has been worked off up to loans. */
  ghost predicate Claimed(cfg: Config, s: State, t: State, w: WorkerInfo, m: Places, claims: seq<Action>, at: int,
                          since: int, loans: set<Loan>) {
    && Served(cfg, s, t, w, m, claims) && Acquires(claims, w, at)
    && Due(cfg, s, w, at) && s.info[w].offer.value.createdAt == since
    && w in t.info && t.info[w].offer == Some(Offer(loans, since)) && t.info.Keys == s.info.Keys && t.pool == s.pool
  }

  lemma ClaimedNone(cfg: Config, s: State, w: WorkerInfo, loc: Places, at: int)
    requires Sound(s, loc) && s.inService && s.Registered(w) && Due(cfg, s, w, at)
    ensures Claimed(cfg, s, s, w, loc, [], at, s.info[w].offer.value.createdAt, s.info[w].Loans())
  {
    ServedNone(cfg, s, w, loc);
    hide Served;
  }

  /** One loan of a due offer changes hands. */
  lemma ClaimOne(cfg: Config, s: State, t: State, w: WorkerInfo, m: Places, claims: seq<Action>, at: int,
                 since: int, loans: set<Loan>, loan: Loan)
    requires Claimed(cfg, s, t, w, m, claims, at, since, loans) && loan in loans
    ensures var a := Acquire(w, loan, at);
      && Enabled(cfg, t, a) && w in t.info && t.info[w].offer.Some? && t.info.Keys == s.info.Keys
      && Claimed(cfg, s, AfterAcquire(t, w, loan), w, Moved(cfg, t, a, m), claims + [a], at, since, loans - {loan})
  {
    hide Served, Moved, CanRun, Run, Sound, AfterAcquire, Enabled, State.Registered;
    var a := Acquire(w, loan, at);
    ServedFacts(cfg, s, t, w, m, claims);
    ServingEnabled(cfg, t, a);
    ServedMore(cfg, s, t, w, m, claims, a);
    AcquireOffer(t, w, loan);
    ServedFacts(cfg, s, AfterAcquire(t, w, loan), w, Moved(cfg, t, a, m), claims + [a]);
  }

  /** An offer without loans is dropped. */
  lemma ClaimsDone(cfg: Config, s: State, t: State, w: WorkerInfo, m: Places, claims: seq<Action>, at: int, since: int)
    requires Claimed(cfg, s, t, w, m, claims, at, since, {})
    ensures w in t.info
    ensures var u := AfterDropOffer(t, w);
      Claiming(cfg, s, u, w, at, claims) && Served(cfg, s, u, w, m, claims + [DropOffer(w)]) && u.pool == s.pool
  {
    hide Served, CanRun, Run, Sound, Enabled, State.Registered;
    var a := DropOffer(w);
    ServedFacts(cfg, s, t, w, m, claims);
    ServingEnabled(cfg, t, a);
    ServedMore(cfg, s, t, w, m, claims, a);
  }

  lemma NothingDue(cfg: Config, s: State, w: WorkerInfo, at: int)
    requires !Due(cfg, s, w, at)
    ensures Claiming(cfg, s, s, w, at, [])
  {
  }

  /** w takes shards from the front of the pool. */
  ghost predicate Taking(cfg: Config, s: State, t: State, w: WorkerInfo, takes: seq<Action>) {
    CanRun(cfg, s, takes) && t == Run(cfg, s, takes) && forall i :: 0 <= i < |takes| ==> takes[i] == Take(w)
  }

  lemma TakeOne(cfg: Config, s: State, t: State, w: WorkerInfo, m: Places, takes: seq<Action>)
    requires Served(cfg, s, t, w, m, takes) && Taking(cfg, s, t, w, takes) && t.pool != []
    ensures var a := Take(w);
      && Enabled(cfg, t, a) && w in t.info && Served(cfg, s, AfterTake(t, w), w, Moved(cfg, t, a, m), takes + [a])
      && Taking(cfg, s, AfterTake(t, w), w, takes + [a])
  {
    hide Served, CanRun, Run, Sound, Moved, AfterTake, Enabled, State.Registered;
    var a := Take(w);
    ServedFacts(cfg, s, t, w, m, takes);
    ServingEnabled(cfg, t, a);
    ServedMore(cfg, s, t, w, m, takes, a);
    ServedFacts(cfg, s, AfterTake(t, w), w, Moved(cfg, t, a, m), takes + [a]);
  }

  lemma TakingNone(cfg: Config, s: State, w: WorkerInfo)
    ensures Taking(cfg, s, s, w, [])
  {
  }

  /** Taking a shard is being given it, whatever else is in the pool. */
  lemma TakeGives(t: State, w: WorkerInfo, pool: seq<ShardId>)
    requires w in t.info && t.pool != []
    ensures var u := AfterTake(t, w);
      && u.(pool := pool) == Give(t.(pool := pool), w, t.pool[0]) && u.pool == t.pool[1..]
      && w in u.info && u.info[w].offer == t.info[w].offer
  {
  }

  // ---------- Rebalancing ----------

  /** steals have been made for w, as rebalance makes them, and target more are wanted. */
  ghost predicate Robbing(cfg: Config, s: State, t: State, w: WorkerInfo, now: int, m: Places, steals: seq<Action>,
                          target: int) {
    && Served(cfg, s, t, w, m, steals) && Steals(steals, w) && Stolen(s, t, w, |steals|)
    && s.Drained() && w in s.counts && s.info[w].offer == None && s.info[w].heartbeat == now
    && (w in t.info && t.info[w].offer.Some? ==> t.info[w].offer.value.createdAt == now)
    && target == Max(s.Ideal() - s.info[w].active, 0) - |steals|
  }

  lemma RobbingNone(cfg: Config, s: State, w: WorkerInfo, now: int, loc: Places)
    requires Sound(s, loc) && s.inService && s.Registered(w)
    requires s.Drained() && w in s.counts && s.info[w].offer == None && s.info[w].heartbeat == now
    ensures Robbing(cfg, s, s, w, now, loc, [], Max(s.Ideal() - s.info[w].active, 0))
  {
    hide Served, Sound, Stolen;
    ServedNone(cfg, s, w, loc);
    StolenNone(s, w);
  }

  /** What Robbing says of the state it has reached. */
  lemma RobbingFacts(cfg: Config, s: State, t: State, w: WorkerInfo, now: int, m: Places, steals: seq<Action>,
                     target: int)
    requires Robbing(cfg, s, t, w, now, m, steals, target)
    ensures Sound(t, m) && t.inService && t.Registered(w) && t.Drained() && w in t.counts && target >= 0
    ensures t.Ideal() == s.Ideal() && t.info[w].active == s.info[w].active && t.info[w].heartbeat == now
    ensures t.info.Keys == s.info.Keys
    ensures t.info[w].offer.Some? ==> t.info[w].offer.value.createdAt == now
    ensures target > 0 <==> t.info[w].active + |t.info[w].Loans()| < t.Ideal()
  {
    hide Served, Sound, Stolen;
    ServedFacts(cfg, s, t, w, m, steals);
    StolenOpen(s, t, w, |steals|);
  }

  /** The busiest worker, if it exceeds the ideal, has an assignment without a request. */
  lemma DonorFound(t: State, m: Places, d: WorkerInfo)
    requires Sound(t, m) && d in t.counts
    ensures d in t.info && t.Registered(d) && t.counts[d] == t.info[d].active
    ensures t.info[d].active > t.Ideal() ==> t.info[d].Open() != {}
  {
    SoundCounts(t, m, d);
    hide Sound;
    assert t.Ideal() >= 0;
  }

  /** The stealing loop goes on: w wants more, and d, the busiest worker, exceeds the ideal. */
  ghost predicate Wanting(s: State, w: WorkerInfo, d: WorkerInfo, now: int) {
    && s.inService && s.Drained() && s.Registered(w) && Busiest(s, d) && d in s.info && s.info[d].id != s.info[w].id
    && s.info[d].active > s.Ideal() && s.info[w].active + |s.info[w].Loans()| < s.Ideal()
    && s.info[w].heartbeat == now && (s.info[w].offer.Some? ==> s.info[w].offer.value.createdAt == now)
  }

  /** A turn of the loop then steals a shard if and only if the busiest worker has an assignment without a request.
      If it has none, nothing changes, and the loop does not end. Conservation rules that out. */
  lemma TurnSteals(cfg: Config, s: State, w: WorkerInfo, d: WorkerInfo, now: int)
    requires Wanting(s, w, d, now)
    ensures (exists sh :: Enabled(cfg, s, Steal(w, d, sh, now))) <==> s.info[d].Open() != {}
    ensures (exists m :: Sound(s, m)) ==> exists sh :: Enabled(cfg, s, Steal(w, d, sh, now))
  {
    if m :| Sound(s, m) { DonorFound(s, m, d); }
    if sh :| sh in s.info[d].Open() {
      assert Enabled(cfg, s, Steal(w, d, sh, now));
    }
  }

  lemma SoundCounts(t: State, m: Places, d: WorkerInfo)
    requires Sound(t, m) && d in t.counts
    ensures d in t.info && t.Registered(d) && t.counts[d] == t.info[d].active == |t.info[d].Open()|
  {
    assert Counted(RosterOf(t), t.counts);
    hide Sound, Rostered, Noted, PoolPlaced;
    assert d in RosterOf(t);
  }

  lemma StealEnabled(cfg: Config, t: State, m: Places, w: WorkerInfo, now: int, d: WorkerInfo, sh: ShardId)
    requires Sound(t, m) && t.inService && t.Registered(w) && t.Drained()
    requires t.info[w].heartbeat == now && (t.info[w].offer.Some? ==> t.info[w].offer.value.createdAt == now)
    requires t.info[w].active + |t.info[w].Loans()| < t.Ideal()
    requires Busiest(t, d) && d in t.info && t.info[d].id != t.info[w].id && t.info[d].active > t.Ideal()
      && sh in t.info[d].Open()
    ensures Enabled(cfg, t, Steal(w, d, sh, now)) && Loan(d, sh) !in t.info[w].Loans() && d != w
  {
    assert w in RosterOf(t);
    if Loan(d, sh) in t.info[w].Loans() {
      DonorFound(t, m, d);
      LentWhere(RosterOf(t), m, w, Loan(d, sh));
      OpenWhere(RosterOf(t), m, d, sh);
    }
  }

  /** The donor's record after one steal. */
  function Robbed(d: Worker, sh: ShardId): Worker
    requires sh in d.assignments
  {
    d.(assignments := d.assignments[sh := d.assignments[sh].(requested := true)], active := d.active - 1)
  }

  lemma StealShape(t: State, w: WorkerInfo, d: WorkerInfo, sh: ShardId, now: int)
    requires w in t.info && d in t.info && d != w && sh in t.info[d].assignments
    ensures var info := t.info[d := Robbed(t.info[d], sh)];
      AfterSteal(t, w, d, sh, now) ==
      t.(info := info[w := info[w].(offer := Some(Offer(t.info[w].Loans() + {Loan(d, sh)}, now)))],
         counts := t.counts[d := t.info[d].active - 1])
    ensures AfterSteal(t, w, d, sh, now).info[d].active == t.info[d].active - 1
  {
  }

  lemma StealOffer(t: State, w: WorkerInfo, d: WorkerInfo, sh: ShardId, now: int)
    requires w in t.info && d in t.info && sh in t.info[d].assignments
    ensures var u := AfterSteal(t, w, d, sh, now);
      w in u.info && u.info[w].offer.Some?
      && u.info[w].offer.value.createdAt == now
  {
  }

  lemma RobOne(cfg: Config, s: State, t: State, w: WorkerInfo, now: int, m: Places, steals: seq<Action>, target: int,
               d: WorkerInfo, sh: ShardId)
    requires Robbing(cfg, s, t, w, now, m, steals, target) && target != 0
    requires Busiest(t, d) && d in t.info && w in t.info && t.info[d].id != t.info[w].id
    requires t.info[d].active > t.Ideal() && sh in t.info[d].Open()
    ensures var a := Steal(w, d, sh, now);
      && Enabled(cfg, t, a) && Loan(d, sh) !in t.info[w].Loans() && d != w
      && Robbing(cfg, s, AfterSteal(t, w, d, sh, now), w, now, Moved(cfg, t, a, m), steals + [a], target - 1)
  {
    hide Served, Sound, Stolen, Enabled, Moved, AfterSteal, Busiest, State.Registered, State.Drained, State.Ideal;
    var a := Steal(w, d, sh, now);
    RobbingFacts(cfg, s, t, w, now, m, steals, target);
    StealEnabled(cfg, t, m, w, now, d, sh);
    ServedMore(cfg, s, t, w, m, steals, a);
    StealStep(cfg, s, t, a, m, |steals|);
    StealOffer(t, w, d, sh, now);
  }

  lemma RobStops(cfg: Config, s: State, t: State, w: WorkerInfo, now: int, m: Places, steals: seq<Action>, target: int,
                 d: WorkerInfo)
    requires Robbing(cfg, s, t, w, now, m, steals, target)
    requires target == 0
      || (Busiest(t, d) && d in t.info && w in t.info
          && (t.info[d].id == t.info[w].id || t.info[d].active <= s.Ideal()))
    ensures StealingStops(t, w)
  {
    hide Robbing, Sound;
    RobbingFacts(cfg, s, t, w, now, m, steals, target);
  }

  lemma RobbingServed(cfg: Config, s: State, t: State, w: WorkerInfo, now: int, m: Places, steals: seq<Action>,
                      target: int)
    requires Robbing(cfg, s, t, w, now, m, steals, target)
    ensures Served(cfg, s, t, w, m, steals) && Steals(steals, w)
  {
  }

  lemma RegisteredSome(s: State, w: WorkerInfo)
    requires s.Registered(w)
    ensures |s.workers| > 0 && s.Ideal() == |s.live| / |s.workers|
  {
    assert s.info[w].id in s.workers.Keys;
  }

  lemma OpenFound(me: Worker, found: Option<ShardId>)
    requires found.Some? ==> found.value in me.assignments && !me.assignments[found.value].requested
    requires found.None? ==> forall sh :: sh in me.assignments ==> me.assignments[sh].requested
    requires me.Open() != {}
    ensures found.Some? && found.value in me.Open()
  {
    var sh :| sh in me.Open();
  }

  // ---------- The whole call ----------

  /** The moves that one assign call makes, and the states between its phases. */
  datatype Turn = Turn(expiries: seq<Action>, released: State, settlings: seq<Action>, settled: State, resolved: State,
                       claims: seq<Action>, claimed: State, takes: seq<Action>, taken: State, steals: seq<Action>)

  ghost predicate ReleasePhase(cfg: Config, s: State, t: State, at: int, acts: seq<Action>) {
    CanRun(cfg, s, acts) && t == Run(cfg, s, acts) && Along(cfg, s, acts, Orderly) && Expires(acts, at)
      && ReleaseStops(cfg, t, at)
  }

  function Ended(s: State): State {
    s.(closed := s.deferred, deferred := [])
  }

  ghost predicate SettlePhase(cfg: Config, index: Index, s: State, t: State, acts: seq<Action>) {
    Settling(cfg, index, s, t, acts) && t.closed == []
  }

  ghost predicate StealPhase(cfg: Config, s: State, t: State, w: WorkerInfo, acts: seq<Action>) {
    CanRun(cfg, s, acts) && t == Run(cfg, s, acts) && Steals(acts, w) && StealingStops(t, w)
  }

  /** A due offer is claimed, and the room left is filled from the pool. */
  ghost predicate Filled(cfg: Config, s: State, t: State, w: WorkerInfo, maxShards: int, at: int, turn: Turn) {
    && Claiming(cfg, s, turn.claimed, w, at, turn.claims)
    && Taking(cfg, turn.claimed, t, w, turn.takes)
    && |turn.takes| == Min(Max(maxShards - |turn.claims|, 0), |turn.claimed.pool|)
  }

  lemma FilledBy(cfg: Config, s: State, t: State, w: WorkerInfo, maxShards: int, at: int, turn: Turn,
                 takes: seq<Action>)
    requires Claiming(cfg, s, turn.claimed, w, at, turn.claims) && Taking(cfg, turn.claimed, t, w, takes)
    requires |takes| == Min(Max(maxShards - |turn.claims|, 0), |turn.claimed.pool|)
    ensures Filled(cfg, s, t, w, maxShards, at, turn.(takes := takes, taken := t))
  {
    hide Claiming, Taking;
  }

  /** A due offer is claimed; the room left is filled from the pool; and if that changed nothing and w has
      no offer outstanding, shards are stolen for it. */
  ghost predicate ServePhase(cfg: Config, s: State, t: State, w: WorkerInfo, maxShards: int, at: int, turn: Turn) {
    && w in s.info && w in turn.taken.info
    && Filled(cfg, AfterEnlist(s, w), turn.taken, w, maxShards, at, turn)
    && if turn.taken.info[w].active == s.info[w].active && turn.taken.info[w].offer == None
       then StealPhase(cfg, turn.taken, t, w, turn.steals)
       else turn.steals == [] && t == turn.taken
  }

  /** The requester is registered under id, as w, at time at. */
  ghost predicate Resolves(s: State, t: State, id: WorkerId, w: WorkerInfo, at: int) {
    && (id in s.workers ==> s.workers[id] in s.info) && (id !in s.workers ==> w !in s.info)
    && t == AfterRegister(s, id, w, at) && w == t.workers[id]
  }

  lemma SoundRegistry(s: State, loc: Places)
    requires Sound(s, loc)
    ensures Named(s) && Beating(s)
  {
  }

  lemma NamedWorker(s: State, loc: Places, id: WorkerId)
    requires Sound(s, loc)
    ensures id in s.workers ==> s.workers[id] in s.info
  {
  }

  /** An assign call takes the manager from s to t. */
  ghost predicate Answers(cfg: Config, index: Index, s: State, t: State, id: WorkerId, w: WorkerInfo, maxShards: int,
                          at: int, turn: Turn) {
    && ReleasePhase(cfg, s, turn.released, at, turn.expiries)
    && SettlePhase(cfg, index, turn.released, turn.settled, turn.settlings)
    && Resolves(Ended(turn.settled), turn.resolved, id, w, at)
    && if maxShards == 0 then t == turn.resolved else ServePhase(cfg, turn.resolved, t, w, maxShards, at, turn)
  }

  lemma Answered(cfg: Config, index: Index, s: State, prepared: State, resolved: State, t: State, id: WorkerId,
                 w: WorkerInfo,
                 maxShards: int, at: int, start: Turn, turn: Turn)
    requires ReleasePhase(cfg, s, start.released, at, start.expiries)
    requires SettlePhase(cfg, index, start.released, start.settled, start.settlings)
    requires prepared == Ended(start.settled) && start.resolved == resolved && Resolves(prepared, resolved, id, w, at)
    requires if maxShards == 0 then t == resolved && turn == start
             else ServePhase(cfg, resolved, t, w, maxShards, at, turn) && SameStart(turn, start)
    ensures Answers(cfg, index, s, t, id, w, maxShards, at, turn)
  {
    hide ReleasePhase, SettlePhase, ServePhase, Resolves, Ended;
  }

  /** w's request, made at at, is being served. */
  ghost predicate Admitted(s: State, loc: Places, w: WorkerInfo, at: int) {
    Sound(s, loc) && s.inService && s.Registered(w) && s.Drained() && s.info[w].heartbeat == at
  }

  lemma AdmittedFacts(s: State, loc: Places, w: WorkerInfo, at: int)
    requires Admitted(s, loc, w, at)
    ensures Sound(s, loc) && s.inService && s.Registered(w) && s.Drained() && s.info[w].heartbeat == at && w in s.info
  {
  }

  lemma EnlistAdmitted(s: State, loc: Places, w: WorkerInfo, at: int)
    requires Admitted(s, loc, w, at)
    ensures w in s.info && Admitted(AfterEnlist(s, w), loc, w, at) && w in AfterEnlist(s, w).counts
  {
    EnlistSound(s, w, loc);
    hide Sound;
  }

  predicate SameStart(turn: Turn, turn0: Turn) {
    turn == turn0.(claims := turn.claims, claimed := turn.claimed, takes := turn.takes, taken := turn.taken,
                   steals := turn.steals)
  }

  lemma FilledServes(cfg: Config, s: State, taken: State, t: State, w: WorkerInfo, maxShards: int, at: int, turn: Turn)
    requires w in s.info && w in taken.info && turn.taken == taken
    requires exists steals :: Filled(cfg, AfterEnlist(s, w), taken, w, maxShards, at, turn.(steals := steals))
    requires if taken.info[w].active == s.info[w].active && taken.info[w].offer == None
             then StealPhase(cfg, taken, t, w, turn.steals) else turn.steals == [] && t == taken
    ensures ServePhase(cfg, s, t, w, maxShards, at, turn)
  {
    hide Claiming, Taking, StealPhase;
  }

  lemma ServedAdmitted(cfg: Config, s: State, loc: Places, t: State, w: WorkerInfo, m: Places, acts: seq<Action>,
                       at: int)
    requires Admitted(s, loc, w, at) && Served(cfg, s, t, w, m, acts)
    ensures Admitted(t, m, w, at) && s.counts.Keys <= t.counts.Keys && w in t.info
    ensures CanRun(cfg, s, acts) && t == Run(cfg, s, acts)
  {
    hide Sound, Served;
    ServedFacts(cfg, s, t, w, m, acts);
  }

  lemma ReleasingDone(cfg: Config, index: Index, s: State, t: State, m: Places, acts: seq<Action>, at: int,
                      released: set<ShardId>)
    requires Releasing(cfg, s, t, m, acts, at, released) && ReleaseStops(cfg, t, at)
    requires NotesReady(index, s) && s.deferred == []
    ensures ReleasePhase(cfg, s, t, at, acts) && Sound(t, m) && t.inService && NotesReady(index, t) && t.deferred == []
  {
    hide Sound;
  }

  /** After the worklist has been drained, what is left of it names no worker. */
  lemma SettlingDone(cfg: Config, index: Index, s: State, t: State, loc: Places, acts: seq<Action>) returns (m: Places)
    requires Settling(cfg, index, s, t, acts) && Sound(s, loc) && t.closed == []
    ensures SettlePhase(cfg, index, s, t, acts)
    ensures Sound(Ended(t), m) && Ended(t).Drained() && Ended(t).inService
  {
    m := RunSound(cfg, s, loc, acts);
    EndSettleSound(t, m);
    hide CanRun, Run;
  }

  lemma Admission(s: State, loc: Places, id: WorkerId, w: WorkerInfo, at: int)
    requires Sound(s, loc) && s.Drained() && s.inService && (id !in s.workers ==> w !in s.info)
    ensures id in s.workers ==> s.workers[id] in s.info
    ensures var t := AfterRegister(s, id, w, at);
      id in t.workers && (w == t.workers[id] ==> Admitted(t, loc, w, at))
  {
    RegisterSound(s, id, w, at, loc);
    hide RosterOf, Counted, Rostered, Noted, PoolPlaced;
  }

  // ---------- Checkpoint requests ----------

  /** The registered worker of that name owns the shard under that assignment id. */
  ghost predicate OwnedUnder(s: State, name: WorkerId, sh: ShardId, id: int) {
    name in s.workers && s.workers[name] in s.info &&
    sh in s.info[s.workers[name]].assignments && s.info[s.workers[name]].assignments[sh].id == id
  }

  lemma OwnerFacts(s: State, name: WorkerId, sh: ShardId, id: int)
    requires OwnedUnder(s, name, sh, id) && Named(s)
    ensures name in s.workers && s.workers[name] in s.info && s.Registered(s.workers[name])
    ensures sh in s.info[s.workers[name]].assignments && s.info[s.workers[name]].assignments[sh].id == id
  {
  }

  lemma CheckpointEnabled(cfg: Config, s: State, w: WorkerInfo, sh: ShardId, id: int, mark: Mark)
    requires s.Registered(w) && sh in s.info[w].assignments && s.info[w].assignments[sh].id == id
    ensures Enabled(cfg, s, Checkpoint(w, sh, id, mark))
    ensures Do(cfg, s, Checkpoint(w, sh, id, mark)) == AfterCheckpoint(s, w, sh, mark)
  {
  }

  lemma TakeoverEnabled(cfg: Config, s: State, index: Index, stored: map<ShardId, Mark>, open: seq<ShardId>,
                        shut: seq<ShardId>, newTerm: int, found: map<ShardId, Mark>)
    requires found == map sh | sh in index.shards :: StoredMark(stored, sh)
    requires Lists(open, set sh | sh in index.shards && index.IsRoot(sh) && found[sh] != Closed)
    requires Lists(shut, set sh | sh in index.shards && index.IsRoot(sh) && found[sh] == Closed)
    ensures var a := Takeover(index, stored, open, shut, newTerm);
      Enabled(cfg, s, a) && Do(cfg, s, a) == AfterTakeover(s, index, stored, open, shut, newTerm)
  {
    hide Index.IsRoot, Lists;
    assert (set sh | sh in index.shards && index.IsRoot(sh) && found[sh] != Closed)
        == set sh | sh in index.shards && index.IsRoot(sh) && StoredMark(stored, sh) != Closed;
    assert (set sh | sh in index.shards && index.IsRoot(sh) && found[sh] == Closed)
        == set sh | sh in index.shards && index.IsRoot(sh) && StoredMark(stored, sh) == Closed;
  }
}
