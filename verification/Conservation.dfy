/** Where each live shard is: the conservation invariant and its preservation by every move. */
module Conservation {
  import opened Finite
  import opened Lineage
  import opened WorkerRecord
  import opened ManagerModel

  type Roster = map<WorkerInfo, Worker>

  /** The registered workers. Dropped ones may survive in offers and notifications. */
  ghost function RosterOf(s: State): Roster {
    map w | w in s.info && s.Registered(w) :: s.info[w]
  }

  datatype Place = Pooled | Owned(owner: WorkerInfo) | Lent(holder: WorkerInfo, donor: WorkerInfo)

  type Places = map<ShardId, Place>

  ghost predicate Named(s: State) {
    forall id :: id in s.workers ==> s.workers[id] in s.info && s.info[s.workers[id]].id == id
  }

  ghost predicate PoolPlaced(pool: seq<ShardId>, loc: Places) {
    && NoDup(pool)
    && (forall sh :: sh in pool ==> sh in loc && loc[sh] == Pooled)
    && (forall sh :: sh in loc && loc[sh] == Pooled ==> sh in pool)
  }

  /** Registered workers hold only what loc says they own or have lent. */
  ghost predicate Held(r: Roster, loc: Places) {
    forall w, sh :: w in r && sh in r[w].assignments ==>
      sh in loc && if r[w].assignments[sh].requested then loc[sh].Lent? && loc[sh].donor == w
                   else loc[sh] == Owned(w)
  }

  ghost predicate Offered(r: Roster, loc: Places) {
    forall h, l :: h in r && l in r[h].Loans() ==> l.shard in loc && loc[l.shard] == Lent(h, l.donor)
  }

  /** What loc says is owned is owned; what it says is lent is on offer, and still with its donor. */
  ghost predicate BackedAt(r: Roster, place: Place, sh: ShardId) {
    match place
    case Pooled => true
    case Owned(w) => w in r && sh in r[w].Open()
    case Lent(h, d) => h in r && Loan(d, sh) in r[h].Loans() && d != h && (d in r ==> sh in r[d].assignments)
  }

  ghost predicate Backed(r: Roster, loc: Places) {
    forall sh :: sh in loc ==> BackedAt(r, loc[sh], sh)
  }

  /** The roster mentions exactly the shards of loc that are not pooled, each in its one place. */
  ghost predicate Rostered(r: Roster, loc: Places) {
    Held(r, loc) && Offered(r, loc) && Backed(r, loc)
  }

  /** The active count of a worker is its number of unrequested assignments, and the count queue agrees. */
  ghost predicate Counted(r: Roster, counts: map<WorkerInfo, int>) {
    && (forall w :: w in r ==> r[w].active == |r[w].Open()|)
    && (forall w :: w in counts ==> w in r && counts[w] == r[w].active)
    && (forall w :: w in r && w !in counts ==> r[w].Open() == {})
  }

  /** The heartbeat queue holds the registered ids under their last heartbeats. */
  ghost predicate Beating(s: State) {
    && s.heartbeats.Keys == s.workers.Keys
    && forall id :: id in s.workers && s.workers[id] in s.info ==> s.heartbeats[id] == s.info[s.workers[id]].heartbeat
  }

  /** A close notification that still names its worker is about an unrequested assignment of it. */
  ghost predicate Noted(r: Roster, closed: seq<Note>, deferred: seq<Note>) {
    && (forall n :: n in closed && n.worker.Some? ==> n.worker.value in r && n.shard in r[n.worker.value].Open())
    && (forall i, j :: 0 <= i < j < |closed| && closed[i].worker.Some? && closed[j].worker.Some? ==>
          closed[i].shard != closed[j].shard)
    && (forall n :: n in deferred ==> n.worker.None?)
  }

  ghost predicate DonorsKnown(known: set<WorkerInfo>, loc: Places) {
    forall sh :: sh in loc && loc[sh].Lent? ==> loc[sh].donor in known
  }

  ghost predicate Sound(s: State, loc: Places) {
    var r := RosterOf(s);
    && Named(s) && Beating(s) && DonorsKnown(s.info.Keys, loc)
    && loc.Keys == s.live && PoolPlaced(s.pool, loc) && Rostered(r, loc)
    && Counted(r, s.counts)
    && Noted(r, s.closed, s.deferred)
  }

  /** Hypothesis G1: an assignment is closed once, and not while it has a reassignment request. */
  ghost predicate ClosedOnce(s: State, a: Action) {
    a.Checkpoint? && a.mark == Closed && a.w in s.info ==>
      && a.shard in s.info[a.w].Open()
      && forall n :: n in s.closed && n.worker.Some? ==> n.shard != a.shard
  }

  /** Hypothesis G2: a worker with an unprocessed close does not time out before the next assign. */
  ghost predicate ClosesSettled(s: State, a: Action) {
    a.Expire? ==> forall n :: n in s.closed ==> n.worker != Some(a.w)
  }

  // ---------- Lifting shards off the roster and setting them down ----------

  ghost function Gave(r: Roster, w: WorkerInfo, sh: ShardId, id: int): Roster
    requires w in r
  {
    r[w := r[w].(assignments := r[w].assignments[sh := Assignment(id, false)], active := r[w].active + 1)]
  }

  lemma GaveRostered(r: Roster, loc: Places, w: WorkerInfo, sh: ShardId, id: int)
    requires Rostered(r, loc) && w in r && sh !in loc
    ensures Rostered(Gave(r, w, sh, id), loc[sh := Owned(w)])
  {
    var q := Gave(r, w, sh, id);
    var m := loc[sh := Owned(w)];
    forall u, x | u in q && x in q[u].assignments
      ensures x in m && if q[u].assignments[x].requested then m[x].Lent? && m[x].donor == u else m[x] == Owned(u)
    {
      if u != w || x != sh {
        assert x in r[u].assignments;
      }
    }
    forall x | x in m ensures BackedAt(q, m[x], x) {
      if x != sh {
        assert BackedAt(r, loc[x], x);
      }
    }
  }

  ghost function Dropped(r: Roster, w: WorkerInfo, sh: ShardId): Roster
    requires w in r
  {
    r[w := r[w].(assignments := r[w].assignments - {sh}, active := r[w].active - 1)]
  }

  lemma DroppedRostered(r: Roster, loc: Places, w: WorkerInfo, sh: ShardId)
    requires Rostered(r, loc) && w in r && sh in loc && loc[sh] == Owned(w)
    ensures Rostered(Dropped(r, w, sh), loc - {sh})
  {
    var q := Dropped(r, w, sh);
    forall u, x | u in q && x in q[u].assignments ensures x in r[u].assignments && x != sh {
    }
    forall x | x in loc - {sh} ensures BackedAt(q, loc[x], x) {
      assert BackedAt(r, loc[x], x);
    }
  }

  ghost function Lending(r: Roster, w: WorkerInfo, donor: WorkerInfo, sh: ShardId, at: int): Roster
    requires w in r && donor in r && sh in r[donor].assignments
  {
    var d := r[donor];
    var q := r[donor := d.(assignments := d.assignments[sh := d.assignments[sh].(requested := true)],
                           active := d.active - 1)];
    q[w := q[w].(offer := Some(Offer(q[w].Loans() + {Loan(donor, sh)}, at)))]
  }

  lemma LendingRostered(r: Roster, loc: Places, w: WorkerInfo, donor: WorkerInfo, sh: ShardId, at: int)
    requires Rostered(r, loc) && w in r && donor in r && w != donor && sh in r[donor].Open()
    ensures Rostered(Lending(r, w, donor, sh, at), loc[sh := Lent(w, donor)])
  {
    var q := Lending(r, w, donor, sh, at);
    var m := loc[sh := Lent(w, donor)];
    assert loc[sh] == Owned(donor);
    LendingParts(r, w, donor, sh, at);
    hide Lending;
    forall u, x | u in q && x in q[u].assignments
      ensures x in m && if q[u].assignments[x].requested then m[x].Lent? && m[x].donor == u else m[x] == Owned(u)
    {
      assert x in r[u].assignments;
    }
    forall x | x in m ensures BackedAt(q, m[x], x) {
      if x != sh {
        assert BackedAt(r, loc[x], x);
      }
    }
  }

  lemma LendingParts(r: Roster, w: WorkerInfo, donor: WorkerInfo, sh: ShardId, at: int)
    requires w in r && donor in r && w != donor && sh in r[donor].assignments
    ensures var q := Lending(r, w, donor, sh, at);
      && q.Keys == r.Keys
      && q[w].Loans() == r[w].Loans() + {Loan(donor, sh)}
      && (forall u :: u in r && u != w ==> q[u].Loans() == r[u].Loans())
      && (forall u :: u in r && u != donor ==> q[u].assignments == r[u].assignments)
      && q[donor].assignments == r[donor].assignments[sh := r[donor].assignments[sh].(requested := true)]
  {
  }

  lemma ForgetHas(r: Roster, loans: set<Loan>, u: WorkerInfo, sh: ShardId)
    requires u in r
    ensures sh in Forget(r, loans)[u].assignments <==> sh in r[u].assignments && Loan(u, sh) !in loans
    ensures sh in Forget(r, loans)[u].assignments ==> Forget(r, loans)[u].assignments[sh] == r[u].assignments[sh]
  {
    if Loan(u, sh) in loans {
      assert sh in (set l | l in loans && l.donor == u :: l.shard) by { assert Loan(u, sh).shard == sh; }
    }
  }

  /** Lent shards are requested, so forgetting loans on offer leaves the unrequested ones alone. */
  lemma ForgetOpen(r: Roster, loc: Places, h: WorkerInfo, loans: set<Loan>)
    requires Held(r, loc) && Offered(r, loc) && h in r && loans <= r[h].Loans()
    ensures Forget(r, loans).Keys == r.Keys
    ensures forall u :: u in r ==>
      Forget(r, loans)[u].Open() == r[u].Open() && Forget(r, loans)[u].active == r[u].active
  {
    forall u | u in r ensures Forget(r, loans)[u].Open() == r[u].Open() {
      forall sh ensures sh in Forget(r, loans)[u].Open() <==> sh in r[u].Open() {
        ForgetHas(r, loans, u, sh);
        if Loan(u, sh) in loans {
          assert Loan(u, sh) in r[h].Loans();
        }
      }
    }
  }

  /** The roster after a loan is lifted out of w's offer. */
  ghost function Returned(r: Roster, w: WorkerInfo, loan: Loan): Roster
    requires w in r && r[w].offer.Some?
  {
    var q := Forget(r, {loan});
    q[w := q[w].(offer := Some(q[w].offer.value.(loans := q[w].offer.value.loans - {loan})))]
  }

  lemma ReturnedRostered(r: Roster, loc: Places, w: WorkerInfo, loan: Loan)
    requires Rostered(r, loc) && w in r && loan in r[w].Loans()
    ensures Rostered(Returned(r, w, loan), loc - {loan.shard})
  {
    var q := Returned(r, w, loan);
    var m := loc - {loan.shard};
    assert loc[loan.shard] == Lent(w, loan.donor);
    forall u, x | u in q && x in q[u].assignments ensures x in r[u].assignments && x != loan.shard {
      ForgetHas(r, {loan}, u, x);
      assert loan == Loan(loan.donor, loan.shard);
    }
    assert Held(q, m) by {
      forall u, x | u in q && x in q[u].assignments
        ensures x in m && q[u].assignments[x] == r[u].assignments[x]
      {
        ForgetHas(r, {loan}, u, x);
      }
    }
    forall h, l | h in q && l in q[h].Loans() ensures l.shard in m && m[l.shard] == Lent(h, l.donor) {
      assert l in r[h].Loans();
    }
    forall x | x in m ensures BackedAt(q, m[x], x) {
      assert BackedAt(r, loc[x], x);
      if loc[x].Owned? { ForgetHas(r, {loan}, loc[x].owner, x); }
      if loc[x].Lent? && loc[x].donor in r { ForgetHas(r, {loan}, loc[x].donor, x); }
    }
  }

  /** A worker leaves, its offer is dissolved, and its shards are lifted off the roster. */
  lemma LeaveRostered(r: Roster, loc: Places, w: WorkerInfo, gone: set<ShardId>)
    requires Rostered(r, loc) && w in r && gone == r[w].Open() + ShardsOf(r[w].Loans())
    ensures Rostered(Forget(r, r[w].Loans()) - {w}, loc - gone)
    ensures forall sh :: sh in gone ==> sh in loc && loc[sh] != Pooled
  {
    var loans := r[w].Loans();
    var q := Forget(r, loans) - {w};
    var m := loc - gone;
    forall sh | sh in gone ensures sh in loc && (loc[sh] == Owned(w) || (loc[sh].Lent? && loc[sh].holder == w)) {
      if sh !in r[w].Open() {
        var l :| l in loans && l.shard == sh;
      }
    }
    assert forall l :: l in loans ==> l.shard in gone;
    forall u, x | u in q && x in q[u].assignments
      ensures x in m && q[u].assignments[x] == r[u].assignments[x] && x in r[u].assignments
    {
      ForgetHas(r, loans, u, x);
    }
    forall h, l | h in q && l in q[h].Loans() ensures l.shard in m && m[l.shard] == Lent(h, l.donor) {
      assert l in r[h].Loans();
    }
    forall x | x in m ensures BackedAt(q, m[x], x) {
      assert BackedAt(r, loc[x], x);
      if loc[x].Owned? { ForgetHas(r, loans, loc[x].owner, x); }
      if loc[x].Lent? && loc[x].donor in r { ForgetHas(r, loans, loc[x].donor, x); }
    }
  }

  // ---------- Counts and notifications ----------

  lemma OpenUpdate(me: Worker, sh: ShardId, id: int)
    ensures sh !in me.assignments ==>
      me.(assignments := me.assignments[sh := Assignment(id, false)]).Open() == me.Open() + {sh}
    ensures me.(assignments := me.assignments - {sh}).Open() == me.Open() - {sh}
    ensures sh in me.assignments ==>
      me.(assignments := me.assignments[sh := me.assignments[sh].(requested := true)]).Open() == me.Open() - {sh}
  {
  }

  lemma GaveCounted(r: Roster, loc: Places, counts: map<WorkerInfo, int>, w: WorkerInfo, sh: ShardId, id: int)
    requires Held(r, loc) && sh !in loc && Counted(r, counts) && w in r
    ensures Counted(Gave(r, w, sh, id), counts[w := r[w].active + 1])
    ensures Gave(r, w, sh, id).Keys == r.Keys && forall u :: u in r ==> r[u].Open() <= Gave(r, w, sh, id)[u].Open()
  {
    assert sh !in r[w].assignments;
    OpenUpdate(r[w], sh, id);
    var q := Gave(r, w, sh, id);
    assert q[w].Open() == r[w].(assignments := r[w].assignments[sh := Assignment(id, false)]).Open();
    assert q[w].active == r[w].active + 1 && q.Keys == r.Keys && forall u :: u in r && u != w ==> q[u] == r[u];
    hide Held, Worker.Open, Gave;
    OneMoreCounted(r, q, counts, w, sh);
  }

  lemma OneMoreCounted(r: Roster, q: Roster, counts: map<WorkerInfo, int>, w: WorkerInfo, sh: ShardId)
    requires Counted(r, counts) && w in r && q.Keys == r.Keys && forall u :: u in r && u != w ==> q[u] == r[u]
    requires q[w].Open() == r[w].Open() + {sh} && sh !in r[w].Open() && q[w].active == r[w].active + 1
    ensures Counted(q, counts[w := r[w].active + 1]) && forall u :: u in r ==> r[u].Open() <= q[u].Open()
  {
    hide Worker.Open;
  }

  lemma DroppedCounted(r: Roster, counts: map<WorkerInfo, int>, w: WorkerInfo, sh: ShardId)
    requires Counted(r, counts) && w in r && sh in r[w].Open()
    ensures Counted(Dropped(r, w, sh), counts[w := r[w].active - 1])
    ensures Dropped(r, w, sh)[w].Open() == r[w].Open() - {sh}
  {
    OpenUpdate(r[w], sh, 0);
    assert Dropped(r, w, sh)[w].Open() == r[w].(assignments := r[w].assignments - {sh}).Open();
  }

  lemma LendingCounted(r: Roster, counts: map<WorkerInfo, int>, w: WorkerInfo, donor: WorkerInfo, sh: ShardId, at: int)
    requires Counted(r, counts) && w in r && donor in counts && w != donor && sh in r[donor].Open()
    ensures Counted(Lending(r, w, donor, sh, at), counts[donor := r[donor].active - 1])
  {
    var q := Lending(r, w, donor, sh, at);
    OpenUpdate(r[donor], sh, 0);
    assert q[donor].Open()
      == r[donor].(assignments := r[donor].assignments[sh := r[donor].assignments[sh].(requested := true)]).Open();
    assert q[w].Open() == r[w].Open();
  }

  /** Workers may leave, and keep their unrequested assignments, without upsetting the counts of the others. */
  lemma CountedFrame(r: Roster, q: Roster, counts: map<WorkerInfo, int>, gone: set<WorkerInfo>)
    requires Counted(r, counts)
    requires q.Keys == r.Keys - gone
    requires forall u :: u in q ==> q[u].Open() == r[u].Open() && q[u].active == r[u].active
    ensures Counted(q, counts - gone)
  {
  }

  lemma NotedFrame(r: Roster, q: Roster, closed: seq<Note>, deferred: seq<Note>, gone: set<WorkerInfo>)
    requires Noted(r, closed, deferred)
    requires forall n :: n in closed && n.worker.Some? ==> n.worker.value !in gone
    requires forall u :: u in r && u !in gone ==> u in q && r[u].Open() <= q[u].Open()
    ensures Noted(q, closed, deferred)
  {
  }

  // ---------- Every move keeps the invariant ----------

  /** Pooled shards are no business of the roster. */
  lemma PooledFrame(r: Roster, loc: Places, m: Places)
    requires forall sh :: sh in loc && loc[sh] != Pooled ==> sh in m && m[sh] == loc[sh]
    requires forall sh :: sh in m && m[sh] != Pooled ==> sh in loc && m[sh] == loc[sh]
    requires Rostered(r, loc)
    ensures Rostered(r, m)
  {
    forall sh | sh in m ensures BackedAt(r, m[sh], sh) {
      if m[sh] != Pooled { assert BackedAt(r, loc[sh], sh); }
    }
  }

  lemma PoolAppend(pool: seq<ShardId>, loc: Places, order: seq<ShardId>, m: Places)
    requires PoolPlaced(pool, loc) && NoDup(order)
    requires forall sh :: sh in order ==> !(sh in loc && loc[sh] == Pooled)
    requires m.Keys == loc.Keys + Elements(order)
    requires forall sh :: sh in m ==> m[sh] == if sh in order then Pooled else loc[sh]
    ensures PoolPlaced(pool + order, m)
  {
    var p := pool + order;
    forall i, j | 0 <= i < j < |p| ensures p[i] != p[j] {
      if i < |pool| <= j {
        assert p[i] in pool && p[j] in order;
      }
    }
  }

  lemma PoolPop(pool: seq<ShardId>, loc: Places, w: WorkerInfo)
    requires PoolPlaced(pool, loc) && pool != []
    ensures pool[0] in loc && loc[pool[0]] == Pooled
    ensures PoolPlaced(pool[1..], loc[pool[0] := Owned(w)])
  {
    assert pool[0] in pool;
    forall x ensures x in pool[1..] <==> x in pool && x != pool[0] {
      if x in pool[1..] {
        var i :| 0 <= i < |pool[1..]| && pool[1..][i] == x;
        assert pool[i + 1] == x;
      }
    }
  }

  // Registration depends on ids alone.

  lemma RosterUpdate(s: State, t: State, w: WorkerInfo, me: Worker)
    requires Named(s) && Beating(s) && s.Registered(w)
    requires t.workers == s.workers && t.heartbeats == s.heartbeats && t.info == s.info[w := me]
    requires me.id == s.info[w].id && me.heartbeat == s.info[w].heartbeat
    ensures RosterOf(t) == RosterOf(s)[w := me] && Named(t) && Beating(t)
  {
  }

  lemma RosterForget(s: State, loans: set<Loan>)
    requires Named(s) && Beating(s)
    ensures var t := s.(info := Forget(s.info, loans));
      RosterOf(t) == Forget(RosterOf(s), loans) && Named(t) && Beating(t)
      && t.info.Keys == s.info.Keys && forall u :: u in s.info ==> t.info[u].id == s.info[u].id
  {
  }

  lemma ExpireRoster(s: State, w: WorkerInfo, order: seq<ShardId>)
    requires Named(s) && Beating(s) && s.Registered(w)
    ensures RosterOf(AfterExpire(s, w, order)) == Forget(RosterOf(s), s.info[w].Loans()) - {w}
    ensures Named(AfterExpire(s, w, order)) && Beating(AfterExpire(s, w, order))
    ensures AfterExpire(s, w, order).info.Keys == s.info.Keys
  {
    RosterForget(s, s.info[w].Loans());
    hide Forget;
    var q := RosterOf(s.(info := Forget(s.info, s.info[w].Loans())));
    assert RosterOf(AfterExpire(s, w, order)) == q - {w};
  }

  lemma ExpireSound(s: State, w: WorkerInfo, order: seq<ShardId>, loc: Places)
    requires Sound(s, loc) && s.Registered(w)
    requires Lists(order, s.info[w].Open() + ShardsOf(s.info[w].Loans()))
    requires forall n :: n in s.closed ==> n.worker != Some(w)
    ensures Sound(AfterExpire(s, w, order), map sh | sh in loc :: if sh in order then Pooled else loc[sh])
  {
    hide Held, Offered, Backed, Counted, Noted, PoolPlaced, Named, Beating, Forget;
    var t := AfterExpire(s, w, order);
    var m := map sh | sh in loc :: if sh in order then Pooled else loc[sh];
    var r := RosterOf(s);
    var q := Forget(r, r[w].Loans()) - {w};
    ExpireRoster(s, w, order);
    LeaveRostered(r, loc, w, Elements(order));
    PooledFrame(q, loc - Elements(order), m);
    PoolAppend(s.pool, loc, order, m);
    ForgetOpen(r, loc, w, r[w].Loans());
    CountedFrame(r, q, s.counts, {w});
    NotedFrame(r, q, s.closed, s.deferred, {w});
  }

  lemma GiveRoster(s: State, w: WorkerInfo, sh: ShardId)
    requires Named(s) && Beating(s) && s.Registered(w)
    ensures RosterOf(Give(s, w, sh)) == Gave(RosterOf(s), w, sh, s.NextId())
    ensures Named(Give(s, w, sh)) && Beating(Give(s, w, sh))
  {
    RosterUpdate(s, Give(s, w, sh), w, Give(s, w, sh).info[w]);
  }

  lemma TakeRoster(s: State, w: WorkerInfo)
    requires Named(s) && Beating(s) && s.Registered(w) && s.pool != []
    ensures RosterOf(AfterTake(s, w)) == Gave(RosterOf(s), w, s.pool[0], s.NextId())
    ensures Named(AfterTake(s, w)) && Beating(AfterTake(s, w))
  {
    GiveRoster(s.(pool := s.pool[1..]), w, s.pool[0]);
  }

  lemma TakeSound(s: State, w: WorkerInfo, loc: Places)
    requires Sound(s, loc) && s.Registered(w) && s.pool != []
    ensures Sound(AfterTake(s, w), loc[s.pool[0] := Owned(w)])
  {
    hide Held, Offered, Backed, Counted, Noted, PoolPlaced, Named, Beating;
    var r := RosterOf(s);
    var sh := s.pool[0];
    TakeRoster(s, w);
    PoolPop(s.pool, loc, w);
    PooledFrame(r, loc, loc - {sh});
    GaveRostered(r, loc - {sh}, w, sh, s.NextId());
    assert (loc - {sh})[sh := Owned(w)] == loc[sh := Owned(w)];
    GaveCounted(r, loc - {sh}, s.counts, w, sh, s.NextId());
    NotedFrame(r, Gave(r, w, sh, s.NextId()), s.closed, s.deferred, {});
  }

  lemma UnlentRoster(s: State, w: WorkerInfo, loan: Loan)
    requires Named(s) && Beating(s) && s.Registered(w) && s.info[w].offer.Some?
    ensures var t := Unlent(s, w, loan);
      RosterOf(t) == Returned(RosterOf(s), w, loan) && Named(t) && Beating(t) && t.Registered(w)
  {
    RosterForget(s, {loan});
    assert Forget(s.info, {loan})[w].heartbeat == s.info[w].heartbeat;
    hide Forget, Named, Beating;
    var t := Unlent(s, w, loan);
    RosterUpdate(s.(info := Forget(s.info, {loan})), t, w, t.info[w]);
  }

  lemma AcquireRoster(s: State, w: WorkerInfo, loan: Loan)
    requires Named(s) && Beating(s) && s.Registered(w) && s.info[w].offer.Some?
    ensures var t := AfterAcquire(s, w, loan);
      RosterOf(t) == Gave(Returned(RosterOf(s), w, loan), w, loan.shard, s.NextId()) && Named(t) && Beating(t)
  {
    UnlentRoster(s, w, loan);
    hide Forget, Named, Beating, Unlent;
    GiveRoster(Unlent(s, w, loan), w, loan.shard);
    assert Unlent(s, w, loan).NextId() == s.NextId();
  }

  lemma ReturnedOpen(r: Roster, loc: Places, w: WorkerInfo, loan: Loan)
    requires Held(r, loc) && Offered(r, loc) && w in r && loan in r[w].Loans()
    ensures Returned(r, w, loan).Keys == r.Keys && Returned(r, w, loan)[w].active == r[w].active
    ensures forall u :: u in r ==>
      Returned(r, w, loan)[u].Open() == r[u].Open() && Returned(r, w, loan)[u].active == r[u].active
  {
    ForgetOpen(r, loc, w, {loan});
    hide Forget, Held, Offered;
    forall u | u in r
      ensures Returned(r, w, loan)[u].Open() == r[u].Open() && Returned(r, w, loan)[u].active == r[u].active {
      assert Returned(r, w, loan)[u].assignments == Forget(r, {loan})[u].assignments;
    }
  }

  lemma ReturnedCounted(r: Roster, loc: Places, counts: map<WorkerInfo, int>, w: WorkerInfo, loan: Loan)
    requires Held(r, loc) && Offered(r, loc) && Counted(r, counts) && w in r && loan in r[w].Loans()
    ensures Counted(Returned(r, w, loan), counts)
  {
    ReturnedOpen(r, loc, w, loan);
    hide Returned, Held, Offered;
    CountedFrame(r, Returned(r, w, loan), counts, {});
    assert counts - {} == counts;
  }

  lemma InRoster(s: State, w: WorkerInfo)
    requires s.Registered(w)
    ensures w in RosterOf(s) && RosterOf(s)[w] == s.info[w]
  {
  }

  lemma AcquireParts(s: State, w: WorkerInfo, loan: Loan, loc: Places)
    requires Sound(s, loc) && s.Registered(w) && w in RosterOf(s) && s.info[w].offer.Some? && loan in s.info[w].Loans()
    requires RosterOf(s)[w] == s.info[w]
    ensures var r := Gave(Returned(RosterOf(s), w, loan), w, loan.shard, s.NextId());
      var m := loc[loan.shard := Owned(w)];
      && Rostered(r, m) && Counted(r, s.counts[w := s.info[w].active + 1]) && Noted(r, s.closed, s.deferred)
      && PoolPlaced(s.pool, m) && m.Keys == s.live && DonorsKnown(s.info.Keys, m)
  {
    hide Held, Offered, Backed, Counted, Noted, PoolPlaced, Named, Beating, Forget, Returned;
    var r := RosterOf(s);
    var sh := loan.shard;
    var q := Returned(r, w, loan);
    LentWhere(r, loc, w, loan);
    ReturnedRostered(r, loc, w, loan);
    ReturnedOpen(r, loc, w, loan);
    ReturnedCounted(r, loc, s.counts, w, loan);
    GaveRostered(q, loc - {sh}, w, sh, s.NextId());
    assert (loc - {sh})[sh := Owned(w)] == loc[sh := Owned(w)];
    GaveCounted(q, loc - {sh}, s.counts, w, sh, s.NextId());
    NotedFrame(r, q, s.closed, s.deferred, {});
    NotedFrame(q, Gave(q, w, sh, s.NextId()), s.closed, s.deferred, {});
    PoolKept(s.pool, loc, loc[sh := Owned(w)]);
  }

  lemma AcquireSound(s: State, w: WorkerInfo, loan: Loan, loc: Places)
    requires Sound(s, loc) && s.Registered(w) && s.info[w].offer.Some? && loan in s.info[w].Loans()
    ensures Sound(AfterAcquire(s, w, loan), loc[loan.shard := Owned(w)])
  {
    InRoster(s, w);
    hide Rostered, Counted, Noted, PoolPlaced, Named, Beating, DonorsKnown, Gave, Returned, AfterAcquire;
    AcquireRoster(s, w, loan);
    AcquireRest(s, w, loan);
    AcquireParts(s, w, loan, loc);
  }

  lemma AcquireRest(s: State, w: WorkerInfo, loan: Loan)
    requires w in s.info && s.info[w].offer.Some?
    ensures var t := AfterAcquire(s, w, loan);
      t == s.(info := t.info, counts := s.counts[w := s.info[w].active + 1], nextOffset := s.nextOffset + 1)
      && t.info.Keys == s.info.Keys
  {
  }

  lemma PoolKept(pool: seq<ShardId>, loc: Places, m: Places)
    requires PoolPlaced(pool, loc)
    requires forall sh :: sh in loc && loc[sh] == Pooled <==> sh in m && m[sh] == Pooled
    ensures PoolPlaced(pool, m)
  {
  }

  lemma LentWhere(r: Roster, loc: Places, w: WorkerInfo, loan: Loan)
    requires Offered(r, loc) && w in r && loan in r[w].Loans()
    ensures loan.shard in loc && loc[loan.shard] == Lent(w, loan.donor)
  {
  }

  lemma OpenWhere(r: Roster, loc: Places, w: WorkerInfo, sh: ShardId)
    requires Held(r, loc) && w in r && sh in r[w].Open()
    ensures sh in loc && loc[sh] == Owned(w)
  {
  }

  lemma NotedDrained(s: State, q: Roster)
    requires s.Drained() && Noted(RosterOf(s), s.closed, s.deferred)
    ensures Noted(q, s.closed, s.deferred)
  {
  }

  lemma StealRoster(s: State, w: WorkerInfo, donor: WorkerInfo, sh: ShardId, at: int)
    requires Named(s) && Beating(s) && s.Registered(w) && s.Registered(donor) && sh in s.info[donor].assignments
    ensures RosterOf(AfterSteal(s, w, donor, sh, at)) == Lending(RosterOf(s), w, donor, sh, at)
    ensures Named(AfterSteal(s, w, donor, sh, at)) && Beating(AfterSteal(s, w, donor, sh, at))
  {
    var d := s.info[donor];
    var t := s.(info := s.info[donor := d.(assignments := d.assignments[sh := d.assignments[sh].(requested := true)],
                                           active := d.active - 1)]);
    RosterUpdate(s, t, donor, t.info[donor]);
    hide Named, Beating;
    RosterUpdate(t, AfterSteal(s, w, donor, sh, at), w, AfterSteal(s, w, donor, sh, at).info[w]);
  }

  lemma StealRest(s: State, w: WorkerInfo, donor: WorkerInfo, sh: ShardId, at: int)
    requires w in s.info && donor in s.info && sh in s.info[donor].assignments
    ensures var t := AfterSteal(s, w, donor, sh, at);
      t == s.(info := t.info, counts := s.counts[donor := s.info[donor].active - 1]) && t.info.Keys == s.info.Keys
  {
  }

  lemma StealParts(s: State, w: WorkerInfo, donor: WorkerInfo, sh: ShardId, at: int, loc: Places)
    requires Sound(s, loc) && s.Registered(w) && donor in s.counts && donor != w && s.Drained()
    requires donor in RosterOf(s) && sh in RosterOf(s)[donor].Open()
    ensures var q := Lending(RosterOf(s), w, donor, sh, at);
      var m := loc[sh := Lent(w, donor)];
      && Rostered(q, m) && Counted(q, s.counts[donor := RosterOf(s)[donor].active - 1])
      && Noted(q, s.closed, s.deferred) && PoolPlaced(s.pool, m) && m.Keys == s.live
  {
    var r := RosterOf(s);
    hide Held, Offered, Backed, Counted, Noted, PoolPlaced, Named, Beating, DonorsKnown, Lending;
    OpenWhere(r, loc, donor, sh);
    LendingRostered(r, loc, w, donor, sh, at);
    LendingCounted(r, s.counts, w, donor, sh, at);
    NotedDrained(s, Lending(r, w, donor, sh, at));
    PoolKept(s.pool, loc, loc[sh := Lent(w, donor)]);
  }

  lemma StealSound(s: State, w: WorkerInfo, donor: WorkerInfo, sh: ShardId, at: int, loc: Places)
    requires Sound(s, loc) && s.Registered(w) && donor in s.counts && donor != w && s.Drained()
    requires donor in s.info && sh in s.info[donor].Open()
    ensures Sound(AfterSteal(s, w, donor, sh, at), loc[sh := Lent(w, donor)])
  {
    assert donor in RosterOf(s);
    assert DonorsKnown(s.info.Keys, loc[sh := Lent(w, donor)]);
    hide Rostered, Counted, Noted, PoolPlaced, Named, Beating, DonorsKnown, Lending, AfterSteal;
    StealRoster(s, w, donor, sh, at);
    StealRest(s, w, donor, sh, at);
    StealParts(s, w, donor, sh, at, loc);
  }

  lemma NotedDropped(r: Roster, closed: seq<Note>, deferred: seq<Note>)
    requires Noted(r, closed, deferred) && closed != [] && closed[0].worker.Some?
    ensures Noted(Dropped(r, closed[0].worker.value, closed[0].shard), closed[1..], deferred)
    ensures closed[0].worker.value in r && closed[0].shard in r[closed[0].worker.value].Open()
  {
    var n := closed[0];
    assert n in closed;
    var q := Dropped(r, n.worker.value, n.shard);
    forall m | m in closed[1..] && m.worker.Some? ensures m.worker.value in q && m.shard in q[m.worker.value].Open() {
      var i :| 0 <= i < |closed| - 1 && closed[1..][i] == m;
      assert closed[i + 1] == m && m in closed;
    }
  }

  lemma NotedTail(r: Roster, closed: seq<Note>, deferred: seq<Note>)
    requires Noted(r, closed, deferred) && closed != [] && closed[0].worker.None?
    ensures Noted(r, closed[1..], deferred)
  {
    assert forall m :: m in closed[1..] ==> m in closed;
  }

  lemma DetachSound(s: State, loc: Places)
    requires Sound(s, loc) && s.closed != []
    requires s.closed[0].worker.Some? ==> s.closed[0].worker.value in s.info
    ensures var n := s.closed[0];
      Sound(Detach(s.(closed := s.closed[1..]), n), if n.worker.Some? then loc - {n.shard} else loc)
  {
    hide Sound, Detach;
    if s.closed[0].worker.Some? {
      OwnerDetached(s, loc);
    } else {
      TailSound(s, loc);
    }
  }

  lemma TailSound(s: State, loc: Places)
    requires Sound(s, loc) && s.closed != [] && s.closed[0].worker.None?
    ensures Sound(Detach(s.(closed := s.closed[1..]), s.closed[0]), loc)
  {
    SameInfo(s, s.(closed := s.closed[1..]));
    hide Held, Offered, Backed, Counted, Noted, PoolPlaced, Named, Beating, RosterOf;
    NotedTail(RosterOf(s), s.closed, s.deferred);
  }

  lemma OwnerDetached(s: State, loc: Places)
    requires Sound(s, loc) && s.closed != [] && s.closed[0].worker.Some? && s.closed[0].worker.value in s.info
    ensures Sound(Detach(s.(closed := s.closed[1..]), s.closed[0]), loc - {s.closed[0].shard})
  {
    hide Held, Offered, Backed, Counted, Noted, PoolPlaced, Named, Beating, Dropped;
    var n := s.closed[0];
    var w := n.worker.value;
    NotedDropped(RosterOf(s), s.closed, s.deferred);
    DetachRoster(s, n);
    hide RosterOf;
    OpenWhere(RosterOf(s), loc, w, n.shard);
    DroppedRostered(RosterOf(s), loc, w, n.shard);
    DroppedCounted(RosterOf(s), s.counts, w, n.shard);
    PoolKept(s.pool, loc, loc - {n.shard});
  }

  lemma DetachRoster(s: State, n: Note)
    requires Named(s) && Beating(s) && n.worker.Some? && n.worker.value in RosterOf(s)
    ensures var t := Detach(s.(closed := s.closed[1..]), n);
      && RosterOf(t) == Dropped(RosterOf(s), n.worker.value, n.shard) && Named(t) && Beating(t)
      && t.info.Keys == s.info.Keys && RosterOf(s)[n.worker.value].active == s.info[n.worker.value].active
    requires s.closed != []
  {
    var w := n.worker.value;
    var u := s.(closed := s.closed[1..]);
    SameInfo(s, u);
    RosterUpdate(u, Detach(u, n), w, Detach(u, n).info[w]);
  }

  ghost function Extended(loc: Places, live: set<ShardId>): Places {
    map sh | sh in live :: if sh in loc then loc[sh] else Pooled
  }

  lemma NotedMore(r: Roster, closed: seq<Note>, deferred: seq<Note>, sh: ShardId)
    requires Noted(r, closed, deferred)
    ensures Noted(r, closed + [Note(sh, None)], deferred)
    ensures Noted(r, closed, deferred + [Note(sh, None)])
  {
  }

  lemma SameInfo(s: State, t: State)
    requires Named(s) && Beating(s)
    requires t.workers == s.workers && t.info == s.info && t.heartbeats == s.heartbeats
    ensures Named(t) && Beating(t) && RosterOf(t) == RosterOf(s)
  {
  }

  lemma PooledSound(s: State, c: ShardId, checkpoints: map<ShardId, Mark>, loc: Places)
    requires Sound(s, loc) && c !in s.live
    ensures Sound(s.(checkpoints := checkpoints, pool := s.pool + [c], live := s.live + {c}), loc[c := Pooled])
  {
    SameInfo(s, s.(checkpoints := checkpoints, pool := s.pool + [c], live := s.live + {c}));
    hide Held, Offered, Backed, Counted, Noted, Named, Beating, RosterOf;
    PooledFrame(RosterOf(s), loc, loc[c := Pooled]);
    PoolAppend(s.pool, loc, [c], loc[c := Pooled]);
  }

  lemma PassedSound(s: State, c: ShardId, loc: Places)
    requires Sound(s, loc)
    ensures Sound(s.(closed := s.closed + [Note(c, None)]), loc)
  {
    SameInfo(s, s.(closed := s.closed + [Note(c, None)]));
    hide Held, Offered, Backed, Counted, Noted, PoolPlaced, Named, Beating, RosterOf;
    NotedMore(RosterOf(s), s.closed, s.deferred, c);
  }

  lemma VisitSound(s: State, index: Index, c: ShardId, loc: Places)
    requires Sound(s, loc) && c in index.shards
    ensures Sound(Visit(s, index, c), Extended(loc, Visit(s, index, c).live))
    ensures loc.Keys <= Visit(s, index, c).live
  {
    SoundLive(s, loc);
    hide Sound;
    assert Extended(loc, s.live) == loc;
    if Eligible(s, index, c) {
      hide Eligible;
      if !s.IsClosed(c) && c !in s.live {
        PooledSound(s, c, Visit(s, index, c).checkpoints, loc);
        assert Extended(loc, s.live + {c}) == loc[c := Pooled];
      } else {
        PassedSound(s, c, loc);
      }
    }
  }

  lemma {:induction false} VisitAllSound(s: State, index: Index, kids: seq<ShardId>, loc: Places)
    requires Sound(s, loc) && forall c :: c in kids ==> c in index.shards
    ensures Sound(VisitAll(s, index, kids), Extended(loc, VisitAll(s, index, kids).live))
    ensures loc.Keys <= VisitAll(s, index, kids).live
    decreases |kids|
  {
    hide Sound;
    if kids == [] {
      assert loc.Keys == s.live by { SoundLive(s, loc); }
      assert Extended(loc, s.live) == loc;
    } else {
      var front := kids[..|kids| - 1];
      var c := kids[|kids| - 1];
      assert c in kids && forall d :: d in front ==> d in kids;
      VisitAllSound(s, index, front, loc);
      var t := VisitAll(s, index, front);
      VisitSound(t, index, c, Extended(loc, t.live));
      assert Extended(Extended(loc, t.live), Visit(t, index, c).live) == Extended(loc, Visit(t, index, c).live);
    }
  }

  lemma SoundLive(s: State, loc: Places)
    requires Sound(s, loc)
    ensures loc.Keys == s.live
  {
  }

  lemma SettleSound(s: State, index: Index, kids: seq<ShardId>, loc: Places)
    requires Sound(s, loc) && s.closed != []
    requires s.closed[0].worker.Some? ==> s.closed[0].worker.value in s.info
    requires forall c :: c in kids ==> c in index.shards
    ensures var n := s.closed[0];
      var m := if n.worker.Some? then loc - {n.shard} else loc;
      Sound(AfterSettle(s, index, kids), Extended(m, AfterSettle(s, index, kids).live))
  {
    hide Held, Offered, Backed, Counted, Noted, PoolPlaced, Named, Beating, Detach, VisitAll;
    var n := s.closed[0];
    var t := Detach(s.(closed := s.closed[1..]), n);
    var m := if n.worker.Some? then loc - {n.shard} else loc;
    DetachSound(s, loc);
    if kids == [] {
      NotedMore(RosterOf(t), t.closed, t.deferred, n.shard);
      SameInfo(t, AfterSettle(s, index, kids));
      hide RosterOf;
      assert Extended(m, t.live) == m;
    } else {
      VisitAllSound(t, index, kids, m);
    }
  }

  lemma EndSettleSound(s: State, loc: Places)
    requires Sound(s, loc) && s.closed == []
    ensures Sound(s.(closed := s.deferred, deferred := []), loc)
  {
    SameInfo(s, s.(closed := s.deferred, deferred := []));
    hide Held, Offered, Backed, Counted, PoolPlaced, Named, Beating, RosterOf;
  }

  lemma ArriveRoster(s: State, id: WorkerId, w: WorkerInfo, at: int)
    requires Named(s) && Beating(s) && id !in s.workers && w !in s.info
    ensures var t := AfterRegister(s, id, w, at);
      Named(t) && Beating(t) && RosterOf(t) == RosterOf(s)[w := t.info[w]]
  {
    var t := AfterRegister(s, id, w, at);
    assert RosterOf(t).Keys == RosterOf(s).Keys + {w} by {
      forall v ensures v in RosterOf(t) <==> v in RosterOf(s) || v == w {
      }
    }
  }

  lemma ReturnRoster(s: State, id: WorkerId, w: WorkerInfo, at: int)
    requires Named(s) && Beating(s) && id in s.workers
    ensures var t := AfterRegister(s, id, w, at);
      Named(t) && Beating(t) && RosterOf(t) == RosterOf(s)[s.workers[id] := t.info[s.workers[id]]]
  {
    var t := AfterRegister(s, id, w, at);
    var u := s.workers[id];
    assert s.Registered(u);
    assert forall v :: v in s.info ==> t.info[v].id == s.info[v].id;
    assert forall v :: v in s.info ==> s.Registered(v) == t.Registered(v);
    assert Beating(t) by {
      forall i | i in t.workers && t.workers[i] in t.info ensures t.heartbeats[i] == t.info[t.workers[i]].heartbeat {
        assert i != id ==> s.workers[i] != u;
      }
    }
  }

  /** A worker may be added empty, or have its heartbeat changed. */
  lemma AlikeRostered(r: Roster, loc: Places, u: WorkerInfo, me: Worker)
    requires Rostered(r, loc)
    requires u !in r ==> forall sh :: sh in loc && loc[sh].Lent? ==> loc[sh].donor != u
    requires u in r ==> me.assignments == r[u].assignments && me.offer == r[u].offer
    requires u !in r ==> me.assignments == map[] && me.offer == None
    ensures Rostered(r[u := me], loc)
  {
    var q := r[u := me];
    assert Offered(q, loc) by {
      assert u !in r ==> me.Loans() == {};
    }
    forall sh | sh in loc ensures BackedAt(q, loc[sh], sh) {
      assert BackedAt(r, loc[sh], sh);
    }
  }

  lemma AlikeCounted(r: Roster, counts: map<WorkerInfo, int>, closed: seq<Note>, deferred: seq<Note>, u: WorkerInfo,
                     me: Worker)
    requires Counted(r, counts) && Noted(r, closed, deferred)
    requires u in r ==> me.assignments == r[u].assignments && me.active == r[u].active
    requires u !in r ==> me.assignments == map[] && me.active == 0
    ensures Counted(r[u := me], counts) && Noted(r[u := me], closed, deferred)
  {
    assert me.Open() == if u in r then r[u].Open() else {};
  }

  lemma RegisterSound(s: State, id: WorkerId, w: WorkerInfo, at: int, loc: Places)
    requires Sound(s, loc) && (id !in s.workers ==> w !in s.info)
    ensures Sound(AfterRegister(s, id, w, at), loc)
  {
    var t := AfterRegister(s, id, w, at);
    var u := t.workers[id];
    if id in s.workers { ReturnRoster(s, id, w, at); } else { ArriveRoster(s, id, w, at); }
    hide Named, Beating;
    AlikeRostered(RosterOf(s), loc, u, t.info[u]);
    AlikeCounted(RosterOf(s), s.counts, s.closed, s.deferred, u, t.info[u]);
    hide Held, Offered, Backed, Counted, Noted, PoolPlaced, Named, Beating, RosterOf;
  }

  lemma EnlistSound(s: State, w: WorkerInfo, loc: Places)
    requires Sound(s, loc) && s.Registered(w)
    ensures Sound(AfterEnlist(s, w), loc)
  {
    SameInfo(s, AfterEnlist(s, w));
    assert Counted(RosterOf(s), s.counts[w := RosterOf(s)[w].active]);
    hide Held, Offered, Backed, Counted, Noted, PoolPlaced, Named, Beating, RosterOf;
  }

  lemma DropOfferSound(s: State, w: WorkerInfo, loc: Places)
    requires Sound(s, loc) && s.Registered(w) && s.info[w].Loans() == {}
    ensures Sound(AfterDropOffer(s, w), loc)
  {
    var t := AfterDropOffer(s, w);
    var r := RosterOf(s);
    RosterUpdate(s, t, w, t.info[w]);
    AlikeCounted(r, s.counts, s.closed, s.deferred, w, t.info[w]);
    EmptyOfferRostered(r, loc, w);
    hide Held, Offered, Backed, Counted, Noted, PoolPlaced, Named, Beating, RosterOf;
  }

  lemma EmptyOfferRostered(r: Roster, loc: Places, w: WorkerInfo)
    requires Rostered(r, loc) && w in r && r[w].Loans() == {}
    ensures Rostered(r[w := r[w].(offer := None)], loc)
  {
    var q := r[w := r[w].(offer := None)];
    forall h, l | h in q && l in q[h].Loans() ensures l.shard in loc && loc[l.shard] == Lent(h, l.donor) {
      assert l in r[h].Loans();
    }
    forall sh | sh in loc ensures BackedAt(q, loc[sh], sh) {
      assert BackedAt(r, loc[sh], sh);
    }
  }

  lemma CheckpointSound(s: State, w: WorkerInfo, sh: ShardId, mark: Mark, loc: Places)
    requires Sound(s, loc) && s.Registered(w)
    requires mark == Closed ==> sh in s.info[w].Open() && forall n :: n in s.closed && n.worker.Some? ==> n.shard != sh
    ensures Sound(AfterCheckpoint(s, w, sh, mark), loc)
  {
    var t := AfterCheckpoint(s, w, sh, mark);
    SameInfo(s, t);
    assert Noted(RosterOf(s), t.closed, t.deferred);
    hide Held, Offered, Backed, Counted, Noted, PoolPlaced, Named, Beating, RosterOf;
  }

  ghost function AllPooled(open: seq<ShardId>): Places {
    map sh | sh in open :: Pooled
  }

  lemma TakeoverSound(s: State, index: Index, stored: map<ShardId, Mark>, open: seq<ShardId>, shut: seq<ShardId>,
                      newTerm: int)
    requires NoDup(open)
    ensures Sound(AfterTakeover(s, index, stored, open, shut, newTerm), AllPooled(open))
  {
    var t := AfterTakeover(s, index, stored, open, shut, newTerm);
    assert RosterOf(t) == map[];
  }

  /** Where each move takes the live shards. */
  ghost function Moved(cfg: Config, s: State, a: Action, loc: Places): Places
    requires Enabled(cfg, s, a)
  {
    match a
    case Expire(w, order, at) => map sh | sh in loc :: if sh in order then Pooled else loc[sh]
    case Settle(index, kids) =>
      Extended(if s.closed[0].worker.Some? then loc - {s.closed[0].shard} else loc, AfterSettle(s, index, kids).live)
    case Acquire(w, loan, at) => loc[loan.shard := Owned(w)]
    case Take(w) => loc[s.pool[0] := Owned(w)]
    case Steal(w, donor, sh, at) => loc[sh := Lent(w, donor)]
    case Takeover(index, stored, open, shut, newTerm) => AllPooled(open)
    case _ => loc
  }

  /** Every live shard stays in exactly one place, whatever move the manager makes. */
  lemma MoveSound(cfg: Config, s: State, a: Action, loc: Places)
    requires Enabled(cfg, s, a) && ClosedOnce(s, a) && ClosesSettled(s, a)
    requires Sound(s, loc) || a.Takeover?
    ensures Sound(Do(cfg, s, a), Moved(cfg, s, a, loc))
  {
    hide Sound;
    match a
    case Expire(w, order, at) => ExpireSound(s, w, order, loc);
    case Settle(index, kids) => SettleSound(s, index, kids, loc);
    case EndSettle => EndSettleSound(s, loc);
    case Register(id, w, at) => RegisterSound(s, id, w, at, loc);
    case Enlist(w) => EnlistSound(s, w, loc);
    case Acquire(w, loan, at) => AcquireSound(s, w, loan, loc);
    case DropOffer(w) => DropOfferSound(s, w, loc);
    case Take(w) => TakeSound(s, w, loc);
    case Steal(w, donor, sh, at) => StealSound(s, w, donor, sh, at, loc);
    case Checkpoint(w, sh, id, mark) => CheckpointSound(s, w, sh, mark, loc);
    case Takeover(index, stored, open, shut, newTerm) => TakeoverSound(s, index, stored, open, shut, newTerm);
    case Retire => RetireSound(s, loc);
  }

  lemma RetireSound(s: State, loc: Places)
    requires Sound(s, loc)
    ensures Sound(s.(inService := false), loc)
  {
    SameInfo(s, s.(inService := false));
  }
}
