/** How many shards rebalancing moves, when it stops, and why it does not go on for ever. */
module Rebalancing {
  import opened Finite
  import opened Lineage
  import opened WorkerRecord
  import opened ManagerModel
  import opened Conservation
  import opened ManagerRuns

  function Max(x: int, y: int): int { if x >= y then x else y }
  function Min(x: int, y: int): int { if x <= y then x else y }

  // ---------- Live shards, counted ----------

  ghost function Actives(r: Roster): map<WorkerInfo, int> {
    map w | w in r :: r[w].active
  }

  ghost function OfferSizes(r: Roster): map<WorkerInfo, int> {
    map w | w in r :: |r[w].Loans()|
  }

  lemma {:induction false} ShardsOfCount(loans: set<Loan>)
    requires forall k, l :: k in loans && l in loans && k.shard == l.shard ==> k == l
    ensures |ShardsOf(loans)| == |loans|
    decreases |loans|
  {
    if loans != {} {
      var l :| l in loans;
      var rest := loans - {l};
      ShardsOfCount(rest);
      assert ShardsOf(loans) == ShardsOf(rest) + {l.shard};
    }
  }

  ghost function Owners(loc: Places): map<ShardId, WorkerInfo> {
    map sh | sh in loc && loc[sh].Owned? :: loc[sh].owner
  }

  ghost function Holders(loc: Places): map<ShardId, WorkerInfo> {
    map sh | sh in loc && loc[sh].Lent? :: loc[sh].holder
  }

  lemma OwnedFibre(r: Roster, loc: Places, w: WorkerInfo)
    requires Rostered(r, loc) && w in r
    ensures Fibre(Owners(loc), w) == r[w].Open()
  {
    forall sh ensures sh in Fibre(Owners(loc), w) <==> sh in r[w].Open() {
      if sh in loc { assert BackedAt(r, loc[sh], sh); }
    }
  }

  lemma OwnedCount(r: Roster, loc: Places)
    requires Rostered(r, loc) && forall w :: w in r ==> r[w].active == |r[w].Open()|
    ensures Sum(Actives(r)) == |Owners(loc)|
  {
    var f := Owners(loc);
    forall sh | sh in f ensures f[sh] in r.Keys {
      assert BackedAt(r, loc[sh], sh);
    }
    SumOfFibres(f, r.Keys);
    forall w | w in r ensures r[w].active == |Fibre(f, w)| {
      OwnedFibre(r, loc, w);
    }
    assert Actives(r) == map w | w in r.Keys :: |Fibre(f, w)|;
  }

  lemma LentFibre(r: Roster, loc: Places, h: WorkerInfo)
    requires Rostered(r, loc) && h in r
    ensures |Fibre(Holders(loc), h)| == |r[h].Loans()|
  {
    var loans := r[h].Loans();
    forall sh ensures sh in Fibre(Holders(loc), h) <==> sh in ShardsOf(loans) {
      if sh in loc && loc[sh].Lent? && loc[sh].holder == h {
        assert BackedAt(r, loc[sh], sh);
        assert Loan(loc[sh].donor, sh).shard == sh;
      }
    }
    assert Fibre(Holders(loc), h) == ShardsOf(loans);
    forall k, l | k in loans && l in loans && k.shard == l.shard ensures k == l {
      assert loc[k.shard] == Lent(h, k.donor) && loc[l.shard] == Lent(h, l.donor);
    }
    ShardsOfCount(loans);
  }

  lemma LentCount(r: Roster, loc: Places)
    requires Rostered(r, loc)
    ensures Sum(OfferSizes(r)) == |Holders(loc)|
  {
    var f := Holders(loc);
    forall sh | sh in f ensures f[sh] in r.Keys {
      assert BackedAt(r, loc[sh], sh);
    }
    SumOfFibres(f, r.Keys);
    forall h | h in r ensures |r[h].Loans()| == |Fibre(f, h)| {
      LentFibre(r, loc, h);
    }
    assert OfferSizes(r) == map h | h in r.Keys :: |Fibre(f, h)|;
  }

  lemma PlacesCount(pool: seq<ShardId>, loc: Places)
    requires PoolPlaced(pool, loc)
    ensures |loc| == |pool| + |Owners(loc)| + |Holders(loc)|
  {
    var pooled := Elements(pool);
    ListsCount(pool, pooled);
    assert loc.Keys == pooled + Owners(loc).Keys + Holders(loc).Keys;
    assert |pooled + Owners(loc).Keys| == |pooled| + |Owners(loc).Keys|;
  }

  /** Every live shard is counted once: in the pool, in an active count, or in an offer. */
  lemma LiveCount(s: State, loc: Places)
    requires Sound(s, loc)
    ensures |s.live| == |s.pool| + Sum(Actives(RosterOf(s))) + Sum(OfferSizes(RosterOf(s)))
  {
    OwnedCount(RosterOf(s), loc);
    LentCount(RosterOf(s), loc);
    PlacesCount(s.pool, loc);
    assert |loc| == |loc.Keys|;
  }

  lemma RosterCount(s: State)
    requires Named(s)
    ensures |RosterOf(s)| == |s.workers|
  {
    var f := map id | id in s.workers :: s.workers[id];
    var r := RosterOf(s);
    SumOfFibres(f, r.Keys);
    var ones := map w | w in r.Keys :: |Fibre(f, w)|;
    forall w | w in r ensures |Fibre(f, w)| == 1 {
      assert Fibre(f, w) == {s.info[w].id};
    }
    SumConstant(ones, 1);
    assert |ones.Keys| == |r.Keys| && |f.Keys| == |s.workers.Keys| by {
      assert ones.Keys == r.Keys && f.Keys == s.workers.Keys;
    }
  }

  // ---------- One round of stealing ----------

  /** What the other workers hold above ideal. */
  ghost function Surpluses(r: Roster, w: WorkerInfo, ideal: int): map<WorkerInfo, int> {
    map u | u in r && u != w :: Max(r[u].active - ideal, 0)
  }

  ghost function Excess(r: Roster, w: WorkerInfo, ideal: int): int {
    Sum(Surpluses(r, w, ideal))
  }

  lemma LendingFacts(r: Roster, w: WorkerInfo, donor: WorkerInfo, sh: ShardId, at: int)
    requires w in r && donor in r && w != donor && sh in r[donor].assignments
    ensures var q := Lending(r, w, donor, sh, at);
      && q.Keys == r.Keys
      && q[w].Loans() == r[w].Loans() + {Loan(donor, sh)}
      && q[donor].active == r[donor].active - 1
      && (forall u :: u in r && u != donor ==> q[u].active == r[u].active)
      && (forall u :: u in r && u != w ==> q[u].Loans() == r[u].Loans())
  {
  }

  lemma ExcessFalls(r: Roster, q: Roster, w: WorkerInfo, donor: WorkerInfo, ideal: int)
    requires donor in r && w != donor && r[donor].active > ideal
    requires q.Keys == r.Keys && q[donor].active == r[donor].active - 1
    requires forall u :: u in r && u != donor ==> q[u].active == r[u].active
    ensures Excess(q, w, ideal) == Excess(r, w, ideal) - 1
  {
    hide Sum;
    var m := Surpluses(r, w, ideal);
    var n := Surpluses(q, w, ideal);
    assert n.Keys == m.Keys;
    assert n == m[donor := m[donor] - 1];
    SumUpdate(m, donor, m[donor] - 1);
  }

  lemma {:induction false} SumNonNegative<K>(m: map<K, int>)
    requires forall k :: k in m ==> m[k] >= 0
    ensures Sum(m) >= 0
  {
    var zero := map k | k in m :: 0;
    SumMonotone(zero, m);
    SumConstant(zero, 0);
  }

  /** acts are steals for w, as rebalance makes them. */
  ghost predicate Steals(acts: seq<Action>, w: WorkerInfo) {
    forall i :: 0 <= i < |acts| ==> acts[i].Steal? && acts[i].w == w
  }

  /** rebalance leaves its loop: nothing more is wanted, or the busiest worker is the requester, or it
      does not exceed the ideal count. */
  ghost predicate StealingStops(s: State, w: WorkerInfo) {
    w in s.info &&
    (s.info[w].active + |s.info[w].Loans()| >= s.Ideal()
     || exists d :: Busiest(s, d) && d in s.info && (s.info[d].id == s.info[w].id || s.info[d].active <= s.Ideal()))
  }

  /** What a run of steals has done: nobody falls below ideal on the way down, the requester does not
      rise above it, and each steal takes one shard of the excess. */
  ghost predicate Stolen(s: State, t: State, w: WorkerInfo, k: nat) {
    && t.workers == s.workers && t.live == s.live && t.pool == s.pool && t.closed == s.closed
    && t.inService == s.inService && t.counts.Keys == s.counts.Keys
    && w in RosterOf(s) && w in RosterOf(t) && RosterOf(t).Keys == RosterOf(s).Keys
    && RosterOf(t)[w].active == RosterOf(s)[w].active
    && |RosterOf(t)[w].Loans()| == |RosterOf(s)[w].Loans()| + k
    && Excess(RosterOf(t), w, s.Ideal()) == Excess(RosterOf(s), w, s.Ideal()) - k
    && (k > 0 ==> RosterOf(t)[w].active + |RosterOf(t)[w].Loans()| <= s.Ideal())
    && (forall u :: u in RosterOf(s) ==>
          && RosterOf(t)[u].active <= RosterOf(s)[u].active
          && (RosterOf(t)[u].active == RosterOf(s)[u].active || RosterOf(t)[u].active >= s.Ideal()))
  }

  /** One steal, on the roster: a busier worker's active count falls, the requester's offer grows. */
  ghost predicate Lowered(r: Roster, q: Roster, w: WorkerInfo, donor: WorkerInfo) {
    && w in r && donor in r && w != donor && q.Keys == r.Keys
    && |q[w].Loans()| == |r[w].Loans()| + 1
    && q[donor].active == r[donor].active - 1
    && (forall u :: u in r && u != donor ==> q[u].active == r[u].active)
    && (forall u :: u in r && u != w ==> |q[u].Loans()| == |r[u].Loans()|)
  }

  lemma LendingLowered(r: Roster, loc: Places, w: WorkerInfo, donor: WorkerInfo, sh: ShardId, at: int)
    requires Held(r, loc) && Offered(r, loc)
    requires w in r && donor in r && w != donor && sh in r[donor].Open()
    ensures Lowered(r, Lending(r, w, donor, sh, at), w, donor)
  {
    LendingFacts(r, w, donor, sh, at);
    hide Lending;
    assert loc[sh] == Owned(donor);
    assert Loan(donor, sh) !in r[w].Loans();
  }

  lemma StealEffect(s: State, w: WorkerInfo, donor: WorkerInfo, sh: ShardId, at: int, loc: Places)
    requires Sound(s, loc) && s.Registered(w) && donor in s.counts && donor != w
    requires donor in s.info && sh in s.info[donor].Open()
    ensures Lowered(RosterOf(s), RosterOf(AfterSteal(s, w, donor, sh, at)), w, donor)
    ensures var t := AfterSteal(s, w, donor, sh, at);
      t == s.(info := t.info, counts := t.counts) && t.counts.Keys == s.counts.Keys
    ensures RosterOf(s)[w] == s.info[w] && RosterOf(s)[donor] == s.info[donor]
  {
    assert donor in RosterOf(s);
    StealRoster(s, w, donor, sh, at);
    StealRest(s, w, donor, sh, at);
    LendingLowered(RosterOf(s), loc, w, donor, sh, at);
  }

  lemma StolenMore(s: State, t: State, u: State, w: WorkerInfo, donor: WorkerInfo, k: nat)
    requires Stolen(s, t, w, k) && Lowered(RosterOf(t), RosterOf(u), w, donor)
    requires u == t.(info := u.info, counts := u.counts) && u.counts.Keys == t.counts.Keys
    requires RosterOf(t)[donor].active > t.Ideal()
    requires RosterOf(t)[w].active + |RosterOf(t)[w].Loans()| < t.Ideal()
    ensures Stolen(s, u, w, k + 1)
  {
    hide RosterOf, Excess;
    ExcessFalls(RosterOf(t), RosterOf(u), w, donor, t.Ideal());
    assert t.Ideal() == s.Ideal() == u.Ideal();
    hide State.Ideal;
  }

  lemma StealStep(cfg: Config, s: State, t: State, a: Action, loc: Places, k: nat)
    requires Sound(t, loc) && a.Steal? && Enabled(cfg, t, a) && Stolen(s, t, a.w, k)
    ensures Stolen(s, Do(cfg, t, a), a.w, k + 1)
  {
    StealEffect(t, a.w, a.donor, a.shard, a.at, loc);
    hide Sound, AfterSteal, RosterOf, Excess, Stolen, Lowered;
    StolenMore(s, t, Do(cfg, t, a), a.w, a.donor, k);
  }

  lemma StolenNone(s: State, w: WorkerInfo)
    requires s.Registered(w)
    ensures Stolen(s, s, w, 0)
  {
    hide Excess;
    assert w in RosterOf(s);
  }

  lemma StolenOpen(s: State, t: State, w: WorkerInfo, k: nat)
    requires Stolen(s, t, w, k)
    ensures t.Registered(w) && t.info[w].active == s.info[w].active && t.Ideal() == s.Ideal()
    ensures |t.info[w].Loans()| == |s.info[w].Loans()| + k
    ensures w in s.counts ==> w in t.counts
    ensures Excess(RosterOf(t), w, s.Ideal()) == Excess(RosterOf(s), w, s.Ideal()) - k
    ensures k > 0 ==> s.info[w].active + |s.info[w].Loans()| + k <= s.Ideal()
  {
    hide Excess;
  }

  lemma {:induction false} StealRun(cfg: Config, s: State, loc: Places, w: WorkerInfo, acts: seq<Action>)
    returns (m: Places)
    requires Sound(s, loc) && s.Registered(w)
    requires Steals(acts, w) && CanRun(cfg, s, acts)
    ensures Sound(Run(cfg, s, acts), m) && Stolen(s, Run(cfg, s, acts), w, |acts|)
    decreases |acts|
  {
    hide Sound, Stolen, Enabled, Do, Moved, RosterOf;
    StolenNone(s, w);
    if acts == [] {
      m := loc;
    } else {
      var front := acts[..|acts| - 1];
      var a := acts[|acts| - 1];
      m := StealRun(cfg, s, loc, w, front);
      StealStep(cfg, s, Run(cfg, s, front), a, m, |front|);
      MoveSound(cfg, Run(cfg, s, front), a, m);
      m := Moved(cfg, Run(cfg, s, front), a, m);
    }
  }

  /** When the loop is left for want of donors, nobody else holds more than ideal. */
  lemma NoExcess(s: State, loc: Places, w: WorkerInfo)
    requires Sound(s, loc) && w in s.counts && StealingStops(s, w)
    ensures s.info[w].active + |s.info[w].Loans()| >= s.Ideal() || Excess(RosterOf(s), w, s.Ideal()) == 0
  {
    var r := RosterOf(s);
    if s.info[w].active + |s.info[w].Loans()| < s.Ideal() {
      var d :| Busiest(s, d) && d in s.info && (s.info[d].id == s.info[w].id || s.info[d].active <= s.Ideal());
      BusiestLow(s, loc, w, d);
      hide Sound, RosterOf, Busiest;
      SumConstant(Surpluses(r, w, s.Ideal()), 0);
    }
  }

  lemma BusiestLow(s: State, loc: Places, w: WorkerInfo, d: WorkerInfo)
    requires Sound(s, loc) && w in s.counts && Busiest(s, d) && d in s.info && w in s.info
    requires s.info[w].active < s.Ideal() && (s.info[d].id == s.info[w].id || s.info[d].active <= s.Ideal())
    ensures forall u :: u in RosterOf(s) ==> RosterOf(s)[u].active <= s.Ideal()
  {
    assert Counted(RosterOf(s), s.counts);
    assert d in RosterOf(s) && w in RosterOf(s) && s.counts[d] == s.info[d].active <= s.Ideal();
    hide Sound, Rostered, Noted, PoolPlaced;
    forall u | u in RosterOf(s) ensures RosterOf(s)[u].active <= s.Ideal() {
      if u !in s.counts { assert RosterOf(s)[u].Open() == {}; }
    }
  }

  /** One rebalance offers exactly as many shards as the requester is short of the ideal and the others
      have above it. Nobody is taken below ideal, and the requester is not offered more than ideal. */
  lemma ExactSteal(cfg: Config, s: State, loc: Places, w: WorkerInfo, acts: seq<Action>)
    requires Sound(s, loc) && s.Registered(w) && w in s.counts && s.info[w].offer == None
    requires Steals(acts, w) && CanRun(cfg, s, acts) && StealingStops(Run(cfg, s, acts), w)
    ensures var t := Run(cfg, s, acts);
      && |acts| == Min(Max(s.Ideal() - s.info[w].active, 0), Excess(RosterOf(s), w, s.Ideal()))
      && w in t.info && |t.info[w].Loans()| == |acts|
      && (|acts| > 0 ==> s.info[w].active + |acts| <= s.Ideal())
      && (forall u :: u in RosterOf(s) ==>
            && u in RosterOf(t)
            && (RosterOf(t)[u].active == RosterOf(s)[u].active || RosterOf(t)[u].active >= s.Ideal()))
  {
    hide Sound, Run, CanRun, Excess, Busiest;
    var m := StealRun(cfg, s, loc, w, acts);
    var t := Run(cfg, s, acts);
    hide RosterOf;
    StolenOpen(s, t, w, |acts|);
    NoExcess(t, m, w);
    ExcessNonNegative(RosterOf(t), w, s.Ideal());
  }

  lemma ExcessNonNegative(r: Roster, w: WorkerInfo, ideal: int)
    ensures Excess(r, w, ideal) >= 0
  {
    SumNonNegative(Surpluses(r, w, ideal));
  }

  lemma SumBelow(m: map<WorkerInfo, int>, w: WorkerInfo, ideal: int)
    requires w in m && m[w] < ideal && forall u :: u in m ==> m[u] <= ideal
    ensures Sum(m) < ideal * |m|
  {
    var full := map u | u in m :: ideal;
    SumUpdate(m, w, ideal);
    SumMonotone(m[w := ideal], full);
    SumConstant(full, ideal);
    assert |full.Keys| == |m.Keys| by { assert full.Keys == m.Keys; }
  }

  lemma NobodyAbove(r: Roster, w: WorkerInfo, ideal: int, u: WorkerInfo)
    requires u in r && u != w && Excess(r, w, ideal) == 0
    ensures r[u].active <= ideal
  {
    var m := Surpluses(r, w, ideal);
    SumSplit(m, u);
    SumNonNegative(m - {u});
  }

  /** If nobody exceeds ideal and w falls short of it, there are fewer than ideal shards a head. */
  lemma Pigeonhole(r: Roster, w: WorkerInfo, ideal: int)
    requires w in r && r[w].active < ideal && Excess(r, w, ideal) == 0
    ensures Sum(Actives(r)) < ideal * |r|
  {
    forall u | u in r && u != w ensures r[u].active <= ideal {
      NobodyAbove(r, w, ideal, u);
    }
    SumBelow(Actives(r), w, ideal);
    assert |Actives(r).Keys| == |r.Keys| by { assert Actives(r).Keys == r.Keys; }
  }

  /** Fixed point: with an empty pool and no outstanding offers, rebalance offers nothing to a worker
      exactly when the worker holds at least floor(live / workers) shards. */
  lemma RebalanceFixedPoint(cfg: Config, s: State, loc: Places, w: WorkerInfo, acts: seq<Action>)
    requires Sound(s, loc) && s.Registered(w) && w in s.counts
    requires s.pool == [] && forall u :: u in s.info && s.Registered(u) ==> s.info[u].offer == None
    requires Steals(acts, w) && CanRun(cfg, s, acts) && StealingStops(Run(cfg, s, acts), w)
    ensures acts == [] <==> s.info[w].active >= |s.live| / |s.workers|
  {
    ExactSteal(cfg, s, loc, w, acts);
    var r := RosterOf(s);
    if s.info[w].active < s.Ideal() && Excess(r, w, s.Ideal()) <= 0 {
      ExcessNonNegative(r, w, s.Ideal());
      Pigeonhole(r, w, s.Ideal());
      LiveCount(s, loc);
      RosterCount(s);
      NothingOffered(s);
      assert s.Ideal() * |s.workers| <= |s.live| by { DivMul(|s.live|, |s.workers|); }
    }
  }

  lemma NothingOffered(s: State)
    requires forall u :: u in s.info && s.Registered(u) ==> s.info[u].offer == None
    ensures Sum(OfferSizes(RosterOf(s))) == 0
  {
    SumConstant(OfferSizes(RosterOf(s)), 0);
  }

  lemma DivMul(x: nat, y: nat)
    requires y > 0
    ensures x / y * y <= x
  {
  }
}
