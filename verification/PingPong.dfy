/** Stealing does not go back and forth: a potential falls with every steal. */
module PingPong {
  import opened Finite
  import opened Lineage
  import opened WorkerRecord
  import opened ManagerModel
  import opened Conservation
  import opened ManagerRuns
  import opened Rebalancing
  import opened Expiry

  /** What a worker has or is promised: its active count and its offer. */
  ghost function Loads(r: Roster): map<WorkerInfo, int> {
    map w | w in r :: r[w].active + |r[w].Loans()|
  }

  ghost function Squares(m: map<WorkerInfo, int>): map<WorkerInfo, int> {
    map w | w in m :: m[w] * m[w]
  }

  ghost function Unevenness(s: State): int {
    Sum(Squares(Loads(RosterOf(s))))
  }

  /** No worker comes or goes, no shard goes live or is taken off its worker, the pool is not drawn on. */
  ghost predicate Steady(s: State, a: Action) {
    match a
    case Expire(_, _, _) => false
    case Take(_) => false
    case Takeover(_, _, _, _, _) => false
    case Register(name, w, at) => name in s.workers
    case Settle(index, kids) => s.closed != [] && s.closed[0].worker.None?
    case _ => true
  }

  function StealCount(acts: seq<Action>): nat
    decreases |acts|
  {
    if acts == [] then 0
    else StealCount(acts[..|acts| - 1]) + if acts[|acts| - 1].Steal? then 1 else 0
  }

  lemma SquareGap(d: int, w: int)
    requires d >= w + 2
    ensures (d - 1) * (d - 1) + (w + 1) * (w + 1) <= d * d + w * w - 2
  {
  }

  lemma SquaresUpdate(m: map<WorkerInfo, int>, k: WorkerInfo, v: int)
    requires k in m
    ensures Sum(Squares(m[k := v])) == Sum(Squares(m)) - m[k] * m[k] + v * v
  {
    hide Sum;
    assert Squares(m[k := v]) == Squares(m)[k := v * v];
    SumUpdate(Squares(m), k, v * v);
  }

  lemma LoweredLoads(r: Roster, q: Roster, w: WorkerInfo, donor: WorkerInfo)
    requires Lowered(r, q, w, donor)
    ensures Loads(q) == Loads(r)[donor := Loads(r)[donor] - 1][w := Loads(r)[w] + 1]
  {
  }

  lemma TwoSquares(m: map<WorkerInfo, int>, w: WorkerInfo, donor: WorkerInfo)
    requires w in m && donor in m && w != donor && m[donor] >= m[w] + 2
    ensures Sum(Squares(m[donor := m[donor] - 1][w := m[w] + 1])) <= Sum(Squares(m)) - 2
  {
    hide Sum, Squares;
    SquaresUpdate(m, donor, m[donor] - 1);
    SquaresUpdate(m[donor := m[donor] - 1], w, m[w] + 1);
    SquareGap(m[donor], m[w]);
  }

  lemma LoweredSquares(r: Roster, q: Roster, w: WorkerInfo, donor: WorkerInfo)
    requires Lowered(r, q, w, donor)
    requires r[donor].active + |r[donor].Loans()| >= r[w].active + |r[w].Loans()| + 2
    ensures Sum(Squares(Loads(q))) <= Sum(Squares(Loads(r))) - 2
  {
    hide Sum, Squares;
    LoweredLoads(r, q, w, donor);
    TwoSquares(Loads(r), w, donor);
  }

  lemma StealLowers(cfg: Config, s: State, a: Action, loc: Places)
    requires Sound(s, loc) && a.Steal? && Enabled(cfg, s, a)
    ensures Unevenness(Do(cfg, s, a)) <= Unevenness(s) - 2
  {
    hide Sound, AfterSteal, Squares, Loads, Sum;
    StealEffect(s, a.w, a.donor, a.shard, a.at, loc);
    LoweredSquares(RosterOf(s), RosterOf(Do(cfg, s, a)), a.w, a.donor);
  }

  lemma AcquireLoads(r: Roster, w: WorkerInfo, loan: Loan, id: int)
    requires w in r && r[w].offer.Some? && loan in r[w].Loans()
    ensures Loads(Gave(Returned(r, w, loan), w, loan.shard, id)) == Loads(r)
  {
    var q := Gave(Returned(r, w, loan), w, loan.shard, id);
    AcquireOne(r, w, loan, id);
    hide Gave, Returned;
    forall u | u in r ensures u in q && Loads(q)[u] == Loads(r)[u] {
    }
  }

  lemma AcquireOne(r: Roster, w: WorkerInfo, loan: Loan, id: int)
    requires w in r && r[w].offer.Some? && loan in r[w].Loans()
    ensures var q := Gave(Returned(r, w, loan), w, loan.shard, id);
      && q.Keys == r.Keys && q[w].Loans() == r[w].Loans() - {loan} && q[w].active == r[w].active + 1
      && forall u :: u in r && u != w ==> q[u].Loans() == r[u].Loans() && q[u].active == r[u].active
  {
    ForgetKeeps(r, {loan});
    hide Forget;
  }

  lemma UpdateLoads(r: Roster, w: WorkerInfo, me: Worker)
    requires w in r && me.active == r[w].active && me.Loans() == r[w].Loans()
    ensures Loads(r[w := me]) == Loads(r)
  {
  }

  lemma SteadyRoster(cfg: Config, s: State, a: Action)
    requires Named(s) && Beating(s) && Enabled(cfg, s, a) && Steady(s, a)
    requires !a.Acquire? && !a.Steal?
    ensures Loads(RosterOf(Do(cfg, s, a))) == Loads(RosterOf(s))
  {
    var t := Do(cfg, s, a);
    if a.Register? {
      ReturnRoster(s, a.name, a.w, a.at);
      hide Named, Beating;
      UpdateLoads(RosterOf(s), s.workers[a.name], t.info[s.workers[a.name]]);
    } else if a.DropOffer? {
      RosterUpdate(s, t, a.w, t.info[a.w]);
      hide Named, Beating;
      UpdateLoads(RosterOf(s), a.w, t.info[a.w]);
    } else {
      if a.Settle? && a.kids != [] { VisitAllInfo(Detach(s.(closed := s.closed[1..]), s.closed[0]), a.index, a.kids); }
      SameInfo(s, t);
    }
  }

  lemma SteadyLoads(cfg: Config, s: State, a: Action, loc: Places)
    requires Sound(s, loc) && Enabled(cfg, s, a) && Steady(s, a)
    ensures Unevenness(Do(cfg, s, a)) <= Unevenness(s) - if a.Steal? then 2 else 0
    ensures !a.Steal? ==> Unevenness(Do(cfg, s, a)) == Unevenness(s)
  {
    if a.Steal? {
      StealLowers(cfg, s, a, loc);
    } else if a.Acquire? {
      AcquireRoster(s, a.w, a.loan);
      AcquireLoads(RosterOf(s), a.w, a.loan, s.NextId());
    } else {
      SteadyRoster(cfg, s, a);
    }
  }

  /** No ping-pong: over any steady stretch every steal lowers the unevenness by at least two and nothing
      raises it, so the stretch has at most half as many steals as the unevenness it starts with. */
  lemma {:induction false} StealsBounded(cfg: Config, s: State, loc: Places, acts: seq<Action>)
    requires Sound(s, loc)
    requires CanRun(cfg, s, acts) && Along(cfg, s, acts, Orderly) && Along(cfg, s, acts, Steady)
    ensures Unevenness(Run(cfg, s, acts)) + 2 * StealCount(acts) <= Unevenness(s)
    ensures 2 * StealCount(acts) <= Unevenness(s)
    decreases |acts|
  {
    hide Sound, Unevenness, Enabled, Steady;
    UnevennessNonNegative(Run(cfg, s, acts));
    if acts != [] {
      var front := acts[..|acts| - 1];
      StealsBounded(cfg, s, loc, front);
      var m := RunSound(cfg, s, loc, front);
      SteadyLoads(cfg, Run(cfg, s, front), acts[|acts| - 1], m);
    }
  }

  lemma UnevennessNonNegative(s: State)
    ensures Unevenness(s) >= 0
  {
    SumNonNegative(Squares(Loads(RosterOf(s))));
  }
}
