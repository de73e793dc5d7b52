/** Without G2 the stealing loop may not end: a run of a fresh manager to a state in which a worker wants shards and the
    busiest one is counted above the ideal, but has no assignment left to take one from. */
module StuckStealing {
  import opened Finite
  import opened Lineage
  import opened WorkerRecord
  import opened ManagerModel
  import opened ManagerRuns
  import opened AssignCalls

  /** Five roots without children. */
  function Roots(): Index {
    Index(map["x" := Root("x"), "p" := Root("p"), "q" := Root("q"), "r" := Root("r"), "s" := Root("s")],
          map["x" := {}, "p" := {}, "q" := {}, "r" := {}, "s" := {}])
  }

  function Root(sh: ShardId): Shard {
    Shard(sh, None, None)
  }

  function Marks(): map<ShardId, Mark> {
    map["x" := Latest, "p" := Latest, "q" := Latest, "r" := Latest, "s" := Latest]
  }

  function Coming(): Action {
    Takeover(Roots(), map[], ["x", "p", "q", "r", "s"], [], 1)
  }

  function TakenOver(): State {
    State(true, 1, 0, Marks(), ["x", "p", "q", "r", "s"], {"x", "p", "q", "r", "s"}, map[], map[], map[], map[], [], [])
  }

  lemma TakeoverWorks(cfg: Config)
    ensures Enabled(cfg, Fresh(), Coming()) && Do(cfg, Fresh(), Coming()) == TakenOver()
  {
    RootFacts();
    hide Roots, Marks, StoredMark;
    assert Elements(["x", "p", "q", "r", "s"]) == {"x", "p", "q", "r", "s"} && Elements<ShardId>([]) == {};
    assert (set sh | sh in ["x", "p", "q", "r", "s"]) == {"x", "p", "q", "r", "s"};
  }

  lemma RootFacts()
    ensures var index := Roots();
      && (set sh | sh in index.shards && index.IsRoot(sh) && StoredMark(map[], sh) != Closed)
           == {"x", "p", "q", "r", "s"}
      && (set sh | sh in index.shards && index.IsRoot(sh) && StoredMark(map[], sh) == Closed) == {}
      && (map sh | sh in index.shards :: StoredMark(map[], sh)) == Marks()
  {
  }

  // ---------- Runs ----------

  ghost predicate Comes(cfg: Config, acts: seq<Action>, s: State) {
    CanRun(cfg, Fresh(), acts) && Run(cfg, Fresh(), acts) == s
  }

  lemma GoOn(cfg: Config, acts: seq<Action>, s: State, a: Action, t: State) returns (all: seq<Action>)
    requires Comes(cfg, acts, s) && Enabled(cfg, s, a) && Do(cfg, s, a) == t
    ensures Comes(cfg, all, t)
  {
    hide Enabled, Do;
    RunStep(cfg, Fresh(), acts, a);
    all := acts + [a];
  }

  /** The names of the workers' objects. */
  datatype Cast = Cast(a: WorkerInfo, b: WorkerInfo, c: WorkerInfo)

  ghost predicate AllDiffer(k: Cast) {
    k.a != k.b && k.b != k.c && k.a != k.c
  }

  // ---------- a takes everything, closes x, and times out ----------

  function Own(id: int): Assignment {
    Assignment(id, false)
  }

  function JustA(a: WorkerInfo): State {
    TakenOver().(workers := map["a" := a], info := map[a := Worker("a", 0, map[], None, 0)],
                 heartbeats := map["a" := 0],
                 counts := map[a := 0])
  }

  function Two(a: WorkerInfo): State {
    JustA(a).(nextOffset := 2, pool := ["q", "r", "s"], counts := map[a := 2],
              info := map[a := Worker("a", 0, map["x" := Own(1), "p" := Own(2)], None, 2)])
  }

  function Four(a: WorkerInfo): State {
    JustA(a).(nextOffset := 4, pool := ["s"], counts := map[a := 4],
              info := map[a := Worker("a", 0, map["x" := Own(1), "p" := Own(2), "q" := Own(3), "r" := Own(4)],
                                      None, 4)])
  }

  function Five(a: WorkerInfo): State {
    JustA(a).(nextOffset := 5, pool := [], counts := map[a := 5],
              info := map[a := Worker("a", 0,
                                      map["x" := Own(1), "p" := Own(2), "q" := Own(3), "r" := Own(4), "s" := Own(5)],
                                      None, 5)])
  }

  /** Some takes of a, one after the other. */
  lemma TakeTwice(cfg: Config, acts: seq<Action>, s: State, w: WorkerInfo, t: State) returns (all: seq<Action>)
    requires Comes(cfg, acts, s) && s.inService && s.Registered(w) && |s.pool| >= 2
    requires t == Give(Give(s.(pool := s.pool[1..]), w, s.pool[0]).(pool := s.pool[2..]), w, s.pool[1])
    ensures Comes(cfg, all, t)
  {
    hide Comes;
    var u := Give(s.(pool := s.pool[1..]), w, s.pool[0]);
    all := GoOn(cfg, acts, s, Take(w), u);
    assert u.pool[0] == s.pool[1] && u.pool[1..] == s.pool[2..];
    all := GoOn(cfg, all, u, Take(w), t);
  }

  lemma TwoWorks(a: WorkerInfo)
    ensures var s := JustA(a); Give(Give(s.(pool := s.pool[1..]), a, "x").(pool := s.pool[2..]), a, "p") == Two(a)
  {
    var s := JustA(a);
    var t := Give(Give(s.(pool := s.pool[1..]), a, "x").(pool := s.pool[2..]), a, "p");
    assert t.info == Two(a).info && t.counts == Two(a).counts && t.pool == Two(a).pool;
  }

  lemma FourWorks(a: WorkerInfo)
    ensures var s := Two(a); Give(Give(s.(pool := s.pool[1..]), a, "q").(pool := s.pool[2..]), a, "r") == Four(a)
  {
    var s := Two(a);
    var t := Give(Give(s.(pool := s.pool[1..]), a, "q").(pool := s.pool[2..]), a, "r");
    assert t.info == Four(a).info && t.counts == Four(a).counts && t.pool == Four(a).pool;
  }

  lemma FiveWorks(cfg: Config, a: WorkerInfo)
    ensures Enabled(cfg, Four(a), Take(a)) && Do(cfg, Four(a), Take(a)) == Five(a)
  {
    var t := AfterTake(Four(a), a);
    assert t.info == Five(a).info && t.counts == Five(a).counts;
  }

  lemma AloneWorks(cfg: Config, a: WorkerInfo)
    ensures Enabled(cfg, TakenOver(), Register("a", a, 0))
    ensures var s := Do(cfg, TakenOver(), Register("a", a, 0));
      Enabled(cfg, s, Enlist(a))
      && Do(cfg, s, Enlist(a)) == JustA(a)
  {
    hide Marks;
  }

  lemma ReachFive(cfg: Config, a: WorkerInfo) returns (acts: seq<Action>)
    ensures Comes(cfg, acts, Five(a))
  {
    RunNone(cfg, Fresh());
    assert Comes(cfg, [], Fresh());
    TakeoverWorks(cfg);
    AloneWorks(cfg, a);
    FourRoom(a);
    TwoWorks(a);
    FourWorks(a);
    FiveWorks(cfg, a);
    hide Comes, Enabled, Do, TakenOver, JustA, Two, Four, Five, Coming, Give, State.Registered;
    acts := GoOn(cfg, [], Fresh(), Coming(), TakenOver());
    acts := GoOn(cfg, acts, TakenOver(), Register("a", a, 0), Do(cfg, TakenOver(), Register("a", a, 0)));
    acts := GoOn(cfg, acts, Do(cfg, TakenOver(), Register("a", a, 0)), Enlist(a), JustA(a));
    acts := TakeTwice(cfg, acts, JustA(a), a, Two(a));
    acts := TakeTwice(cfg, acts, Two(a), a, Four(a));
    acts := GoOn(cfg, acts, Four(a), Take(a), Five(a));
  }

  lemma FourRoom(a: WorkerInfo)
    ensures JustA(a).inService && JustA(a).Registered(a) && Two(a).inService && Two(a).Registered(a)
    ensures |JustA(a).pool| == 5 && JustA(a).pool[0] == "x" && JustA(a).pool[1] == "p"
    ensures |Two(a).pool| == 3 && Two(a).pool[0] == "q" && Two(a).pool[1] == "r"
    ensures a in JustA(a).info && a in Two(a).info
  {
  }

  // ---------- It times out before its close is settled: G2 ----------

  function XClosed(a: WorkerInfo): State {
    Five(a).(checkpoints := Marks()["x" := Closed], closed := [Note("x", Some(a))])
  }

  /** a is gone; its shards, x among them, are in the pool. */
  function Gone(a: WorkerInfo): State {
    XClosed(a).(pool := ["p", "q", "x", "r", "s"], workers := map[], heartbeats := map[], counts := map[])
  }

  /** What the close leaves of a: an object nobody has registered, queued by its count. */
  function Ghost(): Worker {
    Worker("a", 0, map["p" := Own(2), "q" := Own(3), "r" := Own(4), "s" := Own(5)], None, 4)
  }

  function Haunted(a: WorkerInfo): State {
    Gone(a).(live := {"p", "q", "r", "s"}, info := map[a := Ghost()], counts := map[a := 4],
             closed := [Note("x", None)])
  }

  lemma NotedWorks(cfg: Config, a: WorkerInfo)
    ensures var e := Checkpoint(a, "x", 1, Closed); Enabled(cfg, Five(a), e) && Do(cfg, Five(a), e) == XClosed(a)
  {
    hide Marks;
  }

  lemma GoneReady(a: WorkerInfo)
    ensures var s := XClosed(a);
      && a in s.info && s.info[a].id == "a" && s.info[a].heartbeat == 0 && s.info[a].Loans() == {}
      && s.inService && s.Registered(a) && Oldest(s, "a")
      && Lists(["p", "q", "x", "r", "s"], s.info[a].Open() + ShardsOf({}))
  {
    hide Marks;
    assert XClosed(a).info[a].Open() == {"x", "p", "q", "r", "s"} && ShardsOf({}) == {};
    assert Elements(["p", "q", "x", "r", "s"]) == {"x", "p", "q", "r", "s"};
  }

  lemma GoneIs(a: WorkerInfo)
    ensures var s := XClosed(a); a in s.info && AfterExpire(s, a, ["p", "q", "x", "r", "s"]) == Gone(a)
  {
    hide Marks;
    ForgetNothing(XClosed(a).info);
    hide Forget;
  }

  lemma GoneWorks(cfg: Config, a: WorkerInfo)
    ensures var e := Expire(a, ["p", "q", "x", "r", "s"], cfg.inactivityTimeout);
      Enabled(cfg, XClosed(a), e) && Do(cfg, XClosed(a), e) == Gone(a)
  {
    GoneReady(a);
    GoneIs(a);
    hide XClosed, Gone, Oldest, Lists, ShardsOf, AfterExpire, State.Registered, Worker.Open, Worker.Loans;
  }

  lemma ForgetNothing(info: map<WorkerInfo, Worker>)
    ensures Forget(info, {}) == info
  {
    forall u | u in info ensures Forget(info, {})[u] == info[u] {
      assert info[u].assignments - {} == info[u].assignments;
      assert (set l: Loan | l in {} && l.donor == u :: l.shard) == {};
    }
  }

  /** One turn of the worklist, for a childless shard. */
  lemma SettleWorks(cfg: Config, s: State, w: WorkerInfo, sh: ShardId)
    requires s.inService && |s.closed| > 0 && s.closed[0] == Note(sh, Some(w)) && w in s.info && sh in Roots().shards
    ensures var me := s.info[w];
      && Enabled(cfg, s, Settle(Roots(), []))
      && Do(cfg, s, Settle(Roots(), []))
         == s.(info := s.info[w := me.(assignments := me.assignments - {sh}, active := me.active - 1)],
               live := s.live - {sh}, counts := s.counts[w := me.active - 1], closed := s.closed[1..],
               deferred := s.deferred + [Note(sh, None)])
  {
    assert Elements<ShardId>([]) == {};
  }

  lemma HauntedWorks(cfg: Config, a: WorkerInfo)
    ensures var s := Gone(a);
      && Enabled(cfg, s, Settle(Roots(), []))
      && var t := Do(cfg, s, Settle(Roots(), [])); Enabled(cfg, t, EndSettle) && Do(cfg, t, EndSettle) == Haunted(a)
  {
    SettleWorks(cfg, Gone(a), a, "x");
    hide Roots, Marks;
    var t := Do(cfg, Gone(a), Settle(Roots(), []));
    assert Gone(a).info[a].assignments - {"x"} == Ghost().assignments;
    assert t.info == Haunted(a).info && t.live == Haunted(a).live && t.counts == Haunted(a).counts;
  }

  lemma ReachHaunted(cfg: Config, a: WorkerInfo) returns (acts: seq<Action>)
    ensures Comes(cfg, acts, Haunted(a))
  {
    NotedWorks(cfg, a);
    GoneWorks(cfg, a);
    HauntedWorks(cfg, a);
    hide Comes, Enabled, Do, Five, XClosed, Gone, Haunted, Roots;
    acts := ReachFive(cfg, a);
    acts := GoOn(cfg, acts, Five(a), Checkpoint(a, "x", 1, Closed), XClosed(a));
    acts := GoOn(cfg, acts, XClosed(a), Expire(a, ["p", "q", "x", "r", "s"], cfg.inactivityTimeout), Gone(a));
    acts := GoOn(cfg, acts, Gone(a), Settle(Roots(), []), Do(cfg, Gone(a), Settle(Roots(), [])));
    acts := GoOn(cfg, acts, Do(cfg, Gone(a), Settle(Roots(), [])), EndSettle, Haunted(a));
  }

  // ---------- b and c join, and c steals from what is left of a ----------

  function JoinedB(k: Cast, at: int): State {
    Haunted(k.a).(workers := map["b" := k.b], info := map[k.a := Ghost(), k.b := Worker("b", at, map[], None, 0)],
                  heartbeats := map["b" := at], counts := map[k.a := 4, k.b := 0])
  }

  /** With b and c registered, and a gone: what is left of a, what c is like, the pool, how many ids there have been. */
  function Stage(k: Cast, at: int, ghostly: Worker, thief: Worker, pool: seq<ShardId>, next: int): State {
    State(true, 1, next, Marks()["x" := Closed], pool, {"p", "q", "r", "s"}, map["b" := k.b, "c" := k.c],
          map[k.a := ghostly, k.b := Idle("b", at), k.c := thief], map["b" := at, "c" := thief.heartbeat],
          map[k.a := ghostly.active, k.b := 0, k.c := thief.active], [Note("x", None)], [])
  }

  function Idle(name: WorkerId, at: int): Worker {
    Worker(name, at, map[], None, 0)
  }

  const FIVE: seq<ShardId> := ["p", "q", "x", "r", "s"]
  const THREE: seq<ShardId> := ["x", "r", "s"]

  function Arrived(k: Cast, at: int): State {
    Stage(k, at, Ghost(), Idle("c", at), FIVE, 5)
  }

  lemma JoinedBWorks(cfg: Config, k: Cast, at: int)
    requires AllDiffer(k)
    ensures var s := Haunted(k.a);
      && Enabled(cfg, s, Register("b", k.b, at))
      && var t := Do(cfg, s, Register("b", k.b, at));
        Enabled(cfg, t, Enlist(k.b))
        && Do(cfg, t, Enlist(k.b)) == JoinedB(k, at)
  {
    hide Marks;
    var t := Do(cfg, Haunted(k.a), Register("b", k.b, at));
    assert AfterEnlist(t, k.b).info == JoinedB(k, at).info && AfterEnlist(t, k.b).counts == JoinedB(k, at).counts;
  }

  /** c is registered, and not yet queued by its count. */
  function Registering(k: Cast, at: int): State {
    Arrived(k, at).(counts := map[k.a := 4, k.b := 0])
  }

  lemma RegisteringWorks(cfg: Config, k: Cast, at: int)
    requires AllDiffer(k)
    ensures var s := JoinedB(k, at);
      Enabled(cfg, s, Register("c", k.c, at)) && Do(cfg, s, Register("c", k.c, at)) == Registering(k, at)
  {
    hide Marks;
    var s := JoinedB(k, at);
    assert s.info[k.c := Idle("c", at)] == Arrived(k, at).info;
    assert s.workers["c" := k.c] == Arrived(k, at).workers && s.heartbeats["c" := at] == Arrived(k, at).heartbeats;
  }

  lemma JoinedCWorks(cfg: Config, k: Cast, at: int)
    requires AllDiffer(k)
    ensures Enabled(cfg, Registering(k, at), Enlist(k.c)) && Do(cfg, Registering(k, at), Enlist(k.c)) == Arrived(k, at)
  {
    hide Marks;
    assert Registering(k, at).counts[k.c := 0] == Arrived(k, at).counts;
  }

  /** a's shards p and q, asked for or not. */
  function GhostLess(p: bool, q: bool): Worker {
    Worker("a", 0, map["p" := Assignment(2, p), "q" := Assignment(3, q), "r" := Own(4), "s" := Own(5)], None,
           4 - (if p then 1 else 0) - if q then 1 else 0)
  }

  function Thief(k: Cast, at: int, loans: set<Loan>): Worker {
    Worker("c", at, map[], Some(Offer(loans, at)), 0)
  }

  lemma IdealTwo(k: Cast, at: int, ghostly: Worker, thief: Worker, pool: seq<ShardId>, next: int)
    ensures Stage(k, at, ghostly, thief, pool, next).Ideal() == 2
  {
    hide Marks;
    assert |{"p", "q", "r", "s"}| == 4 && |map["b" := k.b, "c" := k.c]| == 2;
  }

  /** One steal, from a to c. */
  lemma StealWorks(k: Cast, at: int, ghostly: Worker, thief: Worker, sh: ShardId)
    requires AllDiffer(k) && sh in ghostly.assignments
    ensures var s := Stage(k, at, ghostly, thief, FIVE, 5);
      k.a in s.info && k.c in s.info && s.info[k.a] == ghostly
      && AfterSteal(s, k.c, k.a, sh, at)
         == Stage(k, at, ghostly.(assignments := ghostly.assignments[sh := ghostly.assignments[sh].(requested := true)],
                                  active := ghostly.active - 1),
                  thief.(offer := Some(Offer(thief.Loans() + {Loan(k.a, sh)}, at))), FIVE, 5)
  {
    hide Marks;
    var s := Stage(k, at, ghostly, thief, FIVE, 5);
    var asked := ghostly.(assignments := ghostly.assignments[sh := ghostly.assignments[sh].(requested := true)],
                          active := ghostly.active - 1);
    var offered := thief.(offer := Some(Offer(thief.Loans() + {Loan(k.a, sh)}, at)));
    BothChange(k, ghostly, Idle("b", at), thief, asked, offered);
    OneChanges(k, ghostly.active, thief.active, asked.active);
    assert AfterSteal(s, k.c, k.a, sh, at)
        == s.(info := s.info[k.a := asked][k.c := offered], counts := s.counts[k.a := asked.active]);
  }

  lemma BothChange(k: Cast, a: Worker, b: Worker, c: Worker, newA: Worker, newC: Worker)
    requires AllDiffer(k)
    ensures map[k.a := a, k.b := b, k.c := c][k.a := newA][k.c := newC] == map[k.a := newA, k.b := b, k.c := newC]
  {
  }

  lemma OneChanges(k: Cast, a: int, c: int, newA: int)
    requires AllDiffer(k)
    ensures map[k.a := a, k.b := 0, k.c := c][k.a := newA] == map[k.a := newA, k.b := 0, k.c := c]
  {
  }

  lemma StealReady(cfg: Config, k: Cast, at: int, ghostly: Worker, thief: Worker, sh: ShardId)
    requires AllDiffer(k) && sh in ghostly.Open() && ghostly.id == "a" && thief.id == "c" && ghostly.active > 2
    requires thief.active == 0 && |thief.Loans()| < 2 && thief.heartbeat == at
    requires thief.offer.Some? ==> thief.offer.value.createdAt == at
    ensures Enabled(cfg, Stage(k, at, ghostly, thief, FIVE, 5), Steal(k.c, k.a, sh, at))
  {
    hide Marks;
    IdealTwo(k, at, ghostly, thief, FIVE, 5);
    var s := Stage(k, at, ghostly, thief, FIVE, 5);
    assert s.inService && s.Drained() && s.Registered(k.c) && Busiest(s, k.a);
    hide State.Ideal, State.Drained, State.Registered, Busiest;
  }

  lemma StealsP(cfg: Config, k: Cast, at: int)
    requires AllDiffer(k)
    ensures var e := Steal(k.c, k.a, "p", at);
      && Enabled(cfg, Arrived(k, at), e)
      && Do(cfg, Arrived(k, at), e) == Stage(k, at, GhostLess(true, false), Thief(k, at, {Loan(k.a, "p")}), FIVE, 5)
  {
    StealReady(cfg, k, at, Ghost(), Idle("c", at), "p");
    StealWorks(k, at, Ghost(), Idle("c", at), "p");
    hide Stage, Enabled, AfterSteal;
    assert Ghost().assignments["p" := Own(2).(requested := true)] == GhostLess(true, false).assignments;
  }

  lemma StealsQ(cfg: Config, k: Cast, at: int)
    requires AllDiffer(k)
    ensures var s := Stage(k, at, GhostLess(true, false), Thief(k, at, {Loan(k.a, "p")}), FIVE, 5);
      Enabled(cfg, s, Steal(k.c, k.a, "q", at)) && Do(cfg, s, Steal(k.c, k.a, "q", at)) == BothStolen(k, at)
  {
    var thief := Thief(k, at, {Loan(k.a, "p")});
    StealReady(cfg, k, at, GhostLess(true, false), thief, "q");
    StealWorks(k, at, GhostLess(true, false), thief, "q");
    hide Stage, Enabled, AfterSteal;
    assert {Loan(k.a, "p")} + {Loan(k.a, "q")} == BothLoans(k);
    assert GhostLess(true, false).assignments["q" := Own(3).(requested := true)] == GhostLess(true, true).assignments;
  }

  function BothLoans(k: Cast): set<Loan> {
    {Loan(k.a, "p"), Loan(k.a, "q")}
  }

  function BothStolen(k: Cast, at: int): State {
    Stage(k, at, GhostLess(true, true), Thief(k, at, BothLoans(k)), FIVE, 5)
  }

  lemma ReachRobbed(cfg: Config, k: Cast, at: int) returns (acts: seq<Action>)
    requires AllDiffer(k)
    ensures Comes(cfg, acts, BothStolen(k, at))
  {
    JoinedBWorks(cfg, k, at);
    RegisteringWorks(cfg, k, at);
    JoinedCWorks(cfg, k, at);
    StealsP(cfg, k, at);
    StealsQ(cfg, k, at);
    hide Comes, Enabled, Do, Haunted, JoinedB, Registering, Arrived, Stage, BothStolen;
    acts := ReachHaunted(cfg, k.a);
    var joining := Do(cfg, Haunted(k.a), Register("b", k.b, at));
    acts := GoOn(cfg, acts, Haunted(k.a), Register("b", k.b, at), joining);
    acts := GoOn(cfg, acts, joining, Enlist(k.b), JoinedB(k, at));
    acts := GoOn(cfg, acts, JoinedB(k, at), Register("c", k.c, at), Registering(k, at));
    acts := GoOn(cfg, acts, Registering(k, at), Enlist(k.c), Arrived(k, at));
    var one := Stage(k, at, GhostLess(true, false), Thief(k, at, {Loan(k.a, "p")}), FIVE, 5);
    acts := GoOn(cfg, acts, Arrived(k, at), Steal(k.c, k.a, "p", at), one);
    acts := GoOn(cfg, acts, one, Steal(k.c, k.a, "q", at), BothStolen(k, at));
  }

  // ---------- c takes the same shards from the pool, and claims its offer when it is due ----------

  /** c has taken both. */
  function Doubled(k: Cast, at: int, heard: int): Worker {
    Worker("c", heard, map["p" := Own(6), "q" := Own(7)], Some(Offer(BothLoans(k), at)), 2)
  }

  function Took(k: Cast, at: int): State {
    Stage(k, at, GhostLess(true, true), Doubled(k, at, at), THREE, 7)
  }

  lemma TookWorks(k: Cast, at: int)
    requires AllDiffer(k)
    ensures var s := BothStolen(k, at);
      && s.inService && s.Registered(k.c) && k.c in s.info && |s.pool| > 2
      && Give(Give(s.(pool := s.pool[1..]), k.c, s.pool[0]).(pool := s.pool[2..]), k.c, s.pool[1]) == Took(k, at)
  {
    hide Marks;
    var s := BothStolen(k, at);
    var t := Give(Give(s.(pool := s.pool[1..]), k.c, "p").(pool := s.pool[2..]), k.c, "q");
    assert t.info == Took(k, at).info && t.counts == Took(k, at).counts && t.pool == Took(k, at).pool;
  }

  lemma HeardWorks(cfg: Config, k: Cast, at: int, now: int)
    requires AllDiffer(k)
    ensures var s := Took(k, at);
      && Enabled(cfg, s, Register("c", k.c, now))
      && Do(cfg, s, Register("c", k.c, now)) == Stage(k, at, GhostLess(true, true), Doubled(k, at, now), THREE, 7)
  {
    hide Marks;
    var t := Do(cfg, Took(k, at), Register("c", k.c, now));
    var u := Stage(k, at, GhostLess(true, true), Doubled(k, at, now), THREE, 7);
    assert t.info == u.info && t.heartbeats == u.heartbeats;
  }

  lemma ForgetLoan(k: Cast, at: int, ghostly: Worker, thief: Worker, sh: ShardId)
    requires AllDiffer(k)
    ensures Forget(map[k.a := ghostly, k.b := Idle("b", at), k.c := thief], {Loan(k.a, sh)})
         == map[k.a := ghostly.(assignments := ghostly.assignments - {sh}), k.b := Idle("b", at), k.c := thief]
  {
    var info := map[k.a := ghostly, k.b := Idle("b", at), k.c := thief];
    forall u | u in info
      ensures Forget(info, {Loan(k.a, sh)})[u]
           == info[u].(assignments := info[u].assignments - if u == k.a then {sh} else {}) {
      assert (set l | l in {Loan(k.a, sh)} && l.donor == u :: l.shard) == if u == k.a then {sh} else {};
    }
    assert thief.assignments - {} == thief.assignments;
  }

  /** One loan is acquired. */
  lemma AcquireWorks(k: Cast, at: int, ghostly: Worker, thief: Worker, next: int, sh: ShardId)
    requires AllDiffer(k) && thief.offer.Some?
    ensures var s := Stage(k, at, ghostly, thief, THREE, next);
      k.c in s.info && s.info[k.c].offer.Some?
      && AfterAcquire(s, k.c, Loan(k.a, sh))
         == Stage(k, at, ghostly.(assignments := ghostly.assignments - {sh}),
                  thief.(assignments := thief.assignments[sh := Own(1 + next)],
                         offer := Some(thief.offer.value.(loans := thief.offer.value.loans - {Loan(k.a, sh)})),
                         active := thief.active + 1), THREE, next + 1)
  {
    UnlentWorks(k, at, ghostly, thief, next, sh);
    hide Marks, Unlent;
    GiveWorks(k, at, ghostly.(assignments := ghostly.assignments - {sh}),
              thief.(offer := Some(thief.offer.value.(loans := thief.offer.value.loans - {Loan(k.a, sh)}))), next, sh);
    hide Stage, Give;
  }

  lemma GiveWorks(k: Cast, at: int, ghostly: Worker, thief: Worker, next: int, sh: ShardId)
    requires AllDiffer(k)
    ensures var s := Stage(k, at, ghostly, thief, THREE, next);
      k.c in s.info
      && Give(s, k.c, sh)
         == Stage(k, at, ghostly,
                  thief.(assignments := thief.assignments[sh := Own(1 + next)], active := thief.active + 1), THREE,
                  next + 1)
  {
    hide Marks;
    var t := Give(Stage(k, at, ghostly, thief, THREE, next), k.c, sh);
    assert t.info.Keys == {k.a, k.b, k.c} && t.counts.Keys == {k.a, k.b, k.c};
  }

  lemma UnlentWorks(k: Cast, at: int, ghostly: Worker, thief: Worker, next: int, sh: ShardId)
    requires AllDiffer(k) && thief.offer.Some?
    ensures var s := Stage(k, at, ghostly, thief, THREE, next);
      k.c in s.info && s.info[k.c].offer.Some?
      && Unlent(s, k.c, Loan(k.a, sh))
         == Stage(k, at, ghostly.(assignments := ghostly.assignments - {sh}),
                  thief.(offer := Some(thief.offer.value.(loans := thief.offer.value.loans - {Loan(k.a, sh)}))), THREE,
                    next)
  {
    ForgetLoan(k, at, ghostly, thief, sh);
    hide Marks, Forget;
    var t := Unlent(Stage(k, at, ghostly, thief, THREE, next), k.c, Loan(k.a, sh));
    assert t.info.Keys == {k.a, k.b, k.c};
  }

  lemma AcquireReady(cfg: Config, k: Cast, at: int, ghostly: Worker, thief: Worker, next: int, sh: ShardId, now: int)
    requires AllDiffer(k) && thief.id == "c" && thief.offer.Some? && Loan(k.a, sh) in thief.offer.value.loans
    requires now - thief.offer.value.createdAt >= cfg.releaseTimeout
    ensures var s := Stage(k, at, ghostly, thief, THREE, next);
      var e := Acquire(k.c, Loan(k.a, sh), now);
      Enabled(cfg, s, e) && Do(cfg, s, e) == AfterAcquire(s, k.c, Loan(k.a, sh))
  {
    hide Marks, AfterAcquire;
  }

  /** a's object, with p gone, and with both gone. */
  function Remnant(q: bool): Worker {
    Worker("a", 0, if q then map["q" := Assignment(3, true), "r" := Own(4), "s" := Own(5)]
           else map["r" := Own(4), "s" := Own(5)],
           None, 2)
  }

  /** Two shards, counted as four. */
  function Overcounted(now: int): Worker {
    Worker("c", now, map["p" := Own(8), "q" := Own(9)], None, 4)
  }

  function Over(k: Cast, at: int, now: int): State {
    Stage(k, at, Remnant(false), Overcounted(now), THREE, 9)
  }

  /** One shard is claimed that c has already, then the other. */
  lemma Claims(cfg: Config, k: Cast, at: int, now: int)
    requires AllDiffer(k) && now - at >= cfg.releaseTimeout
    ensures var s := Stage(k, at, GhostLess(true, true), Doubled(k, at, now), THREE, 7);
      var e := Acquire(k.c, Loan(k.a, "p"), now);
      var f := Acquire(k.c, Loan(k.a, "q"), now);
      && Enabled(cfg, s, e) && Enabled(cfg, Do(cfg, s, e), f)
      && Do(cfg, Do(cfg, s, e), f)
           == Stage(k, at, Remnant(false), Overcounted(now).(offer := Some(Offer({}, at))), THREE, 9)
  {
    var first := Doubled(k, at, now);
    var second := Worker("c", now, map["p" := Own(8), "q" := Own(7)], Some(Offer({Loan(k.a, "q")}, at)), 3);
    assert GhostLess(true, true).assignments - {"p"} == Remnant(true).assignments;
    assert Remnant(true).assignments - {"q"} == Remnant(false).assignments;
    assert BothLoans(k) - {Loan(k.a, "p")} == {Loan(k.a, "q")} && {Loan(k.a, "q")} - {Loan(k.a, "q")} == {};
    assert first.assignments["p" := Own(8)] == second.assignments;
    assert second.assignments["q" := Own(9)] == Overcounted(now).assignments;
    hide Stage, Enabled, Do, AfterAcquire;
    AcquireWorks(k, at, GhostLess(true, true), first, 7, "p");
    AcquireReady(cfg, k, at, GhostLess(true, true), first, 7, "p", now);
    AcquireWorks(k, at, Remnant(true), second, 8, "q");
    AcquireReady(cfg, k, at, Remnant(true), second, 8, "q", now);
  }

  lemma DropWorks(cfg: Config, k: Cast, at: int, ghostly: Worker, thief: Worker)
    requires AllDiffer(k) && thief.id == "c" && thief.Loans() == {}
    ensures var s := Stage(k, at, ghostly, thief, THREE, 9);
      && Enabled(cfg, s, DropOffer(k.c))
      && Do(cfg, s, DropOffer(k.c)) == Stage(k, at, ghostly, thief.(offer := None), THREE, 9)
  {
    hide Marks;
    var t := AfterDropOffer(Stage(k, at, ghostly, thief, THREE, 9), k.c);
    assert t.info.Keys == {k.a, k.b, k.c};
  }

  lemma ReachOver(cfg: Config, k: Cast, at: int) returns (acts: seq<Action>)
    requires AllDiffer(k)
    ensures Comes(cfg, acts, Over(k, at, at + cfg.releaseTimeout))
  {
    hide Comes, BothStolen, Took, Over;
    acts := ReachRobbed(cfg, k, at);
    acts := TakeBoth(cfg, acts, k, at);
    acts := Claim(cfg, acts, k, at, at + cfg.releaseTimeout);
  }

  lemma TakeBoth(cfg: Config, acts: seq<Action>, k: Cast, at: int) returns (all: seq<Action>)
    requires AllDiffer(k) && Comes(cfg, acts, BothStolen(k, at))
    ensures Comes(cfg, all, Took(k, at))
  {
    hide Comes, BothStolen, Took, Give, State.Registered;
    TookWorks(k, at);
    all := TakeTwice(cfg, acts, BothStolen(k, at), k.c, Took(k, at));
  }

  lemma Claim(cfg: Config, acts: seq<Action>, k: Cast, at: int, now: int) returns (all: seq<Action>)
    requires AllDiffer(k) && now - at >= cfg.releaseTimeout && Comes(cfg, acts, Took(k, at))
    ensures Comes(cfg, all, Over(k, at, now))
  {
    var idle := Overcounted(now).(offer := Some(Offer({}, at)));
    HeardWorks(cfg, k, at, now);
    Claims(cfg, k, at, now);
    DropWorks(cfg, k, at, Remnant(false), idle);
    hide Comes, Enabled, Do, Took, Stage;
    var s := Stage(k, at, GhostLess(true, true), Doubled(k, at, now), THREE, 7);
    all := GoOn(cfg, acts, Took(k, at), Register("c", k.c, now), s);
    var t := Do(cfg, s, Acquire(k.c, Loan(k.a, "p"), now));
    all := GoOn(cfg, all, s, Acquire(k.c, Loan(k.a, "p"), now), t);
    all := GoOn(cfg, all, t, Acquire(k.c, Loan(k.a, "q"), now), Stage(k, at, Remnant(false), idle, THREE, 9));
    all := GoOn(cfg, all, Stage(k, at, Remnant(false), idle, THREE, 9), DropOffer(k.c), Over(k, at, now));
  }

  // ---------- c closes both shards ----------

  /** Both closes are recorded. */
  function BothClosed(k: Cast, at: int, now: int): State {
    State(true, 1, 9, Marks()["x" := Closed]["p" := Closed]["q" := Closed], THREE, {"p", "q", "r", "s"},
          map["b" := k.b, "c" := k.c], map[k.a := Remnant(false), k.b := Idle("b", at), k.c := Overcounted(now)],
          map["b" := at, "c" := now], map[k.a := 2, k.b := 0, k.c := 4],
          [Note("x", None), Note("p", Some(k.c)), Note("q", Some(k.c))], [])
  }

  /** b was last heard at heard. */
  function Settled(k: Cast, now: int, heard: int, closed: seq<Note>, deferred: seq<Note>): State {
    State(true, 1, 9, Marks()["x" := Closed]["p" := Closed]["q" := Closed], THREE, {"r", "s"},
          map["b" := k.b, "c" := k.c],
          map[k.a := Remnant(false), k.b := Idle("b", heard), k.c := Worker("c", now, map[], None, 2)],
          map["b" := heard, "c" := now], map[k.a := 2, k.b := 0, k.c := 2], closed, deferred)
  }

  /** They are settled: c has nothing, and is counted as two; r and s are in the pool. */
  function Emptied(k: Cast, at: int, now: int): State {
    Settled(k, now, at, [Note("x", None), Note("p", None), Note("q", None)], [])
  }

  lemma ClosesWork(cfg: Config, k: Cast, at: int, now: int)
    requires AllDiffer(k)
    ensures var s := Over(k, at, now);
      var e := Checkpoint(k.c, "p", 8, Closed);
      var f := Checkpoint(k.c, "q", 9, Closed);
      && Enabled(cfg, s, e) && Enabled(cfg, Do(cfg, s, e), f) && Do(cfg, Do(cfg, s, e), f) == BothClosed(k, at, now)
  {
    hide Marks;
  }

  lemma SettleNone(cfg: Config, s: State, sh: ShardId)
    requires s.inService && |s.closed| > 0 && s.closed[0] == Note(sh, None) && sh in Roots().shards
    ensures Enabled(cfg, s, Settle(Roots(), []))
    ensures Do(cfg, s, Settle(Roots(), [])) == s.(closed := s.closed[1..], deferred := s.deferred + [Note(sh, None)])
  {
    assert Elements<ShardId>([]) == {};
  }

  lemma ReachEmptied(cfg: Config, k: Cast, at: int) returns (acts: seq<Action>)
    requires AllDiffer(k)
    ensures Comes(cfg, acts, Emptied(k, at, at + cfg.releaseTimeout))
  {
    var now := at + cfg.releaseTimeout;
    hide Comes, Over, BothClosed, Emptied;
    acts := ReachOver(cfg, k, at);
    acts := CloseBoth(cfg, acts, k, at, now);
    acts := DrainsRest(cfg, acts, k, at, now);
  }

  lemma CloseBoth(cfg: Config, acts: seq<Action>, k: Cast, at: int, now: int) returns (all: seq<Action>)
    requires AllDiffer(k) && Comes(cfg, acts, Over(k, at, now))
    ensures Comes(cfg, all, BothClosed(k, at, now))
  {
    hide Comes, Enabled, Do, Over, BothClosed;
    ClosesWork(cfg, k, at, now);
    var s := Do(cfg, Over(k, at, now), Checkpoint(k.c, "p", 8, Closed));
    all := GoOn(cfg, acts, Over(k, at, now), Checkpoint(k.c, "p", 8, Closed), s);
    all := GoOn(cfg, all, s, Checkpoint(k.c, "q", 9, Closed), BothClosed(k, at, now));
  }

  /** p's close is settled. */
  function Halfway(k: Cast, at: int, now: int): State {
    State(true, 1, 9, Marks()["x" := Closed]["p" := Closed]["q" := Closed], THREE, {"q", "r", "s"},
          map["b" := k.b, "c" := k.c],
          map[k.a := Remnant(false), k.b := Idle("b", at), k.c := Worker("c", now, map["q" := Own(9)], None, 3)],
          map["b" := at, "c" := now], map[k.a := 2, k.b := 0, k.c := 3],
          [Note("q", Some(k.c))], [Note("x", None), Note("p", None)])
  }

  lemma DrainsFirst(cfg: Config, acts: seq<Action>, k: Cast, at: int, now: int) returns (all: seq<Action>)
    requires AllDiffer(k) && Comes(cfg, acts, BothClosed(k, at, now))
    ensures Comes(cfg, all, Halfway(k, at, now))
  {
    hide Comes, Enabled, Do, Marks, Roots;
    RootNames();
    var s := BothClosed(k, at, now);
    assert s.closed[1..] == [Note("p", Some(k.c)), Note("q", Some(k.c))];
    var t := s.(closed := [Note("p", Some(k.c)), Note("q", Some(k.c))], deferred := [Note("x", None)]);
    SettleNone(cfg, s, "x");
    all := GoOn(cfg, acts, s, Settle(Roots(), []), t);
    SettleWorks(cfg, t, k.c, "p");
    var u := Halfway(k, at, now);
    assert Overcounted(now).assignments - {"p"} == u.info[k.c].assignments;
    assert t.info[k.c := u.info[k.c]] == u.info && t.counts[k.c := 3] == u.counts;
    all := GoOn(cfg, all, t, Settle(Roots(), []), u);
  }

  lemma DrainsRest(cfg: Config, acts: seq<Action>, k: Cast, at: int, now: int) returns (all: seq<Action>)
    requires AllDiffer(k) && Comes(cfg, acts, BothClosed(k, at, now))
    ensures Comes(cfg, all, Emptied(k, at, now))
  {
    hide Comes, Enabled, Do, Marks, Roots;
    all := DrainsFirst(cfg, acts, k, at, now);
    RootNames();
    var u := Halfway(k, at, now);
    SettleWorks(cfg, u, k.c, "q");
    var v := Settled(k, now, at, [], [Note("x", None), Note("p", None), Note("q", None)]);
    assert u.info[k.c].assignments - {"q"} == map[];
    assert u.info[k.c := v.info[k.c]] == v.info && u.counts[k.c := 2] == v.counts;
    all := GoOn(cfg, all, u, Settle(Roots(), []), v);
    EndWorks(cfg, v);
    all := GoOn(cfg, all, v, EndSettle, Emptied(k, at, now));
  }

  lemma RootNames()
    ensures Roots().shards.Keys == {"x", "p", "q", "r", "s"}
  {
  }

  lemma EndWorks(cfg: Config, s: State)
    requires s.inService && s.closed == []
    ensures Enabled(cfg, s, EndSettle) && Do(cfg, s, EndSettle) == s.(closed := s.deferred, deferred := [])
  {
  }

  // ---------- b asks for shards ----------

  /** A worker has timed out before its close was settled. In the end b wants a shard; c, whom nobody exceeds, is
      counted above the ideal; and there is nothing to steal from it, so that (TurnSteals) a loop that finds it busiest
      goes round for ever. */
  lemma NeverEnds(cfg: Config, k: Cast) returns (acts: seq<Action>)
    requires AllDiffer(k)
    ensures CanRun(cfg, Fresh(), acts)
    ensures var t := Run(cfg, Fresh(), acts);
      Wanting(t, k.b, k.c, cfg.inactivityTimeout + cfg.releaseTimeout) && t.info[k.c].Open() == {}
  {
    hide Comes, CanRun, Run, Emptied, Wanting, Worker.Open;
    var t;
    acts := ReachEmptied(cfg, k, cfg.inactivityTimeout);
    acts, t := BHeard(cfg, acts, k, cfg.inactivityTimeout, cfg.inactivityTimeout + cfg.releaseTimeout);
    ComesRun(cfg, acts, t);
  }

  /** b is heard from. */
  lemma BHeard(cfg: Config, acts: seq<Action>, k: Cast, at: int, now: int) returns (all: seq<Action>, t: State)
    requires AllDiffer(k) && Comes(cfg, acts, Emptied(k, at, now))
    ensures Comes(cfg, all, t) && Wanting(t, k.b, k.c, now) && t.info[k.c].Open() == {}
  {
    hide Comes, Enabled, Do, Emptied, Wanting, Worker.Open, BAsks;
    AskedWorks(cfg, k, at, now);
    StuckFacts(cfg, k, at, now);
    t := BAsks(k, at, now);
    all := GoOn(cfg, acts, Emptied(k, at, now), Register("b", k.b, now), t);
  }

  lemma ComesRun(cfg: Config, acts: seq<Action>, t: State)
    requires Comes(cfg, acts, t)
    ensures CanRun(cfg, Fresh(), acts) && Run(cfg, Fresh(), acts) == t
  {
  }

  /** A registered worker is heard from. */
  lemma RegisterAgain(cfg: Config, s: State, name: WorkerId, w: WorkerInfo, now: int)
    requires s.inService && name in s.workers && s.workers[name] == w && w in s.info
    ensures Enabled(cfg, s, Register(name, w, now))
    ensures Do(cfg, s, Register(name, w, now))
         == s.(info := s.info[w := s.info[w].(heartbeat := now)], heartbeats := s.heartbeats[name := now])
  {
  }

  /** What b's register leaves. */
  function BAsks(k: Cast, at: int, now: int): State {
    Settled(k, now, now, [Note("x", None), Note("p", None), Note("q", None)], [])
  }

  lemma AskedWorks(cfg: Config, k: Cast, at: int, now: int)
    requires AllDiffer(k)
    ensures var e := Register("b", k.b, now);
      Enabled(cfg, Emptied(k, at, now), e) && Do(cfg, Emptied(k, at, now), e) == BAsks(k, at, now)
  {
    hide Marks;
    var s := Emptied(k, at, now);
    RegisterAgain(cfg, s, "b", k.b, now);
    hide Enabled, Do;
    assert s.info[k.b := Idle("b", now)] == BAsks(k, at, now).info;
    assert s.heartbeats["b" := now] == BAsks(k, at, now).heartbeats;
  }

  lemma StuckFacts(cfg: Config, k: Cast, at: int, now: int)
    requires AllDiffer(k)
    ensures Wanting(BAsks(k, at, now), k.b, k.c, now) && BAsks(k, at, now).info[k.c].Open() == {}
  {
    hide Marks;
    assert |{"r", "s"}| == 2 && |map["b" := k.b, "c" := k.c]| == 2;
    assert BAsks(k, at, now).Ideal() == 1;
  }
}
