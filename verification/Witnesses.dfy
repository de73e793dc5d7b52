/** The states in which the guards matter are reached: runs from a fresh manager, from an empty store, and from a
    worker without processors, that end in what each guard is there to prevent. */
module Witnesses {
  import opened Finite
  import opened Lineage
  import opened WorkerRecord
  import opened ManagerModel
  import opened Conservation
  import opened ManagerRuns
  import opened AssignCalls
  import opened AssignResults
  import opened GuardsNeeded
  import opened Frontier
  import D = Delivery
  import F = Fencing
  import L = Leadership
  import H = Handover

  /** Two roots without children. */
  function Roots(): Index {
    Index(map["x" := Shard("x", None, None), "y" := Shard("y", None, None)], map["x" := {}, "y" := {}])
  }

  function Marks(): map<ShardId, Mark> {
    map["x" := Latest, "y" := Latest]
  }

  function Coming(): Action {
    Takeover(Roots(), map[], ["x", "y"], [], 1)
  }

  function TakenOver(): State {
    State(true, 1, 0, Marks(), ["x", "y"], {"x", "y"}, map[], map[], map[], map[], [], [])
  }

  function Joined(a: WorkerInfo): State {
    TakenOver().(workers := map["a" := a], info := map[a := Worker("a", 0, map[], None, 0)],
                 heartbeats := map["a" := 0])
  }

  function Listed(a: WorkerInfo): State {
    Joined(a).(counts := map[a := 0])
  }

  function One(a: WorkerInfo): State {
    Listed(a).(nextOffset := 1, pool := ["y"], counts := map[a := 1],
               info := map[a := Worker("a", 0, map["x" := Assignment(1, false)], None, 1)])
  }

  /** a holds both shards. */
  function Both(a: WorkerInfo): State {
    Listed(a).(nextOffset := 2, pool := [], counts := map[a := 2],
               info := map[a := Worker("a", 0, map["x" := Assignment(1, false), "y" := Assignment(2, false)], None, 2)])
  }

  /** b has joined. */
  function Second(a: WorkerInfo, b: WorkerInfo): State {
    Both(a).(workers := map["a" := a, "b" := b], heartbeats := map["a" := 0, "b" := 0], counts := map[a := 2, b := 0],
             info := map[a := Both(a).info[a], b := Worker("b", 0, map[], None, 0)])
  }

  lemma TakeoverWorks(cfg: Config)
    ensures Enabled(cfg, Fresh(), Coming()) && Do(cfg, Fresh(), Coming()) == TakenOver()
  {
    var index := Roots();
    assert (set sh | sh in index.shards && index.IsRoot(sh) && StoredMark(map[], sh) != Closed) == {"x", "y"};
    assert (set sh | sh in index.shards && index.IsRoot(sh) && StoredMark(map[], sh) == Closed) == {};
    assert Elements(["x", "y"]) == {"x", "y"} && Elements<ShardId>([]) == {};
    assert (map sh | sh in index.shards :: StoredMark(map[], sh)) == Marks();
    assert (set sh | sh in ["x", "y"]) == {"x", "y"};
  }

  lemma JoinWorks(cfg: Config, a: WorkerInfo)
    ensures Enabled(cfg, TakenOver(), Register("a", a, 0)) && Do(cfg, TakenOver(), Register("a", a, 0)) == Joined(a)
    ensures Enabled(cfg, Joined(a), Enlist(a)) && Do(cfg, Joined(a), Enlist(a)) == Listed(a)
  {
  }

  lemma TakeWorks(cfg: Config, a: WorkerInfo)
    ensures Enabled(cfg, Listed(a), Take(a)) && Do(cfg, Listed(a), Take(a)) == One(a)
  {
    var t := AfterTake(Listed(a), a);
    assert t.info == One(a).info && t.counts == One(a).counts;
  }

  lemma TakeAgainWorks(cfg: Config, a: WorkerInfo)
    ensures Enabled(cfg, One(a), Take(a)) && Do(cfg, One(a), Take(a)) == Both(a)
  {
    var t := AfterTake(One(a), a);
    assert t.info == Both(a).info && t.counts == Both(a).counts;
  }

  /** The moves are neither expiries nor checkpoints. */
  predicate Plain(acts: seq<Action>) {
    forall i :: 0 <= i < |acts| ==> !acts[i].Expire? && !acts[i].Checkpoint?
  }

  lemma More(cfg: Config, acts: seq<Action>, s: State, a: Action, t: State)
    requires CanRun(cfg, Fresh(), acts) && Run(cfg, Fresh(), acts) == s && Plain(acts)
    requires Enabled(cfg, s, a) && Do(cfg, s, a) == t && !a.Expire? && !a.Checkpoint?
    ensures CanRun(cfg, Fresh(), acts + [a]) && Run(cfg, Fresh(), acts + [a]) == t && Plain(acts + [a])
  {
    RunStep(cfg, Fresh(), acts, a);
  }

  /** A worker joins a fresh leader, and takes the one shard that it asks for. */
  lemma ReachOne(cfg: Config, a: WorkerInfo) returns (acts: seq<Action>)
    ensures CanRun(cfg, Fresh(), acts) && Run(cfg, Fresh(), acts) == One(a) && Plain(acts)
  {
    hide Enabled, Do, CanRun, Run, TakenOver, Joined, Listed, One;
    RunNone(cfg, Fresh());
    TakeoverWorks(cfg);
    More(cfg, [], Fresh(), Coming(), TakenOver());
    acts := [] + [Coming()];
    JoinWorks(cfg, a);
    More(cfg, acts, TakenOver(), Register("a", a, 0), Joined(a));
    acts := acts + [Register("a", a, 0)];
    More(cfg, acts, Joined(a), Enlist(a), Listed(a));
    acts := acts + [Enlist(a)];
    TakeWorks(cfg, a);
    More(cfg, acts, Listed(a), Take(a), One(a));
    acts := acts + [Take(a)];
  }

  lemma ReachBoth(cfg: Config, a: WorkerInfo) returns (acts: seq<Action>, loc: Places)
    ensures CanRun(cfg, Fresh(), acts) && Run(cfg, Fresh(), acts) == Both(a) && Plain(acts)
    ensures Sound(Both(a), loc)
  {
    hide Enabled, Do, CanRun, Run, One, Both, Sound, Along;
    acts := ReachOne(cfg, a);
    TakeAgainWorks(cfg, a);
    More(cfg, acts, One(a), Take(a), Both(a));
    acts := acts + [Take(a)];
    FreshSound();
    OrderlyRun(cfg, Fresh(), acts);
    loc := RunSound(cfg, Fresh(), map[], acts);
  }

  lemma SecondWorks(cfg: Config, a: WorkerInfo, b: WorkerInfo)
    requires a != b
    ensures Enabled(cfg, Both(a), Register("b", b, 0))
    ensures var s := Do(cfg, Both(a), Register("b", b, 0));
      Enabled(cfg, s, Enlist(b))
      && Do(cfg, s, Enlist(b)) == Second(a, b)
  {
    var s := Do(cfg, Both(a), Register("b", b, 0));
    assert AfterEnlist(s, b).info == Second(a, b).info && AfterEnlist(s, b).workers == Second(a, b).workers;
  }

  lemma StealWorks(cfg: Config, a: WorkerInfo, b: WorkerInfo)
    requires a != b
    ensures Enabled(cfg, Second(a, b), Steal(b, a, "x", 0))
  {
    var s := Second(a, b);
    assert |s.live| == 2 && |s.workers| == 2;
    assert s.Ideal() == 1;
  }

  /** What a holds once a shard of it has been put on offer to b. */
  lemma StolenFacts(cfg: Config, a: WorkerInfo, b: WorkerInfo)
    requires a != b && Enabled(cfg, Second(a, b), Steal(b, a, "x", 0))
    ensures var t := Do(cfg, Second(a, b), Steal(b, a, "x", 0));
      && t.inService && t.closed == [] && t.Registered(a)
      && "x" in t.info[a].assignments && t.info[a].assignments["x"] == Assignment(1, true)
  {
  }

  lemma ReachLent(cfg: Config, a: WorkerInfo, b: WorkerInfo) returns (acts: seq<Action>, loc: Places)
    requires a != b
    ensures CanRun(cfg, Fresh(), acts) && Plain(acts) && Sound(Run(cfg, Fresh(), acts), loc)
    ensures var t := Run(cfg, Fresh(), acts);
      && t.inService && t.closed == [] && t.Registered(a)
      && "x" in t.info[a].assignments && t.info[a].assignments["x"] == Assignment(1, true)
  {
    hide Enabled, Do, CanRun, Run, Both, Second, Sound, Along;
    acts, loc := ReachBoth(cfg, a);
    SecondWorks(cfg, a, b);
    var joined := Do(cfg, Both(a), Register("b", b, 0));
    More(cfg, acts, Both(a), Register("b", b, 0), joined);
    acts := acts + [Register("b", b, 0)];
    More(cfg, acts, joined, Enlist(b), Second(a, b));
    acts := acts + [Enlist(b)];
    StealWorks(cfg, a, b);
    StolenFacts(cfg, a, b);
    More(cfg, acts, Second(a, b), Steal(b, a, "x", 0), Do(cfg, Second(a, b), Steal(b, a, "x", 0)));
    acts := acts + [Steal(b, a, "x", 0)];
    FreshSound();
    OrderlyRun(cfg, Fresh(), acts);
    loc := RunSound(cfg, Fresh(), map[], acts);
  }

  lemma CloseWorks(cfg: Config, s: State, w: WorkerInfo, sh: ShardId, id: int)
    requires s.Registered(w) && sh in s.info[w].assignments && s.info[w].assignments[sh].id == id
    ensures Enabled(cfg, s, Checkpoint(w, sh, id, Closed))
    ensures Do(cfg, s, Checkpoint(w, sh, id, Closed)) == AfterCheckpoint(s, w, sh, Closed)
  {
  }

  /** The head of the worklist is childless here. */
  lemma SettleWorks(cfg: Config, s: State)
    requires s.inService && s.closed != [] && s.closed[0].shard in {"x", "y"}
    requires s.closed[0].worker.Some? ==> s.closed[0].worker.value in s.info
    ensures KidsFor(Roots(), s, []) && Enabled(cfg, s, Settle(Roots(), []))
    ensures Do(cfg, s, Settle(Roots(), [])) == AfterSettle(s, Roots(), [])
  {
    assert Elements<ShardId>([]) == {};
  }

  /** G1, second half: a shard on loan is closed by its donor, and a shard that is not live stays on offer. */
  lemma LentShardClosed(cfg: Config, a: WorkerInfo, b: WorkerInfo) returns (acts: seq<Action>)
    requires a != b
    ensures CanRun(cfg, Fresh(), acts) && !OnePlace(Run(cfg, Fresh(), acts))
  {
    var loc;
    acts, loc := ReachLent(cfg, a, b);
    var s := Run(cfg, Fresh(), acts);
    var c := AfterCheckpoint(s, a, "x", Closed);
    assert c.inService && c.closed == [Note("x", Some(a))] && a in c.info;
    hide Enabled, Do, CanRun, Run, Sound, OnePlace, AfterSettle, KidsFor, AfterCheckpoint;
    CloseWorks(cfg, s, a, "x", 1);
    RunStep(cfg, Fresh(), acts, Checkpoint(a, "x", 1, Closed));
    acts := acts + [Checkpoint(a, "x", 1, Closed)];
    var settle := SettledLast(cfg, c);
    RunJoin(cfg, Fresh(), acts, settle);
    acts := acts + settle;
    CloseExact(cfg, s, loc, a, "x", settle);
  }

  /** The one notification left is settled. */
  lemma SettledLast(cfg: Config, s: State) returns (acts: seq<Action>)
    requires s.inService && |s.closed| == 1 && s.closed[0].shard in {"x", "y"}
    requires s.closed[0].worker.Some? ==> s.closed[0].worker.value in s.info
    ensures CanRun(cfg, s, acts) && Settlings(acts) && Run(cfg, s, acts).Drained()
  {
    SettleWorks(cfg, s);
    SettleEffect(s, Roots(), []);
    hide Enabled, Do, CanRun, Run, AfterSettle;
    RunNone(cfg, s);
    RunStep(cfg, s, [], Settle(Roots(), []));
    acts := [] + [Settle(Roots(), [])];
  }

  /** The two notifications left are settled. */
  lemma SettledLastTwo(cfg: Config, s: State) returns (acts: seq<Action>)
    requires s.inService && |s.closed| == 2 && s.closed[0].shard in {"x", "y"} && s.closed[1].shard in {"x", "y"}
    requires forall n :: n in s.closed && n.worker.Some? ==> n.worker.value in s.info
    ensures CanRun(cfg, s, acts) && Settlings(acts) && Run(cfg, s, acts).Drained()
  {
    hide Enabled, Do, CanRun, Run, AfterSettle;
    assert s.closed[0] in s.closed && s.closed[1] in s.closed;
    var t := AfterSettle(s, Roots(), []);
    FirstSettled(s);
    SettleWorks(cfg, s);
    RunNone(cfg, s);
    RunStep(cfg, s, [], Settle(Roots(), []));
    acts := [] + [Settle(Roots(), [])];
    var more := SettledLast(cfg, t);
    RunJoin(cfg, s, acts, more);
    acts := acts + more;
  }

  lemma FirstSettled(s: State)
    requires |s.closed| == 2 && (s.closed[0].worker.Some? ==> s.closed[0].worker.value in s.info)
    ensures var t := AfterSettle(s, Roots(), []);
      t.closed == [s.closed[1]] && t.info.Keys == s.info.Keys && t.inService == s.inService
  {
    assert s.closed[1..] == [s.closed[1]];
  }

  lemma BothFacts(a: WorkerInfo)
    ensures var s := Both(a);
      && s.inService && s.closed == [] && s.Registered(a) && s.info[a].Open() == {"x", "y"} && s.info[a].Loans() == {}
      && s.info[a].assignments["x"] == Assignment(1, false) && s.info[a].heartbeat == 0
  {
  }

  /** a's shard x has been closed, and not yet settled. */
  lemma ReachClosed(cfg: Config, a: WorkerInfo) returns (acts: seq<Action>, loc: Places)
    ensures CanRun(cfg, Fresh(), acts) && Run(cfg, Fresh(), acts) == AfterCheckpoint(Both(a), a, "x", Closed)
    ensures Sound(AfterCheckpoint(Both(a), a, "x", Closed), loc)
  {
    acts, loc := ReachBoth(cfg, a);
    BothFacts(a);
    hide Enabled, Do, CanRun, Run, Sound, Both, AfterCheckpoint;
    CloseWorks(cfg, Both(a), a, "x", 1);
    RunStep(cfg, Fresh(), acts, Checkpoint(a, "x", 1, Closed));
    acts := acts + [Checkpoint(a, "x", 1, Closed)];
    CheckpointSound(Both(a), a, "x", Closed, loc);
  }

  lemma ClosedFacts(a: WorkerInfo)
    ensures var s := AfterCheckpoint(Both(a), a, "x", Closed);
      && s.inService && s.closed == [Note("x", Some(a))] && s.Registered(a) && a in s.info && s.IsClosed("x")
      && s.info[a].Open() == {"x", "y"} && s.info[a].Loans() == {} && "x" in s.info[a].assignments
      && s.info[a].assignments["x"].id == 1 && s.info[a].id == "a" && s.info[a].heartbeat == 0
      && s.heartbeats == map["a" := 0]
  {
    BothFacts(a);
  }

  /** G1, first half: the CLOSED checkpoint of one assignment is recorded twice, as when its first answer is lost,
      and the worker is counted one shard short. */
  lemma ClosedTwice(cfg: Config, a: WorkerInfo) returns (acts: seq<Action>)
    ensures CanRun(cfg, Fresh(), acts) && !CountedAt(Run(cfg, Fresh(), acts), a)
  {
    var loc;
    acts, loc := ReachClosed(cfg, a);
    TwiceFacts(a);
    var s := AfterCheckpoint(Both(a), a, "x", Closed);
    var c := AfterCheckpoint(s, a, "x", Closed);
    hide Enabled, Do, CanRun, Run, Sound, Both, AfterCheckpoint, CountedAt, State.IsClosed, Worker.Open;
    CloseWorks(cfg, s, a, "x", 1);
    RunStep(cfg, Fresh(), acts, Checkpoint(a, "x", 1, Closed));
    acts := acts + [Checkpoint(a, "x", 1, Closed)];
    var settle := SettledLastTwo(cfg, c);
    RunJoin(cfg, Fresh(), acts, settle);
    acts := acts + settle;
    CloseOnceExact(cfg, s, loc, a, "x", settle);
  }

  /** The two notifications. */
  lemma TwiceFacts(a: WorkerInfo)
    ensures var s := AfterCheckpoint(Both(a), a, "x", Closed);
      var c := AfterCheckpoint(s, a, "x", Closed);
      && s.Registered(a) && Note("x", Some(a)) in s.closed && a in s.info && "x" in s.info[a].Open()
      && "x" in s.info[a].assignments && s.info[a].assignments["x"].id == 1
      && c.inService && c.closed == [Note("x", Some(a)), Note("x", Some(a))] && a in c.info
  {
    ClosedFacts(a);
    hide Both;
  }

  lemma ExpireWorks(cfg: Config, a: WorkerInfo)
    ensures var s := AfterCheckpoint(Both(a), a, "x", Closed);
      var e := Expire(a, ["x", "y"], cfg.inactivityTimeout);
      && Enabled(cfg, s, e) && Do(cfg, s, e) == AfterExpire(s, a, ["x", "y"])
      && Lists(["x", "y"], s.info[a].Open() + ShardsOf(s.info[a].Loans()))
  {
    ClosedFacts(a);
    var s := AfterCheckpoint(Both(a), a, "x", Closed);
    hide Both, AfterCheckpoint;
    assert Elements(["x", "y"]) == {"x", "y"} && ShardsOf({}) == {};
    assert Oldest(s, "a");
  }

  /** G2: a worker whose close is not settled times out. Its closed shard goes back to the pool, and it is queued by
      count although it is gone. */
  lemma CloserTimesOut(cfg: Config, a: WorkerInfo) returns (acts: seq<Action>)
    ensures CanRun(cfg, Fresh(), acts) && !OnePlace(Run(cfg, Fresh(), acts))
  {
    var loc;
    acts, loc := ReachClosed(cfg, a);
    ClosedFacts(a);
    ExpireWorks(cfg, a);
    var s := AfterCheckpoint(Both(a), a, "x", Closed);
    var e := AfterExpire(s, a, ["x", "y"]);
    assert e.inService && e.closed == [Note("x", Some(a))] && a in e.info;
    hide Enabled, Do, CanRun, Run, Sound, Both, AfterSettle, KidsFor, AfterCheckpoint, AfterExpire, OnePlace, Lists;
    RunStep(cfg, Fresh(), acts, Expire(a, ["x", "y"], cfg.inactivityTimeout));
    acts := acts + [Expire(a, ["x", "y"], cfg.inactivityTimeout)];
    assert Note("x", Some(a)) in s.closed && forall n :: n in s.closed ==> n.shard == "x";
    var settle := SettledLast(cfg, e);
    RunJoin(cfg, Fresh(), acts, settle);
    acts := acts + settle;
    ExpireExact(cfg, s, loc, a, ["x", "y"], settle);
  }

  /** G3: a delayed checkpoint of the same assignment is recorded after its CLOSED one. The shard leaves its worker
      and the live set, nobody will hold it again, and its children will never be ready. */
  lemma CloseOverwritten(cfg: Config, a: WorkerInfo) returns (acts: seq<Action>)
    ensures CanRun(cfg, Fresh(), acts)
    ensures var t := Run(cfg, Fresh(), acts);
      t.closed == [] && "x" !in t.live && t.MarkOf("x") == At(0) && t.live != Front(Roots(), ShutOf(t))
  {
    var loc;
    acts, loc := ReachClosed(cfg, a);
    ClosedFacts(a);
    OverwrittenFacts(a);
    var s := AfterCheckpoint(Both(a), a, "x", Closed);
    var c := AfterCheckpoint(s, a, "x", At(0));
    hide Enabled, Do, CanRun, Run, Sound, Both, AfterSettle, KidsFor, AfterCheckpoint;
    assert Enabled(cfg, s, Checkpoint(a, "x", 1, At(0))) && Do(cfg, s, Checkpoint(a, "x", 1, At(0))) == c by {
      CheckpointEnabled(cfg, s, a, "x", 1, At(0));
    }
    RunStep(cfg, Fresh(), acts, Checkpoint(a, "x", 1, At(0)));
    acts := acts + [Checkpoint(a, "x", 1, At(0))];
    SettleWorks(cfg, c);
    RunStep(cfg, Fresh(), acts, Settle(Roots(), []));
    acts := acts + [Settle(Roots(), [])];
  }

  lemma OverwrittenFacts(a: WorkerInfo)
    ensures var c := AfterCheckpoint(AfterCheckpoint(Both(a), a, "x", Closed), a, "x", At(0));
      && c.inService && c.closed == [Note("x", Some(a))] && a in c.info
      && var t := AfterSettle(c, Roots(), []);
        t.closed == [] && "x" !in t.live && t.MarkOf("x") == At(0) && t.live != Front(Roots(), ShutOf(t))
  {
    var c := AfterCheckpoint(AfterCheckpoint(Both(a), a, "x", Closed), a, "x", At(0));
    var t := AfterSettle(c, Roots(), []);
    assert c.closed[1..] == [];
    assert "x" in Front(Roots(), ShutOf(t));
  }

  // ---------- A skipped record ----------

  /** Managers in these states, and nothing else. */
  ghost predicate Quietly(w: D.World, states: map<nat, State>) {
    && w.managers == states && w.fence == F.EMPTY && w.origins == map[] && w.finished == {} && w.processors == map[]
    && w.tips == map[] && w.ended == {} && w.bases == map[] && w.done == {} && w.grants == {}
  }

  /** A run from start, with rising terms, leads to such a world. */
  ghost predicate LeadsTo(cfg: Config, start: D.World, es: seq<D.Event>, states: map<nat, State>) {
    D.CanAll(cfg, start, es) && L.TermsRising(cfg, start, es) && Quietly(D.WorldAfter(cfg, start, es), states)
  }

  lemma Managed(cfg: Config, start: D.World, es: seq<D.Event>, states: map<nat, State>, m: nat, a: Action, t: State)
    returns (all: seq<D.Event>)
    requires LeadsTo(cfg, start, es, states) && m in states
    requires Enabled(cfg, states[m], a) && Do(cfg, states[m], a) == t && !a.Checkpoint? && !a.Takeover?
    ensures LeadsTo(cfg, start, all, states[m := t])
  {
    hide D.CanAll, D.WorldAfter, L.TermsRising, Enabled, Do;
    L.NextRising(cfg, start, es, D.Move(m, a));
    all := es + [D.Move(m, a)];
  }

  /** A manager has read the checkpoints, none of which is stored. */
  lemma Loaded(cfg: Config, start: D.World, es: seq<D.Event>, states: map<nat, State>, m: nat)
    returns (all: seq<D.Event>)
    requires LeadsTo(cfg, start, es, states)
    ensures LeadsTo(cfg, start, all, states)
    ensures m in D.WorldAfter(cfg, start, all).loads && D.WorldAfter(cfg, start, all).loads[m] == Marks()
  {
    hide D.CanAll, D.WorldAfter, L.TermsRising;
    L.NextRising(cfg, start, es, D.StartLoad(m));
    var one := es + [D.StartLoad(m)];
    L.NextRising(cfg, start, one, D.LoadKey(m, "x"));
    var two := one + [D.LoadKey(m, "x")];
    L.NextRising(cfg, start, two, D.LoadKey(m, "y"));
    all := two + [D.LoadKey(m, "y")];
    assert D.WorldAfter(cfg, start, all).loads[m] == Marks();
  }

  /** ... and can take over. */
  lemma MayLead(cfg: Config, w: D.World, states: map<nat, State>, m: nat, a: Action)
    requires Quietly(w, states) && m in states && m in w.loads && w.loads[m] == Marks()
    requires a.Takeover? && a.index == Roots() && a.stored == map[] && Enabled(cfg, states[m], a)
    ensures D.CanHappen(cfg, w, D.TakeOver(m, a))
    ensures Quietly(D.Happened(cfg, w, D.TakeOver(m, a)), states[m := Do(cfg, states[m], a)])
  {
    hide Enabled, Do;
  }

  lemma Elected(cfg: Config, start: D.World, states: map<nat, State>) returns (es: seq<D.Event>)
    requires Quietly(start, states) && 0 in states && states[0] == Fresh()
    ensures LeadsTo(cfg, start, es, states[0 := TakenOver()])
  {
    hide D.CanAll, D.WorldAfter, L.TermsRising, Enabled, Do, TakenOver, D.CanHappen, D.Happened;
    TakeoverWorks(cfg);
    D.EmptyRun(cfg, start);
    assert L.TermsRising(cfg, start, []) by { NothingRises(cfg, start); }
    es := Loaded(cfg, start, [], states, 0);
    MayLead(cfg, D.WorldAfter(cfg, start, es), states, 0, Coming());
    L.NextRising(cfg, start, es, D.TakeOver(0, Coming()));
    es := es + [D.TakeOver(0, Coming())];
  }

  lemma NothingRises(cfg: Config, start: D.World)
    ensures D.CanAll(cfg, start, []) && L.TermsRising(cfg, start, [])
  {
  }

  /** A worker takes shard x, and starts a processor for it, at LATEST. */
  ghost predicate Started(w: D.World, a: WorkerInfo) {
    && w.managers == map[0 := One(a)] && w.fence == F.EMPTY && w.origins == map[]
    && w.processors == map[0 := D.Processor(D.Grant("x", 1, Latest), None, D.Idle)]
    && w.tips == map[] && w.ended == {} && w.bases == map[] && w.done == {}
  }

  lemma ReachStarted(cfg: Config, a: WorkerInfo) returns (es: seq<D.Event>)
    ensures D.CanAll(cfg, D.Start({0}), es) && Started(D.WorldAfter(cfg, D.Start({0}), es), a)
  {
    hide D.CanAll, D.WorldAfter, Enabled, Do, TakenOver, Joined, Listed, One;
    var states := map[0 := Fresh()];
    var start := D.Start({0});
    assert Quietly(start, states);
    hide Quietly, LeadsTo;
    es := Elected(cfg, start, states);
    es := FirstTaken(cfg, start, es, states, a);
    assert states[0 := One(a)] == map[0 := One(a)];
    es := Spawned(cfg, es, a);
  }

  /** Manager 0 moves. */
  lemma ManagedFirst(cfg: Config, start: D.World, es: seq<D.Event>, states: map<nat, State>, s: State, a: Action,
                     t: State)
    returns (all: seq<D.Event>)
    requires LeadsTo(cfg, start, es, states[0 := s])
    requires Enabled(cfg, s, a) && Do(cfg, s, a) == t && !a.Checkpoint? && !a.Takeover?
    ensures LeadsTo(cfg, start, all, states[0 := t])
  {
    hide LeadsTo, Enabled, Do;
    all := Managed(cfg, start, es, states[0 := s], 0, a, t);
    assert states[0 := s][0 := t] == states[0 := t];
  }

  /** A worker joins it, and takes x. */
  lemma FirstTaken(cfg: Config, start: D.World, es: seq<D.Event>, states: map<nat, State>, a: WorkerInfo)
    returns (all: seq<D.Event>)
    requires LeadsTo(cfg, start, es, states[0 := TakenOver()])
    ensures LeadsTo(cfg, start, all, states[0 := One(a)])
  {
    hide LeadsTo, Enabled, Do, TakenOver, Joined, Listed, One;
    JoinWorks(cfg, a);
    TakeWorks(cfg, a);
    all := ManagedFirst(cfg, start, es, states, TakenOver(), Register("a", a, 0), Joined(a));
    all := ManagedFirst(cfg, start, all, states, Joined(a), Enlist(a), Listed(a));
    all := ManagedFirst(cfg, start, all, states, Listed(a), Take(a), One(a));
  }

  lemma Spawned(cfg: Config, es: seq<D.Event>, a: WorkerInfo) returns (all: seq<D.Event>)
    requires LeadsTo(cfg, D.Start({0}), es, map[0 := One(a)])
    ensures D.CanAll(cfg, D.Start({0}), all) && Started(D.WorldAfter(cfg, D.Start({0}), all), a)
  {
    hide D.CanAll, D.WorldAfter;
    OneFacts(a);
    hide One;
    D.NextEvent(cfg, D.Start({0}), es, D.HandOut(0, a, "x", 1));
    var one := es + [D.HandOut(0, a, "x", 1)];
    D.NextEvent(cfg, D.Start({0}), one, D.Spawn(0, D.Grant("x", 1, Latest)));
    all := one + [D.Spawn(0, D.Grant("x", 1, Latest))];
  }

  lemma OneFacts(a: WorkerInfo)
    ensures var s := One(a);
      && s.inService && s.Registered(a) && "x" in s.info[a].assignments && s.info[a].assignments["x"].id == 1
      && s.MarkOf("x") == Latest && OwnedUnder(s, "a", "x", 1)
  {
  }

  /** G6: from nothing stored, one empty subscription at LATEST leads to a stored number that covers a record nobody has
      processed. */
  lemma RecordSkipped(cfg: Config, a: WorkerInfo) returns (es: seq<D.Event>)
    ensures D.CanAll(cfg, D.Start({0}), es)
    ensures var w := D.WorldAfter(cfg, D.Start({0}), es);
      "x" in w.fence.store && !D.Kept(w, "x", w.fence.store["x"].mark)
  {
    var start := D.Start({0});
    es := ReachStarted(cfg, a);
    var w := D.WorldAfter(cfg, start, es);
    OneFacts(a);
    hide D.CanAll, D.WorldAfter, One, OwnedUnder, D.Kept;
    assert w.Tip("x") == 0;
    var more := D.EmptySubscriptionSkips(cfg, w, 0);
    D.JoinRuns(cfg, start, es, more);
    es := es + more;
    var v := D.WorldAfter(cfg, start, es);
    assert F.Passes(v.fence.store, "x", 1, 1);
    assert D.MayCommit(v, 0, 0, D.Origin(0, "a"));
    more := D.GapReachesStore(cfg, v, 0, 1, 0, D.Origin(0, "a"));
    D.JoinRuns(cfg, start, es, more);
    es := es + more;
  }

  // ---------- Two leaders with the same ids ----------

  function ComingNext(): Action {
    Takeover(Roots(), map[], ["y", "x"], [], 2)
  }

  function NextLeader(): State {
    State(true, 2, 0, Marks(), ["y", "x"], {"x", "y"}, map[], map[], map[], map[], [], [])
  }

  function JoinedNext(b: WorkerInfo): State {
    NextLeader().(workers := map["b" := b], info := map[b := Worker("b", 0, map[], None, 0)],
                  heartbeats := map["b" := 0])
  }

  function ListedNext(b: WorkerInfo): State {
    JoinedNext(b).(counts := map[b := 0])
  }

  /** b holds y, under the id that a holds it under elsewhere. */
  function OneNext(b: WorkerInfo): State {
    ListedNext(b).(nextOffset := 1, pool := ["x"], counts := map[b := 1],
                   info := map[b := Worker("b", 0, map["y" := Assignment(2, false)], None, 1)])
  }

  lemma NextWorks(cfg: Config)
    ensures Enabled(cfg, Fresh(), ComingNext()) && Do(cfg, Fresh(), ComingNext()) == NextLeader()
  {
    var index := Roots();
    assert (set sh | sh in index.shards && index.IsRoot(sh) && StoredMark(map[], sh) != Closed) == {"x", "y"};
    assert (set sh | sh in index.shards && index.IsRoot(sh) && StoredMark(map[], sh) == Closed) == {};
    assert Elements(["y", "x"]) == {"x", "y"} && Elements<ShardId>([]) == {};
    assert (map sh | sh in index.shards :: StoredMark(map[], sh)) == Marks();
    assert (set sh | sh in ["y", "x"]) == {"x", "y"};
  }

  lemma JoinNextWorks(cfg: Config, b: WorkerInfo)
    ensures Enabled(cfg, NextLeader(), Register("b", b, 0))
      && Do(cfg, NextLeader(), Register("b", b, 0)) == JoinedNext(b)
    ensures Enabled(cfg, JoinedNext(b), Enlist(b)) && Do(cfg, JoinedNext(b), Enlist(b)) == ListedNext(b)
    ensures Enabled(cfg, ListedNext(b), Take(b)) && Do(cfg, ListedNext(b), Take(b)) == OneNext(b)
  {
    var t := AfterTake(ListedNext(b), b);
    assert t.info == OneNext(b).info && t.counts == OneNext(b).counts;
  }

  /** Two managers; 0 has taken over and given both shards to a, and 1 has read the checkpoints. */
  lemma ReachTwo(cfg: Config, a: WorkerInfo) returns (es: seq<D.Event>)
    ensures LeadsTo(cfg, D.Start({0, 1}), es, map[0 := Both(a), 1 := Fresh()])
    ensures var w := D.WorldAfter(cfg, D.Start({0, 1}), es); 1 in w.loads && w.loads[1] == Marks()
  {
    hide Enabled, Do, TakenOver, One, Both, D.CanAll, D.WorldAfter, L.TermsRising;
    var states := map[0 := Fresh(), 1 := Fresh()];
    var start := D.Start({0, 1});
    assert Quietly(start, states);
    hide Quietly, LeadsTo;
    es := Elected(cfg, start, states);
    es := FirstTaken(cfg, start, es, states, a);
    TakeAgainWorks(cfg, a);
    es := ManagedFirst(cfg, start, es, states, One(a), Take(a), Both(a));
    assert states[0 := Both(a)] == map[0 := Both(a), 1 := Fresh()];
    es := Loaded(cfg, start, es, map[0 := Both(a), 1 := Fresh()], 1);
  }

  /** b joins the new leader and takes y. */
  lemma NextTaken(cfg: Config, start: D.World, elder: State, b: WorkerInfo) returns (es: seq<D.Event>)
    requires Quietly(start, map[0 := elder, 1 := NextLeader()])
    ensures LeadsTo(cfg, start, es, map[0 := elder, 1 := OneNext(b)])
  {
    hide Enabled, Do, NextLeader, JoinedNext, ListedNext, OneNext, D.CanAll, D.WorldAfter, L.TermsRising, Quietly;
    D.EmptyRun(cfg, start);
    NothingRises(cfg, start);
    assert LeadsTo(cfg, start, [], map[0 := elder, 1 := NextLeader()]);
    hide LeadsTo;
    JoinNextWorks(cfg, b);
    es := Managed(cfg, start, [], map[0 := elder, 1 := NextLeader()], 1, Register("b", b, 0), JoinedNext(b));
    assert map[0 := elder, 1 := NextLeader()][1 := JoinedNext(b)] == map[0 := elder, 1 := JoinedNext(b)];
    es := Managed(cfg, start, es, map[0 := elder, 1 := JoinedNext(b)], 1, Enlist(b), ListedNext(b));
    assert map[0 := elder, 1 := JoinedNext(b)][1 := ListedNext(b)] == map[0 := elder, 1 := ListedNext(b)];
    es := Managed(cfg, start, es, map[0 := elder, 1 := ListedNext(b)], 1, Take(b), OneNext(b));
    assert map[0 := elder, 1 := ListedNext(b)][1 := OneNext(b)] == map[0 := elder, 1 := OneNext(b)];
  }

  /** A processor for y under that id, at its first and last position. */
  function AtEnd(): D.Processor {
    D.Processor(D.Grant("y", 2, Latest), None, D.Reading(0, None, false))
  }

  /** Each of the two leaders has given y to a worker under the same id; both workers' processors have read it to
      its end. */
  ghost predicate BothRead(w: D.World, a: WorkerInfo, b: WorkerInfo) {
    && w.managers == map[0 := Both(a), 1 := OneNext(b)] && w.fence == F.EMPTY && w.origins == map[]
    && w.processors == map[0 := AtEnd(), 1 := AtEnd()] && w.tips == map[] && w.ended == {"y"}
  }

  /** The new leader's request is committed. */
  ghost predicate NewCommitted(w: D.World, a: WorkerInfo) {
    && 0 in w.managers && w.managers[0] == Both(a)
    && w.fence.store == map["y" := F.Entry(F.Text(2), Closed)] && w.fence.requests.Keys == {1}
    && w.fence.log == [F.Commit(1, "y", 2, Closed)] && w.origins == map[1 := D.Origin(1, "b")]
    && 0 in w.processors && w.processors[0] == AtEnd() && w.tips == map[] && w.ended == {"y"}
  }

  /** Then the old one's. */
  ghost predicate OldCommitted(w: D.World) {
    && w.fence.log == [F.Commit(1, "y", 2, Closed), F.Commit(0, "y", 2, Closed)]
    && w.origins == map[1 := D.Origin(1, "b"), 0 := D.Origin(0, "a")]
  }

  lemma ReachRead(cfg: Config, start: D.World, es: seq<D.Event>, a: WorkerInfo, b: WorkerInfo)
    returns (all: seq<D.Event>)
    requires LeadsTo(cfg, start, es, map[0 := Both(a), 1 := OneNext(b)])
    ensures D.CanAll(cfg, start, all) && L.TermsRising(cfg, start, all) && BothRead(D.WorldAfter(cfg, start, all), a, b)
  {
    hide D.CanAll, D.WorldAfter, L.TermsRising;
    OneNextFacts(b);
    hide Both, OneNext;
    L.NextRising(cfg, start, es, D.HandOut(1, b, "y", 2));
    var g := D.Grant("y", 2, Latest);
    all := es + [D.HandOut(1, b, "y", 2)];
    L.NextRising(cfg, start, all, D.Spawn(0, g));
    all := all + [D.Spawn(0, g)];
    L.NextRising(cfg, start, all, D.Spawn(1, g));
    all := all + [D.Spawn(1, g)];
    L.NextRising(cfg, start, all, D.EndShard("y"));
    all := all + [D.EndShard("y")];
    all := BothSubscribe(cfg, start, all);
  }

  lemma BothSubscribe(cfg: Config, start: D.World, es: seq<D.Event>) returns (all: seq<D.Event>)
    requires D.CanAll(cfg, start, es) && L.TermsRising(cfg, start, es)
    requires var p := AtEnd().(phase := D.Idle);
      var w := D.WorldAfter(cfg, start, es); w.processors == map[0 := p, 1 := p] && w.tips == map[]
    ensures D.CanAll(cfg, start, all) && L.TermsRising(cfg, start, all)
    ensures var w := D.WorldAfter(cfg, start, es);
      var v := D.WorldAfter(cfg, start, all);
      v.processors == map[0 := AtEnd(), 1 := AtEnd()] && v == w.(processors := v.processors, bases := v.bases)
  {
    hide D.CanAll, D.WorldAfter, L.TermsRising;
    L.NextRising(cfg, start, es, D.Subscribe(0));
    var one := es + [D.Subscribe(0)];
    L.NextRising(cfg, start, one, D.Subscribe(1));
    all := one + [D.Subscribe(1)];
  }

  lemma OneNextFacts(b: WorkerInfo)
    ensures var s := OneNext(b);
      && s.inService && s.Registered(b) && "y" in s.info[b].assignments && s.info[b].assignments["y"].id == 2
      && s.MarkOf("y") == Latest && OwnedUnder(s, "b", "y", 2)
  {
  }

  lemma BothOwn(a: WorkerInfo)
    ensures Both(a).inService && OwnedUnder(Both(a), "a", "y", 2) && Both(a).NextId() == 3
  {
  }

  lemma SendNew(cfg: Config, w: D.World, a: WorkerInfo, b: WorkerInfo)
    requires BothRead(w, a, b)
    ensures var e := D.Send(1, 1, D.Origin(1, "b"), Closed);
      && D.CanHappen(cfg, w, e)
      && var v := D.Happened(cfg, w, e);
        && v.managers == w.managers && v.tips == w.tips && v.ended == w.ended && v.origins == map[1 := D.Origin(1, "b")]
        && v.fence == F.Fence(map[], map[1 := F.Request("y", 2, Closed, 0, F.Trying, 0, 0)], [])
        && 0 in v.processors && v.processors[0] == AtEnd()
  {
    OneNextFacts(b);
    hide Both, OneNext, OwnedUnder;
  }

  lemma CommitNew(cfg: Config, start: D.World, es: seq<D.Event>, a: WorkerInfo, b: WorkerInfo)
    returns (all: seq<D.Event>)
    requires D.CanAll(cfg, start, es) && L.TermsRising(cfg, start, es) && BothRead(D.WorldAfter(cfg, start, es), a, b)
    ensures D.CanAll(cfg, start, all) && L.TermsRising(cfg, start, all)
      && NewCommitted(D.WorldAfter(cfg, start, all), a)
  {
    hide D.CanAll, D.WorldAfter, L.TermsRising, F.Text, Both, OneNext;
    SendNew(cfg, D.WorldAfter(cfg, start, es), a, b);
    assert D.WorldAfter(cfg, start, es).managers[0] == Both(a);
    L.NextRising(cfg, start, es, D.Send(1, 1, D.Origin(1, "b"), Closed));
    hide BothRead;
    var one := es + [D.Send(1, 1, D.Origin(1, "b"), Closed)];
    L.NextRising(cfg, start, one, D.Transact(F.Try(1)));
    var two := one + [D.Transact(F.Try(1))];
    L.NextRising(cfg, start, two, D.Transact(F.Try(1)));
    all := two + [D.Transact(F.Try(1))];
  }

  lemma CommitOld(cfg: Config, start: D.World, es: seq<D.Event>, a: WorkerInfo) returns (all: seq<D.Event>)
    requires D.CanAll(cfg, start, es) && L.TermsRising(cfg, start, es) && NewCommitted(D.WorldAfter(cfg, start, es), a)
    ensures D.CanAll(cfg, start, all) && L.TermsRising(cfg, start, all) && OldCommitted(D.WorldAfter(cfg, start, all))
  {
    hide D.CanAll, D.WorldAfter, L.TermsRising, F.Text;
    BothOwn(a);
    hide Both, OwnedUnder;
    L.NextRising(cfg, start, es, D.Send(0, 0, D.Origin(0, "a"), Closed));
    var one := es + [D.Send(0, 0, D.Origin(0, "a"), Closed)];
    L.NextRising(cfg, start, one, D.Transact(F.Try(0)));
    all := one + [D.Transact(F.Try(0))];
  }

  /** G5: a new leader's first id is one that the old leader has issued. Both workers own the shard under it, and
      the old leader's request commits after the new one's. */
  lemma IdsCollide(cfg: Config, a: WorkerInfo, b: WorkerInfo)
    returns (before: seq<D.Event>, e: D.Event, after: seq<D.Event>)
    ensures D.CanAll(cfg, D.Start({0, 1}), before) && L.TermsRising(cfg, D.Start({0, 1}), before)
    ensures L.CanLead(cfg, D.WorldAfter(cfg, D.Start({0, 1}), before), e, after)
    ensures var w := D.WorldAfter(cfg, D.Start({0, 1}), before);
      var v := L.Led(cfg, w, e, after);
      && 0 in w.managers && w.managers[0].NextId() == L.Bound(w, e) + 1
      && !L.OldShutOut(v, {0}, e.m, w.origins.Keys)
  {
    hide D.CanAll, D.WorldAfter, L.TermsRising, Enabled, Do, Both, OneNext, NextLeader, D.CanHappen, D.Happened;
    var start := D.Start({0, 1});
    before := ReachTwo(cfg, a);
    var w := D.WorldAfter(cfg, start, before);
    e := D.TakeOver(1, ComingNext());
    NextWorks(cfg);
    MayLead(cfg, w, map[0 := Both(a), 1 := Fresh()], 1, ComingNext());
    var t := D.Happened(cfg, w, e);
    after := NextTaken(cfg, t, Both(a), b);
    after := ReachRead(cfg, t, after, a, b);
    after := CommitNew(cfg, t, after, a, b);
    after := CommitOld(cfg, t, after, a);
    BothOwn(a);
    var v := D.WorldAfter(cfg, t, after);
    assert L.ByNewLeader(v, 1, w.origins.Keys, v.fence.log[0].r);
    assert L.ByOlderLeader(v, {0}, 1, w.origins.Keys, v.fence.log[1].r);
  }

  // ---------- A shard given up and given again ----------

  /** p is the only processor, for x; is it running? */
  function Alone(p: H.Processor, phase: H.Phase): H.Crew {
    H.Crew(map["x" := p], map[p := H.Run(None, 0, 0, phase)], false)
  }

  lemma FirstWorks(p: H.Processor)
    requires p.shard == "x" && p.id == 1
    ensures H.CanHappen(H.NOBODY, H.Respond(map["x" := 1], map["x" := p]))
    ensures H.Reconciled(H.NOBODY, map["x" := 1], map["x" := p]) == Alone(p, H.Queued)
  {
    var t := H.Reconciled(H.NOBODY, map["x" := 1], map["x" := p]);
    assert map["x" := p].Values == {p};
    assert t.runs.Keys == {p} && t.runs[p] == H.Run(None, 0, 0, H.Queued);
    assert t.current == map["x" := p];
  }

  lemma FirstGiven(p: H.Processor) returns (es: seq<H.Event>)
    requires p.shard == "x" && p.id == 1
    ensures H.CanAll(H.NOBODY, es) && H.CrewAfter(H.NOBODY, es) == Alone(p, H.Running)
  {
    hide H.CanAll, H.CrewAfter, H.Reconciled;
    FirstWorks(p);
    H.NoEvents(H.NOBODY);
    H.NextEvent(H.NOBODY, [], H.Respond(map["x" := 1], map["x" := p]));
    es := [] + [H.Respond(map["x" := 1], map["x" := p])];
    H.NextEvent(H.NOBODY, es, H.Begin(p));
    es := es + [H.Begin(p)];
  }

  lemma AwayWorks(p: H.Processor, o: H.Processor)
    requires p.shard == "x" && p.id == 1 && o.shard == "y" && o.id == 2
    ensures H.CanHappen(Alone(p, H.Running), H.Respond(map["y" := 2], map["y" := o]))
    ensures var t := H.Reconciled(Alone(p, H.Running), map["y" := 2], map["y" := o]);
      t.current == map["y" := o] && t.runs.Keys == {p, o} && !t.down
  {
    var s := Alone(p, H.Running);
    var given, made := map["y" := 2], map["y" := o];
    assert H.Starts(s, given) == {"y"} && H.Restarts(s, given) == {} && given != map[] by { assert "y" in given; }
    var t := H.Reconciled(s, given, made);
    assert made.Values == {o} && "y" in made;
    assert t.current == map["y" := o];
    assert t.runs.Keys == {p, o};
  }

  lemma AgainWorks(t: H.Crew, p: H.Processor, o: H.Processor, q: H.Processor)
    requires o.shard == "y" && o.id == 2 && q.shard == "x" && q.id == 3 && q != p && q != o
    requires t.current == map["y" := o] && t.runs.Keys == {p, o} && !t.down
    ensures H.CanHappen(t, H.Respond(map["x" := 3, "y" := 2], map["x" := q]))
  {
    var given := map["x" := 3, "y" := 2];
    assert H.Starts(t, given) == {"x"} && H.Restarts(t, given) == {};
  }

  /** A worker is given x, then only y, then both: two processors for x run at once. */
  lemma BothRun(p: H.Processor, o: H.Processor, q: H.Processor) returns (es: seq<H.Event>)
    requires p.shard == "x" && p.id == 1 && o.shard == "y" && o.id == 2 && q.shard == "x" && q.id == 3
    ensures H.CanAll(H.NOBODY, es)
    ensures var t := H.CrewAfter(H.NOBODY, es);
      p in t.runs && q in t.runs && p != q && t.runs[p].phase == H.Running && t.runs[q].phase == H.Running
  {
    hide H.CanAll, H.CrewAfter, H.CanHappen, H.Reconciled;
    es := FirstGiven(p);
    var s := Alone(p, H.Running);
    AwayWorks(p, o);
    AgainWorks(H.Reconciled(s, map["y" := 2], map["y" := o]), p, o, q);
    assert "y" in map["y" := 2];
    H.BrokenChain(s, "x", p, map["y" := 2], map["y" := o], map["x" := 3, "y" := 2], map["x" := q]);
    var more := [H.Respond(map["y" := 2], map["y" := o]), H.Respond(map["x" := 3, "y" := 2], map["x" := q]),
                 H.Begin(q)];
    H.JoinRuns(H.NOBODY, es, more);
    es := es + more;
  }
}
