/** A manager takes over while the old leader still serves. It reads a parent's checkpoint, then parent and child
    are closed, then it reads the child's: it starts with a CLOSED child of an open parent, and with a live set that is
    not the frontier, although the store is in order all along. */
module LateReads {
  import opened Finite
  import opened Lineage
  import opened WorkerRecord
  import opened ManagerModel
  import opened ManagerRuns
  import opened Frontier
  import opened AssignCalls
  import opened StoredOrder
  import D = Delivery
  import F = Fencing

  /** d descends from c, which descends from p. */
  function Line(): Index {
    Index(map["p" := Shard("p", None, None), "c" := Shard("c", Some("p"), None), "d" := Shard("d", Some("c"), None)],
          map["p" := {"c"}, "c" := {"d"}, "d" := {}])
  }

  function Marks(c: Mark): map<ShardId, Mark> {
    map["p" := Latest, "c" := c, "d" := Latest]
  }

  function Coming(stored: map<ShardId, Mark>, term: int): Action {
    Takeover(Line(), stored, ["p"], [], term)
  }

  /** What a manager is like once it has taken over with p open. */
  function InOffice(c: Mark, term: int): State {
    State(true, term, 0, Marks(c), ["p"], {"p"}, map[], map[], map[], map[], [], [])
  }

  lemma TakeoverWorks(cfg: Config, stored: map<ShardId, Mark>, c: Mark, term: int)
    requires stored == if c == Closed then map["c" := Closed] else map[]
    requires c == Closed || c == Latest
    ensures Enabled(cfg, Fresh(), Coming(stored, term)) && Do(cfg, Fresh(), Coming(stored, term)) == InOffice(c, term)
  {
    LineRoots(stored, c);
    hide Line, Marks, StoredMark;
    assert Elements(["p"]) == {"p"} && Elements<ShardId>([]) == {};
    assert (set sh | sh in ["p"]) == {"p"};
  }

  lemma LineRoots(stored: map<ShardId, Mark>, c: Mark)
    requires stored == if c == Closed then map["c" := Closed] else map[]
    requires c == Closed || c == Latest
    ensures var index := Line();
      && (set sh | sh in index.shards && index.IsRoot(sh) && StoredMark(stored, sh) != Closed) == {"p"}
      && (set sh | sh in index.shards && index.IsRoot(sh) && StoredMark(stored, sh) == Closed) == {}
      && (map sh | sh in index.shards :: StoredMark(stored, sh)) == Marks(c)
  {
  }

  // ---------- The old leader ----------

  function Joined(a: WorkerInfo): State {
    InOffice(Latest, 1).(workers := map["a" := a], info := map[a := Worker("a", 0, map[], None, 0)],
                         heartbeats := map["a" := 0])
  }

  function Listed(a: WorkerInfo): State {
    Joined(a).(counts := map[a := 0])
  }

  /** a holds p. */
  function Parent(a: WorkerInfo): State {
    Listed(a).(nextOffset := 1, pool := [], counts := map[a := 1],
               info := map[a := Worker("a", 0, map["p" := Assignment(1, false)], None, 1)])
  }

  /** p is closed, and its close settled. */
  function ParentDone(a: WorkerInfo): State {
    Listed(a).(nextOffset := 1, pool := ["c"], live := {"c"}, checkpoints := Marks(Latest)["p" := Closed])
  }

  /** a holds c. */
  function Child(a: WorkerInfo): State {
    ParentDone(a).(nextOffset := 2, pool := [], counts := map[a := 1],
                info := map[a := Worker("a", 0, map["c" := Assignment(2, false)], None, 1)])
  }

  lemma JoinWorks(cfg: Config, a: WorkerInfo)
    ensures var s := InOffice(Latest, 1);
      Enabled(cfg, s, Register("a", a, 0))
      && Do(cfg, s, Register("a", a, 0)) == Joined(a)
    ensures Enabled(cfg, Joined(a), Enlist(a)) && Do(cfg, Joined(a), Enlist(a)) == Listed(a)
  {
  }

  lemma ParentWorks(cfg: Config, a: WorkerInfo)
    ensures Enabled(cfg, Listed(a), Take(a)) && Do(cfg, Listed(a), Take(a)) == Parent(a)
  {
    var t := AfterTake(Listed(a), a);
    assert t.info == Parent(a).info && t.counts == Parent(a).counts;
  }

  lemma ChildWorks(cfg: Config, a: WorkerInfo)
    ensures Enabled(cfg, ParentDone(a), Take(a)) && Do(cfg, ParentDone(a), Take(a)) == Child(a)
  {
    var t := AfterTake(ParentDone(a), a);
    assert t.info == Child(a).info && t.counts == Child(a).counts;
  }

  lemma SettleWorks(cfg: Config, a: WorkerInfo)
    ensures var s := AfterCheckpoint(Parent(a), a, "p", Closed);
      Enabled(cfg, s, Settle(Line(), ["c"])) && Do(cfg, s, Settle(Line(), ["c"])) == ParentDone(a)
  {
    var s := AfterCheckpoint(Parent(a), a, "p", Closed);
    assert s.closed[1..] == [] && Elements(["c"]) == {"c"};
    DetachWorks(a);
    hide Detach, VisitAll;
    VisitWorks(a);
  }

  lemma DetachWorks(a: WorkerInfo)
    ensures var s := AfterCheckpoint(Parent(a), a, "p", Closed);
      && s.inService && s.closed == [Note("p", Some(a))] && a in s.info
      && Detach(s.(closed := []), Note("p", Some(a))) == ParentDone(a).(pool := [], live := {})
  {
    var s := AfterCheckpoint(Parent(a), a, "p", Closed);
    var t := Detach(s.(closed := []), Note("p", Some(a)));
    assert t.live == {} && t.info == ParentDone(a).info && t.counts == ParentDone(a).counts;
  }

  lemma VisitWorks(a: WorkerInfo)
    ensures VisitAll(ParentDone(a).(pool := [], live := {}), Line(), ["c"]) == ParentDone(a)
  {
    var t := ParentDone(a).(pool := [], live := {});
    assert ["c"][..0] == [];
    assert VisitAll(t, Line(), ["c"]) == Visit(t, Line(), "c");
  }

  // ---------- Runs ----------

  lemma NextSteady(cfg: Config, w: D.World, es: seq<D.Event>, e: D.Event)
    requires D.CanAll(cfg, w, es) && SteadyRun(cfg, Line(), w, es)
    requires D.CanHappen(cfg, D.WorldAfter(cfg, w, es), e) && StoreSteady(Line(), D.WorldAfter(cfg, w, es), e)
    ensures D.CanAll(cfg, w, es + [e]) && SteadyRun(cfg, Line(), w, es + [e])
    ensures D.WorldAfter(cfg, w, es + [e]) == D.Happened(cfg, D.WorldAfter(cfg, w, es), e)
  {
    hide D.CanHappen, D.Happened, StoreSteady, Line;
    D.NextEvent(cfg, w, es, e);
    assert (es + [e])[..|es|] == es;
  }

  /** From nothing the events lead to w. */
  ghost predicate Comes(cfg: Config, es: seq<D.Event>, w: D.World) {
    && D.CanAll(cfg, D.Start({0, 1}), es) && SteadyRun(cfg, Line(), D.Start({0, 1}), es)
    && D.WorldAfter(cfg, D.Start({0, 1}), es) == w
  }

  lemma GoOn(cfg: Config, es: seq<D.Event>, w: D.World, e: D.Event)
    requires Comes(cfg, es, w) && D.CanHappen(cfg, w, e) && StoreSteady(Line(), w, e)
    ensures Comes(cfg, es + [e], D.Happened(cfg, w, e))
  {
    hide D.CanAll, D.WorldAfter, D.CanHappen, D.Happened, SteadyRun, StoreSteady;
    NextSteady(cfg, D.Start({0, 1}), es, e);
  }

  lemma Nothing(cfg: Config)
    ensures Comes(cfg, [], D.Start({0, 1}))
  {
  }

  /** The old leader moves. */
  lemma Moves(cfg: Config, es: seq<D.Event>, w: D.World, s: State, a: Action, t: State) returns (all: seq<D.Event>)
    requires Comes(cfg, es, w) && 0 in w.managers && w.managers[0] == s
    requires Enabled(cfg, s, a) && Do(cfg, s, a) == t && !a.Checkpoint? && !a.Takeover?
      && (a.Settle? ==> a.index == Line())
    ensures Comes(cfg, all, w.(managers := w.managers[0 := t]))
  {
    hide Comes, Enabled, Do, Line;
    GoOn(cfg, es, w, D.Move(0, a));
    all := es + [D.Move(0, a)];
  }

  lemma Reads(cfg: Config, es: seq<D.Event>, w: D.World, m: nat, sh: ShardId) returns (all: seq<D.Event>)
    requires Comes(cfg, es, w) && m in w.loads
    ensures Comes(cfg, all, w.(loads := w.loads[m := w.loads[m][sh := D.InStore(w, sh)]]))
  {
    hide Comes;
    GoOn(cfg, es, w, D.LoadKey(m, sh));
    all := es + [D.LoadKey(m, sh)];
  }

  lemma StartsReading(cfg: Config, es: seq<D.Event>, w: D.World, m: nat) returns (all: seq<D.Event>)
    requires Comes(cfg, es, w)
    ensures Comes(cfg, all, w.(loads := w.loads[m := map[]]))
  {
    hide Comes;
    GoOn(cfg, es, w, D.StartLoad(m));
    all := es + [D.StartLoad(m)];
  }

  lemma TakesOffice(cfg: Config, es: seq<D.Event>, w: D.World, m: nat, stored: map<ShardId, Mark>, c: Mark, term: int)
    returns (all: seq<D.Event>)
    requires Comes(cfg, es, w) && m in w.managers && w.managers[m] == Fresh() && m in w.loads && w.loads[m] == Marks(c)
    requires stored == (if c == Closed then map["c" := Closed] else map[]) && (c == Closed || c == Latest)
    ensures Comes(cfg, all, w.(managers := w.managers[m := InOffice(c, term)]))
  {
    TakeoverWorks(cfg, stored, c, term);
    hide Comes, Enabled, Do;
    GoOn(cfg, es, w, D.TakeOver(m, Coming(stored, term)));
    all := es + [D.TakeOver(m, Coming(stored, term))];
  }

  /** Manager 0 leads, and has given sh to a under id; nothing of sh is stored, and p and r are free. */
  ghost predicate HeldOpen(w: D.World, a: WorkerInfo, sh: ShardId, id: F.Id, p: nat, r: nat) {
    && 0 in w.managers && w.managers[0].inService && w.managers[0].Registered(a) && w.managers[0].info[a].id == "a"
    && sh in w.managers[0].info[a].assignments && w.managers[0].info[a].assignments[sh].id == id
    && w.managers[0].MarkOf(sh) == Latest && sh !in w.fence.store && sh !in w.tips
    && p !in w.processors && r !in w.fence.requests && r !in w.origins
  }

  /** p is to read sh. */
  function SpawnedBy(w: D.World, sh: ShardId, id: F.Id, p: nat): D.World {
    var g := D.Grant(sh, id, Latest);
    w.(grants := w.grants + {g}, processors := w.processors[p := D.Processor(g, None, D.Idle)])
  }

  /** It has read it to its end. */
  function ReadBy(w: D.World, sh: ShardId, id: F.Id, p: nat): D.World {
    var g := D.Grant(sh, id, Latest);
    SpawnedBy(w, sh, id, p).(
      ended := w.ended + {sh}, processors := w.processors[p := D.Processor(g, None, D.Reading(0, None, false))],
      bases := if sh in w.bases then w.bases else w.bases[sh := 0])
  }

  lemma Spawns(cfg: Config, es: seq<D.Event>, w: D.World, a: WorkerInfo, sh: ShardId, id: F.Id, p: nat, r: nat)
    returns (all: seq<D.Event>)
    requires Comes(cfg, es, w) && HeldOpen(w, a, sh, id, p, r)
    ensures Comes(cfg, all, SpawnedBy(w, sh, id, p))
  {
    hide Comes, Line;
    var g := D.Grant(sh, id, Latest);
    var e := D.HandOut(0, a, sh, id);
    GoOn(cfg, es, w, e);
    GoOn(cfg, es + [e], D.Happened(cfg, w, e), D.Spawn(p, g));
    all := es + [e] + [D.Spawn(p, g)];
  }

  lemma ReadsToEnd(cfg: Config, es: seq<D.Event>, w: D.World, a: WorkerInfo, sh: ShardId, id: F.Id, p: nat, r: nat)
    returns (all: seq<D.Event>)
    requires HeldOpen(w, a, sh, id, p, r) && Comes(cfg, es, SpawnedBy(w, sh, id, p))
    ensures Comes(cfg, all, ReadBy(w, sh, id, p))
  {
    hide Comes, Line;
    var t := SpawnedBy(w, sh, id, p);
    GoOn(cfg, es, t, D.EndShard(sh));
    var u := D.Happened(cfg, t, D.EndShard(sh));
    GoOn(cfg, es + [D.EndShard(sh)], u, D.Subscribe(p));
    all := es + [D.EndShard(sh)] + [D.Subscribe(p)];
    var reading := D.Processor(D.Grant(sh, id, Latest), None, D.Reading(0, None, false));
    assert t.processors[p := reading] == w.processors[p := reading];
  }

  /** ... and its CLOSED checkpoint has been sent and committed. */
  function ClosedBy(w: D.World, sh: ShardId, id: F.Id, p: nat, r: nat): D.World {
    var g := D.Grant(sh, id, Latest);
    var n := |w.fence.log|;
    w.(processors := w.processors[p := D.Processor(g, None, D.Waiting(0, None))],
       origins := w.origins[r := D.Origin(0, "a")],
       fence := F.Fence(w.fence.store[sh := F.Entry(F.Text(id), Closed)],
                        w.fence.requests[r := F.Request(sh, id, Closed, 2, F.Accepted, n, n)],
                        w.fence.log + [F.Commit(r, sh, id, Closed)]))
  }

  lemma SendsClosed(cfg: Config, es: seq<D.Event>, w: D.World, a: WorkerInfo, sh: ShardId, id: F.Id, p: nat, r: nat)
    returns (all: seq<D.Event>)
    requires HeldOpen(w, a, sh, id, p, r) && w.managers[0].workers == map["a" := a]
      && Comes(cfg, es, ReadBy(w, sh, id, p))
    ensures var u := ReadBy(w, sh, id, p);
      var g := D.Grant(sh, id, Latest);
      Comes(cfg, all, u.(processors := u.processors[p := D.Processor(g, None, D.Waiting(0, None))],
                         origins := u.origins[r := D.Origin(0, "a")],
                         fence := u.fence.(
                           requests := u.fence.requests[r := F.Request(sh, id, Closed, 0, F.Trying, 0, 0)])))
  {
    hide Comes, Line;
    var u := ReadBy(w, sh, id, p);
    assert OwnedUnder(w.managers[0], "a", sh, id);
    hide OwnedUnder;
    var e := D.Send(p, r, D.Origin(0, "a"), Closed);
    GoOn(cfg, es, u, e);
    all := es + [e];
  }

  lemma Commits(cfg: Config, es: seq<D.Event>, w: D.World, sh: ShardId, id: F.Id, r: nat) returns (all: seq<D.Event>)
    requires Comes(cfg, es, w) && sh !in w.fence.store && r in w.fence.requests
    requires w.fence.requests[r] == F.Request(sh, id, Closed, 0, F.Trying, 0, 0)
    ensures var n := |w.fence.log|;
      Comes(cfg, all, w.(fence := F.Fence(w.fence.store[sh := F.Entry(F.Text(id), Closed)],
                                          w.fence.requests[r := F.Request(sh, id, Closed, 2, F.Accepted, n, n)],
                                          w.fence.log + [F.Commit(r, sh, id, Closed)])))
  {
    hide Comes, Line, F.Text;
    var e := D.Transact(F.Try(r));
    GoOn(cfg, es, w, e);
    var t := D.Happened(cfg, w, e);
    var n := |w.fence.log|;
    assert t.fence.requests[r] == F.Request(sh, id, Closed, 1, F.Trying, n, n);
    GoOn(cfg, es + [e], t, e);
    all := es + [e] + [e];
    var done := F.Request(sh, id, Closed, 2, F.Accepted, n, n);
    assert t.fence.requests[r := done] == w.fence.requests[r := done];
  }

  lemma Closes(cfg: Config, es: seq<D.Event>, w: D.World, a: WorkerInfo, sh: ShardId, id: F.Id, p: nat, r: nat)
    returns (all: seq<D.Event>)
    requires Comes(cfg, es, w) && HeldOpen(w, a, sh, id, p, r) && w.managers[0].workers == map["a" := a]
    ensures Comes(cfg, all, ClosedBy(ReadBy(w, sh, id, p), sh, id, p, r))
  {
    hide Comes, F.Text;
    all := Spawns(cfg, es, w, a, sh, id, p, r);
    all := ReadsToEnd(cfg, all, w, a, sh, id, p, r);
    all := SendsClosed(cfg, all, w, a, sh, id, p, r);
    var u := ReadBy(w, sh, id, p);
    var v := u.(processors := u.processors[p := D.Processor(D.Grant(sh, id, Latest), None, D.Waiting(0, None))],
                origins := u.origins[r := D.Origin(0, "a")],
                fence := u.fence.(requests := u.fence.requests[r := F.Request(sh, id, Closed, 0, F.Trying, 0, 0)]));
    all := Commits(cfg, all, v, sh, id, r);
    var done := F.Request(sh, id, Closed, 2, F.Accepted, |w.fence.log|, |w.fence.log|);
    assert v.fence.requests[r := done] == u.fence.requests[r := done];
  }

  /** The manager records it. */
  lemma Finishes(cfg: Config, es: seq<D.Event>, w: D.World, a: WorkerInfo, sh: ShardId, id: F.Id, r: nat)
    returns (all: seq<D.Event>)
    requires Comes(cfg, es, w) && 0 in w.managers && w.managers[0].Registered(a)
      && w.managers[0].workers == map["a" := a]
    requires sh in w.managers[0].info[a].assignments && w.managers[0].info[a].assignments[sh].id == id
      && r !in w.finished
    requires r in w.fence.requests && r in w.origins && w.origins[r] == D.Origin(0, "a")
    requires var q := w.fence.requests[r]; q.shard == sh && q.id == id && q.mark == Closed && q.outcome == F.Accepted
    ensures Comes(cfg, all, w.(managers := w.managers[0 := AfterCheckpoint(w.managers[0], a, sh, Closed)],
                               finished := w.finished + {r}))
  {
    hide Comes, Line, AfterCheckpoint;
    GoOn(cfg, es, w, D.Finish(r));
    all := es + [D.Finish(r)];
  }

  // ---------- The whole run ----------

  /** Manager 1 is not in service and has read p, which was open. */
  ghost predicate HalfRead(w: D.World) {
    w.managers.Keys == {0, 1} && w.managers[1] == Fresh() && 1 in w.loads && w.loads[1] == map["p" := Latest]
      && w.tips == map[]
  }

  /** What has been closed, under these ids, each by one processor and one request. */
  ghost predicate Stored(w: D.World, ids: map<ShardId, F.Id>, n: nat) {
    && w.fence.store == (map sh | sh in ids :: F.Entry(F.Text(ids[sh]), Closed))
    && (forall k :: k in w.fence.requests || k in w.origins || k in w.processors || k in w.finished ==> k < n)
  }

  /** All three checkpoints are read by manager 0 ... */
  lemma ReachLoaded(cfg: Config) returns (es: seq<D.Event>, w: D.World)
    ensures Comes(cfg, es, w) && w == D.Start({0, 1}).(loads := map[0 := Marks(Latest)])
  {
    var start := D.Start({0, 1});
    Nothing(cfg);
    hide Comes;
    es := StartsReading(cfg, [], start, 0);
    es := Reads(cfg, es, start.(loads := map[0 := map[]]), 0, "p");
    w := start.(loads := map[0 := map["p" := Latest]]);
    assert map[0 := map[]][0 := map[]["p" := Latest]] == w.loads;
    es := Reads(cfg, es, w, 0, "c");
    w := w.(loads := w.loads[0 := w.loads[0]["c" := Latest]]);
    es := Reads(cfg, es, w, 0, "d");
    w := w.(loads := w.loads[0 := w.loads[0]["d" := Latest]]);
    assert w.loads == map[0 := Marks(Latest)];
  }

  /** ... which takes over. */
  lemma ReachFirst(cfg: Config) returns (es: seq<D.Event>, w: D.World)
    ensures Comes(cfg, es, w) && w.managers == map[0 := InOffice(Latest, 1), 1 := Fresh()] && Stored(w, map[], 0)
      && w.tips == map[]
  {
    es, w := ReachLoaded(cfg);
    assert Stored(w, map[], 0);
    hide Comes, InOffice;
    es := TakesOffice(cfg, es, w, 0, map[], Latest, 1);
    w := w.(managers := w.managers[0 := InOffice(Latest, 1)]);
  }

  /** A worker takes p; manager 1 reads p's checkpoint. */
  lemma ReachParent(cfg: Config, a: WorkerInfo) returns (es: seq<D.Event>, w: D.World)
    ensures Comes(cfg, es, w) && HalfRead(w) && w.managers[0] == Parent(a) && Stored(w, map[], 0)
  {
    hide Comes, InOffice, Parent;
    es, w := ReachFirst(cfg);
    es := TakesParent(cfg, es, w, a);
    w := w.(managers := w.managers[0 := Parent(a)]);
    es, w := ReadParent(cfg, es, w);
  }

  lemma TakesParent(cfg: Config, es: seq<D.Event>, w: D.World, a: WorkerInfo) returns (all: seq<D.Event>)
    requires Comes(cfg, es, w) && 0 in w.managers && w.managers[0] == InOffice(Latest, 1)
    ensures Comes(cfg, all, w.(managers := w.managers[0 := Parent(a)]))
  {
    hide Comes, InOffice, Joined, Listed, Parent, Enabled, Do;
    JoinWorks(cfg, a);
    ParentWorks(cfg, a);
    all := Moves(cfg, es, w, InOffice(Latest, 1), Register("a", a, 0), Joined(a));
    var v := w.(managers := w.managers[0 := Joined(a)]);
    all := Moves(cfg, all, v, Joined(a), Enlist(a), Listed(a));
    v := v.(managers := v.managers[0 := Listed(a)]);
    all := Moves(cfg, all, v, Listed(a), Take(a), Parent(a));
    assert v.managers[0 := Parent(a)] == w.managers[0 := Parent(a)];
  }

  lemma ReadParent(cfg: Config, es: seq<D.Event>, w: D.World) returns (all: seq<D.Event>, v: D.World)
    requires Comes(cfg, es, w) && Stored(w, map[], 0)
    ensures Comes(cfg, all, v) && v == w.(loads := w.loads[1 := map["p" := Latest]])
  {
    hide Comes;
    all := StartsReading(cfg, es, w, 1);
    v := w.(loads := w.loads[1 := map[]]);
    all := Reads(cfg, all, v, 1, "p");
    v := v.(loads := v.loads[1 := v.loads[1]["p" := Latest]]);
    assert v.loads == w.loads[1 := map["p" := Latest]];
  }

  /** a's shard is closed. */
  lemma CloseHeld(cfg: Config, es: seq<D.Event>, w: D.World, a: WorkerInfo, sh: ShardId, id: F.Id,
                  ids: map<ShardId, F.Id>, n: nat)
    returns (all: seq<D.Event>, v: D.World)
    requires Comes(cfg, es, w) && HalfRead(w) && Stored(w, ids, n) && sh !in ids
    requires var s := w.managers[0];
      && s.inService && s.workers == map["a" := a] && s.Registered(a) && s.info[a].id == "a"
      && sh in s.info[a].assignments && s.info[a].assignments[sh].id == id && s.MarkOf(sh) == Latest
    ensures Comes(cfg, all, v) && HalfRead(v) && v.managers == w.managers && Stored(v, ids[sh := id], n + 1)
    ensures n !in v.finished && n in v.fence.requests && n in v.origins && v.origins[n] == D.Origin(0, "a")
    ensures var q := v.fence.requests[n]; q.shard == sh && q.id == id && q.mark == Closed && q.outcome == F.Accepted
  {
    hide Comes, F.Text;
    assert HeldOpen(w, a, sh, id, n, n);
    all := Closes(cfg, es, w, a, sh, id, n, n);
    StoredMore(w, sh, id, ids, n);
    hide Stored, HeldOpen;
    v := ClosedBy(ReadBy(w, sh, id, n), sh, id, n, n);
  }

  lemma StoredMore(w: D.World, sh: ShardId, id: F.Id, ids: map<ShardId, F.Id>, n: nat)
    requires Stored(w, ids, n) && sh !in ids
    ensures Stored(ClosedBy(ReadBy(w, sh, id, n), sh, id, n, n), ids[sh := id], n + 1)
  {
    hide F.Text;
  }

  lemma ParentFacts(a: WorkerInfo)
    ensures var s := Parent(a);
      && s.inService && s.workers == map["a" := a] && s.Registered(a) && s.info[a].id == "a"
      && "p" in s.info[a].assignments && s.info[a].assignments["p"].id == 1 && s.MarkOf("p") == Latest
  {
  }

  lemma ChildFacts(a: WorkerInfo)
    ensures var s := Child(a);
      && s.inService && s.workers == map["a" := a] && s.Registered(a) && s.info[a].id == "a"
      && "c" in s.info[a].assignments && s.info[a].assignments["c"].id == 2 && s.MarkOf("c") == Latest
  {
  }

  /** p is closed, and a takes c. */
  lemma ReachChild(cfg: Config, a: WorkerInfo) returns (es: seq<D.Event>, w: D.World)
    ensures Comes(cfg, es, w) && HalfRead(w) && w.managers[0] == Child(a) && Stored(w, map["p" := 1], 1)
  {
    hide Comes, Parent, ParentDone, Child, Enabled, Do, F.Text, AfterCheckpoint, Line;
    es, w := ReachParent(cfg, a);
    ParentFacts(a);
    es, w := CloseHeld(cfg, es, w, a, "p", 1, map[], 0);
    es := Finishes(cfg, es, w, a, "p", 1, 0);
    var noted := AfterCheckpoint(Parent(a), a, "p", Closed);
    w := w.(managers := w.managers[0 := noted], finished := w.finished + {0});
    SettleWorks(cfg, a);
    es := Moves(cfg, es, w, noted, Settle(Line(), ["c"]), ParentDone(a));
    w := w.(managers := w.managers[0 := ParentDone(a)]);
    ChildWorks(cfg, a);
    es := Moves(cfg, es, w, ParentDone(a), Take(a), Child(a));
    w := w.(managers := w.managers[0 := Child(a)]);
  }

  /** c is closed, manager 1 reads on, and takes over. */
  lemma ReachLate(cfg: Config, a: WorkerInfo) returns (es: seq<D.Event>, w: D.World)
    ensures Comes(cfg, es, w) && 1 in w.managers && w.managers[1] == InOffice(Closed, 3)
  {
    hide Comes, Child, InOffice, Enabled, Do, F.Text, Line;
    es, w := ReachChild(cfg, a);
    ChildFacts(a);
    es, w := CloseHeld(cfg, es, w, a, "c", 2, map["p" := 1], 1);
    assert D.InStore(w, "c") == Closed && D.InStore(w, "d") == Latest;
    es := Reads(cfg, es, w, 1, "c");
    w := w.(loads := w.loads[1 := w.loads[1]["c" := Closed]]);
    assert D.InStore(w, "d") == Latest;
    es := Reads(cfg, es, w, 1, "d");
    w := w.(loads := w.loads[1 := w.loads[1]["d" := Latest]]);
    assert w.loads[1] == Marks(Closed);
    es := TakesOffice(cfg, es, w, 1, map["c" := Closed], Closed, 3);
    w := w.(managers := w.managers[1 := InOffice(Closed, 3)]);
  }

  /** From nothing stored, with a complete lineage and a store that keeps what is CLOSED: the store is in order, but the
      new leader, with no close to settle, does not have the frontier for its live set. */
  lemma ReadTooLate(cfg: Config, a: WorkerInfo) returns (es: seq<D.Event>)
    ensures Line().Complete()
    ensures D.CanAll(cfg, D.Start({0, 1}), es) && SteadyRun(cfg, Line(), D.Start({0, 1}), es)
    ensures var w := D.WorldAfter(cfg, D.Start({0, 1}), es);
      && ShutOk(Line(), StoreShut(w.fence.store))
      && 1 in w.managers && w.managers[1].inService && w.managers[1].closed == []
      && w.managers[1].live != Front(Line(), ShutOf(w.managers[1]))
  {
    var w;
    LineComplete();
    es, w := ReachLate(cfg, a);
    StoreInOrder(cfg, Line(), {0, 1}, es);
    LateFront();
    hide D.CanAll, D.WorldAfter, SteadyRun, ShutOk, StoreShut, Index.Complete, Line, Front, ShutOf, InOffice;
  }

  lemma LineComplete()
    ensures Line().Complete()
  {
  }

  lemma LateFront()
    ensures InOffice(Closed, 3).inService && InOffice(Closed, 3).closed == []
    ensures InOffice(Closed, 3).live != Front(Line(), ShutOf(InOffice(Closed, 3)))
  {
    assert ShutOf(InOffice(Closed, 3)) == {"c"};
    assert "d" in Front(Line(), {"c"});
  }
}
