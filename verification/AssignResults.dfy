/** What one assign call comes to: a run of moves, and what is left afterwards. */
module AssignResults {
  import opened Finite
  import opened Lineage
  import opened WorkerRecord
  import opened ManagerModel
  import opened Conservation
  import opened ManagerRuns
  import opened Expiry
  import opened Rebalancing
  import opened GracePeriod
  import opened Frontier
  import opened AssignCalls

  /** A move of an assign call made at at, under the lineage index. */
  ghost predicate CallMove(index: Index, at: int, a: Action) {
    match a
    case Settle(i, _) => i == index
    case Checkpoint(_, _, _, _) => false
    case Takeover(_, _, _, _, _) => false
    case Retire => false
    case _ => TimeOf(a).None? || TimeOf(a).value == at
  }

  /** acts lead from s to t, orderly, by moves of one call. */
  ghost predicate Part(cfg: Config, index: Index, at: int, s: State, t: State, acts: seq<Action>) {
    CanRun(cfg, s, acts) && t == Run(cfg, s, acts) && Along(cfg, s, acts, Orderly) &&
    forall i :: 0 <= i < |acts| ==> CallMove(index, at, acts[i])
  }

  lemma {:induction false} AlongJoin(cfg: Config, s: State, acts: seq<Action>, more: seq<Action>,
                                     g: (State, Action) -> bool)
    requires CanRun(cfg, s, acts) && CanRun(cfg, Run(cfg, s, acts), more)
    requires Along(cfg, s, acts, g) && Along(cfg, Run(cfg, s, acts), more, g)
    ensures CanRun(cfg, s, acts + more) && Along(cfg, s, acts + more, g)
    decreases |more|
  {
    hide Enabled, Do;
    RunJoin(cfg, s, acts, more);
    if more == [] {
      assert acts + more == acts;
    } else {
      var front := more[..|more| - 1];
      AlongJoin(cfg, s, acts, front, g);
      RunJoin(cfg, s, acts, front);
      assert (acts + more)[..|acts + more| - 1] == acts + front;
    }
  }

  lemma PartJoin(cfg: Config, index: Index, at: int, s: State, t: State, u: State, acts: seq<Action>, more: seq<Action>)
    requires Part(cfg, index, at, s, t, acts) && Part(cfg, index, at, t, u, more)
    ensures Part(cfg, index, at, s, u, acts + more)
  {
    hide CanRun, Run, Along, CallMove;
    RunJoin(cfg, s, acts, more);
    AlongJoin(cfg, s, acts, more, Orderly);
  }

  lemma PartOne(cfg: Config, index: Index, at: int, s: State, a: Action)
    requires Enabled(cfg, s, a) && CallMove(index, at, a) && !a.Expire?
    ensures Part(cfg, index, at, s, Do(cfg, s, a), [a])
  {
    assert Orderly(s, a);
    hide Enabled, Do, CallMove;
    RunMore(cfg, s, [], a, Orderly);
    assert [] + [a] == [a];
  }

  lemma {:induction false} OrderlyRun(cfg: Config, s: State, acts: seq<Action>)
    requires CanRun(cfg, s, acts) && forall i :: 0 <= i < |acts| ==> !acts[i].Expire? && !acts[i].Checkpoint?
    ensures Along(cfg, s, acts, Orderly)
    decreases |acts|
  {
    hide Enabled, Do;
    if acts != [] {
      OrderlyRun(cfg, s, acts[..|acts| - 1]);
      assert Orderly(Run(cfg, s, acts[..|acts| - 1]), acts[|acts| - 1]);
    }
  }

  /** Serving moves leave the registry, the live set, the checkpoints and the worklist alone. */
  ghost predicate Framed(s: State, t: State) {
    SameRegistry(s, t) && t == s.(info := t.info, counts := t.counts, nextOffset := t.nextOffset, pool := t.pool)
    && s.counts.Keys <= t.counts.Keys
  }

  lemma {:induction false} ServingRun(cfg: Config, s: State, acts: seq<Action>)
    requires CanRun(cfg, s, acts) && forall i :: 0 <= i < |acts| ==> ServingMove(acts[i])
    ensures Framed(s, Run(cfg, s, acts))
    decreases |acts|
  {
    hide Enabled, Do;
    if acts != [] {
      var front := acts[..|acts| - 1];
      ServingRun(cfg, s, front);
      MoveRegistry(cfg, Run(cfg, s, front), acts[|acts| - 1]);
      ServingFrame(cfg, Run(cfg, s, front), acts[|acts| - 1]);
    }
  }

  lemma FramedAdmitted(s: State, t: State, w: WorkerInfo, at: int)
    requires Framed(s, t) && s.Registered(w) && s.inService && s.info[w].heartbeat == at
    ensures t.Registered(w) && t.inService && t.info[w].heartbeat == at && t.live == s.live && ShutOf(t) == ShutOf(s)
    ensures t.closed == s.closed && t.deferred == s.deferred && t.workers == s.workers
  {
  }

  // ---------- Phase by phase ----------

  lemma ReleasePart(cfg: Config, index: Index, at: int, s: State, t: State, acts: seq<Action>)
    requires ReleasePhase(cfg, s, t, at, acts)
    ensures Part(cfg, index, at, s, t, acts)
  {
    hide CanRun, Run, Along;
  }

  lemma SettlePart(cfg: Config, index: Index, at: int, s: State, t: State, acts: seq<Action>)
    requires SettlePhase(cfg, index, s, t, acts)
    ensures Part(cfg, index, at, s, Ended(t), acts + [EndSettle])
  {
    assert Part(cfg, index, at, s, t, acts) by { hide CanRun, Run, Along; }
    PartOne(cfg, index, at, t, EndSettle);
    assert Do(cfg, t, EndSettle) == Ended(t);
    hide Part, Settling, Run;
    PartJoin(cfg, index, at, s, t, Ended(t), acts, [EndSettle]);
  }

  lemma ResolvePart(cfg: Config, index: Index, at: int, s: State, t: State, id: WorkerId, w: WorkerInfo)
    requires Resolves(s, t, id, w, at) && s.inService
    ensures Part(cfg, index, at, s, t, [Register(id, w, at)])
  {
    PartOne(cfg, index, at, s, Register(id, w, at));
    hide Part;
  }

  lemma ClaimPart(cfg: Config, index: Index, at: int, s: State, t: State, w: WorkerInfo, claims: seq<Action>)
    returns (acts: seq<Action>)
    requires Claiming(cfg, s, t, w, at, claims) && s.Registered(w) && s.inService && s.info[w].heartbeat == at
    ensures Part(cfg, index, at, s, t, acts) && Framed(s, t)
  {
    var u := Run(cfg, s, claims);
    OrderlyRun(cfg, s, claims);
    ServingRun(cfg, s, claims);
    assert Part(cfg, index, at, s, u, claims) by { hide CanRun, Run, Along; }
    if Due(cfg, s, w, at) {
      FramedAdmitted(s, u, w, at);
      ServingEnabled(cfg, u, DropOffer(w));
      PartOne(cfg, index, at, u, DropOffer(w));
      assert Framed(s, t);
      acts := claims + [DropOffer(w)];
      hide Part, Run, CanRun, Along;
      PartJoin(cfg, index, at, s, u, t, claims, [DropOffer(w)]);
    } else {
      acts := claims;
    }
  }

  lemma TakePart(cfg: Config, index: Index, at: int, s: State, t: State, w: WorkerInfo, takes: seq<Action>)
    requires Taking(cfg, s, t, w, takes)
    ensures Part(cfg, index, at, s, t, takes) && Framed(s, t)
  {
    OrderlyRun(cfg, s, takes);
    ServingRun(cfg, s, takes);
    hide CanRun, Run, Along, Framed;
  }

  lemma {:induction false} StealTimes(cfg: Config, s: State, w: WorkerInfo, at: int, steals: seq<Action>)
    requires CanRun(cfg, s, steals) && Steals(steals, w) && s.Registered(w) && s.inService && s.info[w].heartbeat == at
    ensures forall i :: 0 <= i < |steals| ==> steals[i].at == at
    decreases |steals|
  {
    if steals != [] {
      var front := steals[..|steals| - 1];
      StealTimes(cfg, s, w, at, front);
      ServingRun(cfg, s, front);
      FramedAdmitted(s, Run(cfg, s, front), w, at);
      assert forall i :: 0 <= i < |front| ==> steals[i] == front[i];
    }
  }

  lemma StealPart(cfg: Config, index: Index, at: int, s: State, t: State, w: WorkerInfo, steals: seq<Action>)
    requires StealPhase(cfg, s, t, w, steals) && s.Registered(w) && s.inService && s.info[w].heartbeat == at
    ensures Part(cfg, index, at, s, t, steals) && Framed(s, t)
  {
    OrderlyRun(cfg, s, steals);
    ServingRun(cfg, s, steals);
    StealTimes(cfg, s, w, at, steals);
    hide CanRun, Run, Along, Framed;
  }

  lemma EnlistFramed(s: State, w: WorkerInfo)
    requires w in s.info
    ensures Framed(s, AfterEnlist(s, w))
  {
  }

  lemma FramedJoin(s: State, t: State, u: State)
    requires Framed(s, t) && Framed(t, u)
    ensures Framed(s, u)
  {
  }

  /** Claiming and taking, from the moment w is listed. */
  lemma FilledPart(cfg: Config, index: Index, s: State, t: State, w: WorkerInfo, maxShards: int, at: int, turn: Turn)
    returns (acts: seq<Action>)
    requires Filled(cfg, s, t, w, maxShards, at, turn) && s.Registered(w) && s.inService && s.info[w].heartbeat == at
    ensures Part(cfg, index, at, s, t, acts) && Framed(s, t)
  {
    hide Part, Framed, Claiming, Taking, State.Registered;
    acts := ClaimPart(cfg, index, at, s, turn.claimed, w, turn.claims);
    TakePart(cfg, index, at, turn.claimed, t, w, turn.takes);
    PartJoin(cfg, index, at, s, turn.claimed, t, acts, turn.takes);
    FramedJoin(s, turn.claimed, t);
    acts := acts + turn.takes;
  }

  lemma ServePart(cfg: Config, index: Index, s: State, t: State, w: WorkerInfo, maxShards: int, at: int, turn: Turn)
    returns (acts: seq<Action>)
    requires ServePhase(cfg, s, t, w, maxShards, at, turn) && s.Registered(w) && s.inService
      && s.info[w].heartbeat == at
    ensures Part(cfg, index, at, s, t, acts) && Framed(s, t)
  {
    PartOne(cfg, index, at, s, Enlist(w));
    EnlistFramed(s, w);
    var e := AfterEnlist(s, w);
    FramedAdmitted(s, e, w, at);
    hide Part, Framed, Filled, StealPhase, State.Registered;
    acts := FilledPart(cfg, index, e, turn.taken, w, maxShards, at, turn);
    PartJoin(cfg, index, at, s, e, turn.taken, [Enlist(w)], acts);
    FramedJoin(s, e, turn.taken);
    acts := [Enlist(w)] + acts;
    if turn.taken.info[w].active == s.info[w].active && turn.taken.info[w].offer == None {
      FramedAdmitted(s, turn.taken, w, at);
      StealPart(cfg, index, at, turn.taken, t, w, turn.steals);
      PartJoin(cfg, index, at, s, turn.taken, t, acts, turn.steals);
      FramedJoin(s, turn.taken, t);
      acts := acts + turn.steals;
    }
  }

  /** The requester is registered, and was heard from just now. */
  lemma ResolvedFacts(s: State, t: State, id: WorkerId, w: WorkerInfo, at: int)
    requires Resolves(s, t, id, w, at) && Named(s)
    ensures t.Registered(w) && t.info[w].heartbeat == at && t.info[w].id == id && t.inService == s.inService
    ensures t.live == s.live && t.checkpoints == s.checkpoints && t.closed == s.closed && t.deferred == s.deferred
    ensures t.workers == s.workers[id := w] && (id in s.workers ==> w == s.workers[id])
  {
  }

  lemma PartNamed(cfg: Config, index: Index, at: int, s: State, t: State, acts: seq<Action>)
    requires Part(cfg, index, at, s, t, acts) && Named(s) && Beating(s)
    ensures Named(t) && Beating(t)
  {
    NamedRun(cfg, s, acts);
  }

  lemma {:induction false} NamedRun(cfg: Config, s: State, acts: seq<Action>)
    requires CanRun(cfg, s, acts) && Named(s) && Beating(s)
    ensures Named(Run(cfg, s, acts)) && Beating(Run(cfg, s, acts))
    decreases |acts|
  {
    hide Named, Beating, Enabled, Do;
    if acts != [] {
      NamedRun(cfg, s, acts[..|acts| - 1]);
      MoveNamed(cfg, Run(cfg, s, acts[..|acts| - 1]), acts[|acts| - 1]);
    }
  }

  /** The first half of a call: up to the registration of the requester. */
  lemma PreparedPart(cfg: Config, index: Index, s: State, t: State, id: WorkerId, w: WorkerInfo, maxShards: int,
                     at: int, turn: Turn)
    returns (acts: seq<Action>)
    requires Answers(cfg, index, s, t, id, w, maxShards, at, turn) && Named(s) && Beating(s)
    ensures Part(cfg, index, at, s, turn.resolved, acts) && Ended(turn.settled).inService
    ensures Part(cfg, index, at, s, turn.settled, turn.expiries + turn.settlings)
    ensures Named(Ended(turn.settled)) && Beating(Ended(turn.settled))
  {
    assert Ended(turn.settled).inService;
    assert Part(cfg, index, at, turn.released, turn.settled, turn.settlings) by { hide CanRun, Run, Along; }
    hide Part, ReleasePhase, SettlePhase, ServePhase, Resolves, Named, Beating, Ended;
    ReleasePart(cfg, index, at, s, turn.released, turn.expiries);
    PartJoin(cfg, index, at, s, turn.released, turn.settled, turn.expiries, turn.settlings);
    SettlePart(cfg, index, at, turn.released, turn.settled, turn.settlings);
    acts := turn.expiries + (turn.settlings + [EndSettle]);
    PartJoin(cfg, index, at, s, turn.released, Ended(turn.settled), turn.expiries, turn.settlings + [EndSettle]);
    PartNamed(cfg, index, at, s, Ended(turn.settled), acts);
    ResolvePart(cfg, index, at, Ended(turn.settled), turn.resolved, id, w);
    PartJoin(cfg, index, at, s, Ended(turn.settled), turn.resolved, acts, [Register(id, w, at)]);
    acts := acts + [Register(id, w, at)];
  }

  /** Every assign call is an orderly run of moves made at the time of the call. */
  lemma AnswerRuns(cfg: Config, index: Index, s: State, t: State, id: WorkerId, w: WorkerInfo, maxShards: int, at: int,
                   turn: Turn)
    returns (acts: seq<Action>)
    requires Answers(cfg, index, s, t, id, w, maxShards, at, turn) && Named(s) && Beating(s)
    ensures CanRun(cfg, s, acts) && t == Run(cfg, s, acts) && Along(cfg, s, acts, Orderly)
    ensures forall i :: 0 <= i < |acts| ==> CallMove(index, at, acts[i])
    ensures turn.resolved.Registered(w) && Framed(turn.resolved, t)
  {
    acts := PreparedPart(cfg, index, s, t, id, w, maxShards, at, turn);
    AnswerParts(cfg, index, s, t, id, w, maxShards, at, turn);
    hide Answers, Part, Framed, ServePhase, Named, Beating, Resolves, Ended, CanRun, Run, Along, CallMove;
    ResolvedFacts(Ended(turn.settled), turn.resolved, id, w, at);
    if maxShards == 0 {
      FramedNone(t);
    } else {
      var more := ServePart(cfg, index, turn.resolved, t, w, maxShards, at, turn);
      PartJoin(cfg, index, at, s, turn.resolved, t, acts, more);
      acts := acts + more;
    }
    PartRuns(cfg, index, at, s, t, acts);
  }

  lemma FramedNone(s: State)
    ensures Framed(s, s)
  {
  }

  lemma PartRuns(cfg: Config, index: Index, at: int, s: State, t: State, acts: seq<Action>)
    requires Part(cfg, index, at, s, t, acts)
    ensures CanRun(cfg, s, acts) && t == Run(cfg, s, acts) && Along(cfg, s, acts, Orderly)
    ensures forall i :: 0 <= i < |acts| ==> CallMove(index, at, acts[i])
  {
  }

  // ---------- Who is left ----------

  lemma {:induction false} SettlingRegistry(cfg: Config, s: State, acts: seq<Action>)
    requires CanRun(cfg, s, acts) && forall i :: 0 <= i < |acts| ==> acts[i].Settle?
    ensures SameRegistry(s, Run(cfg, s, acts))
    decreases |acts|
  {
    hide Enabled, Do;
    if acts != [] {
      SettlingRegistry(cfg, s, acts[..|acts| - 1]);
      MoveRegistry(cfg, Run(cfg, s, acts[..|acts| - 1]), acts[|acts| - 1]);
    }
  }

  lemma EndedRegistry(cfg: Config, index: Index, s: State, t: State, acts: seq<Action>)
    requires SettlePhase(cfg, index, s, t, acts)
    ensures Ended(t).workers == s.workers
  {
    SettlingRegistry(cfg, s, acts);
    hide CanRun, Run, Along;
  }

  lemma ReleasedWorkers(cfg: Config, s: State, t: State, at: int, acts: seq<Action>)
    requires ReleasePhase(cfg, s, t, at, acts) && Named(s) && Beating(s)
    ensures forall u :: u in t.workers <==> u in s.workers && !Silent(cfg, s, u, at)
    ensures forall u :: u in t.workers ==> t.workers[u] == s.workers[u]
  {
    hide CanRun, Run, Along, Named, Beating, ReleaseStops, Silent;
    ExpiryExact(cfg, s, at, acts);
  }

  /** After an assign call exactly the workers heard from recently enough are registered, as the objects they
      were, and the requester: as the object it was, or as a new one if it had been silent for too long. */
  lemma AnswerKeeps(cfg: Config, index: Index, s: State, t: State, id: WorkerId, w: WorkerInfo, maxShards: int,
                    at: int, turn: Turn)
    requires Answers(cfg, index, s, t, id, w, maxShards, at, turn) && Named(s) && Beating(s)
    ensures forall u :: u in t.workers <==>
      u == id || (u in s.workers && at - s.info[s.workers[u]].heartbeat < cfg.inactivityTimeout)
    ensures forall u :: u in t.workers && u in s.workers
                        && (u != id || at - s.info[s.workers[u]].heartbeat < cfg.inactivityTimeout) ==>
      t.workers[u] == s.workers[u]
    ensures t.Registered(w) && t.workers[id] == w && t.info[w].heartbeat == at
  {
    hide Answers, Named, Beating, Part, ReleasePhase, SettlePhase, Resolves, Silent, CanRun, Run, Along, Ended, Framed;
    var acts := AnswerRuns(cfg, index, s, t, id, w, maxShards, at, turn);
    acts := PreparedPart(cfg, index, s, t, id, w, maxShards, at, turn);
    AnswerParts(cfg, index, s, t, id, w, maxShards, at, turn);
    ResolvedFacts(Ended(turn.settled), turn.resolved, id, w, at);
    ReleasedWorkers(cfg, s, turn.released, at, turn.expiries);
    EndedRegistry(cfg, index, turn.released, turn.settled, turn.settlings);
    FramedAdmitted(turn.resolved, t, w, at);
    forall u | u in s.workers
      ensures s.workers[u] in s.info
      ensures Silent(cfg, s, u, at) <==> at - s.info[s.workers[u]].heartbeat >= cfg.inactivityTimeout {
      SilentIs(cfg, s, u, at);
    }
  }

  lemma SilentIs(cfg: Config, s: State, u: WorkerId, at: int)
    requires Named(s) && u in s.workers
    ensures s.workers[u] in s.info
    ensures Silent(cfg, s, u, at) <==> at - s.info[s.workers[u]].heartbeat >= cfg.inactivityTimeout
  {
  }

  lemma AnswerParts(cfg: Config, index: Index, s: State, t: State, id: WorkerId, w: WorkerInfo, maxShards: int,
                    at: int, turn: Turn)
    requires Answers(cfg, index, s, t, id, w, maxShards, at, turn)
    ensures ReleasePhase(cfg, s, turn.released, at, turn.expiries)
    ensures SettlePhase(cfg, index, turn.released, turn.settled, turn.settlings)
    ensures Resolves(Ended(turn.settled), turn.resolved, id, w, at) && Ended(turn.settled).inService
    ensures if maxShards == 0 then t == turn.resolved else ServePhase(cfg, turn.resolved, t, w, maxShards, at, turn)
  {
    hide CanRun, Run, Along, Resolves;
  }

  // ---------- The live set ----------

  lemma FaithfulMore(cfg: Config, index: Index, s: State, acts: seq<Action>, a: Action)
    requires FromTakeover(cfg, index, s, acts) && Enabled(cfg, Run(cfg, s, acts), a)
      && Faithful(index, Run(cfg, s, acts), a)
    ensures FromTakeover(cfg, index, s, acts + [a])
  {
    hide Enabled, Do, Faithful;
    assert (acts + [a])[..|acts|] == acts;
  }

  lemma {:induction false} FromTakeoverCall(cfg: Config, index: Index, at: int, s: State, before: seq<Action>,
                                            t: State, acts: seq<Action>)
    requires FromTakeover(cfg, index, s, before) && Part(cfg, index, at, Run(cfg, s, before), t, acts)
    ensures FromTakeover(cfg, index, s, before + acts) && Run(cfg, s, before + acts) == t
    decreases |acts|
  {
    hide Enabled, Do, FromTakeover, CanRun, Run, Part, Faithful, CallMove, Orderly;
    FromTakeoverRuns(cfg, index, s, before);
    if acts == [] {
      PartNone(cfg, index, at, Run(cfg, s, before), t);
      assert before + acts == before;
    } else {
      var front := acts[..|acts| - 1];
      var a := acts[|acts| - 1];
      var u := PartLast(cfg, index, at, Run(cfg, s, before), t, acts);
      FromTakeoverCall(cfg, index, at, s, before, u, front);
      FromTakeoverRuns(cfg, index, s, before + front);
      CallFaithful(index, at, u, a);
      FaithfulMore(cfg, index, s, before + front, a);
      FromTakeoverRuns(cfg, index, s, before + front + [a]);
      RunStep(cfg, s, before + front, a);
      assert before + front + [a] == before + acts;
    }
  }

  lemma PartNone(cfg: Config, index: Index, at: int, s: State, t: State)
    requires Part(cfg, index, at, s, t, [])
    ensures t == s
  {
  }

  /** The last move of a part, split off. */
  lemma PartLast(cfg: Config, index: Index, at: int, s: State, t: State, acts: seq<Action>) returns (u: State)
    requires Part(cfg, index, at, s, t, acts) && acts != []
    ensures var a := acts[|acts| - 1];
      && Part(cfg, index, at, s, u, acts[..|acts| - 1]) && Enabled(cfg, u, a) && t == Do(cfg, u, a)
      && CallMove(index, at, a) && Orderly(u, a)
  {
    hide Enabled, Do, CallMove, Orderly;
    u := Run(cfg, s, acts[..|acts| - 1]);
    assert forall i :: 0 <= i < |acts| - 1 ==> acts[..|acts| - 1][i] == acts[i];
  }

  lemma CallFaithful(index: Index, at: int, s: State, a: Action)
    requires CallMove(index, at, a) && Orderly(s, a)
    ensures Faithful(index, s, a)
  {
    hide Orderly;
  }

  lemma FromTakeoverRuns(cfg: Config, index: Index, s: State, before: seq<Action>)
    requires FromTakeover(cfg, index, s, before)
    ensures CanRun(cfg, s, before)
  {
  }

  lemma FollowedNamed(cfg: Config, index: Index, s: State, before: seq<Action>)
    requires index.Complete() && FromTakeover(cfg, index, s, before)
    ensures Named(Run(cfg, s, before)) && Beating(Run(cfg, s, before))
  {
    hide FromTakeover, Index.Complete, Run;
    var loc, visited := FollowedRun(cfg, index, s, before);
  }

  /** Frontier, call by call: after a takeover, whatever happened since, every assign call leaves as live
      exactly the non-CLOSED shards that are roots or have all named parents CLOSED. */
  lemma AnswerFrontier(cfg: Config, index: Index, height: map<ShardId, nat>, s: State, before: seq<Action>, t: State,
                       id: WorkerId, w: WorkerInfo, maxShards: int, at: int, turn: Turn)
    requires index.Complete() && index.Acyclic(height) && FromTakeover(cfg, index, s, before)
    requires CanRun(cfg, s, before) && Answers(cfg, index, Run(cfg, s, before), t, id, w, maxShards, at, turn)
    ensures t.live == Front(index, ShutOf(t))
  {
    FollowedNamed(cfg, index, s, before);
    var now := Run(cfg, s, before);
    assert turn.settled.closed == [];
    assert Resolves(Ended(turn.settled), turn.resolved, id, w, at);
    hide FromTakeover, Index.Complete, Index.Acyclic, Run, CanRun, Answers, Part, Named, Beating, Front, Resolves;
    var acts := AnswerRuns(cfg, index, now, t, id, w, maxShards, at, turn);
    acts := PreparedPart(cfg, index, now, t, id, w, maxShards, at, turn);
    FromTakeoverCall(cfg, index, at, s, before, turn.settled, turn.expiries + turn.settlings);
    FromTakeoverRuns(cfg, index, s, before + (turn.expiries + turn.settlings));
    FrontierExact(cfg, index, height, s, before + (turn.expiries + turn.settlings));
    ResolvedFacts(Ended(turn.settled), turn.resolved, id, w, at);
    FramedAdmitted(turn.resolved, t, w, at);
    assert ShutOf(t) == ShutOf(turn.settled);
  }

  /** What a call leaves on the worklist is about childless shards, and names no worker. */
  lemma SettledQuiet(index: Index, s: State, loc: Places, visited: set<ShardId>, t: State)
    requires Sound(s, loc) && Followed(index, s, visited) && s.closed == []
    requires t.closed == s.deferred && t.deferred == []
    ensures Quiet(index, t)
  {
    DrainedQuiet(index, s, visited);
    assert Noted(RosterOf(s), s.closed, s.deferred);
    hide Sound, RosterOf, Followed;
  }

  /** Whatever happened since a takeover, no worker holds a shard whose checkpoint is empty or CLOSED when an assign
      call is answered. */
  lemma AnswerOpen(cfg: Config, index: Index, s: State, before: seq<Action>, t: State,
                   id: WorkerId, w: WorkerInfo, maxShards: int, at: int, turn: Turn)
    requires index.Complete() && FromTakeover(cfg, index, s, before)
    requires CanRun(cfg, s, before) && Answers(cfg, index, Run(cfg, s, before), t, id, w, maxShards, at, turn)
    ensures t.Registered(w)
    ensures forall sh :: sh in t.info[w].assignments ==> t.MarkOf(sh) != Unset && t.MarkOf(sh) != Closed
  {
    FollowedNamed(cfg, index, s, before);
    var now := Run(cfg, s, before);
    assert turn.settled.closed == [];
    assert Resolves(Ended(turn.settled), turn.resolved, id, w, at);
    hide FromTakeover, Index.Complete, Run, CanRun, Answers, Part, Named, Beating, Resolves, Sound, Followed, Quiet;
    var acts := PreparedPart(cfg, index, now, t, id, w, maxShards, at, turn);
    acts := AnswerRuns(cfg, index, now, t, id, w, maxShards, at, turn);
    FromTakeoverCall(cfg, index, at, s, before, turn.settled, turn.expiries + turn.settlings);
    FromTakeoverRuns(cfg, index, s, before + (turn.expiries + turn.settlings));
    var loc, visited := FollowedRun(cfg, index, s, before + (turn.expiries + turn.settlings));
    ResolvedFacts(Ended(turn.settled), turn.resolved, id, w, at);
    FramedAdmitted(turn.resolved, t, w, at);
    SettledQuiet(index, turn.settled, loc, visited, t);
    PartOf(cfg, index, at, now, t, acts);
    FromTakeoverCall(cfg, index, at, s, before, t, acts);
    FromTakeoverRuns(cfg, index, s, before + acts);
    forall sh | sh in t.info[w].assignments ensures t.MarkOf(sh) != Unset && t.MarkOf(sh) != Closed {
      HandedOutOpen(cfg, index, s, before + acts, w, sh);
    }
  }

  lemma PartOf(cfg: Config, index: Index, at: int, s: State, t: State, acts: seq<Action>)
    requires CanRun(cfg, s, acts) && t == Run(cfg, s, acts) && Along(cfg, s, acts, Orderly)
    requires forall i :: 0 <= i < |acts| ==> CallMove(index, at, acts[i])
    ensures Part(cfg, index, at, s, t, acts)
  {
    hide CanRun, Run, Along;
  }

  // ---------- What is left on the worklist ----------

  /** Every notification, waiting or set aside, is about a known shard; those set aside name no worker. */
  ghost predicate NotesKnown(index: Index, s: State) {
    && (forall n :: n in s.closed ==> n.shard in index.shards && (n.worker.Some? ==> n.worker.value in s.info))
    && (forall n :: n in s.deferred ==> n.shard in index.shards && n.worker.None?)
  }

  lemma SettleKnown(index: Index, s: State, kids: seq<ShardId>)
    requires NotesKnown(index, s) && KidsFor(index, s, kids)
    ensures NotesKnown(index, AfterSettle(s, index, kids))
  {
    SettleNotes(index, s, kids);
    AfterKids(index, s, kids);
    var u := Detach(s.(closed := s.closed[1..]), s.closed[0]);
    assert s.closed[0] in s.closed && forall n :: n in s.closed[1..] ==> n in s.closed;
    NewNotes(index, u, kids);
    hide VisitAll, Detach;
  }

  lemma {:induction false} NewNotes(index: Index, s: State, kids: seq<ShardId>)
    requires forall c :: c in kids ==> c in index.shards
    ensures forall n :: n in VisitAll(s, index, kids).closed ==> n in s.closed || n.shard in index.shards
    decreases |kids|
  {
    hide Eligible;
    if kids != [] { NewNotes(index, s, kids[..|kids| - 1]); }
  }

  lemma {:induction false} SettlingKnown(cfg: Config, index: Index, s: State, acts: seq<Action>)
    requires NotesKnown(index, s) && CanRun(cfg, s, acts)
    requires forall i :: 0 <= i < |acts| ==> acts[i].Settle? && acts[i].index == index
    ensures NotesKnown(index, Run(cfg, s, acts))
    decreases |acts|
  {
    hide NotesKnown;
    if acts != [] {
      SettlingKnown(cfg, index, s, acts[..|acts| - 1]);
      SettleKnown(index, Run(cfg, s, acts[..|acts| - 1]), acts[|acts| - 1].kids);
    }
  }

  lemma ExpireKnown(index: Index, s: State, w: WorkerInfo, order: seq<ShardId>)
    requires NotesKnown(index, s) && w in s.info
    ensures NotesKnown(index, AfterExpire(s, w, order))
  {
    ForgetKeeps(s.info, s.info[w].Loans());
    hide Forget;
  }

  lemma {:induction false} ReleaseKnown(cfg: Config, index: Index, s: State, at: int, acts: seq<Action>)
    requires NotesKnown(index, s) && CanRun(cfg, s, acts) && Expires(acts, at)
    ensures NotesKnown(index, Run(cfg, s, acts))
    decreases |acts|
  {
    hide NotesKnown;
    if acts != [] {
      ReleaseKnown(cfg, index, s, at, acts[..|acts| - 1]);
      ExpireKnown(index, Run(cfg, s, acts[..|acts| - 1]), acts[|acts| - 1].w, acts[|acts| - 1].order);
    }
  }

  /** A call leaves the worklist as the next one needs it. */
  lemma AnswerReady(cfg: Config, index: Index, s: State, t: State, id: WorkerId, w: WorkerInfo, maxShards: int,
                    at: int, turn: Turn)
    requires NotesReady(index, s) && s.deferred == [] && Named(s) && Beating(s)
    requires Answers(cfg, index, s, t, id, w, maxShards, at, turn)
    ensures NotesReady(index, t) && t.deferred == []
  {
    hide Answers, Named, Beating, Framed, Resolves, ServePhase, CallMove, CanRun, Run, Along, Part, NotesKnown,
         NotesReady,
         ReleasePhase, SettlePhase, State.Registered;
    ReadyKnown(index, s);
    AnswerParts(cfg, index, s, t, id, w, maxShards, at, turn);
    var acts := AnswerRuns(cfg, index, s, t, id, w, maxShards, at, turn);
    acts := PreparedPart(cfg, index, s, t, id, w, maxShards, at, turn);
    PhasesKnown(cfg, index, s, turn.released, turn.settled, at, turn.expiries, turn.settlings);
    ResolvedFacts(Ended(turn.settled), turn.resolved, id, w, at);
    FramedAdmitted(turn.resolved, t, w, at);
    LeftReady(index, s, turn.settled, t);
  }

  lemma ReadyKnown(index: Index, s: State)
    requires NotesReady(index, s) && s.deferred == []
    ensures NotesKnown(index, s)
  {
  }

  lemma PhasesKnown(cfg: Config, index: Index, s: State, released: State, settled: State, at: int,
                    expiries: seq<Action>, settlings: seq<Action>)
    requires NotesKnown(index, s) && ReleasePhase(cfg, s, released, at, expiries)
    requires SettlePhase(cfg, index, released, settled, settlings)
    ensures NotesKnown(index, settled)
  {
    hide NotesKnown;
    ReleaseKnown(cfg, index, s, at, expiries);
    SettlingKnown(cfg, index, released, settlings);
  }

  lemma LeftReady(index: Index, s: State, settled: State, t: State)
    requires NotesReady(index, s) && NotesKnown(index, settled) && t.closed == settled.deferred
    ensures NotesReady(index, t)
  {
    hide Index.Complete;
  }

  // ---------- What the requester gets ----------

  /** Each acquisition takes one loan off the offer and makes one shard active. */
  lemma {:induction false} ClaimsCount(cfg: Config, s: State, w: WorkerInfo, at: int, claims: seq<Action>)
    requires CanRun(cfg, s, claims) && Acquires(claims, w, at) && w in s.info
    ensures var t := Run(cfg, s, claims);
      w in t.info && t.info[w].active == s.info[w].active + |claims| && t.pool == s.pool
      && |t.info[w].Loans()| == |s.info[w].Loans()| - |claims|
    decreases |claims|
  {
    hide Do;
    if claims != [] {
      var front := claims[..|claims| - 1];
      var a := claims[|claims| - 1];
      ClaimsCount(cfg, s, w, at, front);
      var t := Run(cfg, s, front);
      assert w in t.info && t.info[w].offer.Some? && a.loan in t.info[w].Loans();
      AcquireOffer(t, w, a.loan);
      assert Do(cfg, t, a) == AfterAcquire(t, w, a.loan) by { DoAcquire(cfg, t, a); }
    }
  }

  lemma DoAcquire(cfg: Config, s: State, a: Action)
    requires Enabled(cfg, s, a) && a.Acquire?
    ensures Do(cfg, s, a) == AfterAcquire(s, a.w, a.loan)
  {
  }

  /** A due offer is claimed in full, one that is not due is left alone. */
  lemma ClaimedInFull(cfg: Config, s: State, t: State, w: WorkerInfo, at: int, claims: seq<Action>)
    requires Claiming(cfg, s, t, w, at, claims) && w in s.info
    ensures var o := s.info[w].offer;
      |claims| == if o.Some? && at - o.value.createdAt >= cfg.releaseTimeout then |o.value.loans| else 0
    ensures w in t.info && t.info[w].active == s.info[w].active + |claims| && t.pool == s.pool
    ensures var o := s.info[w].offer;
      t.info[w].offer == if o.Some? && at - o.value.createdAt >= cfg.releaseTimeout then None else o
  {
    ClaimsCount(cfg, s, w, at, claims);
    hide CanRun, Run;
  }

  /** Shards come off the front of the pool in order, each under the next id. */
  lemma {:induction false} TakesInOrder(cfg: Config, s: State, t: State, w: WorkerInfo, takes: seq<Action>)
    requires Taking(cfg, s, t, w, takes) && w in s.info && NoDup(s.pool)
    ensures |takes| <= |s.pool| && t.pool == s.pool[|takes|..] && t.term == s.term
      && t.nextOffset == s.nextOffset + |takes|
    ensures w in t.info && t.info[w].active == s.info[w].active + |takes| && t.info[w].offer == s.info[w].offer
    ensures t.info[w].assignments.Keys == s.info[w].assignments.Keys + Elements(s.pool[..|takes|])
    ensures forall i :: 0 <= i < |takes| ==>
      t.info[w].assignments[s.pool[i]] == Assignment(s.term + s.nextOffset + i, false)
    ensures forall sh :: sh in s.info[w].assignments && sh !in s.pool[..|takes|] ==>
      t.info[w].assignments[sh] == s.info[w].assignments[sh]
    decreases |takes|
  {
    if takes != [] {
      var k := |takes| - 1;
      var front := takes[..k];
      assert takes[k] == Take(w);
      var u := Run(cfg, s, front);
      TakesInOrder(cfg, s, u, w, front);
      assert t == AfterTake(u, w) && u.pool != [];
      hide CanRun, Run;
      assert u.pool[0] == s.pool[k] && u.pool[1..] == s.pool[k + 1..];
      assert s.pool[..k + 1] == s.pool[..k] + [s.pool[k]];
      assert Elements(s.pool[..k + 1]) == Elements(s.pool[..k]) + {s.pool[k]};
    }
  }

  /** One call, in numbers: what is claimed, taken and stolen. */
  ghost predicate Numbers(cfg: Config, s: State, turn: Turn, w: WorkerInfo, maxShards: int, at: int) {
    w in s.info && w in turn.taken.info &&
    var o := s.info[w].offer;
    var due := o.Some? && at - o.value.createdAt >= cfg.releaseTimeout;
    var ideal := if |s.workers| == 0 then 0 else |s.live| / |s.workers|;
    && |turn.claims| == (if due then |o.value.loans| else 0)
    && |turn.takes| == Min(Max(maxShards - |turn.claims|, 0), |s.pool|)
    && turn.taken.info[w].active == s.info[w].active + |turn.claims| + |turn.takes|
    && turn.taken.info[w].offer == (if due then None else o)
    && |turn.steals| ==
         if |turn.claims| + |turn.takes| == 0 && turn.taken.info[w].offer == None
         then Min(Max(ideal - s.info[w].active, 0), Excess(RosterOf(turn.taken), w, ideal))
         else 0
  }

  lemma FilledNumbers(cfg: Config, s: State, t: State, w: WorkerInfo, maxShards: int, at: int, turn: Turn)
    requires Filled(cfg, s, t, w, maxShards, at, turn) && w in s.info && NoDup(s.pool)
    ensures var o := s.info[w].offer;
      |turn.claims| == if o.Some? && at - o.value.createdAt >= cfg.releaseTimeout then |o.value.loans| else 0
    ensures |turn.takes| == Min(Max(maxShards - |turn.claims|, 0), |s.pool|)
    ensures w in t.info && t.info[w].active == s.info[w].active + |turn.claims| + |turn.takes|
    ensures var o := s.info[w].offer;
      t.info[w].offer == if o.Some? && at - o.value.createdAt >= cfg.releaseTimeout then None else o
  {
    hide Claiming, Taking;
    ClaimedInFull(cfg, s, turn.claimed, w, at, turn.claims);
    TakesInOrder(cfg, turn.claimed, t, w, turn.takes);
  }

  lemma EnlistSame(cfg: Config, s: State, w: WorkerInfo, at: int)
    requires w in s.info
    ensures var e := AfterEnlist(s, w);
      e.info == s.info && e.pool == s.pool && w in e.counts
  {
  }

  lemma SoundPool(s: State, loc: Places)
    requires Sound(s, loc)
    ensures NoDup(s.pool)
  {
  }

  lemma PartSound(cfg: Config, index: Index, at: int, s: State, loc: Places, t: State, acts: seq<Action>)
    returns (m: Places)
    requires Part(cfg, index, at, s, t, acts) && Sound(s, loc)
    ensures Sound(t, m)
  {
    hide Sound;
    m := RunSound(cfg, s, loc, acts);
  }

  /** A served request claims the whole of a due offer, fills up from the pool as far as maxShards and the pool
      allow, and only if that came to nothing, with no offer outstanding, steals: exactly as many shards as the
      requester is short of the ideal and the others have above it. */
  lemma ServeNumbers(cfg: Config, index: Index, s: State, loc: Places, t: State, w: WorkerInfo, maxShards: int,
                     at: int, turn: Turn)
    requires ServePhase(cfg, s, t, w, maxShards, at, turn) && Sound(s, loc)
    requires s.Registered(w) && s.inService && s.info[w].heartbeat == at
    ensures Numbers(cfg, s, turn, w, maxShards, at)
  {
    hide Sound, Filled, Framed, Part, AfterEnlist, Excess, StealPhase, RosterOf, State.Ideal, State.Registered;
    IdealIs(s);
    var e := AfterEnlist(s, w);
    EnlistSound(s, w, loc);
    EnlistSame(cfg, s, w, at);
    SoundPool(e, loc);
    FilledNumbers(cfg, e, turn.taken, w, maxShards, at, turn);
    FramedServe(s, e, w, at);
    var acts := FilledPart(cfg, index, e, turn.taken, w, maxShards, at, turn);
    var m := PartSound(cfg, index, at, e, loc, turn.taken, acts);
    FramedAdmitted(e, turn.taken, w, at);
    FramedIdeal(e, turn.taken, w);
    if turn.taken.info[w].active == s.info[w].active && turn.taken.info[w].offer == None {
      StealNumbers(cfg, turn.taken, m, t, w, turn.steals);
    }
  }

  lemma IdealIs(s: State)
    ensures s.Ideal() == if |s.workers| == 0 then 0 else |s.live| / |s.workers|
  {
  }

  lemma FramedServe(s: State, e: State, w: WorkerInfo, at: int)
    requires w in s.info && e == AfterEnlist(s, w) && s.Registered(w) && s.inService && s.info[w].heartbeat == at
    ensures e.Registered(w) && e.inService && e.info[w].heartbeat == at && e.Ideal() == s.Ideal()
  {
  }

  lemma FramedIdeal(s: State, t: State, w: WorkerInfo)
    requires Framed(s, t) && w in s.counts
    ensures t.Ideal() == s.Ideal() && w in t.counts
  {
  }

  lemma StealNumbers(cfg: Config, s: State, loc: Places, t: State, w: WorkerInfo, steals: seq<Action>)
    requires StealPhase(cfg, s, t, w, steals) && Sound(s, loc) && s.Registered(w) && w in s.counts
      && s.info[w].offer == None
    ensures |steals| == Min(Max(s.Ideal() - s.info[w].active, 0), Excess(RosterOf(s), w, s.Ideal()))
  {
    hide Sound, Excess, Run, CanRun;
    ExactSteal(cfg, s, loc, w, steals);
  }
}
