/** Offers change hands in time: not before the release timeout, as GracePeriod shows, and not later than the holder's
    first served request after it. */
module OffersHonoured {
  import opened Finite
  import opened Lineage
  import opened WorkerRecord
  import opened ManagerModel
  import opened Conservation
  import opened ManagerRuns
  import opened Expiry
  import opened Rebalancing
  import opened GracePeriod
  import opened Frontier
  import opened AssignCalls
  import opened AssignResults
  import opened HandlerCalls
  import AI = AssignmentIds

  // ---------- One request is served ----------

  /** w holds the shard under an id not issued before, and nobody else has asked for it. */
  predicate HeldAnew(t: State, w: WorkerInfo, sh: ShardId, next: int) {
    w in t.info && sh in t.info[w].assignments && next <= t.info[w].assignments[sh].id
      && !t.info[w].assignments[sh].requested
  }

  /** Acquiring: what has left the offer is held anew, and what w held it still holds. */
  ghost predicate Acquired(s: State, t: State, w: WorkerInfo) {
    && w in s.info && w in t.info && s.NextId() <= t.NextId() && t.info[w].Loans() <= s.info[w].Loans()
    && forall l :: l in s.info[w].Loans() && l !in t.info[w].Loans() ==> HeldAnew(t, w, l.shard, s.NextId())
  }

  lemma AcquireStep(s: State, t: State, w: WorkerInfo, loan: Loan)
    requires Acquired(s, t, w) && t.info[w].offer.Some? && loan in t.info[w].Loans() && loan.donor != w
    ensures Acquired(s, AfterAcquire(t, w, loan), w)
  {
    ForgetAway(t.info, loan, w);
    hide Forget;
    var u := AfterAcquire(t, w, loan);
    forall l | l in s.info[w].Loans() && l !in u.info[w].Loans() ensures HeldAnew(u, w, l.shard, s.NextId()) {
      if l.shard != loan.shard { assert l !in t.info[w].Loans(); }
    }
  }

  lemma ForgetAway(info: map<WorkerInfo, Worker>, loan: Loan, w: WorkerInfo)
    requires w in info && loan.donor != w
    ensures Forget(info, {loan}).Keys == info.Keys && Forget(info, {loan})[w] == info[w]
  {
    assert (set l | l in {loan} && l.donor == w :: l.shard) == {};
    assert info[w].assignments - {} == info[w].assignments;
  }

  lemma {:induction false} ClaimsAcquire(cfg: Config, s: State, w: WorkerInfo, at: int, claims: seq<Action>)
    requires CanRun(cfg, s, claims) && Acquires(claims, w, at) && w in s.info
    requires forall l :: l in s.info[w].Loans() ==> l.donor != w
    ensures Acquired(s, Run(cfg, s, claims), w)
    decreases |claims|
  {
    hide Do, Acquired;
    if claims == [] {
      NoneAcquired(s, w);
    } else {
      var front, a := claims[..|claims| - 1], claims[|claims| - 1];
      var t := Run(cfg, s, front);
      ClaimsAcquire(cfg, s, w, at, front);
      AcquiredLoans(s, t, w);
      assert a.loan in t.info[w].Loans();
      AcquireStep(s, t, w, a.loan);
      DoAcquire(cfg, t, a);
    }
  }

  lemma NoneAcquired(s: State, w: WorkerInfo)
    requires w in s.info
    ensures Acquired(s, s, w)
  {
  }

  lemma AcquiredLoans(s: State, t: State, w: WorkerInfo)
    requires Acquired(s, t, w)
    ensures w in s.info && w in t.info && t.info[w].Loans() <= s.info[w].Loans()
  {
  }

  /** Stealing for w changes nothing that w holds. */
  lemma {:induction false} StealsApart(cfg: Config, s: State, w: WorkerInfo, steals: seq<Action>)
    requires CanRun(cfg, s, steals) && Steals(steals, w) && w in s.info
    ensures w in Run(cfg, s, steals).info && Run(cfg, s, steals).info[w].assignments == s.info[w].assignments
    decreases |steals|
  {
    if steals != [] {
      StealsApart(cfg, s, w, steals[..|steals| - 1]);
    }
  }

  /** The shards on offer to w are neither in the pool nor w's, nor its own donors'. */
  lemma OfferedElsewhere(s: State, loc: Places, w: WorkerInfo, l: Loan)
    requires Sound(s, loc) && s.Registered(w) && l in s.info[w].Loans()
    ensures l.donor != w && l.shard !in s.pool && l.shard !in s.info[w].assignments
  {
    var r := RosterOf(s);
    assert w in r && r[w] == s.info[w];
    assert loc[l.shard] == Lent(w, l.donor) && BackedAt(r, loc[l.shard], l.shard);
    hide RosterOf;
  }

  lemma HeldNotPooled(s: State, loc: Places, w: WorkerInfo, sh: ShardId)
    requires Sound(s, loc) && s.Registered(w) && sh in s.info[w].assignments
    ensures sh !in s.pool
  {
    assert w in RosterOf(s);
  }

  /** Due: every loan is held anew, and the offer is gone. Not due: the offer stays as it is, and so does all that w
      holds. */
  ghost predicate Honoured(cfg: Config, s: State, t: State, w: WorkerInfo, o: Offer, at: int, next: int) {
    w in s.info && w in t.info &&
    if at - o.createdAt >= cfg.releaseTimeout
    then (forall l :: l in o.loans ==> HeldAnew(t, w, l.shard, next)) && (t.info[w].offer == None || o.loans == {})
    else (forall l :: l in o.loans ==> l.shard !in t.info[w].assignments) && t.info[w].offer == Some(o)
         && forall sh :: sh in s.info[w].assignments ==>
              sh in t.info[w].assignments && t.info[w].assignments[sh] == s.info[w].assignments[sh]
  }

  lemma FilledSettled(cfg: Config, s: State, loc: Places, t: State, w: WorkerInfo, maxShards: int, at: int, turn: Turn,
                      o: Offer)
    requires Filled(cfg, s, t, w, maxShards, at, turn) && Sound(s, loc) && s.Registered(w) && s.info[w].offer == Some(o)
    ensures Honoured(cfg, s, t, w, o, at, s.NextId())
    ensures at - o.createdAt >= cfg.releaseTimeout ==>
      t.info[w].offer == None && (o.loans != {} ==> t.info[w].active != s.info[w].active)
  {
    forall l | l in o.loans ensures l.donor != w && l.shard !in s.pool && l.shard !in s.info[w].assignments {
      assert l in s.info[w].Loans();
      OfferedElsewhere(s, loc, w, l);
    }
    forall sh | sh in s.info[w].assignments ensures sh !in s.pool { HeldNotPooled(s, loc, w, sh); }
    SoundPool(s, loc);
    hide Sound, CanRun, Run, Acquired, State.Registered;
    ClaimedInFull(cfg, s, turn.claimed, w, at, turn.claims);
    TakesInOrder(cfg, turn.claimed, t, w, turn.takes);
    if at - o.createdAt >= cfg.releaseTimeout {
      ClaimsAcquire(cfg, s, w, at, turn.claims);
      AcquiredAll(s, Run(cfg, s, turn.claims), w, o);
    }
  }

  lemma AcquiredAll(s: State, u: State, w: WorkerInfo, o: Offer)
    requires Acquired(s, u, w) && s.info[w].offer == Some(o) && u.info[w].Loans() == {}
    ensures forall l :: l in o.loans ==> HeldAnew(u, w, l.shard, s.NextId())
  {
    assert s.info[w].Loans() == o.loans;
  }

  /** A request of w is served: a due offer is honoured, one that is not due is left alone. */
  lemma ServedOffer(cfg: Config, s: State, loc: Places, t: State, w: WorkerInfo, maxShards: int, at: int, turn: Turn,
                    o: Offer)
    requires ServePhase(cfg, s, t, w, maxShards, at, turn) && Sound(s, loc) && s.Registered(w)
    requires s.info[w].offer == Some(o)
    ensures Honoured(cfg, s, t, w, o, at, s.NextId())
  {
    var e := AfterEnlist(s, w);
    EnlistSound(s, w, loc);
    assert e.Registered(w) && e.info == s.info && e.NextId() == s.NextId();
    hide Sound, Filled, StealPhase, AfterEnlist, State.Registered, State.NextId;
    FilledSettled(cfg, e, loc, turn.taken, w, maxShards, at, turn, o);
    if turn.taken.info[w].active == s.info[w].active && turn.taken.info[w].offer == None {
      StealApart(cfg, turn.taken, t, w, turn.steals);
    }
  }

  lemma StealApart(cfg: Config, s: State, t: State, w: WorkerInfo, steals: seq<Action>)
    requires StealPhase(cfg, s, t, w, steals) && w in s.info
    ensures w in t.info && t.info[w].assignments == s.info[w].assignments
  {
    StealsApart(cfg, s, w, steals);
  }

  // ---------- One call ----------

  /** The move is not about w's offer, and nothing is handed out in it. */
  predicate Prepares(a: Action) {
    a.Expire? || a.Settle?
  }

  lemma PrepareStep(cfg: Config, s: State, a: Action, w: WorkerInfo)
    requires Enabled(cfg, s, a) && Prepares(a) && w in s.info
    ensures var t := Do(cfg, s, a); w in t.info && t.info[w].offer == s.info[w].offer && t.NextId() == s.NextId()
  {
    if a.Expire? {
      ForgetKeeps(s.info, s.info[a.w].Loans());
      hide Forget;
    } else {
      SettleInfo(s, a.index, a.kids);
      hide AfterSettle;
    }
  }

  lemma {:induction false} PrepareRun(cfg: Config, s: State, acts: seq<Action>, w: WorkerInfo)
    requires CanRun(cfg, s, acts) && w in s.info && forall i :: 0 <= i < |acts| ==> Prepares(acts[i])
    ensures var t := Run(cfg, s, acts); w in t.info && t.info[w].offer == s.info[w].offer && t.NextId() == s.NextId()
    decreases |acts|
  {
    hide Enabled, Do, State.NextId;
    if acts != [] {
      PrepareRun(cfg, s, acts[..|acts| - 1], w);
      PrepareStep(cfg, Run(cfg, s, acts[..|acts| - 1]), acts[|acts| - 1], w);
    }
  }

  /** Up to the registration of the requester nothing happens to any offer. */
  lemma PreparedOffer(cfg: Config, index: Index, s: State, t: State, id: WorkerId, v: WorkerInfo, maxShards: int,
                      at: int,
                      turn: Turn, w: WorkerInfo)
    requires Answers(cfg, index, s, t, id, v, maxShards, at, turn) && w in s.info
    ensures var u := turn.resolved;
      w in u.info && u.info[w].offer == s.info[w].offer && u.NextId() == s.NextId()
  {
    hide ReleasePhase, SettlePhase, ServePhase;
    PhasesOffer(cfg, index, s, turn.released, turn.settled, at, turn.expiries, turn.settlings, w);
  }

  lemma PhasesOffer(cfg: Config, index: Index, s: State, released: State, settled: State, at: int,
                    expiries: seq<Action>,
                    settlings: seq<Action>, w: WorkerInfo)
    requires ReleasePhase(cfg, s, released, at, expiries) && SettlePhase(cfg, index, released, settled, settlings)
    requires w in s.info
    ensures w in settled.info && settled.info[w].offer == s.info[w].offer && settled.NextId() == s.NextId()
  {
    PrepareRun(cfg, s, expiries, w);
    PrepareRun(cfg, released, settlings, w);
    hide CanRun, Run, Along, ReleaseStops, State.NextId;
  }

  /** A call of the worker that an offer was made to, and that has been heard from in time. */
  lemma AnswerOffer(cfg: Config, index: Index, s: State, loc: Places, t: State, id: WorkerId, v: WorkerInfo,
                    maxShards: int, at: int, turn: Turn, w: WorkerInfo, o: Offer)
    requires Answers(cfg, index, s, t, id, v, maxShards, at, turn) && Sound(s, loc) && maxShards != 0
    requires s.Registered(w) && s.info[w].id == id && s.info[w].offer == Some(o)
    requires at - s.info[w].heartbeat < cfg.inactivityTimeout
    ensures v == w && turn.resolved.Registered(w) && Honoured(cfg, turn.resolved, t, w, o, at, s.NextId())
  {
    SoundRegistry(s, loc);
    hide Answers, Sound, Named, Beating, Part, Framed, ServePhase, Honoured, Resolves, ReleasePhase, SettlePhase,
         CallMove,
         CanRun, Run, Along, State.NextId;
    PreparedOffer(cfg, index, s, t, id, v, maxShards, at, turn, w);
    AnswerKeeps(cfg, index, s, t, id, v, maxShards, at, turn);
    AnswerParts(cfg, index, s, t, id, v, maxShards, at, turn);
    var acts := PreparedPart(cfg, index, s, t, id, v, maxShards, at, turn);
    var m := PartSound(cfg, index, at, s, loc, turn.resolved, acts);
    ResolvedFacts(Ended(turn.settled), turn.resolved, id, v, at);
    ServedOffer(cfg, turn.resolved, m, t, w, maxShards, at, turn, o);
  }

  // ---------- Runs of calls ----------

  /** Only steals make offers or add to them, and date them. */
  lemma LoanStep(cfg: Config, s: State, a: Action, w: WorkerInfo, l: Loan, at: int)
    requires Enabled(cfg, s, a) && w in Do(cfg, s, a).info && l in Do(cfg, s, a).info[w].Loans()
    requires a.Steal? ==> a.at == at
    ensures (w in s.info && l in s.info[w].Loans()
             && Do(cfg, s, a).info[w].offer.value.createdAt == s.info[w].offer.value.createdAt)
            || Do(cfg, s, a).info[w].offer.value.createdAt == at
  {
    if !a.Steal? {
      MoveOffers(cfg, s, a);
      LoansFewer(cfg, s, a, w, l);
      hide Enabled, Do;
    }
  }

  lemma LoansFewer(cfg: Config, s: State, a: Action, w: WorkerInfo, l: Loan)
    requires Enabled(cfg, s, a) && w in Do(cfg, s, a).info && l in Do(cfg, s, a).info[w].Loans() && !a.Steal?
    ensures w in s.info && l in s.info[w].Loans()
  {
    if a.Settle? {
      SettleInfo(s, a.index, a.kids);
      hide AfterSettle;
    } else if a.Expire? {
      ForgetKeeps(s.info, s.info[a.w].Loans());
      hide Forget;
    } else if a.Acquire? {
      ForgetKeeps(s.info, {a.loan});
      hide Forget;
    }
  }

  lemma {:induction false} LoanRun(cfg: Config, s: State, acts: seq<Action>, w: WorkerInfo, l: Loan, at: int)
    requires CanRun(cfg, s, acts) && w in Run(cfg, s, acts).info && l in Run(cfg, s, acts).info[w].Loans()
    requires forall i :: 0 <= i < |acts| && acts[i].Steal? ==> acts[i].at == at
    ensures (w in s.info && l in s.info[w].Loans()) || Run(cfg, s, acts).info[w].offer.value.createdAt == at
    decreases |acts|
  {
    hide Enabled, Do;
    if acts != [] {
      var front := acts[..|acts| - 1];
      LoanStep(cfg, Run(cfg, s, front), acts[|acts| - 1], w, l, at);
      if w in Run(cfg, s, front).info && l in Run(cfg, s, front).info[w].Loans() {
        LoanRun(cfg, s, front, w, l, at);
      }
    }
  }

  /** The call puts a shard on offer to w. */
  predicate PutsOnOffer(s: State, t: State, w: WorkerInfo, l: Loan) {
    w in t.info && l in t.info[w].Loans() && !(w in s.info && l in s.info[w].Loans())
  }

  lemma OfferDated(cfg: Config, index: Index, s: State, call: Call, t: State, w: WorkerInfo, l: Loan)
    requires Effect(cfg, index, s, call, t) && Named(s) && Beating(s) && PutsOnOffer(s, t, w, l)
    ensures call.Assign? && t.info[w].offer.value.createdAt == call.at
  {
    hide Named, Beating, Answers, OwnedUnder;
    if call.Assign? && s.inService {
      hide PutsOnOffer;
      AnswerDated(cfg, index, s, t, call.worker, call.w, call.maxShards, call.at, call.turn, w, l);
    }
  }

  lemma AnswerDated(cfg: Config, index: Index, s: State, t: State, id: WorkerId, v: WorkerInfo, maxShards: int, at: int,
                    turn: Turn, w: WorkerInfo, l: Loan)
    requires Answers(cfg, index, s, t, id, v, maxShards, at, turn) && Named(s) && Beating(s) && PutsOnOffer(s, t, w, l)
    ensures t.info[w].offer.Some? && t.info[w].offer.value.createdAt == at
  {
    hide Answers, Named, Beating, CanRun, Run, Along, Framed, Orderly, State.Registered;
    var acts := AnswerRuns(cfg, index, s, t, id, v, maxShards, at, turn);
    forall i | 0 <= i < |acts| && acts[i].Steal? ensures acts[i].at == at {
      assert CallMove(index, at, acts[i]);
    }
    LoanRun(cfg, s, acts, w, l, at);
  }

  /** The move is not about w's offer. */
  predicate OthersMove(a: Action, w: WorkerInfo) {
    !((a.Acquire? || a.DropOffer? || a.Steal?) && a.w == w)
  }

  lemma OthersStep(cfg: Config, s: State, a: Action, w: WorkerInfo)
    requires Enabled(cfg, s, a) && OthersMove(a, w) && w in s.info
    ensures w in Do(cfg, s, a).info && Do(cfg, s, a).info[w].offer == s.info[w].offer
  {
    if a.Expire? || a.Settle? {
      PrepareStep(cfg, s, a, w);
    } else if a.Acquire? {
      ForgetKeeps(s.info, {a.loan});
      hide Forget;
    }
  }

  lemma {:induction false} OthersRun(cfg: Config, s: State, acts: seq<Action>, w: WorkerInfo)
    requires CanRun(cfg, s, acts) && w in s.info && forall i :: 0 <= i < |acts| ==> OthersMove(acts[i], w)
    ensures w in Run(cfg, s, acts).info && Run(cfg, s, acts).info[w].offer == s.info[w].offer
    decreases |acts|
  {
    hide Enabled, Do;
    if acts != [] {
      OthersRun(cfg, s, acts[..|acts| - 1], w);
      OthersStep(cfg, Run(cfg, s, acts[..|acts| - 1]), acts[|acts| - 1], w);
    }
  }

  /** Serving v leaves the offers of the others alone. */
  lemma ServeOthers(cfg: Config, s: State, t: State, v: WorkerInfo, maxShards: int, at: int, turn: Turn, w: WorkerInfo)
    requires ServePhase(cfg, s, t, v, maxShards, at, turn) && w in s.info && v != w
    ensures w in t.info && t.info[w].offer == s.info[w].offer
  {
    var e := AfterEnlist(s, v);
    OthersRun(cfg, e, turn.claims, w);
    OthersRun(cfg, turn.claimed, turn.takes, w);
    if turn.taken.info[v].active == s.info[v].active && turn.taken.info[v].offer == None {
      OthersRun(cfg, turn.taken, turn.steals, w);
    }
    hide CanRun, Run, StealingStops, State.Registered;
  }

  lemma AnswerOthers(cfg: Config, index: Index, s: State, t: State, id: WorkerId, v: WorkerInfo, maxShards: int,
                     at: int,
                     turn: Turn, w: WorkerInfo)
    requires Answers(cfg, index, s, t, id, v, maxShards, at, turn) && w in s.info && (v != w || maxShards == 0)
    ensures w in t.info && t.info[w].offer == s.info[w].offer
  {
    hide Answers, ReleasePhase, SettlePhase, Resolves, ServePhase;
    PreparedOffer(cfg, index, s, t, id, v, maxShards, at, turn, w);
    AnswerParts(cfg, index, s, t, id, v, maxShards, at, turn);
    if maxShards != 0 {
      ServeOthers(cfg, turn.resolved, t, v, maxShards, at, turn, w);
    }
  }

  /** The call is one in which w's offer o is not due. */
  predicate NotYet(cfg: Config, call: Call, id: WorkerId, o: Offer) {
    && !call.Lead?
    && (call.Assign? && call.worker == id && call.maxShards != 0 ==> call.at - o.createdAt < cfg.releaseTimeout)
  }

  lemma CallOffer(cfg: Config, index: Index, s: State, loc: Places, call: Call, t: State, w: WorkerInfo, o: Offer)
    requires Effect(cfg, index, s, call, t) && Sound(s, loc) && s.Registered(w) && s.info[w].offer == Some(o)
    requires t.Registered(w) && NotYet(cfg, call, s.info[w].id, o)
    ensures w in t.info && t.info[w].offer == Some(o) && t.info[w].id == s.info[w].id
  {
    hide Sound, Answers, OwnedUnder;
    if call.Assign? && s.inService {
      AssignOffer(cfg, index, s, loc, call, t, w, o);
    }
  }

  lemma AssignOffer(cfg: Config, index: Index, s: State, loc: Places, call: Call, t: State, w: WorkerInfo, o: Offer)
    requires call.Assign? && s.inService
    requires Effect(cfg, index, s, call, t) && Sound(s, loc) && s.Registered(w) && s.info[w].offer == Some(o)
    requires t.Registered(w) && NotYet(cfg, call, s.info[w].id, o)
    ensures w in t.info && t.info[w].offer == Some(o) && t.info[w].id == s.info[w].id
  {
    hide Sound, Answers, Named, Beating;
    SoundRegistry(s, loc);
    AnswerIds(cfg, index, s, t, call.worker, call.w, call.maxShards, call.at, call.turn, w);
    if call.worker != s.info[w].id || call.maxShards == 0 {
      RequesterNamed(cfg, index, s, t, call.worker, call.w, call.maxShards, call.at, call.turn);
      AnswerOthers(cfg, index, s, t, call.worker, call.w, call.maxShards, call.at, call.turn, w);
    } else {
      StillThere(cfg, index, s, loc, t, call, w);
      AnswerOffer(cfg, index, s, loc, t, call.worker, call.w, call.maxShards, call.at, call.turn, w, o);
    }
  }

  lemma RequesterNamed(cfg: Config, index: Index, s: State, t: State, id: WorkerId, v: WorkerInfo, maxShards: int,
                       at: int,
                       turn: Turn)
    requires Answers(cfg, index, s, t, id, v, maxShards, at, turn) && Named(s) && Beating(s)
    ensures v in t.info && t.info[v].id == id
  {
    hide Answers, Named, Beating, CanRun, Run, Along, Orderly, CallMove, ReleasePhase, SettlePhase, ServePhase,
         Resolves,
         Part;
    AnswerParts(cfg, index, s, t, id, v, maxShards, at, turn);
    var acts := PreparedPart(cfg, index, s, t, id, v, maxShards, at, turn);
    ResolvedFacts(Ended(turn.settled), turn.resolved, id, v, at);
    acts := AnswerRuns(cfg, index, s, t, id, v, maxShards, at, turn);
  }

  /** A worker keeps its name. */
  lemma AnswerIds(cfg: Config, index: Index, s: State, t: State, id: WorkerId, v: WorkerInfo, maxShards: int, at: int,
                  turn: Turn, w: WorkerInfo)
    requires Answers(cfg, index, s, t, id, v, maxShards, at, turn) && Named(s) && Beating(s) && w in s.info
    ensures w in t.info && t.info[w].id == s.info[w].id
  {
    hide Answers, Named, Beating, CanRun, Run, Along, Framed, Orderly, CallMove, State.Registered;
    var acts := AnswerRuns(cfg, index, s, t, id, v, maxShards, at, turn);
    NamesRun(cfg, s, acts, w);
  }

  lemma {:induction false} NamesRun(cfg: Config, s: State, acts: seq<Action>, w: WorkerInfo)
    requires CanRun(cfg, s, acts) && w in s.info
    ensures w in Run(cfg, s, acts).info && Run(cfg, s, acts).info[w].id == s.info[w].id
    decreases |acts|
  {
    hide Enabled, Do;
    if acts != [] {
      NamesRun(cfg, s, acts[..|acts| - 1], w);
      NameStep(cfg, Run(cfg, s, acts[..|acts| - 1]), acts[|acts| - 1], w);
    }
  }

  lemma NameStep(cfg: Config, s: State, a: Action, w: WorkerInfo)
    requires Enabled(cfg, s, a) && w in s.info
    ensures w in Do(cfg, s, a).info && Do(cfg, s, a).info[w].id == s.info[w].id
  {
    if a.Expire? {
      ForgetKeeps(s.info, s.info[a.w].Loans());
      hide Forget;
    } else if !a.Register? && !a.Takeover? {
      MoveRegistry(cfg, s, a);
      hide Enabled, Do;
    }
  }

  /** A worker that is registered before its call and after it has not been silent for too long. */
  lemma StillThere(cfg: Config, index: Index, s: State, loc: Places, t: State, call: Call, w: WorkerInfo)
    requires call.Assign? && s.inService && Effect(cfg, index, s, call, t) && Sound(s, loc)
    requires s.Registered(w) && t.Registered(w) && call.worker == s.info[w].id
    ensures call.at - s.info[w].heartbeat < cfg.inactivityTimeout
  {
    SoundRegistry(s, loc);
    hide Sound, Answers, Named, Beating;
    AnswerKeeps(cfg, index, s, t, call.worker, call.w, call.maxShards, call.at, call.turn);
    AnswerIds(cfg, index, s, t, call.worker, call.w, call.maxShards, call.at, call.turn, w);
    if call.at - s.info[w].heartbeat >= cfg.inactivityTimeout {
      Superseded(cfg, index, s, t, call.worker, call.w, call.maxShards, call.at, call.turn, w);
    }
  }

  /** A worker that has been silent for too long comes back as another object. */
  lemma Superseded(cfg: Config, index: Index, s: State, t: State, id: WorkerId, v: WorkerInfo, maxShards: int, at: int,
                   turn: Turn, w: WorkerInfo)
    requires Answers(cfg, index, s, t, id, v, maxShards, at, turn) && Named(s) && Beating(s)
    requires s.Registered(w) && s.info[w].id == id && at - s.info[w].heartbeat >= cfg.inactivityTimeout
    ensures v != w
  {
    hide Answers, Named, Beating, ReleasePhase, SettlePhase, ServePhase;
    AnswerParts(cfg, index, s, t, id, v, maxShards, at, turn);
    ReleasedWorkers(cfg, s, turn.released, at, turn.expiries);
    EndedRegistry(cfg, index, turn.released, turn.settled, turn.settlings);
    PhasesOffer(cfg, index, s, turn.released, turn.settled, at, turn.expiries, turn.settlings, w);
    assert Silent(cfg, s, id, at);
    hide Silent;
  }

  /** Calls between which w's offer stays as it is: it is not due in them, w stays registered, and no one takes over. */
  ghost predicate Waiting(cfg: Config, calls: seq<Call>, states: seq<State>, i: nat, k: nat, w: WorkerInfo,
                          id: WorkerId,
                          o: Offer)
    requires i <= k <= |calls| && |states| == |calls| + 1
  {
    && (forall j :: i <= j <= k ==> states[j].Registered(w))
    && (forall j :: i <= j < k ==> NotYet(cfg, calls[j], id, o))
  }

  lemma {:induction false} WaitingOffer(cfg: Config, index: Index, calls: seq<Call>, states: seq<State>, i: nat, k: nat,
                                        w: WorkerInfo, o: Offer)
    requires index.Complete() && CallRun(cfg, index, calls, states) && i <= k <= |calls|
    requires w in states[i].info && states[i].info[w].offer == Some(o)
    requires Waiting(cfg, calls, states, i, k, w, states[i].info[w].id, o)
    ensures w in states[k].info && states[k].info[w].offer == Some(o) && states[k].info[w].id == states[i].info[w].id
    decreases k
  {
    hide CallRun, Effect, Sound, Named, Beating, Index.Complete, NotYet, State.Registered;
    CallStates(cfg, index, calls, states);
    if i < k {
      WaitingOffer(cfg, index, calls, states, i, k - 1, w, o);
      var loc := CallBegins(cfg, index, calls, states, k - 1);
      CallOffer(cfg, index, states[k - 1], loc, calls[k - 1], states[k], w, o);
    }
  }

  /** A stolen shard arrives: a call put it on offer to w; the first time that w, still registered, asks for shards
      when the release timeout has passed since that call, w gets it, under a new id, whoever has asked for what in
      between. */
  lemma StolenArrives(cfg: Config, index: Index, calls: seq<Call>, states: seq<State>, i: nat, k: nat, w: WorkerInfo,
                      l: Loan)
    requires index.Complete() && CallRun(cfg, index, calls, states) && i < k < |calls|
    requires PutsOnOffer(states[i], states[i + 1], w, l)
    requires var o := states[i + 1].info[w].offer.value; Waiting(cfg, calls, states, i + 1, k, w,
                                                                 states[i + 1].info[w].id, o)
    requires calls[k].Assign? && calls[k].worker == states[i + 1].info[w].id && calls[k].maxShards != 0
    requires states[k].inService && states[k + 1].Registered(w) && calls[i].Assign?
    requires calls[k].at - calls[i].at >= cfg.releaseTimeout
    ensures w in states[k].info && HeldAnew(states[k + 1], w, l.shard, states[k].NextId())
  {
    hide CallRun, Effect, Sound, Named, Beating, Index.Complete, State.Registered;
    CallStates(cfg, index, calls, states);
    assert states[k].Registered(w);
    hide Waiting;
    var o := states[i + 1].info[w].offer.value;
    assert states[i + 1].info[w].offer == Some(o) && l in o.loans;
    var loc := CallBegins(cfg, index, calls, states, i);
    OfferDated(cfg, index, states[i], calls[i], states[i + 1], w, l);
    WaitingOffer(cfg, index, calls, states, i + 1, k, w, o);
    loc := CallBegins(cfg, index, calls, states, k);
    Arrives(cfg, index, states[k], loc, calls[k], states[k + 1], w, o, l);
  }

  lemma Arrives(cfg: Config, index: Index, s: State, loc: Places, call: Call, t: State, w: WorkerInfo, o: Offer,
                l: Loan)
    requires call.Assign? && s.inService && Effect(cfg, index, s, call, t) && Sound(s, loc) && call.maxShards != 0
    requires s.Registered(w) && t.Registered(w) && call.worker == s.info[w].id
    requires s.info[w].offer == Some(o) && l in o.loans && call.at - o.createdAt >= cfg.releaseTimeout
    ensures HeldAnew(t, w, l.shard, s.NextId())
  {
    StillThere(cfg, index, s, loc, t, call, w);
    hide Sound, Answers, HeldAnew;
    AnswerOffer(cfg, index, s, loc, t, call.worker, call.w, call.maxShards, call.at, call.turn, w, o);
  }

  // ---------- Meanwhile ----------

  /** What is given is given without a request: a requested assignment was there before, under the same id. */
  lemma RequestedStays(cfg: Config, s: State, a: Action, w: WorkerInfo, sh: ShardId)
    requires Enabled(cfg, s, a) && w in Do(cfg, s, a).info && sh in Do(cfg, s, a).info[w].assignments
    requires Do(cfg, s, a).info[w].assignments[sh].requested
    ensures w in s.info && sh in s.info[w].assignments
    ensures s.info[w].assignments[sh].id == Do(cfg, s, a).info[w].assignments[sh].id
  {
    match a
    case Settle(index, kids) =>
      SettleInfo(s, index, kids);
      hide AfterSettle;
    case Expire(u, order, at) =>
      AI.ForgetIds(s.info, s.info[u].Loans());
      hide Forget;
    case Acquire(u, loan, at) =>
      AcquireStays(s, u, loan, w, sh);
      hide AfterAcquire;
    case Steal(u, donor, x, at) => StealStays(s, u, donor, x, at, w, sh);
    case _ =>
  }

  lemma AcquireStays(s: State, u: WorkerInfo, loan: Loan, w: WorkerInfo, sh: ShardId)
    requires u in s.info && s.info[u].offer.Some?
    ensures var t := AfterAcquire(s, u, loan);
      w in t.info && sh in t.info[w].assignments && t.info[w].assignments[sh].requested ==>
        w in s.info && sh in s.info[w].assignments && s.info[w].assignments[sh].id == t.info[w].assignments[sh].id
  {
    AI.ForgetIds(s.info, {loan});
    hide Forget;
  }

  lemma StealStays(s: State, u: WorkerInfo, donor: WorkerInfo, x: ShardId, at: int, w: WorkerInfo, sh: ShardId)
    requires u in s.info && donor in s.info && x in s.info[donor].assignments
    ensures var t := AfterSteal(s, u, donor, x, at);
      w in t.info && sh in t.info[w].assignments ==>
        w in s.info && sh in s.info[w].assignments && s.info[w].assignments[sh].id == t.info[w].assignments[sh].id
  {
  }

  lemma {:induction false} GraceIds(cfg: Config, s: State, loc: Places, now: int, donor: WorkerInfo, sh: ShardId,
                                    since: int,
                                    acts: seq<Action>)
    requires Sound(s, loc) && Dated(RosterOf(s), now) && Reserved(s, loc, donor, sh, since)
    requires cfg.inactivityTimeout >= cfg.releaseTimeout && sh in s.info[donor].assignments
    requires CanRun(cfg, s, acts) && Along(cfg, s, acts, Orderly) && Timely(acts, now)
    ensures var t := Run(cfg, s, acts);
      t.Registered(donor) && Clock(acts, now) < since + cfg.releaseTimeout ==>
        sh in t.info[donor].assignments && t.info[donor].assignments[sh].id == s.info[donor].assignments[sh].id
    decreases |acts|
  {
    hide Sound, Dated, Enabled, Orderly, RosterOf, Do;
    if acts != [] {
      var front, a := acts[..|acts| - 1], acts[|acts| - 1];
      var u, t := Run(cfg, s, front), Run(cfg, s, acts);
      GraceIds(cfg, s, loc, now, donor, sh, since, front);
      hide Reserved;
      var m := GraceRun(cfg, s, loc, now, donor, sh, since, acts);
      if t.Registered(donor) && Clock(acts, now) < since + cfg.releaseTimeout {
        ReservedRequested(t, m, donor, sh, since);
        RequestedStays(cfg, u, a, donor, sh);
        m := GraceRun(cfg, s, loc, now, donor, sh, since, front);
        SoundNamed(u, m);
        if !u.Registered(donor) { DroppedStep(cfg, u, a, donor); }
      }
    }
  }

  lemma ReservedRequested(s: State, loc: Places, donor: WorkerInfo, sh: ShardId, since: int)
    requires Sound(s, loc) && Reserved(s, loc, donor, sh, since)
    ensures sh in s.info[donor].assignments && s.info[donor].assignments[sh].requested
  {
    LentHeld(s, loc, sh);
  }

  /** Until the release timeout has passed, a donor that stays registered passes the ownership check for the stolen
      shard under its old id: what it has still processed can be recorded. */
  lemma StillPasses(cfg: Config, s: State, loc: Places, now: int, steal: Action, acts: seq<Action>)
    requires Sound(s, loc) && Dated(RosterOf(s), now) && cfg.inactivityTimeout >= cfg.releaseTimeout
    requires steal.Steal? && Enabled(cfg, s, steal) && now <= steal.at
    requires CanRun(cfg, Do(cfg, s, steal), acts) && Along(cfg, Do(cfg, s, steal), acts, Orderly)
    requires Timely(acts, steal.at)
    ensures var t := Run(cfg, Do(cfg, s, steal), acts);
      t.Registered(steal.donor) && Clock(acts, steal.at) < steal.at + cfg.releaseTimeout ==>
        OwnedUnder(t, t.info[steal.donor].id, steal.shard, s.info[steal.donor].assignments[steal.shard].id)
  {
    var u := Do(cfg, s, steal);
    SoundNamed(s, loc);
    StealReserves(s, steal.w, steal.donor, steal.shard, steal.at, loc);
    MoveSound(cfg, s, steal, loc);
    StolenId(s, steal.w, steal.donor, steal.shard, steal.at);
    hide Sound, Dated, Reserved, RosterOf, Named, Beating, AfterSteal;
    MoveDated(cfg, s, steal, now);
    GraceIds(cfg, u, Moved(cfg, s, steal, loc), steal.at, steal.donor, steal.shard, steal.at, acts);
  }

  lemma StolenId(s: State, w: WorkerInfo, donor: WorkerInfo, sh: ShardId, at: int)
    requires w in s.info && donor in s.info && sh in s.info[donor].assignments && w != donor
    ensures var t := AfterSteal(s, w, donor, sh, at);
      && donor in t.info && sh in t.info[donor].assignments
      && t.info[donor].assignments[sh].id == s.info[donor].assignments[sh].id
  {
  }
}
