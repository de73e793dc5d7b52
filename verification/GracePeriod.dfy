/** A stolen shard stays with its donor for at least the release timeout. */
module GracePeriod {
  import opened Finite
  import opened Lineage
  import opened WorkerRecord
  import opened ManagerModel
  import opened Conservation
  import opened ManagerRuns
  import opened Expiry

  /** The time of the request a move belongs to. */
  function TimeOf(a: Action): Option<int> {
    match a
    case Expire(_, _, at) => Some(at)
    case Register(_, _, at) => Some(at)
    case Acquire(_, _, at) => Some(at)
    case Steal(_, _, _, at) => Some(at)
    case _ => None
  }

  /** The latest request time so far, starting from now. */
  function Clock(acts: seq<Action>, now: int): int
    decreases |acts|
  {
    if acts == [] then now
    else if TimeOf(acts[|acts| - 1]).Some? then TimeOf(acts[|acts| - 1]).value
    else Clock(acts[..|acts| - 1], now)
  }

  /** Request times do not decrease. */
  ghost predicate Timely(acts: seq<Action>, now: int)
    decreases |acts|
  {
    acts == [] ||
    (var front := acts[..|acts| - 1];
     var time := TimeOf(acts[|acts| - 1]);
     Timely(front, now) && (time.Some? ==> Clock(front, now) <= time.value))
  }

  /** Nothing is dated later than now, and no offer is younger than its holder's last heartbeat. */
  ghost predicate Dated(r: Roster, now: int) {
    forall w :: w in r ==>
      r[w].heartbeat <= now && (r[w].offer.Some? ==> r[w].offer.value.createdAt <= r[w].heartbeat)
  }

  /** donor's assignment of sh is lent out under an offer made at since. */
  ghost predicate Reserved(s: State, loc: Places, donor: WorkerInfo, sh: ShardId, since: int) {
    && s.Registered(donor)
    && sh in loc && loc[sh].Lent? && loc[sh].donor == donor
    && loc[sh].holder in s.info && s.info[loc[sh].holder].offer.Some?
    && s.info[loc[sh].holder].offer.value.createdAt == since
  }

  /** Offers are made by steals only; otherwise they are kept, reduced or dropped. */
  ghost predicate OffersKept(s: State, t: State) {
    && s.info.Keys <= t.info.Keys
    && forall u :: u in s.info && t.info[u].offer.Some? ==>
         s.info[u].offer.Some? && t.info[u].offer.value.createdAt == s.info[u].offer.value.createdAt
  }

  lemma SettleOffers(s: State, index: Index, kids: seq<ShardId>)
    requires s.closed != [] && (s.closed[0].worker.Some? ==> s.closed[0].worker.value in s.info)
    requires forall c :: c in kids ==> c in index.shards
    ensures OffersKept(s, AfterSettle(s, index, kids))
  {
    SettleInfo(s, index, kids);
    hide AfterSettle;
  }

  lemma AcquireOffers(s: State, w: WorkerInfo, loan: Loan)
    requires w in s.info && s.info[w].offer.Some?
    ensures OffersKept(s, AfterAcquire(s, w, loan))
  {
    ForgetKeeps(s.info, {loan});
    hide Forget;
  }

  lemma ExpireOffers(s: State, w: WorkerInfo, order: seq<ShardId>)
    requires w in s.info
    ensures OffersKept(s, AfterExpire(s, w, order))
  {
    ForgetKeeps(s.info, s.info[w].Loans());
    hide Forget;
  }

  lemma OtherOffers(cfg: Config, s: State, a: Action)
    requires Enabled(cfg, s, a) && !a.Steal? && !a.Settle? && !a.Acquire? && !a.Expire?
    ensures OffersKept(s, Do(cfg, s, a))
  {
  }

  lemma MoveOffers(cfg: Config, s: State, a: Action)
    requires Enabled(cfg, s, a) && !a.Steal?
    ensures OffersKept(s, Do(cfg, s, a))
  {
    hide OffersKept;
    match a
    case Expire(w, order, at) => ExpireOffers(s, w, order);
    case Settle(index, kids) => SettleOffers(s, index, kids);
    case Acquire(w, loan, at) => AcquireOffers(s, w, loan);
    case _ => OtherOffers(cfg, s, a);
  }

  lemma RegistryDated(s: State, t: State, now: int)
    requires Dated(RosterOf(s), now) && SameRegistry(s, t) && OffersKept(s, t)
    ensures Dated(RosterOf(t), now)
  {
    forall u | u in RosterOf(t) ensures u in RosterOf(s) {
    }
  }

  lemma ExpireDated(s: State, w: WorkerInfo, order: seq<ShardId>, now: int)
    requires Named(s) && Beating(s) && s.Registered(w) && Dated(RosterOf(s), now)
    ensures Dated(RosterOf(AfterExpire(s, w, order)), now)
  {
    ExpireRoster(s, w, order);
    ForgetKeeps(RosterOf(s), s.info[w].Loans());
    hide RosterOf, Forget, AfterExpire;
  }

  lemma RegisterDated(s: State, name: WorkerId, w: WorkerInfo, at: int, now: int)
    requires Named(s) && Beating(s) && (name !in s.workers ==> w !in s.info)
    requires Dated(RosterOf(s), now) && now <= at
    ensures Dated(RosterOf(AfterRegister(s, name, w, at)), at)
  {
    if name in s.workers { ReturnRoster(s, name, w, at); } else { ArriveRoster(s, name, w, at); }
    var t := AfterRegister(s, name, w, at);
    var u := t.workers[name];
    assert name in s.workers ==> u in RosterOf(s) && RosterOf(s)[u] == s.info[u];
    hide RosterOf, Named, Beating;
  }

  lemma StealDated(s: State, w: WorkerInfo, donor: WorkerInfo, sh: ShardId, at: int, now: int)
    requires Named(s) && Beating(s) && s.Registered(w) && donor in s.info && donor != w
      && sh in s.info[donor].assignments
    requires s.info[w].heartbeat == at && Dated(RosterOf(s), now) && now <= at
    ensures Dated(RosterOf(AfterSteal(s, w, donor, sh, at)), at)
  {
    var t := AfterSteal(s, w, donor, sh, at);
    forall u | u in RosterOf(t) ensures u in RosterOf(s) && t.info[u].heartbeat == s.info[u].heartbeat {
    }
  }

  lemma DatedLater(r: Roster, now: int, later: int)
    requires Dated(r, now) && now <= later
    ensures Dated(r, later)
  {
  }

  lemma MoveDated(cfg: Config, s: State, a: Action, now: int)
    requires Named(s) && Beating(s) && Dated(RosterOf(s), now) && Enabled(cfg, s, a)
    requires TimeOf(a).Some? ==> now <= TimeOf(a).value
    ensures Dated(RosterOf(Do(cfg, s, a)), if TimeOf(a).Some? then TimeOf(a).value else now)
  {
    hide Named, Beating, Dated, RosterOf, SameRegistry, OffersKept;
    var later := if TimeOf(a).Some? then TimeOf(a).value else now;
    DatedLater(RosterOf(s), now, later);
    match a
    case Expire(w, order, at) => ExpireDated(s, w, order, at);
    case Register(name, w, at) => RegisterDated(s, name, w, at, at);
    case Steal(w, donor, sh, at) => StealDated(s, w, donor, sh, at, at);
    case Takeover(index, stored, open, shut, newTerm) => TakeoverDated(s, index, stored, open, shut, newTerm, now);
    case _ =>
      MoveRegistry(cfg, s, a);
      MoveOffers(cfg, s, a);
      RegistryDated(s, Do(cfg, s, a), later);
  }

  lemma TakeoverDated(s: State, index: Index, stored: map<ShardId, Mark>, open: seq<ShardId>, shut: seq<ShardId>,
                      newTerm: int, now: int)
    ensures Dated(RosterOf(AfterTakeover(s, index, stored, open, shut, newTerm)), now)
  {
  }

  // ---------- The reservation of a stolen shard ----------

  lemma ExpiredPlace(s: State, w: WorkerInfo, order: seq<ShardId>, loc: Places, sh: ShardId)
    requires Sound(s, loc) && s.Registered(w) && Lists(order, s.info[w].Open() + ShardsOf(s.info[w].Loans()))
    requires sh in loc && loc[sh].Lent? && loc[sh].holder != w
    ensures sh !in order
  {
    InRoster(s, loc, w);
    hide Sound, RosterOf, Rostered, Held, Offered;
    if sh in s.info[w].Open() { OpenWhere(RosterOf(s), loc, w, sh); }
    forall l | l in s.info[w].Loans() ensures l.shard != sh {
      LentWhere(RosterOf(s), loc, w, l);
    }
    assert sh in order ==> sh in Elements(order);
  }

  lemma InRoster(s: State, loc: Places, w: WorkerInfo)
    requires Sound(s, loc) && s.Registered(w)
    ensures w in RosterOf(s) && RosterOf(s)[w] == s.info[w] && Held(RosterOf(s), loc) && Offered(RosterOf(s), loc)
  {
  }

  lemma SettledPlace(s: State, loc: Places)
    requires Sound(s, loc) && s.closed != [] && s.closed[0].worker.Some?
    ensures s.closed[0].shard in loc && loc[s.closed[0].shard].Owned?
  {
    assert s.closed[0] in s.closed;
    OpenWhere(RosterOf(s), loc, s.closed[0].worker.value, s.closed[0].shard);
  }

  lemma AcquiredPlace(s: State, w: WorkerInfo, loan: Loan, loc: Places)
    requires Sound(s, loc) && s.Registered(w) && loan in s.info[w].Loans()
    ensures loan.shard in loc && loc[loan.shard] == Lent(w, loan.donor)
  {
    assert w in RosterOf(s);
  }

  lemma TakenPlace(s: State, loc: Places)
    requires Sound(s, loc) && s.pool != []
    ensures s.pool[0] in loc && loc[s.pool[0]] == Pooled
  {
  }

  lemma StolenPlace(s: State, donor: WorkerInfo, sh: ShardId, loc: Places)
    requires Sound(s, loc) && donor in s.counts && donor in s.info && sh in s.info[donor].Open()
    ensures sh in loc && loc[sh] == Owned(donor)
  {
    assert donor in RosterOf(s);
  }

  /** A lent shard stays lent until its holder expires or takes it up. */
  lemma PlaceKept(cfg: Config, s: State, a: Action, loc: Places, sh: ShardId)
    requires Sound(s, loc) && Enabled(cfg, s, a)
    requires sh in loc && loc[sh].Lent?
    requires !a.Takeover? && !((a.Expire? || a.Acquire?) && a.w == loc[sh].holder)
    ensures sh in Moved(cfg, s, a, loc) && Moved(cfg, s, a, loc)[sh] == loc[sh]
  {
    hide Sound, Do, AfterSettle;
    match a
    case Expire(w, order, at) => ExpiredPlace(s, w, order, loc, sh);
    case Settle(index, kids) =>
      if s.closed[0].worker.Some? { SettledPlace(s, loc); }
      SettledLive(s, index, kids, loc, sh);
    case Acquire(w, loan, at) => AcquiredPlace(s, w, loan, loc);
    case Take(w) => TakenPlace(s, loc);
    case Steal(w, donor, x, at) => StolenPlace(s, donor, x, loc);
    case _ =>
  }

  lemma SettledLive(s: State, index: Index, kids: seq<ShardId>, loc: Places, sh: ShardId)
    requires Sound(s, loc) && s.closed != [] && (s.closed[0].worker.Some? ==> s.closed[0].worker.value in s.info)
    requires forall c :: c in kids ==> c in index.shards
    requires sh in loc && (s.closed[0].worker.Some? ==> sh != s.closed[0].shard)
    ensures sh in AfterSettle(s, index, kids).live
  {
    SoundLive(s, loc);
    hide Sound;
    VisitAllLive(Detach(s.(closed := s.closed[1..]), s.closed[0]), index, kids);
  }

  /** A move leaves the reservation, or comes at least the release timeout after it. */
  lemma MoveReserved(cfg: Config, s: State, a: Action, loc: Places, donor: WorkerInfo, sh: ShardId, since: int,
                     now: int)
    requires Sound(s, loc) && Enabled(cfg, s, a) && Dated(RosterOf(s), now)
    requires Sound(Do(cfg, s, a), Moved(cfg, s, a, loc))
    requires cfg.inactivityTimeout >= cfg.releaseTimeout
    requires Reserved(s, loc, donor, sh, since) && Do(cfg, s, a).Registered(donor)
    ensures Reserved(Do(cfg, s, a), Moved(cfg, s, a, loc), donor, sh, since)
         || (TimeOf(a).Some? && TimeOf(a).value >= since + cfg.releaseTimeout)
  {
    if (a.Expire? || a.Acquire?) && a.w == loc[sh].holder {
      assert a.w in RosterOf(s);
    } else {
      assert !a.Takeover?;
      PlaceKept(cfg, s, a, loc, sh);
      ReservedOffer(cfg, s, a, loc, sh);
    }
  }

  lemma ReservedOffer(cfg: Config, s: State, a: Action, loc: Places, sh: ShardId)
    requires Sound(s, loc) && Enabled(cfg, s, a) && sh in loc && loc[sh].Lent?
    requires Sound(Do(cfg, s, a), Moved(cfg, s, a, loc))
    requires sh in Moved(cfg, s, a, loc) && Moved(cfg, s, a, loc)[sh] == loc[sh]
    ensures var h := loc[sh].holder;
      && h in s.info && s.info[h].offer.Some? && h in Do(cfg, s, a).info && Do(cfg, s, a).info[h].offer.Some?
      && Do(cfg, s, a).info[h].offer.value.createdAt == s.info[h].offer.value.createdAt
  {
    hide Sound, Moved;
    LentOffer(s, loc, sh);
    LentOffer(Do(cfg, s, a), Moved(cfg, s, a, loc), sh);
    if a.Steal? {
      StealDates(cfg, s, a, loc[sh].holder);
    } else {
      hide Do, Enabled;
      MoveOffers(cfg, s, a);
    }
  }

  lemma StealDates(cfg: Config, s: State, a: Action, h: WorkerInfo)
    requires Enabled(cfg, s, a) && a.Steal? && h in s.info && s.info[h].offer.Some?
    ensures h in Do(cfg, s, a).info && Do(cfg, s, a).info[h].offer.Some?
    ensures Do(cfg, s, a).info[h].offer.value.createdAt == s.info[h].offer.value.createdAt
  {
  }

  lemma LentOffer(s: State, loc: Places, sh: ShardId)
    requires Sound(s, loc) && sh in loc && loc[sh].Lent?
    ensures loc[sh].holder in s.info && s.info[loc[sh].holder].offer.Some?
  {
    assert BackedAt(RosterOf(s), loc[sh], sh);
  }

  lemma StealReserves(s: State, w: WorkerInfo, donor: WorkerInfo, sh: ShardId, at: int, loc: Places)
    requires Sound(s, loc) && s.Registered(w) && donor in s.counts && donor != w && donor in s.info
    requires sh in s.info[donor].Open()
    ensures Reserved(AfterSteal(s, w, donor, sh, at), loc[sh := Lent(w, donor)], donor, sh, at)
  {
    StealRegistry(s, w, donor, sh, at);
  }

  lemma ReservedHeld(s: State, loc: Places, donor: WorkerInfo, sh: ShardId, since: int)
    requires Sound(s, loc) && Reserved(s, loc, donor, sh, since)
    ensures Holds(s, donor, sh)
  {
    LentHeld(s, loc, sh);
  }

  /** Grace period: with request times that do not decrease, and an inactivity timeout no shorter than the
      release timeout, a donor that is still registered before the release timeout has passed since the steal
      still holds the stolen shard, whatever has happened to the offer or its holder. */
  lemma {:induction false} GraceRun(cfg: Config, s: State, loc: Places, now: int, donor: WorkerInfo, sh: ShardId,
                                    since: int,
                                    acts: seq<Action>) returns (m: Places)
    requires Sound(s, loc) && Dated(RosterOf(s), now) && Reserved(s, loc, donor, sh, since)
    requires cfg.inactivityTimeout >= cfg.releaseTimeout
    requires CanRun(cfg, s, acts) && Along(cfg, s, acts, Orderly) && Timely(acts, now)
    ensures var t := Run(cfg, s, acts);
      && Sound(t, m) && Dated(RosterOf(t), Clock(acts, now)) && donor in t.info
      && (t.Registered(donor) && Clock(acts, now) < since + cfg.releaseTimeout ==> Reserved(t, m, donor, sh, since))
    decreases |acts|
  {
    hide Sound, Dated, Reserved, Enabled, Orderly, RosterOf;
    if acts == [] {
      m := loc;
      ReservedKnown(s, loc, donor, sh, since);
    } else {
      var front := acts[..|acts| - 1];
      var a := acts[|acts| - 1];
      m := GraceRun(cfg, s, loc, now, donor, sh, since, front);
      var t := Run(cfg, s, front);
      m := GraceStep(cfg, t, m, Clock(front, now), donor, sh, since, a);
    }
  }

  lemma ReservedKnown(s: State, loc: Places, donor: WorkerInfo, sh: ShardId, since: int)
    requires Reserved(s, loc, donor, sh, since)
    ensures donor in s.info
  {
  }

  lemma GraceStep(cfg: Config, s: State, loc: Places, now: int, donor: WorkerInfo, sh: ShardId, since: int, a: Action)
    returns (m: Places)
    requires Sound(s, loc) && Dated(RosterOf(s), now) && donor in s.info
    requires s.Registered(donor) && now < since + cfg.releaseTimeout ==> Reserved(s, loc, donor, sh, since)
    requires cfg.inactivityTimeout >= cfg.releaseTimeout
    requires Enabled(cfg, s, a) && Orderly(s, a) && (TimeOf(a).Some? ==> now <= TimeOf(a).value)
    ensures var t := Do(cfg, s, a);
      var later := if TimeOf(a).Some? then TimeOf(a).value else now;
      && Sound(t, m) && Dated(RosterOf(t), later) && donor in t.info
      && (t.Registered(donor) && later < since + cfg.releaseTimeout ==> Reserved(t, m, donor, sh, since))
  {
    var t := Do(cfg, s, a);
    m := Moved(cfg, s, a, loc);
    SoundNamed(s, loc);
    hide Sound, Dated, Reserved, Enabled, RosterOf, Do, Moved, Named, Beating;
    MoveSound(cfg, s, a, loc);
    MoveDated(cfg, s, a, now);
    InfoGrows(cfg, s, a);
    if !s.Registered(donor) {
      DroppedStep(cfg, s, a, donor);
    } else if t.Registered(donor) && now < since + cfg.releaseTimeout {
      MoveReserved(cfg, s, a, loc, donor, sh, since, now);
    }
  }

  lemma SoundNamed(s: State, loc: Places)
    requires Sound(s, loc)
    ensures Named(s) && Beating(s)
  {
  }

  lemma InfoGrows(cfg: Config, s: State, a: Action)
    requires Enabled(cfg, s, a)
    ensures s.info.Keys <= Do(cfg, s, a).info.Keys
  {
    if !a.Expire? && !a.Register? && !a.Takeover? {
      MoveRegistry(cfg, s, a);
    }
  }

  /** The same, read off the states: from the steal on, until the release timeout has passed. */
  lemma GracePeriodHolds(cfg: Config, s: State, loc: Places, now: int, steal: Action, acts: seq<Action>)
    requires Sound(s, loc) && Dated(RosterOf(s), now) && cfg.inactivityTimeout >= cfg.releaseTimeout
    requires steal.Steal? && Enabled(cfg, s, steal) && now <= steal.at
    requires CanRun(cfg, Do(cfg, s, steal), acts) && Along(cfg, Do(cfg, s, steal), acts, Orderly)
      && Timely(acts, steal.at)
    ensures var t := Run(cfg, Do(cfg, s, steal), acts);
      t.Registered(steal.donor) && Clock(acts, steal.at) < steal.at + cfg.releaseTimeout ==>
        Holds(t, steal.donor, steal.shard)
  {
    var u := Do(cfg, s, steal);
    SoundNamed(s, loc);
    StealReserves(s, steal.w, steal.donor, steal.shard, steal.at, loc);
    MoveSound(cfg, s, steal, loc);
    hide Sound, Dated, Reserved, RosterOf, Named, Beating;
    MoveDated(cfg, s, steal, now);
    var m := GraceRun(cfg, u, Moved(cfg, s, steal, loc), steal.at, steal.donor, steal.shard, steal.at, acts);
    var t := Run(cfg, u, acts);
    if t.Registered(steal.donor) && Clock(acts, steal.at) < steal.at + cfg.releaseTimeout {
      ReservedHeld(t, m, steal.donor, steal.shard, steal.at);
    }
  }

  lemma {:induction false} DatedAlways(cfg: Config, now: int, acts: seq<Action>)
    requires CanRun(cfg, Fresh(), acts) && Timely(acts, now)
    ensures var t := Run(cfg, Fresh(), acts); Named(t) && Beating(t) && Dated(RosterOf(t), Clock(acts, now))
    decreases |acts|
  {
    if acts != [] {
      hide Named, Beating, Dated, RosterOf, Enabled, Do;
      DatedAlways(cfg, now, acts[..|acts| - 1]);
      MoveDated(cfg, Run(cfg, Fresh(), acts[..|acts| - 1]), acts[|acts| - 1], Clock(acts[..|acts| - 1], now));
      MoveNamed(cfg, Run(cfg, Fresh(), acts[..|acts| - 1]), acts[|acts| - 1]);
    }
  }

  /** Grace period, in every orderly run with nondecreasing request times. */
  lemma GracePeriodAlways(cfg: Config, now: int, before: seq<Action>, steal: Action, acts: seq<Action>)
    requires cfg.inactivityTimeout >= cfg.releaseTimeout
    requires CanRun(cfg, Fresh(), before) && Along(cfg, Fresh(), before, Orderly) && Timely(before, now)
    requires steal.Steal? && Enabled(cfg, Run(cfg, Fresh(), before), steal) && Clock(before, now) <= steal.at
    requires var s := Do(cfg, Run(cfg, Fresh(), before), steal);
      CanRun(cfg, s, acts) && Along(cfg, s, acts, Orderly) && Timely(acts, steal.at)
    ensures var t := Run(cfg, Do(cfg, Run(cfg, Fresh(), before), steal), acts);
      t.Registered(steal.donor) && Clock(acts, steal.at) < steal.at + cfg.releaseTimeout ==>
        Holds(t, steal.donor, steal.shard)
  {
    hide Sound, Dated, RosterOf, CanRun, Run, Along, Timely, Clock, Enabled, Do, Orderly, Holds;
    FreshSound();
    var loc := RunSound(cfg, Fresh(), map[], before);
    DatedAlways(cfg, now, before);
    GracePeriodHolds(cfg, Run(cfg, Fresh(), before), loc, Clock(before, now), steal, acts);
  }
}
