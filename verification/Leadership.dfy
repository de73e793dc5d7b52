/** One leader after another. Under G5 the ids tell the requests of the new leader from those of the old ones, and the
    store, which knows nothing but ids, keeps them apart. */
module Leadership {
  import opened Finite
  import opened Lineage
  import opened WorkerRecord
  import opened ManagerModel
  import opened Conservation
  import opened Expiry
  import opened AssignmentIds
  import opened AssignCalls
  import R = ManagerRuns
  import D = Delivery
  import F = Fencing

  // ---------- Managers ----------

  ghost predicate Lawful(s: State) {
    Named(s) && Beating(s) && IdsIssued(s)
  }

  /** From s to t ids have been kept or issued anew, and dropped workers have stayed so. */
  ghost predicate Onward(s: State, t: State) {
    && Lawful(t) && IdsStep(s, t)
    && forall u :: u in s.info && !s.Registered(u) ==> u in t.info && !t.Registered(u)
  }

  lemma MoveOnward(cfg: Config, s: State, a: Action)
    requires Lawful(s) && Enabled(cfg, s, a) && TermsGrow(s, a)
    ensures Onward(s, Do(cfg, s, a))
  {
    hide Named, Beating, IdsStep, IdsIssued, Enabled, Do;
    MoveNamed(cfg, s, a);
    MoveIds(cfg, s, a);
    IssuedMore(s, Do(cfg, s, a));
    forall u | u in s.info && !s.Registered(u) ensures u in Do(cfg, s, a).info && !Do(cfg, s, a).Registered(u) {
      DroppedStep(cfg, s, a, u);
    }
  }

  lemma SameOnward(s: State, t: State)
    requires Lawful(s) && t == s.(checkpoints := t.checkpoints, closed := t.closed)
    ensures Onward(s, t)
  {
  }

  /** Hypothesis: every process takes its terms in increasing order. */
  ghost predicate TermsRise(w: D.World, e: D.Event) {
    e.TakeOver? && e.m in w.managers ==> TermsGrow(w.managers[e.m], e.a)
  }

  ghost predicate TermsRising(cfg: Config, w: D.World, es: seq<D.Event>)
    requires D.CanAll(cfg, w, es)
    decreases |es|
  {
    es == [] || (TermsRising(cfg, w, es[..|es| - 1]) && TermsRise(D.WorldAfter(cfg, w, es[..|es| - 1]), es[|es| - 1]))
  }

  lemma NextRising(cfg: Config, w: D.World, es: seq<D.Event>, e: D.Event)
    requires D.CanAll(cfg, w, es) && TermsRising(cfg, w, es)
    requires D.CanHappen(cfg, D.WorldAfter(cfg, w, es), e) && TermsRise(D.WorldAfter(cfg, w, es), e)
    ensures D.CanAll(cfg, w, es + [e]) && TermsRising(cfg, w, es + [e])
    ensures D.WorldAfter(cfg, w, es + [e]) == D.Happened(cfg, D.WorldAfter(cfg, w, es), e)
  {
    hide D.CanHappen, D.Happened, TermsRise;
    D.NextEvent(cfg, w, es, e);
    assert (es + [e])[..|es|] == es;
  }

  ghost predicate ManagersOnward(w: D.World, v: D.World) {
    v.managers.Keys == w.managers.Keys && forall m :: m in w.managers ==> Onward(w.managers[m], v.managers[m])
  }

  ghost predicate ManagersLawful(w: D.World) {
    forall m :: m in w.managers ==> Lawful(w.managers[m])
  }

  lemma FinishedOnward(s: State, o: D.Origin, q: F.Request)
    requires Lawful(s)
    ensures Onward(s, D.Finished(s, o, q))
  {
    SameOnward(s, D.Finished(s, o, q));
  }

  lemma OneOnward(w: D.World, v: D.World, m: nat, t: State)
    requires ManagersLawful(w) && v.managers == w.managers[m := t] && m in w.managers && Onward(w.managers[m], t)
    ensures ManagersOnward(w, v)
  {
    forall k | k in w.managers ensures Onward(w.managers[k], v.managers[k]) {
      if k != m { SameOnward(w.managers[k], w.managers[k]); }
    }
  }

  lemma NoneOnward(w: D.World, v: D.World)
    requires ManagersLawful(w) && v.managers == w.managers
    ensures ManagersOnward(w, v)
  {
    forall k | k in w.managers ensures Onward(w.managers[k], v.managers[k]) {
      SameOnward(w.managers[k], w.managers[k]);
    }
  }

  /** One manager at most changes at a time. */
  lemma EventManagers(cfg: Config, w: D.World, e: D.Event)
    requires ManagersLawful(w) && D.CanHappen(cfg, w, e) && TermsRise(w, e)
    ensures ManagersOnward(w, D.Happened(cfg, w, e))
  {
    hide Lawful, Onward, ManagersOnward, Enabled, Do, D.Finished, OwnedUnder, F.StepOf, F.CanStep, D.Locally,
         D.CanLocally;
    var v := D.Happened(cfg, w, e);
    if e.Move? || e.TakeOver? {
      MoveOnward(cfg, w.managers[e.m], e.a);
      OneOnward(w, v, e.m, Do(cfg, w.managers[e.m], e.a));
    } else if e.Finish? {
      var o, q := w.origins[e.r], w.fence.requests[e.r];
      FinishedOnward(w.managers[o.manager], o, q);
      OneOnward(w, v, o.manager, D.Finished(w.managers[o.manager], o, q));
    } else {
      OthersOnward(cfg, w, e);
    }
  }

  lemma OthersOnward(cfg: Config, w: D.World, e: D.Event)
    requires ManagersLawful(w) && D.CanHappen(cfg, w, e) && !e.Move? && !e.TakeOver? && !e.Finish?
    ensures ManagersOnward(w, D.Happened(cfg, w, e))
  {
    ManagersSame(cfg, w, e);
    hide D.CanHappen, D.Happened;
    NoneOnward(w, D.Happened(cfg, w, e));
  }

  lemma ManagersSame(cfg: Config, w: D.World, e: D.Event)
    requires D.CanHappen(cfg, w, e) && !e.Move? && !e.TakeOver? && !e.Finish?
    ensures D.Happened(cfg, w, e).managers == w.managers
  {
    hide Enabled, F.StepOf, D.Locally, D.CanLocally, OwnedUnder;
  }

  // ---------- Requests ----------

  /** Every request has passed the ownership check of a manager, which had issued its id. */
  ghost predicate Granted(w: D.World) {
    && w.fence.requests.Keys == w.origins.Keys
    && forall r :: r in w.origins ==>
      w.origins[r].manager in w.managers && w.fence.requests[r].id < w.managers[w.origins[r].manager].NextId()
  }

  /** Requests keep what they were begun with. */
  ghost predicate RequestsStay(w: D.World, v: D.World) {
    forall r :: r in w.fence.requests && r in w.origins ==>
      r in v.fence.requests && r in v.origins && v.origins[r] == w.origins[r]
      && v.fence.requests[r].id == w.fence.requests[r].id
  }

  /** The requests begun since were owned under their ids where they passed. */
  ghost predicate NewOwned(w: D.World, v: D.World) {
    && (forall r :: r in v.fence.requests && r !in w.fence.requests <==> r in v.origins && r !in w.origins)
    && forall r :: r in v.origins && r !in w.origins && r in v.fence.requests ==>
      var o := v.origins[r];
      && o.manager in w.managers
      && OwnedUnder(w.managers[o.manager], o.worker, v.fence.requests[r].shard, v.fence.requests[r].id)
  }

  lemma StepRequests(f: F.Fence, s: F.Step)
    requires F.CanStep(f, s) && !s.Begin?
    ensures F.StepOf(f, s).requests.Keys == f.requests.Keys
    ensures forall r :: r in f.requests ==> F.StepOf(f, s).requests[r].id == f.requests[r].id
  {
    hide F.Passes, F.Text;
  }

  /** The fence changes by its own steps only. */
  lemma EventRequests(cfg: Config, w: D.World, e: D.Event)
    requires D.CanHappen(cfg, w, e) && F.Fenced(w.fence) && Granted(w)
    ensures var v := D.Happened(cfg, w, e); RequestsStay(w, v) && NewOwned(w, v) && F.Fenced(v.fence)
  {
    hide D.CanHappen, D.Happened, F.Fenced, RequestsStay, NewOwned, Granted;
    if e.Send? {
      SendRequest(cfg, w, e);
    } else if e.Transact? {
      TransactRequest(cfg, w, e);
    } else {
      D.StoreAlone(cfg, w, e);
      OriginsAlone(cfg, w, e);
      SameRequests(w, D.Happened(cfg, w, e));
    }
  }

  /** Only the store's answers have changed. */
  lemma SameRequests(w: D.World, v: D.World)
    requires v.origins == w.origins && v.fence.requests.Keys == w.fence.requests.Keys
    requires forall r :: r in w.fence.requests ==> v.fence.requests[r].id == w.fence.requests[r].id
    ensures RequestsStay(w, v) && NewOwned(w, v)
  {
  }

  lemma TransactRequest(cfg: Config, w: D.World, e: D.Event)
    requires D.CanHappen(cfg, w, e) && F.Fenced(w.fence) && e.Transact?
    ensures var v := D.Happened(cfg, w, e); RequestsStay(w, v) && NewOwned(w, v) && F.Fenced(v.fence)
  {
    F.StepFenced(w.fence, e.s);
    StepRequests(w.fence, e.s);
    hide F.CanStep, F.StepOf, F.Fenced, RequestsStay, NewOwned;
    SameRequests(w, D.Happened(cfg, w, e));
  }

  lemma OriginsAlone(cfg: Config, w: D.World, e: D.Event)
    requires D.CanHappen(cfg, w, e) && !e.Send?
    ensures D.Happened(cfg, w, e).origins == w.origins
  {
    hide Enabled, Do, D.Finished, D.Locally, D.CanLocally, F.StepOf, F.CanStep;
  }

  lemma SendRequest(cfg: Config, w: D.World, e: D.Event)
    requires D.CanHappen(cfg, w, e) && F.Fenced(w.fence) && e.Send? && Granted(w)
    ensures var v := D.Happened(cfg, w, e); RequestsStay(w, v) && NewOwned(w, v) && F.Fenced(v.fence)
  {
    SendMade(cfg, w, e);
    var v := D.Happened(cfg, w, e);
    var grant := w.processors[e.p].grant;
    hide F.Fenced, D.CanHappen, D.Happened, OwnedUnder, RequestsStay, NewOwned, Granted;
    F.StepFenced(w.fence, F.Begin(e.r, grant.shard, grant.id, e.mark));
    OneMore(w, v, e.r, e.origin, F.Request(grant.shard, grant.id, e.mark, 0, F.Trying, 0, 0));
  }

  lemma OneMore(w: D.World, v: D.World, r: nat, o: D.Origin, q: F.Request)
    requires r !in w.fence.requests && r !in w.origins && o.manager in w.managers
    requires v.origins == w.origins[r := o] && v.fence.requests == w.fence.requests[r := q]
    requires OwnedUnder(w.managers[o.manager], o.worker, q.shard, q.id)
    ensures RequestsStay(w, v) && NewOwned(w, v)
  {
    hide OwnedUnder;
  }

  lemma SendMade(cfg: Config, w: D.World, e: D.Event)
    requires D.CanHappen(cfg, w, e) && e.Send?
    ensures var v := D.Happened(cfg, w, e);
      var grant := w.processors[e.p].grant;
      && e.r !in w.fence.requests && e.r !in w.origins && v.origins == w.origins[e.r := e.origin]
      && v.fence == F.StepOf(w.fence, F.Begin(e.r, grant.shard, grant.id, e.mark))
      && e.origin.manager in w.managers
      && OwnedUnder(w.managers[e.origin.manager], e.origin.worker, grant.shard, grant.id)
  {
    hide D.Locally, D.CanLocally, OwnedUnder, F.StepOf;
  }

  // ---------- Every run ----------

  ghost predicate InOrder(w: D.World) {
    ManagersLawful(w) && Granted(w) && F.Fenced(w.fence)
  }

  /** From w to v every manager and every request has gone on as it should. */
  ghost predicate WentOn(w: D.World, v: D.World) {
    InOrder(v) && ManagersOnward(w, v) && RequestsStay(w, v)
  }

  lemma OwnedIssued(s: State, t: State, name: WorkerId, sh: ShardId, id: int)
    requires Lawful(s) && Onward(s, t) && OwnedUnder(s, name, sh, id)
    ensures id < t.NextId()
  {
  }

  lemma OnwardNext(s: State, t: State)
    requires Onward(s, t)
    ensures s.NextId() <= t.NextId() && Lawful(t)
  {
  }

  lemma GrantedStep(w: D.World, v: D.World)
    requires ManagersLawful(w) && Granted(w) && ManagersOnward(w, v) && RequestsStay(w, v) && NewOwned(w, v)
    ensures Granted(v) && ManagersLawful(v)
  {
    hide Lawful, Onward, OwnedUnder, State.NextId;
    forall m | m in w.managers ensures w.managers[m].NextId() <= v.managers[m].NextId() && Lawful(v.managers[m]) {
      OnwardNext(w.managers[m], v.managers[m]);
    }
    forall r | r in v.origins
      ensures v.origins[r].manager in v.managers && r in v.fence.requests
              && v.fence.requests[r].id < v.managers[v.origins[r].manager].NextId() {
      if r !in w.origins {
        var o := v.origins[r];
        OwnedIssued(w.managers[o.manager], v.managers[o.manager], o.worker, v.fence.requests[r].shard,
                    v.fence.requests[r].id);
      }
    }
  }

  lemma EventInOrder(cfg: Config, w: D.World, e: D.Event)
    requires InOrder(w) && D.CanHappen(cfg, w, e) && TermsRise(w, e)
    ensures WentOn(w, D.Happened(cfg, w, e)) && NewOwned(w, D.Happened(cfg, w, e))
  {
    hide D.CanHappen, D.Happened, ManagersLawful, ManagersOnward, Granted, RequestsStay, NewOwned, F.Fenced, TermsRise;
    EventManagers(cfg, w, e);
    EventRequests(cfg, w, e);
    GrantedStep(w, D.Happened(cfg, w, e));
  }

  lemma OnwardJoin(s: State, t: State, u: State)
    requires Onward(s, t) && Onward(t, u)
    ensures Onward(s, u)
  {
    IdsJoin(s, t, u);
    hide IdsStep, Lawful;
  }

  lemma WentOnJoin(w: D.World, v: D.World, x: D.World)
    requires WentOn(w, v) && WentOn(v, x)
    ensures WentOn(w, x)
  {
    hide InOrder, Onward;
    forall m | m in w.managers ensures Onward(w.managers[m], x.managers[m]) {
      OnwardJoin(w.managers[m], v.managers[m], x.managers[m]);
    }
  }

  lemma WentNowhere(w: D.World)
    requires InOrder(w)
    ensures WentOn(w, w)
  {
    hide F.Fenced, Granted;
    forall m | m in w.managers ensures Onward(w.managers[m], w.managers[m]) {
      SameOnward(w.managers[m], w.managers[m]);
    }
  }

  lemma {:induction false} RunInOrder(cfg: Config, w: D.World, es: seq<D.Event>)
    requires InOrder(w) && D.CanAll(cfg, w, es) && TermsRising(cfg, w, es)
    ensures WentOn(w, D.WorldAfter(cfg, w, es))
    decreases |es|
  {
    hide InOrder, ManagersOnward, RequestsStay, D.CanHappen, D.Happened, TermsRise;
    if es == [] {
      WentNowhere(w);
    } else {
      var front := es[..|es| - 1];
      RunInOrder(cfg, w, front);
      EventInOrder(cfg, D.WorldAfter(cfg, w, front), es[|es| - 1]);
      WentOnJoin(w, D.WorldAfter(cfg, w, front), D.WorldAfter(cfg, w, es));
    }
  }

  lemma StartInOrder(managers: set<nat>)
    ensures InOrder(D.Start(managers))
  {
  }

  // ---------- A new leader ----------

  /** m took over when only the requests in begun had begun: every id it has given out, or let through, since then is at
      least bound. */
  ghost predicate IdsAbove(w: D.World, m: nat, bound: int, begun: set<nat>) {
    && m in w.managers && bound <= w.managers[m].NextId() && HoldsAbove(w.managers[m], bound)
    && forall r :: r in w.origins && r !in begun && w.origins[r].manager == m && r in w.fence.requests ==>
      bound <= w.fence.requests[r].id
  }

  ghost predicate HoldsAbove(s: State, bound: int) {
    forall u, sh :: u in s.info && s.Registered(u) && sh in s.info[u].assignments ==>
      bound <= s.info[u].assignments[sh].id
  }

  lemma HoldsOnward(s: State, t: State, bound: int)
    requires Onward(s, t) && HoldsAbove(s, bound) && bound <= s.NextId()
    ensures HoldsAbove(t, bound) && bound <= t.NextId()
  {
    forall u, sh | u in t.info && t.Registered(u) && sh in t.info[u].assignments
      ensures bound <= t.info[u].assignments[sh].id {
      if t.info[u].assignments[sh].id < s.NextId() {
        assert u in s.info && s.Registered(u);
      }
    }
  }

  lemma OwnedAbove(s: State, bound: int, name: WorkerId, sh: ShardId, id: int)
    requires Lawful(s) && HoldsAbove(s, bound) && OwnedUnder(s, name, sh, id)
    ensures bound <= id
  {
    OwnerFacts(s, name, sh, id);
  }

  lemma AboveStep(w: D.World, v: D.World, m: nat, bound: int, begun: set<nat>)
    requires InOrder(w) && IdsAbove(w, m, bound, begun) && WentOn(w, v) && NewOwned(w, v)
    ensures IdsAbove(v, m, bound, begun)
  {
    hide Lawful, Onward, OwnedUnder, F.Fenced, State.NextId;
    HoldsOnward(w.managers[m], v.managers[m], bound);
    hide HoldsAbove;
    forall r | r in v.origins && r !in begun && v.origins[r].manager == m && r in v.fence.requests
      ensures bound <= v.fence.requests[r].id {
      if r !in w.origins {
        OwnedAbove(w.managers[m], bound, v.origins[r].worker, v.fence.requests[r].shard, v.fence.requests[r].id);
      }
    }
  }

  lemma {:induction false} RunAbove(cfg: Config, w: D.World, es: seq<D.Event>, m: nat, bound: int, begun: set<nat>)
    requires InOrder(w) && D.CanAll(cfg, w, es) && TermsRising(cfg, w, es) && IdsAbove(w, m, bound, begun)
    ensures IdsAbove(D.WorldAfter(cfg, w, es), m, bound, begun)
    decreases |es|
  {
    if es != [] {
      hide InOrder, ManagersOnward, RequestsStay, IdsAbove, NewOwned, D.CanHappen, D.Happened, TermsRise;
      var front := es[..|es| - 1];
      RunInOrder(cfg, w, front);
      RunAbove(cfg, w, front, m, bound, begun);
      EventInOrder(cfg, D.WorldAfter(cfg, w, front), es[|es| - 1]);
      AboveStep(D.WorldAfter(cfg, w, front), D.WorldAfter(cfg, w, es), m, bound, begun);
    }
  }

  /** The first id that m can issue once it has taken over. */
  function Bound(w: D.World, e: D.Event): int
    requires e.TakeOver? && e.a.Takeover? && e.m in w.managers
  {
    e.a.newTerm + w.managers[e.m].nextOffset
  }

  lemma TakeOverAbove(cfg: Config, w: D.World, e: D.Event)
    requires InOrder(w) && e.TakeOver? && D.CanHappen(cfg, w, e) && TermsRise(w, e)
    ensures IdsAbove(D.Happened(cfg, w, e), e.m, Bound(w, e), w.origins.Keys)
    ensures w.managers[e.m].NextId() <= Bound(w, e)
    ensures D.Happened(cfg, w, e).origins == w.origins && D.Happened(cfg, w, e).fence == w.fence
  {
    hide Lawful, F.Fenced, Granted;
  }

  /** Hypothesis G5: none of the older leaders has issued an id that the new one can issue. Ids only grow, so if it
      is so in the end it has been so all along. */
  ghost predicate Outnumbered(v: D.World, older: set<nat>, bound: int) {
    forall k :: k in older && k in v.managers ==> v.managers[k].NextId() <= bound
  }

  /** r was let through by m after its takeover, when the requests in begun had begun already. */
  ghost predicate ByNewLeader(v: D.World, m: nat, begun: set<nat>, r: nat) {
    r in v.origins && v.origins[r].manager == m && r !in begun
  }

  /** r was let through by an older leader, or by m in an earlier term. */
  ghost predicate ByOlderLeader(v: D.World, older: set<nat>, m: nat, begun: set<nat>, r: nat) {
    r in v.origins && (v.origins[r].manager in older || (v.origins[r].manager == m && r in begun))
  }

  lemma NewIds(v: D.World, m: nat, bound: int, begun: set<nat>, r: nat)
    requires InOrder(v) && IdsAbove(v, m, bound, begun) && ByNewLeader(v, m, begun, r)
    ensures r in v.fence.requests && bound <= v.fence.requests[r].id
  {
    hide ManagersLawful, F.Fenced;
  }

  lemma OldIds(w: D.World, v: D.World, older: set<nat>, m: nat, bound: int, r: nat)
    requires InOrder(w) && WentOn(w, v) && Outnumbered(v, older, bound)
    requires m in w.managers && w.managers[m].NextId() <= bound && ByOlderLeader(v, older, m, w.origins.Keys, r)
    ensures r in v.fence.requests && v.fence.requests[r].id < bound
  {
    hide ManagersLawful, F.Fenced, Onward;
  }

  /** A commit of a shard is never under a smaller id than an earlier one, and is what its request says. */
  lemma CommitIds(f: F.Fence, i: nat, j: nat)
    requires F.Fenced(f) && i < j < |f.log| && f.log[i].shard == f.log[j].shard
    ensures f.log[i].r in f.requests && f.log[j].r in f.requests
    ensures f.requests[f.log[i].r].id <= f.requests[f.log[j].r].id
  {
    assert F.LoggedFor(f.log[i], f.requests) && F.LoggedFor(f.log[j], f.requests);
  }

  /** Once a request let through by m since its takeover has committed for a shard, none let through by an older leader
      commits for it. */
  ghost predicate OldShutOut(v: D.World, older: set<nat>, m: nat, begun: set<nat>) {
    forall i, j :: 0 <= i < j < |v.fence.log| && v.fence.log[i].shard == v.fence.log[j].shard
                   && ByNewLeader(v, m, begun, v.fence.log[i].r) ==>
      !ByOlderLeader(v, older, m, begun, v.fence.log[j].r)
  }

  lemma NewestOnly(w: D.World, v: D.World, older: set<nat>, m: nat, bound: int)
    requires InOrder(w) && WentOn(w, v) && IdsAbove(v, m, bound, w.origins.Keys) && Outnumbered(v, older, bound)
    requires m in w.managers && w.managers[m].NextId() <= bound
    ensures OldShutOut(v, older, m, w.origins.Keys)
  {
    assert F.Fenced(v.fence) && InOrder(v);
    hide Outnumbered, IdsAbove, ByNewLeader, ByOlderLeader, F.Fenced, InOrder, WentOn, State.NextId;
    forall i, j | 0 <= i < j < |v.fence.log| && v.fence.log[i].shard == v.fence.log[j].shard
                  && ByNewLeader(v, m, w.origins.Keys, v.fence.log[i].r)
      ensures !ByOlderLeader(v, older, m, w.origins.Keys, v.fence.log[j].r) {
      CommitIds(v.fence, i, j);
      NewIds(v, m, bound, w.origins.Keys, v.fence.log[i].r);
      if ByOlderLeader(v, older, m, w.origins.Keys, v.fence.log[j].r) {
        OldIds(w, v, older, m, bound, v.fence.log[j].r);
      }
    }
  }

  /** In w a manager takes over, and then come the events of after. */
  ghost predicate CanLead(cfg: Config, w: D.World, e: D.Event, after: seq<D.Event>) {
    && e.TakeOver? && D.CanHappen(cfg, w, e) && TermsRise(w, e)
    && D.CanAll(cfg, D.Happened(cfg, w, e), after) && TermsRising(cfg, D.Happened(cfg, w, e), after)
  }

  ghost function Led(cfg: Config, w: D.World, e: D.Event, after: seq<D.Event>): D.World
    requires CanLead(cfg, w, e, after)
  {
    D.WorldAfter(cfg, D.Happened(cfg, w, e), after)
  }

  /** What there is to say of the world since then. */
  lemma SinceTakeOver(cfg: Config, w: D.World, e: D.Event, after: seq<D.Event>)
    requires InOrder(w) && CanLead(cfg, w, e, after)
    ensures WentOn(w, Led(cfg, w, e, after)) && w.managers[e.m].NextId() <= Bound(w, e)
    ensures IdsAbove(Led(cfg, w, e, after), e.m, Bound(w, e), w.origins.Keys)
  {
    TakeOverAbove(cfg, w, e);
    EventInOrder(cfg, w, e);
    var t := D.Happened(cfg, w, e);
    WentInOrder(w, t);
    hide InOrder, TermsRise, D.CanHappen, D.Happened, D.CanAll, D.WorldAfter, TermsRising, ManagersOnward,
         RequestsStay, NewOwned, IdsAbove;
    RunInOrder(cfg, t, after);
    RunAbove(cfg, t, after, e.m, Bound(w, e), w.origins.Keys);
    WentOnJoin(w, t, D.WorldAfter(cfg, t, after));
  }

  lemma WentInOrder(w: D.World, v: D.World)
    requires WentOn(w, v)
    ensures InOrder(v)
  {
  }

  /** Leaders are exclusive where it counts: whatever has happened before the takeover of a manager, and whatever
      follows it, under G5 the store shuts the older leaders out, shard by shard, with the new one's first commit. */
  lemma OldLeaderShutOut(cfg: Config, managers: set<nat>, before: seq<D.Event>, e: D.Event, after: seq<D.Event>,
                         older: set<nat>)
    requires D.CanAll(cfg, D.Start(managers), before) && TermsRising(cfg, D.Start(managers), before)
    requires CanLead(cfg, D.WorldAfter(cfg, D.Start(managers), before), e, after)
    requires var w := D.WorldAfter(cfg, D.Start(managers), before);
      Outnumbered(Led(cfg, w, e, after), older, Bound(w, e))
    ensures var w := D.WorldAfter(cfg, D.Start(managers), before);
      OldShutOut(Led(cfg, w, e, after), older, e.m, w.origins.Keys)
  {
    var w := D.WorldAfter(cfg, D.Start(managers), before);
    StartInOrder(managers);
    RunInOrder(cfg, D.Start(managers), before);
    WentInOrder(D.Start(managers), w);
    assert e.a.Takeover? && e.m in w.managers;
    hide D.CanAll, D.WorldAfter, TermsRising, InOrder, WentOn, CanLead, Led, Outnumbered, OldShutOut;
    SinceTakeOver(cfg, w, e, after);
    NewestOnly(w, Led(cfg, w, e, after), older, e.m, Bound(w, e));
  }
}
