/** Heartbeats: who expires, and the panic that cannot be reached. */
module Expiry {
  import opened Finite
  import opened Lineage
  import opened WorkerRecord
  import opened ManagerModel
  import opened Conservation
  import opened ManagerRuns

  // ---------- The heartbeat queue, in every run whatsoever ----------

  lemma ForgetKeeps(info: map<WorkerInfo, Worker>, loans: set<Loan>)
    ensures Forget(info, loans).Keys == info.Keys
    ensures forall u :: u in info ==>
      Forget(info, loans)[u].id == info[u].id && Forget(info, loans)[u].heartbeat == info[u].heartbeat
    ensures forall u :: u in info ==>
      Forget(info, loans)[u].offer == info[u].offer && Forget(info, loans)[u].active == info[u].active
  {
  }

  /** The same workers are registered, under the same ids and heartbeats. */
  ghost predicate SameRegistry(s: State, t: State) {
    && t.workers == s.workers && t.heartbeats == s.heartbeats
    && t.info.Keys == s.info.Keys
    && forall u :: u in s.info ==> t.info[u].id == s.info[u].id && t.info[u].heartbeat == s.info[u].heartbeat
  }

  lemma SettleRegistry(s: State, index: Index, kids: seq<ShardId>)
    requires s.closed != [] && (s.closed[0].worker.Some? ==> s.closed[0].worker.value in s.info)
    requires forall c :: c in kids ==> c in index.shards
    ensures SameRegistry(s, AfterSettle(s, index, kids))
  {
    SettleInfo(s, index, kids);
    hide AfterSettle;
  }

  lemma AcquireRegistry(s: State, w: WorkerInfo, loan: Loan)
    requires w in s.info && s.info[w].offer.Some?
    ensures SameRegistry(s, AfterAcquire(s, w, loan))
  {
    var f := Forget(s.info, {loan});
    assert forall u :: u in s.info ==> f[u].id == s.info[u].id && f[u].heartbeat == s.info[u].heartbeat;
    assert f.Keys == s.info.Keys;
    hide Forget;
  }

  lemma StealRegistry(s: State, w: WorkerInfo, donor: WorkerInfo, sh: ShardId, at: int)
    requires w in s.info && donor in s.info && sh in s.info[donor].assignments
    ensures SameRegistry(s, AfterSteal(s, w, donor, sh, at))
  {
  }

  lemma OtherRegistry(cfg: Config, s: State, a: Action)
    requires Enabled(cfg, s, a)
    requires !a.Expire? && !a.Register? && !a.Takeover? && !a.Settle? && !a.Acquire? && !a.Steal?
    ensures SameRegistry(s, Do(cfg, s, a))
  {
  }

  /** The registry changes by expiry, by assign requests and by takeovers only. */
  lemma MoveRegistry(cfg: Config, s: State, a: Action)
    requires Enabled(cfg, s, a)
    requires !a.Expire? && !a.Register? && !a.Takeover?
    ensures SameRegistry(s, Do(cfg, s, a))
  {
    hide SameRegistry;
    match a
    case Settle(index, kids) => SettleRegistry(s, index, kids);
    case Acquire(w, loan, at) => AcquireRegistry(s, w, loan);
    case Steal(w, donor, sh, at) => StealRegistry(s, w, donor, sh, at);
    case _ => OtherRegistry(cfg, s, a);
  }

  lemma KeptNamed(s: State, t: State)
    requires Named(s) && Beating(s) && SameRegistry(s, t)
    ensures Named(t) && Beating(t)
  {
  }

  lemma TakeoverNamed(s: State, index: Index, stored: map<ShardId, Mark>, open: seq<ShardId>, shut: seq<ShardId>,
                      newTerm: int)
    ensures Named(AfterTakeover(s, index, stored, open, shut, newTerm))
    ensures Beating(AfterTakeover(s, index, stored, open, shut, newTerm))
  {
  }

  lemma MoveNamed(cfg: Config, s: State, a: Action)
    requires Named(s) && Beating(s) && Enabled(cfg, s, a)
    ensures Named(Do(cfg, s, a)) && Beating(Do(cfg, s, a))
  {
    hide Named, Beating, SameRegistry;
    match a
    case Expire(w, order, at) => ExpireRoster(s, w, order);
    case Register(name, w, at) =>
      if name in s.workers { ReturnRoster(s, name, w, at); } else { ArriveRoster(s, name, w, at); }
    case Takeover(index, stored, open, shut, newTerm) => TakeoverNamed(s, index, stored, open, shut, newTerm);
    case _ =>
      MoveRegistry(cfg, s, a);
      KeptNamed(s, Do(cfg, s, a));
  }

  /** In every run, guarded or not, the heartbeat queue holds exactly the registered ids under their last
      heartbeats, so the release loop never finds an id that is not registered. */
  lemma {:induction false} InSyncAlways(cfg: Config, acts: seq<Action>)
    requires CanRun(cfg, Fresh(), acts)
    ensures Named(Run(cfg, Fresh(), acts)) && Beating(Run(cfg, Fresh(), acts))
    ensures forall id :: Oldest(Run(cfg, Fresh(), acts), id) ==> id in Run(cfg, Fresh(), acts).workers
    decreases |acts|
  {
    if acts != [] {
      InSyncAlways(cfg, acts[..|acts| - 1]);
      hide Named, Beating, Enabled;
      MoveNamed(cfg, Run(cfg, Fresh(), acts[..|acts| - 1]), acts[|acts| - 1]);
    }
    OldestKnown(Run(cfg, Fresh(), acts));
  }

  lemma OldestKnown(s: State)
    requires Beating(s)
    ensures forall id :: Oldest(s, id) ==> id in s.workers
  {
  }

  lemma DroppedStep(cfg: Config, s: State, a: Action, w: WorkerInfo)
    requires Named(s) && Beating(s) && Enabled(cfg, s, a) && w in s.info && !s.Registered(w)
    ensures w in Do(cfg, s, a).info && !Do(cfg, s, a).Registered(w)
  {
    if !a.Expire? && !a.Register? && !a.Takeover? {
      MoveRegistry(cfg, s, a);
    } else if a.Expire? {
      ForgetKeeps(s.info, s.info[a.w].Loans());
    }
  }

  /** A dropped worker object is never registered again. */
  lemma {:induction false} StaysDropped(cfg: Config, s: State, acts: seq<Action>, w: WorkerInfo)
    requires Named(s) && Beating(s) && CanRun(cfg, s, acts) && w in s.info && !s.Registered(w)
    ensures var t := Run(cfg, s, acts); Named(t) && Beating(t) && w in t.info && !t.Registered(w)
    decreases |acts|
  {
    hide Named, Beating, Enabled, Do;
    if acts != [] {
      var front := acts[..|acts| - 1];
      StaysDropped(cfg, s, front, w);
      MoveNamed(cfg, Run(cfg, s, front), acts[|acts| - 1]);
      DroppedStep(cfg, Run(cfg, s, front), acts[|acts| - 1], w);
    }
  }

  // ---------- The release loop ----------

  ghost predicate Expires(acts: seq<Action>, at: int) {
    forall i :: 0 <= i < |acts| ==> acts[i].Expire? && acts[i].at == at
  }

  /** The release loop ends: nobody is registered, or the oldest heartbeat is recent enough. */
  ghost predicate ReleaseStops(cfg: Config, s: State, at: int) {
    s.heartbeats == map[] || exists id :: Oldest(s, id) && at - s.heartbeats[id] < cfg.inactivityTimeout
  }

  ghost predicate Silent(cfg: Config, s: State, id: WorkerId, at: int) {
    id in s.workers && s.workers[id] in s.info && at - s.info[s.workers[id]].heartbeat >= cfg.inactivityTimeout
  }

  /** Some silent workers are gone; the others are as they were. */
  ghost predicate Released(cfg: Config, s: State, t: State, at: int) {
    && t.workers.Keys <= s.workers.Keys
    && (forall id :: id in t.workers ==>
          t.workers[id] == s.workers[id] && s.workers[id] in s.info && t.workers[id] in t.info
          && t.info[t.workers[id]].heartbeat == s.info[s.workers[id]].heartbeat)
    && (forall id :: id in s.workers && id !in t.workers ==> Silent(cfg, s, id, at))
  }

  lemma ReleasedMore(cfg: Config, s: State, t: State, w: WorkerInfo, order: seq<ShardId>, at: int)
    requires Released(cfg, s, t, at) && Named(t) && t.Registered(w)
    requires at - t.info[w].heartbeat >= cfg.inactivityTimeout
    ensures Released(cfg, s, AfterExpire(t, w, order), at)
  {
    ForgetKeeps(t.info, t.info[w].Loans());
    hide Forget;
  }

  lemma {:induction false} ReleaseRun(cfg: Config, s: State, at: int, acts: seq<Action>)
    requires Named(s) && Beating(s) && CanRun(cfg, s, acts) && Expires(acts, at)
    ensures var t := Run(cfg, s, acts); Named(t) && Beating(t) && Released(cfg, s, t, at)
    decreases |acts|
  {
    if acts != [] {
      var front := acts[..|acts| - 1];
      var a := acts[|acts| - 1];
      ReleaseRun(cfg, s, at, front);
      hide Named, Beating, Released, Oldest;
      MoveNamed(cfg, Run(cfg, s, front), a);
      ReleasedMore(cfg, s, Run(cfg, s, front), a.w, a.order, at);
    }
  }

  /** Expiry is exact: the release loop removes the workers silent for at least the timeout, and no others. */
  lemma ExpiryExact(cfg: Config, s: State, at: int, acts: seq<Action>)
    requires Named(s) && Beating(s) && CanRun(cfg, s, acts) && Expires(acts, at)
    requires ReleaseStops(cfg, Run(cfg, s, acts), at)
    ensures forall id :: id in s.workers ==> (id in Run(cfg, s, acts).workers <==> !Silent(cfg, s, id, at))
    ensures forall id :: id in Run(cfg, s, acts).workers ==>
      id in s.workers && Run(cfg, s, acts).workers[id] == s.workers[id]
  {
    hide CanRun, Run;
    ReleaseRun(cfg, s, at, acts);
    var t := Run(cfg, s, acts);
    forall id | id in t.workers ensures !Silent(cfg, s, id, at) {
      assert id in t.heartbeats;
    }
  }
}
