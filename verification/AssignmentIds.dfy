/** Assignment ids within one manager process: unique, increasing, and fatal to earlier owners. */
module AssignmentIds {
  import opened Finite
  import opened Lineage
  import opened WorkerRecord
  import opened ManagerModel
  import opened Conservation
  import opened ManagerRuns
  import opened Expiry

  /** Terms are taken in increasing order within the process. */
  ghost predicate TermsGrow(s: State, a: Action) {
    a.Takeover? ==> s.term <= a.newTerm
  }

  ghost predicate OrderlyTerms(s: State, a: Action) {
    Orderly(s, a) && TermsGrow(s, a)
  }

  /** Every assignment ever recorded, in registered and dropped workers alike, has an id already issued. */
  ghost predicate IdsIssued(s: State) {
    forall w, sh :: w in s.info && sh in s.info[w].assignments ==> s.info[w].assignments[sh].id < s.NextId()
  }

  /** The ownership check of both halves of the checkpoint handler. */
  ghost predicate Passes(s: State, older w: WorkerInfo, sh: ShardId, id: int) {
    s.Registered(w) && sh in s.info[w].assignments && s.info[w].assignments[sh].id == id
  }

  /** Assignments are kept with their ids, or carry a new one. */
  ghost predicate IdsStep(s: State, t: State) {
    && s.NextId() <= t.NextId()
    && forall w, sh :: w in t.info && sh in t.info[w].assignments ==>
         || (w in s.info && sh in s.info[w].assignments && t.info[w].assignments[sh].id == s.info[w].assignments[sh].id)
         || s.NextId() <= t.info[w].assignments[sh].id < t.NextId()
  }

  lemma ForgetIds(info: map<WorkerInfo, Worker>, loans: set<Loan>)
    ensures Forget(info, loans).Keys == info.Keys
    ensures forall w, sh :: w in info && sh in Forget(info, loans)[w].assignments ==>
      sh in info[w].assignments && Forget(info, loans)[w].assignments[sh] == info[w].assignments[sh]
  {
  }

  lemma GiveIds(s: State, w: WorkerInfo, sh: ShardId)
    requires w in s.info
    ensures IdsStep(s, Give(s, w, sh))
  {
  }

  lemma AcquireIds(s: State, w: WorkerInfo, loan: Loan)
    requires w in s.info && s.info[w].offer.Some?
    ensures IdsStep(s, AfterAcquire(s, w, loan))
  {
    ForgetIds(s.info, {loan});
    var t := Unlent(s, w, loan);
    assert IdsStep(s, t) && t.NextId() == s.NextId();
    hide Forget, Unlent;
    GiveIds(t, w, loan.shard);
  }

  lemma SettleIds(s: State, index: Index, kids: seq<ShardId>)
    requires s.closed != [] && (s.closed[0].worker.Some? ==> s.closed[0].worker.value in s.info)
    requires forall c :: c in kids ==> c in index.shards
    ensures IdsStep(s, AfterSettle(s, index, kids))
  {
    SettleInfo(s, index, kids);
    hide AfterSettle;
  }

  lemma ExpireIds(s: State, w: WorkerInfo, order: seq<ShardId>)
    requires w in s.info
    ensures IdsStep(s, AfterExpire(s, w, order))
  {
    ForgetIds(s.info, s.info[w].Loans());
    hide Forget;
  }

  lemma StealIds(s: State, w: WorkerInfo, donor: WorkerInfo, sh: ShardId, at: int)
    requires w in s.info && donor in s.info && sh in s.info[donor].assignments
    ensures IdsStep(s, AfterSteal(s, w, donor, sh, at))
  {
  }

  lemma OtherIds(cfg: Config, s: State, a: Action)
    requires Enabled(cfg, s, a) && TermsGrow(s, a)
    requires !a.Take? && !a.Acquire? && !a.Settle? && !a.Expire? && !a.Steal?
    ensures IdsStep(s, Do(cfg, s, a))
  {
  }

  lemma MoveIds(cfg: Config, s: State, a: Action)
    requires Enabled(cfg, s, a) && TermsGrow(s, a)
    ensures IdsStep(s, Do(cfg, s, a))
  {
    hide IdsStep;
    match a
    case Expire(w, order, at) => ExpireIds(s, w, order);
    case Settle(index, kids) => SettleIds(s, index, kids);
    case Acquire(w, loan, at) => AcquireIds(s, w, loan);
    case Take(w) => TakeIds(s, w);
    case Steal(w, donor, sh, at) => StealIds(s, w, donor, sh, at);
    case _ => OtherIds(cfg, s, a);
  }

  lemma TakeIds(s: State, w: WorkerInfo)
    requires w in s.info && s.pool != []
    ensures IdsStep(s, AfterTake(s, w))
  {
    GiveIds(s.(pool := s.pool[1..]), w, s.pool[0]);
  }

  lemma IdsJoin(s: State, t: State, u: State)
    requires IdsStep(s, t) && IdsStep(t, u)
    ensures IdsStep(s, u)
  {
  }

  lemma IdsNone(s: State)
    ensures IdsStep(s, s)
  {
  }

  lemma {:induction false} RunIds(cfg: Config, s: State, acts: seq<Action>)
    requires CanRun(cfg, s, acts) && Along(cfg, s, acts, OrderlyTerms)
    ensures IdsStep(s, Run(cfg, s, acts))
    ensures IdsIssued(s) ==> IdsIssued(Run(cfg, s, acts))
    decreases |acts|
  {
    hide IdsStep, IdsIssued, Enabled, Do, Orderly;
    IdsNone(s);
    if acts != [] {
      var front := acts[..|acts| - 1];
      var t := Run(cfg, s, front);
      RunIds(cfg, s, front);
      MoveIds(cfg, t, acts[|acts| - 1]);
      IdsJoin(s, t, Run(cfg, s, acts));
      if IdsIssued(s) { IssuedMore(t, Run(cfg, s, acts)); }
    }
  }

  lemma IssuedMore(s: State, t: State)
    requires IdsStep(s, t) && IdsIssued(s)
    ensures IdsIssued(t)
  {
  }

  // ---------- Earlier owners are refused ----------

  lemma {:induction false} OrderlyAlong(cfg: Config, s: State, acts: seq<Action>)
    requires CanRun(cfg, s, acts) && Along(cfg, s, acts, OrderlyTerms)
    ensures Along(cfg, s, acts, Orderly)
    decreases |acts|
  {
    hide Orderly, Enabled, Do;
    if acts != [] { OrderlyAlong(cfg, s, acts[..|acts| - 1]); }
  }

  lemma ExclusivePasses(s: State, v: WorkerInfo, w: WorkerInfo, sh: ShardId, i: int, j: int)
    requires Exclusive(s) && Passes(s, v, sh, i) && Passes(s, w, sh, j)
    ensures v == w && i == j
  {
    assert Holds(s, v, sh) && Holds(s, w, sh);
  }

  lemma PassNew(s: State, t: State, v: WorkerInfo, w: WorkerInfo, sh: ShardId, i: int, j: int)
    requires Exclusive(s) && IdsIssued(s) && IdsStep(s, t)
    requires Passes(s, v, sh, i) && Passes(t, w, sh, j)
    requires w in s.info ==> s.Registered(w)
    ensures (v == w && i == j) || i < j
  {
    if j < s.NextId() {
      assert w in s.info && sh in s.info[w].assignments && s.info[w].assignments[sh].id == j;
      ExclusivePasses(s, v, w, sh, i, j);
    }
  }

  /** If a later state of the run gives the shard to another owner, or to the same one anew, the id is
      larger, and no request under the earlier id passes the ownership checks any more. */
  lemma EarlierOwnersRefused(cfg: Config, s: State, loc: Places, acts: seq<Action>,
                             v: WorkerInfo, w: WorkerInfo, sh: ShardId, i: int, j: int)
    requires Sound(s, loc) && IdsIssued(s)
    requires CanRun(cfg, s, acts) && Along(cfg, s, acts, OrderlyTerms)
    requires Passes(s, v, sh, i) && Passes(Run(cfg, s, acts), w, sh, j)
    ensures (v == w && i == j) || i < j
    ensures i < j ==> forall u :: !Passes(Run(cfg, s, acts), u, sh, i)
  {
    var t := Run(cfg, s, acts);
    OrderlyAlong(cfg, s, acts);
    var m := RunSound(cfg, s, loc, acts);
    SoundOnePlace(s, loc);
    SoundOnePlace(t, m);
    RunIds(cfg, s, acts);
    assert Named(s) && Beating(s);
    hide Sound, Named, Beating, IdsStep, Exclusive, OnePlace, IdsIssued, CanRun, Run, Passes;
    if w in s.info && !s.Registered(w) {
      StaysDropped(cfg, s, acts, w);
      PassRegistered(t, w, sh, j);
    } else {
      PassNew(s, t, v, w, sh, i, j);
    }
    forall u | Passes(t, u, sh, i) ensures i == j {
      ExclusivePasses(t, u, w, sh, i, j);
    }
  }

  lemma PassRegistered(s: State, w: WorkerInfo, sh: ShardId, id: int)
    requires Passes(s, w, sh, id)
    ensures s.Registered(w)
  {
  }

  /** An id that has been issued, and does not pass the ownership checks of its shard, never passes them again. */
  lemma NeverAgain(cfg: Config, s: State, acts: seq<Action>, sh: ShardId, id: int)
    requires Named(s) && Beating(s) && id < s.NextId() && forall u :: !Passes(s, u, sh, id)
    requires CanRun(cfg, s, acts) && Along(cfg, s, acts, OrderlyTerms)
    ensures forall u :: !Passes(Run(cfg, s, acts), u, sh, id)
  {
    RunIds(cfg, s, acts);
    var t := Run(cfg, s, acts);
    forall w | Passes(t, w, sh, id) ensures false {
      assert w in s.info && sh in s.info[w].assignments && s.info[w].assignments[sh].id == id;
      assert !Passes(s, w, sh, id);
      StaysDropped(cfg, s, acts, w);
    }
  }

  // ---------- A new leader ----------

  lemma PassAbove(s: State, t: State, w: WorkerInfo, sh: ShardId, id: int)
    requires IdsStep(s, t) && Passes(t, w, sh, id) && w !in s.info
    ensures s.NextId() <= id
  {
  }

  /** Hypothesis G5: the new term, with the offset reached so far, exceeds every id issued elsewhere. Then so does
      every id under which a worker passes the ownership checks of the new leader, however long it serves; and
      the store, which refuses smaller ids than the one it holds, refuses all others from its first commit on. */
  lemma NewLeaderAbove(cfg: Config, s: State, takeover: Action, acts: seq<Action>, elsewhere: int,
                       w: WorkerInfo, sh: ShardId, id: int)
    requires Named(s) && Beating(s)
    requires takeover.Takeover? && Enabled(cfg, s, takeover) && elsewhere < takeover.newTerm + s.nextOffset
    requires CanRun(cfg, Do(cfg, s, takeover), acts) && Along(cfg, Do(cfg, s, takeover), acts, OrderlyTerms)
    requires Passes(Run(cfg, Do(cfg, s, takeover), acts), w, sh, id)
    ensures elsewhere < id
  {
    var u := Do(cfg, s, takeover);
    var t := Run(cfg, u, acts);
    MoveNamed(cfg, s, takeover);
    assert u.workers == map[] && elsewhere < u.NextId();
    RunIds(cfg, u, acts);
    hide IdsStep, CanRun, Run, Passes, Named, Beating, Do, Along;
    PassRegistered(t, w, sh, id);
    if w in u.info {
      assert !u.Registered(w);
      StaysDropped(cfg, u, acts, w);
    } else {
      PassAbove(u, t, w, sh, id);
    }
  }

  // ---------- The ids handed out ----------

  /** The ids handed out along a run, in order. */
  ghost function Issued(cfg: Config, s: State, acts: seq<Action>): seq<int>
    requires CanRun(cfg, s, acts)
    decreases |acts|
  {
    if acts == [] then []
    else
      var front := acts[..|acts| - 1];
      var a := acts[|acts| - 1];
      Issued(cfg, s, front) + if a.Acquire? || a.Take? then [Run(cfg, s, front).NextId()] else []
  }

  lemma MoveNextId(cfg: Config, s: State, a: Action)
    requires Enabled(cfg, s, a) && TermsGrow(s, a)
    ensures Do(cfg, s, a).NextId() >= s.NextId() + if a.Acquire? || a.Take? then 1 else 0
  {
    if a.Settle? && a.kids != [] { VisitAllInfo(Detach(s.(closed := s.closed[1..]), s.closed[0]), a.index, a.kids); }
  }

  /** The ids handed out by one manager process strictly increase, whatever terms it serves. */
  lemma {:induction false} IssuedIncreasing(cfg: Config, s: State, acts: seq<Action>)
    requires CanRun(cfg, s, acts) && Along(cfg, s, acts, TermsGrow)
    ensures forall i, j :: 0 <= i < j < |Issued(cfg, s, acts)| ==> Issued(cfg, s, acts)[i] < Issued(cfg, s, acts)[j]
    ensures forall i :: 0 <= i < |Issued(cfg, s, acts)| ==> Issued(cfg, s, acts)[i] < Run(cfg, s, acts).NextId()
    decreases |acts|
  {
    hide Enabled, Do, TermsGrow;
    if acts != [] {
      IssuedIncreasing(cfg, s, acts[..|acts| - 1]);
      MoveNextId(cfg, Run(cfg, s, acts[..|acts| - 1]), acts[|acts| - 1]);
    }
  }
}
