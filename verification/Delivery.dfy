/** At-least-once delivery, end to end: managers, the shared store, checkpoint requests in flight, shard
    processors and the shards' logs, in any interleaving.

    A shard's log is counted: its records are 1, 2, ..., tip, and At(n) means that everything up to n is done. */
module Delivery {
  import opened Finite
  import opened Lineage
  import opened WorkerRecord
  import opened ManagerModel
  import opened AssignCalls
  import R = ManagerRuns
  import F = Fencing

  /** What an assign response says of one shard. */
  datatype Grant = Grant(shard: ShardId, id: F.Id, mark: Mark)

  /** Where a shard processor is: about to subscribe; reading at pos, with the continuation number of the last
      complete event of this subscription, inside an event or between events; waiting for the answer to a
      checkpoint; or reading no more and waiting to be stopped. */
  datatype Phase =
    | Idle
    | Reading(pos: nat, last: Option<nat>, inside: bool)
    | Waiting(pos: nat, last: Option<nat>)
    | Parked

  /** resume is the sequence number to go on from, if the last subscription left one. */
  datatype Processor = Processor(grant: Grant, resume: Option<nat>, phase: Phase)

  /** The manager that handles a checkpoint request, and the name of the worker that sent it. */
  datatype Origin = Origin(manager: nat, worker: WorkerId)

  datatype Record = Record(shard: ShardId, number: nat)

  datatype World = World(
    managers: map<nat, State>, loads: map<nat, map<ShardId, Mark>>,
    fence: F.Fence, origins: map<nat, Origin>, finished: set<nat>,
    grants: set<Grant>, processors: map<nat, Processor>,
    tips: map<ShardId, nat>, ended: set<ShardId>,
    bases: map<ShardId, nat>,  // where the first subscription to a shard started
    done: set<Record>) {

    function Tip(sh: ShardId): nat {
      if sh in tips then tips[sh] else 0
    }
  }

  /** Send: a checkpoint that gets past the ownership check of a manager. Unsent: one that does not, or never arrives.
      Gone: the processor's process has ended. */
  datatype Event =
    | Append(sh: ShardId)
    | EndShard(sh: ShardId)
    | Move(m: nat, a: Action)
    | StartLoad(m: nat)
    | LoadKey(m: nat, sh: ShardId)
    | TakeOver(m: nat, a: Action)
    | HandOut(m: nat, w: WorkerInfo, sh: ShardId, id: F.Id)
    | Spawn(p: nat, grant: Grant)
    | Subscribe(p: nat)
    | Handle(p: nat)
    | Continue(p: nat)
    | StreamEnds(p: nat)
    | Send(p: nat, r: nat, origin: Origin, mark: Mark)
    | Unsent(p: nat, mark: Mark)
    | Answered(p: nat, ok: bool)
    | Gone(p: nat)
    | Transact(s: F.Step)
    | Finish(r: nat)

  predicate AtLatest(p: Processor) {
    p.resume.None? && p.grant.mark == Latest
  }

  /** Where a processor subscribes from: after the number it has to go on from, or after the number it was
      assigned with, or, if that is LATEST, at the tip. */
  function StartOf(p: Processor, tip: nat): nat {
    if p.resume.Some? then p.resume.value else if p.grant.mark.At? then p.grant.mark.number else tip
  }

  /** What a processor itself does. */
  datatype Local = Begins(at: nat) | Handles | Continues | Ends | Sends(mark: Mark) | Hears(ok: bool)

  /** A checkpoint is sent, or sent again, after a complete event: its continuation number, or CLOSED. */
  predicate CanLocally(p: Processor, l: Local) {
    match l
    case Begins(at) => p.phase == Idle && at == StartOf(p, at)
    case Handles => p.phase.Reading?
    case Continues => p.phase.Reading?
    case Ends => p.phase.Reading? && !p.phase.inside
    case Sends(mark) =>
      (p.phase.Reading? || p.phase.Waiting?) &&
      (match mark
       case At(n) => p.phase.last == Some(n) && n == p.phase.pos && (p.phase.Reading? ==> !p.phase.inside)
       case Closed => true
       case _ => false)
    case Hears(ok) => p.phase.Waiting?
  }

  function Locally(p: Processor, l: Local): Processor
    requires CanLocally(p, l)
  {
    var ph := p.phase;
    match l
    case Begins(at) => p.(phase := Reading(at, None, false))
    case Handles => p.(phase := Reading(ph.pos + 1, ph.last, true))
    case Continues => p.(phase := Reading(ph.pos, Some(ph.pos), false))
    case Ends => p.(resume := ph.last, phase := Idle)
    case Sends(mark) => p.(phase := Waiting(ph.pos, ph.last))
    case Hears(ok) => p.(phase := if ok then Reading(ph.pos, ph.last, false) else Parked)
  }

  function InStore(w: World, sh: ShardId): Mark {
    if sh in w.fence.store then w.fence.store[sh].mark else Latest
  }

  /** CLOSED is sent at the end of a shard that has ended. */
  predicate Ending(w: World, p: Processor, mark: Mark) {
    mark == Closed && (p.phase.Reading? || p.phase.Waiting?) ==>
      p.grant.shard in w.ended && p.phase.pos == w.Tip(p.grant.shard)
  }

  ghost predicate CanHappen(cfg: Config, w: World, e: Event) {
    match e
    case Append(sh) => sh !in w.ended
    case EndShard(sh) => true
    case Move(m, a) => m in w.managers && Enabled(cfg, w.managers[m], a) && !a.Checkpoint? && !a.Takeover?
    case StartLoad(m) => true
    case LoadKey(m, sh) => m in w.loads
    case TakeOver(m, a) =>
      && m in w.managers && m in w.loads && a.Takeover? && Enabled(cfg, w.managers[m], a)
      && forall sh :: sh in a.index.shards ==> sh in w.loads[m] && StoredMark(a.stored, sh) == w.loads[m][sh]
    case HandOut(m, u, sh, id) =>
      m in w.managers && w.managers[m].Registered(u) && sh in w.managers[m].info[u].assignments
      && w.managers[m].info[u].assignments[sh].id == id
    case Spawn(p, grant) => p !in w.processors && grant in w.grants && (grant.mark.At? || grant.mark == Latest)
    case Subscribe(p) => p in w.processors && w.processors[p].phase == Idle
    case Handle(p) =>
      p in w.processors && CanLocally(w.processors[p], Handles)
        && w.processors[p].phase.pos < w.Tip(w.processors[p].grant.shard)
    case Continue(p) => p in w.processors && CanLocally(w.processors[p], Continues)
    case StreamEnds(p) => p in w.processors && CanLocally(w.processors[p], Ends)
    case Send(p, r, origin, mark) =>
      && p in w.processors && CanLocally(w.processors[p], Sends(mark))
      && Ending(w, w.processors[p], mark)
      && r !in w.fence.requests && r !in w.origins && origin.manager in w.managers
      && w.managers[origin.manager].inService
      && OwnedUnder(w.managers[origin.manager], origin.worker, w.processors[p].grant.shard, w.processors[p].grant.id)
    case Unsent(p, mark) =>
      p in w.processors && CanLocally(w.processors[p], Sends(mark)) && Ending(w, w.processors[p], mark)
    case Answered(p, ok) => p in w.processors && CanLocally(w.processors[p], Hears(ok))
    case Gone(p) => true
    case Transact(s) => !s.Begin? && F.CanStep(w.fence, s)
    case Finish(r) =>
      r in w.fence.requests && w.fence.requests[r].outcome == F.Accepted && r in w.origins && r !in w.finished
      && w.origins[r].manager in w.managers
  }

  function Doing(w: World, p: nat, l: Local): World
    requires p in w.processors && CanLocally(w.processors[p], l)
  {
    w.(processors := w.processors[p := Locally(w.processors[p], l)])
  }

  /** The manager's part after the commit: it records the checkpoint if the worker still owns the shard. */
  function Finished(s: State, origin: Origin, q: F.Request): State {
    if origin.worker in s.workers && s.workers[origin.worker] in s.info
       && q.shard in s.info[s.workers[origin.worker]].assignments
       && s.info[s.workers[origin.worker]].assignments[q.shard].id == q.id
    then AfterCheckpoint(s, s.workers[origin.worker], q.shard, q.mark) else s
  }

  ghost function Happened(cfg: Config, w: World, e: Event): World
    requires CanHappen(cfg, w, e)
  {
    match e
    case Append(sh) => w.(tips := w.tips[sh := w.Tip(sh) + 1])
    case EndShard(sh) => w.(ended := w.ended + {sh})
    case Move(m, a) => w.(managers := w.managers[m := Do(cfg, w.managers[m], a)])
    case StartLoad(m) => w.(loads := w.loads[m := map[]])
    case LoadKey(m, sh) => w.(loads := w.loads[m := w.loads[m][sh := InStore(w, sh)]])
    case TakeOver(m, a) => w.(managers := w.managers[m := Do(cfg, w.managers[m], a)])
    case HandOut(m, u, sh, id) => w.(grants := w.grants + {Grant(sh, id, w.managers[m].MarkOf(sh))})
    case Spawn(p, grant) => w.(processors := w.processors[p := Processor(grant, None, Idle)])
    case Subscribe(p) =>
      var sh := w.processors[p].grant.shard;
      var at := StartOf(w.processors[p], w.Tip(sh));
      Doing(w, p, Begins(at)).(bases := if sh in w.bases then w.bases else w.bases[sh := at])
    case Handle(p) =>
      Doing(w, p, Handles).(done := w.done + {Record(w.processors[p].grant.shard, w.processors[p].phase.pos + 1)})
    case Continue(p) => Doing(w, p, Continues)
    case StreamEnds(p) => Doing(w, p, Ends)
    case Send(p, r, origin, mark) =>
      var grant := w.processors[p].grant;
      Doing(w, p, Sends(mark)).(
        fence := F.StepOf(w.fence, F.Begin(r, grant.shard, grant.id, mark)), origins := w.origins[r := origin])
    case Unsent(p, mark) => Doing(w, p, Sends(mark))
    case Answered(p, ok) => Doing(w, p, Hears(ok))
    case Gone(p) => w.(processors := w.processors - {p})
    case Transact(s) => w.(fence := F.StepOf(w.fence, s))
    case Finish(r) =>
      var o := w.origins[r];
      w.(managers := w.managers[o.manager := Finished(w.managers[o.manager], o, w.fence.requests[r])],
         finished := w.finished + {r})
  }

  // ---------- What a mark promises ----------

  /** Every record of the shard from its first start up to n has been processed. */
  ghost predicate DoneTo(w: World, sh: ShardId, n: nat) {
    sh in w.bases && forall k: nat :: w.bases[sh] < k <= n ==> Record(sh, k) in w.done
  }

  ghost predicate Kept(w: World, sh: ShardId, mark: Mark) {
    match mark
    case At(n) => DoneTo(w, sh, n)
    case Closed => sh in w.ended && DoneTo(w, sh, w.Tip(sh))
    case _ => true
  }

  ghost predicate KeptBy(w: World, p: Processor) {
    var sh := p.grant.shard;
    && Kept(w, sh, p.grant.mark) && (p.grant.mark.At? || p.grant.mark == Latest)
    && (p.resume.Some? ==> DoneTo(w, sh, p.resume.value))
    && (p.phase.Reading? || p.phase.Waiting? ==>
          DoneTo(w, sh, p.phase.pos) && (p.phase.last.Some? ==> DoneTo(w, sh, p.phase.last.value)))
  }

  ghost predicate ManagersKept(w: World) {
    && (forall m, sh :: m in w.managers && sh in w.managers[m].checkpoints ==>
        Kept(w, sh, w.managers[m].checkpoints[sh]))
    && (forall m, sh :: m in w.loads && sh in w.loads[m] ==> Kept(w, sh, w.loads[m][sh]))
  }

  ghost predicate StoreKept(w: World) {
    && (forall sh :: sh in w.fence.store ==> Kept(w, sh, w.fence.store[sh].mark))
    && (forall r :: r in w.fence.requests ==> Kept(w, w.fence.requests[r].shard, w.fence.requests[r].mark))
  }

  ghost predicate WorkersKept(w: World) {
    && (forall g :: g in w.grants ==> Kept(w, g.shard, g.mark))
    && (forall p :: p in w.processors ==> KeptBy(w, w.processors[p]))
  }

  /** Every mark anywhere (stored, in a manager's memory, on its way, or handed out) is kept. */
  ghost predicate AllKept(w: World) {
    ManagersKept(w) && StoreKept(w) && WorkersKept(w)
  }

  /** Hypothesis G6: when a processor subscribes at LATEST to a shard that has been subscribed to before, nothing
      between the first start and the tip is left unprocessed. */
  ghost predicate NothingSkipped(w: World, e: Event) {
    e.Subscribe? && e.p in w.processors && AtLatest(w.processors[e.p]) && w.processors[e.p].grant.shard in w.bases ==>
      DoneTo(w, w.processors[e.p].grant.shard, w.Tip(w.processors[e.p].grant.shard))
  }

  // ---------- What is kept stays kept ----------

  /** More is done, and the logs of ended shards stay as they are. */
  ghost predicate Later(w: World, v: World) {
    && (forall sh :: sh in w.bases ==> sh in v.bases && v.bases[sh] == w.bases[sh])
    && w.done <= v.done && w.ended <= v.ended
    && (forall sh :: sh in w.ended ==> v.Tip(sh) == w.Tip(sh))
  }

  lemma EventLater(cfg: Config, w: World, e: Event)
    requires CanHappen(cfg, w, e)
    ensures Later(w, Happened(cfg, w, e))
  {
    hide Do, Enabled, F.StepOf, F.CanStep, Finished, Locally, CanLocally, OwnedUnder;
  }

  lemma DoneLater(w: World, v: World, sh: ShardId, n: nat)
    requires Later(w, v) && DoneTo(w, sh, n)
    ensures DoneTo(v, sh, n)
  {
  }

  lemma KeptLater(w: World, v: World, sh: ShardId, mark: Mark)
    requires Later(w, v) && Kept(w, sh, mark)
    ensures Kept(v, sh, mark)
  {
  }

  lemma KeptByLater(w: World, v: World, p: Processor)
    requires Later(w, v) && KeptBy(w, p)
    ensures KeptBy(v, p)
  {
    hide DoneTo, Later;
    KeptLater(w, v, p.grant.shard, p.grant.mark);
    forall n: nat | DoneTo(w, p.grant.shard, n) ensures DoneTo(v, p.grant.shard, n) {
      DoneLater(w, v, p.grant.shard, n);
    }
  }

  // ---------- Managers ----------

  /** Every checkpoint stays as it is, but that a missing or empty one may become LATEST. */
  ghost predicate OnlyLatest(s: map<ShardId, Mark>, t: map<ShardId, Mark>) {
    && s.Keys <= t.Keys
    && forall sh :: sh in t ==> (sh in s && t[sh] == s[sh]) || (t[sh] == Latest && (sh in s ==> s[sh] == Unset))
  }

  lemma {:induction false} VisitAllOnlyLatest(s: State, index: Index, kids: seq<ShardId>)
    requires forall c :: c in kids ==> c in index.shards
    ensures OnlyLatest(s.checkpoints, VisitAll(s, index, kids).checkpoints)
    decreases |kids|
  {
    hide Eligible;
    if kids != [] { VisitAllOnlyLatest(s, index, kids[..|kids| - 1]); }
  }

  /** But for checkpoints and takeovers, the manager only ever adds LATEST where there was nothing. */
  lemma MovesAddLatest(cfg: Config, s: State, a: Action)
    requires Enabled(cfg, s, a) && !a.Checkpoint? && !a.Takeover?
    ensures OnlyLatest(s.checkpoints, Do(cfg, s, a).checkpoints)
  {
    if a.Settle? {
      VisitAllOnlyLatest(Detach(s.(closed := s.closed[1..]), s.closed[0]), a.index, a.kids);
    }
    hide VisitAll, Forget;
  }

  lemma ManagersLater(w: World, v: World)
    requires Later(w, v) && ManagersKept(w) && v.managers == w.managers && v.loads == w.loads
    ensures ManagersKept(v)
  {
    hide Kept, Later;
    forall m, sh | m in v.managers && sh in v.managers[m].checkpoints
      ensures Kept(v, sh, v.managers[m].checkpoints[sh]) {
      KeptLater(w, v, sh, v.managers[m].checkpoints[sh]);
    }
    forall m, sh | m in v.loads && sh in v.loads[m] ensures Kept(v, sh, v.loads[m][sh]) {
      KeptLater(w, v, sh, v.loads[m][sh]);
    }
  }

  /** One manager's state is replaced by one whose checkpoints are kept. */
  lemma ManagerReplaced(w: World, v: World, m: nat, s: State)
    requires ManagersKept(w) && m in w.managers && v == w.(managers := w.managers[m := s], finished := v.finished)
    requires forall sh :: sh in s.checkpoints ==> Kept(w, sh, s.checkpoints[sh])
    ensures ManagersKept(v)
  {
    forall sh, mark | Kept(w, sh, mark) ensures Kept(v, sh, mark) {
    }
    hide Kept;
  }

  lemma MoveKept(cfg: Config, w: World, m: nat, a: Action)
    requires ManagersKept(w) && CanHappen(cfg, w, Move(m, a))
    ensures ManagersKept(Happened(cfg, w, Move(m, a)))
  {
    MovesAddLatest(cfg, w.managers[m], a);
    var v := Happened(cfg, w, Move(m, a));
    var s := Do(cfg, w.managers[m], a);
    LatestKept(w);
    hide Do, Enabled, Kept;
    ManagerReplaced(w, v, m, s);
  }

  lemma TakeOverKept(cfg: Config, w: World, m: nat, a: Action)
    requires ManagersKept(w) && CanHappen(cfg, w, TakeOver(m, a))
    ensures ManagersKept(Happened(cfg, w, TakeOver(m, a)))
  {
    var v := Happened(cfg, w, TakeOver(m, a));
    var s := Do(cfg, w.managers[m], a);
    hide Enabled, Kept;
    assert forall sh :: sh in s.checkpoints ==> sh in w.loads[m] && s.checkpoints[sh] == w.loads[m][sh];
    hide Do;
    ManagerReplaced(w, v, m, s);
  }

  lemma FinishKept(cfg: Config, w: World, r: nat)
    requires AllKept(w) && CanHappen(cfg, w, Finish(r))
    ensures ManagersKept(Happened(cfg, w, Finish(r)))
  {
    var v := Happened(cfg, w, Finish(r));
    var o, q := w.origins[r], w.fence.requests[r];
    var s := Finished(w.managers[o.manager], o, q);
    hide Kept;
    assert forall sh :: sh in s.checkpoints ==>
      (sh in w.managers[o.manager].checkpoints && s.checkpoints[sh] == w.managers[o.manager].checkpoints[sh])
      || (sh == q.shard && s.checkpoints[sh] == q.mark);
    hide Finished;
    ManagerReplaced(w, v, o.manager, s);
  }

  lemma LoadKept(cfg: Config, w: World, e: Event)
    requires AllKept(w) && CanHappen(cfg, w, e) && (e.StartLoad? || e.LoadKey?)
    ensures ManagersKept(Happened(cfg, w, e))
  {
    LatestKept(w);
    hide Kept;
    LoadsHappened(w, Happened(cfg, w, e));
  }

  lemma ManagersAlone(cfg: Config, w: World, e: Event)
    requires CanHappen(cfg, w, e) && !e.Move? && !e.TakeOver? && !e.Finish? && !e.StartLoad? && !e.LoadKey?
    ensures Happened(cfg, w, e).managers == w.managers && Happened(cfg, w, e).loads == w.loads
  {
    hide Enabled, F.StepOf, Locally, CanLocally;
  }

  lemma ManagersHappened(cfg: Config, w: World, e: Event)
    requires AllKept(w) && CanHappen(cfg, w, e)
    ensures ManagersKept(Happened(cfg, w, e))
  {
    hide CanHappen, Happened, ManagersKept, StoreKept, WorkersKept, Later;
    match e
    case Move(m, a) => MoveKept(cfg, w, m, a);
    case TakeOver(m, a) => TakeOverKept(cfg, w, m, a);
    case Finish(r) => FinishKept(cfg, w, r);
    case StartLoad(m) => LoadKept(cfg, w, e);
    case LoadKey(m, sh) => LoadKept(cfg, w, e);
    case _ =>
      EventLater(cfg, w, e);
      ManagersAlone(cfg, w, e);
      ManagersLater(w, Happened(cfg, w, e));
  }

  lemma LatestKept(w: World)
    ensures forall sh :: Kept(w, sh, Latest)
  {
  }

  lemma LoadsHappened(w: World, v: World)
    requires ManagersKept(w) && v == w.(loads := v.loads)
    requires forall m, sh :: m in v.loads && sh in v.loads[m] ==> Kept(w, sh, v.loads[m][sh])
    ensures ManagersKept(v)
  {
    forall sh, mark | Kept(w, sh, mark) ensures Kept(v, sh, mark) {
    }
    hide Kept;
  }

  // ---------- The store ----------

  lemma StoreLater(w: World, v: World)
    requires Later(w, v) && StoreKept(w) && v.fence == w.fence
    ensures StoreKept(v)
  {
    hide Kept, Later;
    forall sh | sh in v.fence.store ensures Kept(v, sh, v.fence.store[sh].mark) {
      KeptLater(w, v, sh, v.fence.store[sh].mark);
    }
    forall r | r in v.fence.requests ensures Kept(v, v.fence.requests[r].shard, v.fence.requests[r].mark) {
      KeptLater(w, v, v.fence.requests[r].shard, v.fence.requests[r].mark);
    }
  }

  /** The store changes by puts of what requests carry. */
  lemma StoreReplaced(w: World, v: World, f: F.Fence)
    requires Later(w, v) && StoreKept(w) && v.fence == f
    requires forall sh :: sh in f.store ==> Kept(w, sh, f.store[sh].mark)
    requires forall r :: r in f.requests ==> Kept(w, f.requests[r].shard, f.requests[r].mark)
    ensures StoreKept(v)
  {
    hide Kept, Later;
    forall sh | sh in f.store ensures Kept(v, sh, f.store[sh].mark) {
      KeptLater(w, v, sh, f.store[sh].mark);
    }
    forall r | r in f.requests ensures Kept(v, f.requests[r].shard, f.requests[r].mark) {
      KeptLater(w, v, f.requests[r].shard, f.requests[r].mark);
    }
  }

  /** Every mark in the store after a step was there before, or was carried by a request. */
  lemma StepMarks(f: F.Fence, s: F.Step)
    requires F.CanStep(f, s) && !s.Begin?
    ensures var g := F.StepOf(f, s);
      && g.requests.Keys == f.requests.Keys
      && (forall r :: r in f.requests ==>
          g.requests[r].shard == f.requests[r].shard && g.requests[r].mark == f.requests[r].mark)
      && (forall sh :: sh in g.store ==>
            (sh in f.store && g.store[sh] == f.store[sh])
            || (s.r in f.requests && f.requests[s.r].shard == sh && g.store[sh].mark == f.requests[s.r].mark))
  {
    hide F.Passes, F.Text;
  }

  /** What may be sent is kept. */
  lemma SendKept(w: World, p: Processor, mark: Mark)
    requires KeptBy(w, p) && CanLocally(p, Sends(mark))
    requires Ending(w, p, mark)
    ensures Kept(w, p.grant.shard, mark)
  {
  }

  lemma SendStore(cfg: Config, w: World, e: Event)
    requires AllKept(w) && CanHappen(cfg, w, e) && e.Send?
    ensures StoreKept(Happened(cfg, w, e))
  {
    var v := Happened(cfg, w, e);
    EventLater(cfg, w, e);
    SendKept(w, w.processors[e.p], e.mark);
    hide Kept, Later, KeptBy, CanLocally, Locally;
    StoreReplaced(w, v, v.fence);
  }

  lemma TransactStore(cfg: Config, w: World, e: Event)
    requires AllKept(w) && CanHappen(cfg, w, e) && e.Transact?
    ensures StoreKept(Happened(cfg, w, e))
  {
    var v := Happened(cfg, w, e);
    EventLater(cfg, w, e);
    StepMarks(w.fence, e.s);
    hide Kept, Later, KeptBy, F.StepOf, F.CanStep;
    StoreReplaced(w, v, v.fence);
  }

  lemma StoreAlone(cfg: Config, w: World, e: Event)
    requires CanHappen(cfg, w, e) && !e.Send? && !e.Transact?
    ensures Happened(cfg, w, e).fence == w.fence
  {
    hide Enabled, Do, Finished, Locally, CanLocally;
  }

  lemma StoreHappened(cfg: Config, w: World, e: Event)
    requires AllKept(w) && CanHappen(cfg, w, e)
    ensures StoreKept(Happened(cfg, w, e))
  {
    if e.Send? {
      SendStore(cfg, w, e);
    } else if e.Transact? {
      TransactStore(cfg, w, e);
    } else {
      EventLater(cfg, w, e);
      StoreAlone(cfg, w, e);
      hide CanHappen, Happened, ManagersKept, StoreKept, WorkersKept, Later;
      StoreLater(w, Happened(cfg, w, e));
    }
  }

  // ---------- Processors ----------

  lemma WorkersLater(w: World, v: World)
    requires Later(w, v) && WorkersKept(w)
    requires forall g :: g in v.grants ==> g in w.grants || Kept(v, g.shard, g.mark)
    requires forall p :: p in v.processors ==>
      (p in w.processors && v.processors[p] == w.processors[p]) || KeptBy(v, v.processors[p])
    ensures WorkersKept(v)
  {
    hide Kept, KeptBy, Later;
    forall g | g in v.grants ensures Kept(v, g.shard, g.mark) {
      if g in w.grants { KeptLater(w, v, g.shard, g.mark); }
    }
    forall p | p in v.processors ensures KeptBy(v, v.processors[p]) {
      if p in w.processors && v.processors[p] == w.processors[p] { KeptByLater(w, v, w.processors[p]); }
    }
  }

  lemma SubscribeKept(cfg: Config, w: World, p: nat)
    requires AllKept(w) && CanHappen(cfg, w, Subscribe(p)) && NothingSkipped(w, Subscribe(p))
    ensures KeptBy(Happened(cfg, w, Subscribe(p)), Happened(cfg, w, Subscribe(p)).processors[p])
  {
    assert KeptBy(w, w.processors[p]);
  }

  lemma HandleKept(cfg: Config, w: World, p: nat)
    requires AllKept(w) && CanHappen(cfg, w, Handle(p))
    ensures KeptBy(Happened(cfg, w, Handle(p)), Happened(cfg, w, Handle(p)).processors[p])
  {
    var v := Happened(cfg, w, Handle(p));
    EventLater(cfg, w, Handle(p));
    var me := w.processors[p];
    assert KeptBy(w, me);
    KeptByLater(w, v, me);
    assert DoneTo(v, me.grant.shard, me.phase.pos + 1);
    hide Kept, Later, DoneTo;
  }

  /** One processor changes, and is kept; or nothing does. */
  lemma OneWorker(w: World, v: World, p: nat)
    requires Later(w, v) && WorkersKept(w) && v.grants == w.grants
    requires p in v.processors && KeptBy(v, v.processors[p])
    requires forall q :: q in v.processors && q != p ==> q in w.processors && v.processors[q] == w.processors[q]
    ensures WorkersKept(v)
  {
    hide Kept, KeptBy, Later;
    WorkersLater(w, v);
  }

  lemma HandOutKept(cfg: Config, w: World, e: Event)
    requires AllKept(w) && CanHappen(cfg, w, e) && e.HandOut?
    ensures WorkersKept(Happened(cfg, w, e))
  {
    var v := Happened(cfg, w, e);
    EventLater(cfg, w, e);
    assert Kept(v, e.sh, w.managers[e.m].MarkOf(e.sh)) by { KeptLater(w, v, e.sh, w.managers[e.m].MarkOf(e.sh)); }
    hide Kept, KeptBy, Later, DoneTo;
    WorkersLater(w, v);
  }

  lemma SpawnKept(cfg: Config, w: World, e: Event)
    requires AllKept(w) && CanHappen(cfg, w, e) && e.Spawn?
    ensures WorkersKept(Happened(cfg, w, e))
  {
    var v := Happened(cfg, w, e);
    EventLater(cfg, w, e);
    KeptLater(w, v, e.grant.shard, e.grant.mark);
    hide Kept, Later, DoneTo;
    OneWorker(w, v, e.p);
  }

  /** Ends of events, of streams and of waits say nothing new. */
  lemma PhaseKept(cfg: Config, w: World, e: Event)
    requires AllKept(w) && CanHappen(cfg, w, e) && (e.Continue? || e.StreamEnds? || e.Send? || e.Unsent? || e.Answered?)
    ensures KeptBy(Happened(cfg, w, e), Happened(cfg, w, e).processors[e.p])
  {
    EventLater(cfg, w, e);
    var l := if e.Continue? then Continues else if e.StreamEnds? then Ends else if e.Send? then Sends(e.mark)
      else if e.Unsent? then Sends(e.mark) else Hears(e.ok);
    LocalKept(w, w.processors[e.p], l);
    hide F.StepOf, KeptBy, Later, Locally, CanLocally, OwnedUnder;
    KeptByLater(w, Happened(cfg, w, e), Locally(w.processors[e.p], l));
  }

  lemma LocalKept(w: World, p: Processor, l: Local)
    requires KeptBy(w, p) && CanLocally(p, l) && !l.Begins? && !l.Handles?
    ensures KeptBy(w, Locally(p, l))
  {
    hide Kept, DoneTo;
  }

  /** A processor's own events change that processor. */
  lemma ProcessorAlone(cfg: Config, w: World, e: Event)
    requires CanHappen(cfg, w, e)
      && (e.Continue? || e.StreamEnds? || e.Send? || e.Unsent? || e.Answered? || e.Subscribe? || e.Handle?)
    ensures var v := Happened(cfg, w, e);
      v.grants == w.grants && v.processors.Keys == w.processors.Keys && e.p in w.processors
      && forall q :: q in w.processors && q != e.p ==> v.processors[q] == w.processors[q]
  {
    hide F.StepOf, Locally, CanLocally;
  }

  /** The other events change none. */
  lemma ProcessorsAlone(cfg: Config, w: World, e: Event)
    requires CanHappen(cfg, w, e) && !e.HandOut? && !e.Spawn?
    requires !(e.Continue? || e.StreamEnds? || e.Send? || e.Unsent? || e.Answered? || e.Subscribe? || e.Handle?)
    ensures var v := Happened(cfg, w, e);
      v.grants == w.grants && forall q :: q in v.processors ==> q in w.processors && v.processors[q] == w.processors[q]
  {
    hide Enabled, Do, Finished, F.StepOf;
  }

  lemma WorkersHappened(cfg: Config, w: World, e: Event)
    requires AllKept(w) && CanHappen(cfg, w, e) && NothingSkipped(w, e)
    ensures WorkersKept(Happened(cfg, w, e))
  {
    hide CanHappen, Happened, ManagersKept, StoreKept, WorkersKept, NothingSkipped, KeptBy, Later, Kept;
    if e.HandOut? {
      HandOutKept(cfg, w, e);
    } else if e.Spawn? {
      SpawnKept(cfg, w, e);
    } else {
      EventLater(cfg, w, e);
      if e.Continue? || e.StreamEnds? || e.Send? || e.Unsent? || e.Answered? || e.Subscribe? || e.Handle? {
        ProcessorAlone(cfg, w, e);
        if e.Subscribe? {
          SubscribeKept(cfg, w, e.p);
        } else if e.Handle? {
          HandleKept(cfg, w, e.p);
        } else {
          PhaseKept(cfg, w, e);
        }
        OneWorker(w, Happened(cfg, w, e), e.p);
      } else {
        ProcessorsAlone(cfg, w, e);
        WorkersLater(w, Happened(cfg, w, e));
      }
    }
  }

  /** Every event keeps every mark, if no subscription at LATEST skips anything. */
  lemma EventKept(cfg: Config, w: World, e: Event)
    requires AllKept(w) && CanHappen(cfg, w, e) && NothingSkipped(w, e)
    ensures AllKept(Happened(cfg, w, e))
  {
    ManagersHappened(cfg, w, e);
    StoreHappened(cfg, w, e);
    WorkersHappened(cfg, w, e);
    hide CanHappen, Happened, ManagersKept, StoreKept, WorkersKept, NothingSkipped;
  }

  // ---------- Runs ----------

  /** Any number of managers, nothing stored, nobody at work. */
  function Start(managers: set<nat>): World {
    World(map m | m in managers :: R.Fresh(), map[], F.EMPTY, map[], {}, {}, map[], map[], {}, map[], {})
  }

  ghost predicate CanAll(cfg: Config, w: World, es: seq<Event>)
    decreases |es|, 0
  {
    es == [] || (CanAll(cfg, w, es[..|es| - 1]) && CanHappen(cfg, WorldAfter(cfg, w, es[..|es| - 1]), es[|es| - 1]))
  }

  ghost function WorldAfter(cfg: Config, w: World, es: seq<Event>): World
    requires CanAll(cfg, w, es)
    decreases |es|, 1
  {
    if es == [] then w else Happened(cfg, WorldAfter(cfg, w, es[..|es| - 1]), es[|es| - 1])
  }

  /** Hypothesis G6 holds all the way. */
  ghost predicate NoneSkipped(cfg: Config, w: World, es: seq<Event>)
    requires CanAll(cfg, w, es)
    decreases |es|
  {
    es == [] || (NoneSkipped(cfg, w, es[..|es| - 1])
                 && NothingSkipped(WorldAfter(cfg, w, es[..|es| - 1]), es[|es| - 1]))
  }

  lemma {:induction false} AllKeptAlways(cfg: Config, w: World, es: seq<Event>)
    requires AllKept(w) && CanAll(cfg, w, es) && NoneSkipped(cfg, w, es)
    ensures AllKept(WorldAfter(cfg, w, es))
    decreases |es|
  {
    if es != [] {
      hide AllKept, CanHappen, Happened, NothingSkipped;
      AllKeptAlways(cfg, w, es[..|es| - 1]);
      EventKept(cfg, WorldAfter(cfg, w, es[..|es| - 1]), es[|es| - 1]);
    }
  }

  /** At least once, end to end: whatever number is stored, remembered by a manager, handed out, or subscribed
      after, every record from the first start of the shard up to it has been processed; and whatever is
      recorded CLOSED has ended and been processed to its end. */
  lemma AtLeastOnce(cfg: Config, managers: set<nat>, es: seq<Event>)
    requires CanAll(cfg, Start(managers), es) && NoneSkipped(cfg, Start(managers), es)
    ensures var w := WorldAfter(cfg, Start(managers), es);
      && (forall sh :: sh in w.fence.store ==> Kept(w, sh, w.fence.store[sh].mark))
      && (forall m, sh :: m in w.managers && sh in w.managers[m].checkpoints ==>
          Kept(w, sh, w.managers[m].checkpoints[sh]))
      && (forall g :: g in w.grants ==> Kept(w, g.shard, g.mark))
      && (forall p :: p in w.processors && w.processors[p].phase == Idle && !AtLatest(w.processors[p]) ==>
            DoneTo(w, w.processors[p].grant.shard, StartOf(w.processors[p], w.Tip(w.processors[p].grant.shard))))
  {
    assert AllKept(Start(managers));
    AllKeptAlways(cfg, Start(managers), es);
    hide CanAll, WorldAfter, NoneSkipped, Kept, DoneTo;
    var w := WorldAfter(cfg, Start(managers), es);
    forall p | p in w.processors && w.processors[p].phase == Idle && !AtLatest(w.processors[p])
      ensures DoneTo(w, w.processors[p].grant.shard, StartOf(w.processors[p], w.Tip(w.processors[p].grant.shard))) {
      assert KeptBy(w, w.processors[p]);
      NumberKept(w, w.processors[p]);
    }
  }

  lemma NumberKept(w: World, p: Processor)
    requires KeptBy(w, p) && !AtLatest(p)
    ensures DoneTo(w, p.grant.shard, StartOf(p, w.Tip(p.grant.shard)))
  {
  }

  // ---------- Why G6 is needed ----------

  lemma {:induction false} JoinRuns(cfg: Config, w: World, es: seq<Event>, more: seq<Event>)
    requires CanAll(cfg, w, es) && CanAll(cfg, WorldAfter(cfg, w, es), more)
    ensures CanAll(cfg, w, es + more) && WorldAfter(cfg, w, es + more) == WorldAfter(cfg, WorldAfter(cfg, w, es), more)
    decreases |more|
  {
    hide CanHappen, Happened;
    if more == [] {
      assert es + more == es;
    } else {
      var front := more[..|more| - 1];
      JoinRuns(cfg, w, es, front);
      NextEvent(cfg, w, es + front, more[|more| - 1]);
      assert es + front + [more[|more| - 1]] == es + more;
    }
  }

  lemma NextEvent(cfg: Config, w: World, es: seq<Event>, e: Event)
    requires CanAll(cfg, w, es) && CanHappen(cfg, WorldAfter(cfg, w, es), e)
    ensures CanAll(cfg, w, es + [e]) && WorldAfter(cfg, w, es + [e]) == Happened(cfg, WorldAfter(cfg, w, es), e)
  {
    hide CanHappen, Happened;
    assert (es + [e])[..|es|] == es;
  }

  /** A processor that subscribes at LATEST although record k below the tip has not been processed. */
  ghost predicate Skips(w: World, p: nat, k: nat) {
    && p in w.processors && w.processors[p].phase == Idle && AtLatest(w.processors[p])
    && var sh := w.processors[p].grant.shard;
      sh in w.bases && w.bases[sh] < k <= w.Tip(sh) && Record(sh, k) !in w.done && sh !in w.ended
  }

  /** The worker still owns the shard, and no larger id has committed. */
  ghost predicate MayCommit(w: World, p: nat, r: nat, origin: Origin) {
    && p in w.processors && r !in w.fence.requests && r !in w.origins
    && origin.manager in w.managers && w.managers[origin.manager].inService
    && OwnedUnder(w.managers[origin.manager], origin.worker, w.processors[p].grant.shard, w.processors[p].grant.id)
    && exists j: nat :: F.Passes(w.fence.store, w.processors[p].grant.shard, w.processors[p].grant.id, j)
  }

  /** The next record is added, and processed by a processor that reads at the tip. */
  lemma NextHandled(cfg: Config, w: World, es: seq<Event>, p: nat) returns (all: seq<Event>)
    requires CanAll(cfg, w, es) && p in WorldAfter(cfg, w, es).processors
    requires var u := WorldAfter(cfg, w, es);
      var sh := u.processors[p].grant.shard;
      sh !in u.ended && u.processors[p].phase == Reading(u.Tip(sh), None, false)
    ensures CanAll(cfg, w, all)
    ensures var u := WorldAfter(cfg, w, es);
      var v := WorldAfter(cfg, w, all);
      var sh := u.processors[p].grant.shard;
      var n := u.Tip(sh) + 1;
      && v.managers == u.managers && v.fence == u.fence && v.origins == u.origins && v.bases == u.bases
      && v.Tip(sh) == n
      && p in v.processors && v.processors[p] == u.processors[p].(phase := Reading(n, Some(n), false))
      && v.done == u.done + {Record(sh, n)}
  {
    hide CanAll, WorldAfter;
    var sh := WorldAfter(cfg, w, es).processors[p].grant.shard;
    NextEvent(cfg, w, es, Append(sh));
    var es2 := es + [Append(sh)];
    NextEvent(cfg, w, es2, Handle(p));
    var es3 := es2 + [Handle(p)];
    NextEvent(cfg, w, es3, Continue(p));
    all := es3 + [Continue(p)];
  }

  /** It subscribes, and the next record is added and processed. */
  lemma GapOpens(cfg: Config, w: World, p: nat, k: nat) returns (es: seq<Event>)
    requires Skips(w, p, k)
    ensures CanAll(cfg, w, es)
    ensures var v := WorldAfter(cfg, w, es);
      var sh := w.processors[p].grant.shard;
      var n := w.Tip(sh) + 1;
      && v.managers == w.managers && v.fence == w.fence && v.origins == w.origins && v.bases == w.bases
      && v.Tip(sh) == n
      && p in v.processors && v.processors[p] == w.processors[p].(phase := Reading(n, Some(n), false))
      && v.done == w.done + {Record(sh, n)}
  {
    hide CanAll, WorldAfter;
    EmptyRun(cfg, w);
    NextEvent(cfg, w, [], Subscribe(p));
    es := NextHandled(cfg, w, [] + [Subscribe(p)], p);
  }

  lemma EmptyRun(cfg: Config, w: World)
    ensures CanAll(cfg, w, []) && WorldAfter(cfg, w, []) == w
  {
  }

  /** Tries follow one another until one passes. */
  lemma {:induction false} TriesPass(cfg: Config, w: World, es: seq<Event>, r: nat, j: nat) returns (all: seq<Event>)
    requires CanAll(cfg, w, es)
    requires var v := WorldAfter(cfg, w, es);
      && r in v.fence.requests && v.fence.requests[r].outcome == F.Trying && v.fence.requests[r].tries <= j < 3
      && F.Passes(v.fence.store, v.fence.requests[r].shard, v.fence.requests[r].id, j)
    ensures CanAll(cfg, w, all)
    ensures var v := WorldAfter(cfg, w, es);
      var u := WorldAfter(cfg, w, all);
      var q := v.fence.requests[r];
      && u == v.(fence := u.fence) && q.shard in u.fence.store && u.fence.store[q.shard].mark == q.mark
    decreases j - WorldAfter(cfg, w, es).fence.requests[r].tries
  {
    hide CanAll, WorldAfter, F.Passes, F.Text;
    var v := WorldAfter(cfg, w, es);
    var e := Transact(F.Try(r));
    NextEvent(cfg, w, es, e);
    all := es + [e];
    if !F.Passes(v.fence.store, v.fence.requests[r].shard, v.fence.requests[r].id, v.fence.requests[r].tries) {
      all := TriesPass(cfg, w, all, r, j);
    }
  }

  lemma GapSent(cfg: Config, w: World, es: seq<Event>, p: nat, n: nat, r: nat, origin: Origin) returns (all: seq<Event>)
    requires CanAll(cfg, w, es) && MayCommit(WorldAfter(cfg, w, es), p, r, origin)
    requires WorldAfter(cfg, w, es).processors[p].phase == Reading(n, Some(n), false)
    ensures CanAll(cfg, w, all)
    ensures var v := WorldAfter(cfg, w, es);
      var u := WorldAfter(cfg, w, all);
      var sh := v.processors[p].grant.shard;
      && u.bases == v.bases && u.done == v.done && sh in u.fence.store && u.fence.store[sh].mark == At(n)
  {
    hide CanAll, WorldAfter, OwnedUnder, F.Passes, F.Text;
    var v := WorldAfter(cfg, w, es);
    var sh, id := v.processors[p].grant.shard, v.processors[p].grant.id;
    var j: nat :| F.Passes(v.fence.store, sh, id, j);
    assert j < 3 by { FewTries(v.fence.store, sh, id, j); }
    var e := Send(p, r, origin, At(n));
    NextEvent(cfg, w, es, e);
    all := TriesPass(cfg, w, es + [e], r, j);
  }

  lemma FewTries(store: F.Store, sh: ShardId, id: F.Id, j: nat)
    requires F.Passes(store, sh, id, j)
    ensures j < 3
  {
  }

  /** Without G6 the store ends up with a number that covers a record nobody has processed: whenever a processor,
      whose worker still owns the shard, subscribes at LATEST past an unprocessed record. */
  lemma GapReachesStore(cfg: Config, w: World, p: nat, k: nat, r: nat, origin: Origin) returns (all: seq<Event>)
    requires Skips(w, p, k) && MayCommit(w, p, r, origin)
    ensures !NothingSkipped(w, Subscribe(p)) && CanHappen(cfg, w, Subscribe(p))
    ensures CanAll(cfg, w, all)
    ensures var u := WorldAfter(cfg, w, all);
      var sh := w.processors[p].grant.shard;
      sh in u.fence.store && !Kept(u, sh, u.fence.store[sh].mark)
  {
    var sh := w.processors[p].grant.shard;
    var es := GapOpens(cfg, w, p, k);
    all := GapSent(cfg, w, es, p, w.Tip(sh) + 1, r, origin);
    hide CanAll, WorldAfter, OwnedUnder, F.Passes;
    assert Record(sh, k) !in WorldAfter(cfg, w, all).done;
  }

  /** One empty subscription is enough to get there: the stream ends before any event, a record is added, and
      the processor, having no number to go on from, subscribes at LATEST again. */
  lemma EmptySubscriptionSkips(cfg: Config, w: World, p: nat) returns (es: seq<Event>)
    requires p in w.processors && w.processors[p].phase == Idle && AtLatest(w.processors[p])
    requires var sh := w.processors[p].grant.shard;
      sh !in w.ended && Record(sh, w.Tip(sh) + 1) !in w.done && (sh in w.bases ==> w.bases[sh] <= w.Tip(sh))
    ensures CanAll(cfg, w, es) && Skips(WorldAfter(cfg, w, es), p, w.Tip(w.processors[p].grant.shard) + 1)
    ensures var v := WorldAfter(cfg, w, es);
      v.managers == w.managers && v.fence == w.fence && v.origins == w.origins && p in v.processors
        && v.processors[p] == w.processors[p]
  {
    hide CanAll, WorldAfter;
    var sh := w.processors[p].grant.shard;
    EmptyRun(cfg, w);
    NextEvent(cfg, w, [], Subscribe(p));
    var es1 := [] + [Subscribe(p)];
    NextEvent(cfg, w, es1, StreamEnds(p));
    var es2 := es1 + [StreamEnds(p)];
    assert WorldAfter(cfg, w, es2).processors[p] == w.processors[p];
    NextEvent(cfg, w, es2, Append(sh));
    es := es2 + [Append(sh)];
  }
}
