/** Where a checkpoint that a worker is told comes from: the last one recorded for the shard, or the one read from the
    store at the takeover. */
module MarkHistory {
  import opened Finite
  import opened Lineage
  import opened WorkerRecord
  import opened ManagerModel
  import opened AssignCalls
  import D = Delivery
  import F = Fencing
  import SO = StoredOrder
  import L = Leadership

  // ---------- One manager ----------

  /** A recorded checkpoint becomes the shard's, and changes no other. */
  lemma RecordedMark(cfg: Config, s: State, a: Action)
    requires Enabled(cfg, s, a) && a.Checkpoint?
    ensures Do(cfg, s, a).checkpoints == s.checkpoints[a.shard := a.mark]
  {
  }

  /** a records a checkpoint of sh. */
  predicate Records(a: Action, sh: ShardId) {
    a.Checkpoint? && a.shard == sh
  }

  /** t has the mark, or LATEST in place of an empty one. */
  predicate HasMark(t: State, sh: ShardId, mark: Mark) {
    sh in t.checkpoints && (t.checkpoints[sh] == mark || (mark == Unset && t.checkpoints[sh] == Latest))
  }

  lemma MarkStep(cfg: Config, s: State, a: Action, sh: ShardId, mark: Mark)
    requires Enabled(cfg, s, a) && HasMark(s, sh, mark) && !a.Takeover? && !Records(a, sh)
    ensures HasMark(Do(cfg, s, a), sh, mark)
  {
    if !a.Checkpoint? {
      D.MovesAddLatest(cfg, s, a);
      hide Enabled, Do;
    }
  }

  /** A shard's checkpoint stays until one is recorded for it, or another manager takes over. */
  lemma {:induction false} MarkStays(cfg: Config, s: State, acts: seq<Action>, sh: ShardId, mark: Mark)
    requires CanRun(cfg, s, acts) && HasMark(s, sh, mark)
    requires forall i :: 0 <= i < |acts| ==> !acts[i].Takeover? && !Records(acts[i], sh)
    ensures HasMark(Run(cfg, s, acts), sh, mark)
    decreases |acts|
  {
    hide Enabled, Do, HasMark, Records;
    if acts != [] {
      MarkStays(cfg, s, acts[..|acts| - 1], sh, mark);
      MarkStep(cfg, Run(cfg, s, acts[..|acts| - 1]), acts[|acts| - 1], sh, mark);
    }
  }

  /** A shard's checkpoint is the last one recorded for it. */
  lemma LastRecorded(cfg: Config, s: State, acts: seq<Action>, i: nat, sh: ShardId)
    requires CanRun(cfg, s, acts) && i < |acts| && Records(acts[i], sh)
    requires forall j :: i < j < |acts| ==> !acts[j].Takeover? && !Records(acts[j], sh)
    ensures HasMark(Run(cfg, s, acts), sh, acts[i].mark)
  {
    RunSplit(cfg, s, acts, i);
    hide Enabled, Do, CanRun, Run;
    var t := Run(cfg, s, acts[..i]);
    RecordedMark(cfg, t, acts[i]);
    MarkStays(cfg, Do(cfg, t, acts[i]), acts[i + 1..], sh, acts[i].mark);
  }

  /** The run up to move i, that move, and the rest. */
  lemma {:induction false} RunSplit(cfg: Config, s: State, acts: seq<Action>, i: nat)
    requires CanRun(cfg, s, acts) && i < |acts|
    ensures CanRun(cfg, s, acts[..i]) && Enabled(cfg, Run(cfg, s, acts[..i]), acts[i])
    ensures var t := Do(cfg, Run(cfg, s, acts[..i]), acts[i]);
      CanRun(cfg, t, acts[i + 1..]) && Run(cfg, t, acts[i + 1..]) == Run(cfg, s, acts)
    decreases |acts|
  {
    hide Enabled, Do;
    var front := acts[..|acts| - 1];
    if i == |acts| - 1 {
      assert acts[..i] == front && acts[i + 1..] == [];
    } else {
      RunSplit(cfg, s, front, i);
      assert front[..i] == acts[..i] && front[i + 1..] + [acts[|acts| - 1]] == acts[i + 1..];
      RunStep(cfg, Do(cfg, Run(cfg, s, acts[..i]), acts[i]), front[i + 1..], acts[|acts| - 1]);
    }
  }

  /** After a takeover every known shard has its stored checkpoint, or LATEST if there is none; no other shard has
      one. */
  lemma TakenMarks(cfg: Config, s: State, a: Action)
    requires Enabled(cfg, s, a) && a.Takeover?
    ensures var t := Do(cfg, s, a);
      && t.checkpoints.Keys == a.index.shards.Keys
      && forall sh :: sh in t.checkpoints ==> t.checkpoints[sh] == if sh in a.stored then a.stored[sh] else Latest
  {
  }

  // ---------- The world ----------

  /** The end of an accepted request records its checkpoint if its worker still owns the shard, and nothing
      otherwise. */
  lemma FinishedMarks(cfg: Config, w: D.World, r: nat)
    requires D.CanHappen(cfg, w, D.Finish(r))
    ensures var o, q := w.origins[r], w.fence.requests[r];
      var was, now := w.managers[o.manager], D.Happened(cfg, w, D.Finish(r)).managers[o.manager];
      now.checkpoints == if OwnedUnder(was, o.worker, q.shard, q.id) then was.checkpoints[q.shard := q.mark]
        else was.checkpoints
  {
  }

  /** Whatever a manager has read of all known shards admits a takeover ... */
  lemma ReadsLead(cfg: Config, w: D.World, m: nat, index: Index, newTerm: int) returns (a: Action)
    requires m in w.managers && m in w.loads && index.shards.Keys <= w.loads[m].Keys
    ensures a.Takeover? && a.index == index && a.newTerm == newTerm && D.CanHappen(cfg, w, D.TakeOver(m, a))
  {
    var stored := w.loads[m];
    var open := Listing(set sh | sh in index.shards && index.IsRoot(sh) && StoredMark(stored, sh) != Closed);
    var shut := Listing(set sh | sh in index.shards && index.IsRoot(sh) && StoredMark(stored, sh) == Closed);
    a := Takeover(index, stored, open, shut, newTerm);
  }

  lemma {:induction false} Listing<T>(s: set<T>) returns (q: seq<T>)
    ensures Lists(q, s)
    decreases |s|
  {
    if s == {} {
      q := [];
    } else {
      var x :| x in s;
      q := Listing(s - {x});
      NoDupAppend(q, x);
      q := q + [x];
      assert Elements(q) == Elements(q[..|q| - 1]) + {x};
    }
  }

  /** ... and after any takeover the manager's checkpoints are those read. */
  lemma LeadsAsRead(cfg: Config, w: D.World, m: nat, a: Action)
    requires D.CanHappen(cfg, w, D.TakeOver(m, a))
    ensures var t := D.Happened(cfg, w, D.TakeOver(m, a)).managers[m];
      && t.checkpoints.Keys == a.index.shards.Keys
      && forall sh :: sh in t.checkpoints ==> sh in w.loads[m] && t.checkpoints[sh] == w.loads[m][sh]
  {
    TakenMarks(cfg, w.managers[m], a);
    hide Enabled, Do;
  }

  /** The store has this checkpoint for the shard; LATEST stands for none. */
  predicate StoredAs(w: D.World, sh: ShardId, mark: Mark) {
    if sh in w.fence.store then w.fence.store[sh].mark == mark else mark == Latest
  }

  /** ... all the way. */
  ghost predicate StoredThroughout(cfg: Config, w: D.World, es: seq<D.Event>, sh: ShardId, mark: Mark)
    requires D.CanAll(cfg, w, es)
    decreases |es|
  {
    StoredAs(D.WorldAfter(cfg, w, es), sh, mark) && (es == [] || StoredThroughout(cfg, w, es[..|es| - 1], sh, mark))
  }

  /** What m has read of the shard, if anything, is this checkpoint. */
  predicate ReadAs(w: D.World, m: nat, sh: ShardId, mark: Mark) {
    m in w.loads && (sh in w.loads[m] ==> w.loads[m][sh] == mark)
  }

  lemma ReadStep(cfg: Config, w: D.World, e: D.Event, m: nat, sh: ShardId, mark: Mark)
    requires D.CanHappen(cfg, w, e) && StoredAs(w, sh, mark) && ReadAs(w, m, sh, mark)
    ensures ReadAs(D.Happened(cfg, w, e), m, sh, mark)
  {
    if !e.StartLoad? && !e.LoadKey? {
      SO.LoadsAlone(cfg, w, e);
      hide D.CanHappen, D.Happened;
    }
  }

  lemma {:induction false} ReadThroughout(cfg: Config, w: D.World, es: seq<D.Event>, m: nat, sh: ShardId, mark: Mark)
    requires D.CanAll(cfg, w, es) && StoredThroughout(cfg, w, es, sh, mark) && ReadAs(w, m, sh, mark)
    ensures ReadAs(D.WorldAfter(cfg, w, es), m, sh, mark)
    decreases |es|
  {
    hide D.CanHappen, D.Happened, ReadAs, StoredAs;
    if es != [] {
      var front := es[..|es| - 1];
      ReadThroughout(cfg, w, front, m, sh, mark);
      assert StoredAs(D.WorldAfter(cfg, w, front), sh, mark);
      ReadStep(cfg, D.WorldAfter(cfg, w, front), es[|es| - 1], m, sh, mark);
    }
  }

  /** A checkpoint that is stored when a manager begins to read, and not overwritten until it takes over, is what the
      manager takes over. */
  lemma StoredTakenOver(cfg: Config, w: D.World, m: nat, es: seq<D.Event>, a: Action, sh: ShardId, mark: Mark)
    requires D.CanAll(cfg, D.Happened(cfg, w, D.StartLoad(m)), es)
    requires StoredThroughout(cfg, D.Happened(cfg, w, D.StartLoad(m)), es, sh, mark)
    requires D.CanHappen(cfg, D.WorldAfter(cfg, D.Happened(cfg, w, D.StartLoad(m)), es), D.TakeOver(m, a))
    requires sh in a.index.shards
    ensures var u := D.WorldAfter(cfg, D.Happened(cfg, w, D.StartLoad(m)), es);
      var t := D.Happened(cfg, u, D.TakeOver(m, a)).managers[m];
      sh in t.checkpoints && t.checkpoints[sh] == mark
  {
    var v := D.Happened(cfg, w, D.StartLoad(m));
    assert ReadAs(v, m, sh, mark);
    ReadThroughout(cfg, v, es, m, sh, mark);
    LeadsAsRead(cfg, D.WorldAfter(cfg, v, es), m, a);
    hide D.CanAll, D.WorldAfter, D.CanHappen, D.Happened, StoredThroughout;
  }

  /** e neither takes m over nor records a checkpoint of the shard in it. */
  predicate LeavesMark(w: D.World, e: D.Event, m: nat, sh: ShardId) {
    && !(e.TakeOver? && e.m == m)
    && !(e.Finish? && e.r in w.fence.requests && e.r in w.origins && w.origins[e.r].manager == m
         && w.fence.requests[e.r].shard == sh)
  }

  ghost predicate LeavingMark(cfg: Config, w: D.World, es: seq<D.Event>, m: nat, sh: ShardId)
    requires D.CanAll(cfg, w, es)
    decreases |es|
  {
    es == []
    || (LeavingMark(cfg, w, es[..|es| - 1], m, sh)
        && LeavesMark(D.WorldAfter(cfg, w, es[..|es| - 1]), es[|es| - 1], m, sh))
  }

  lemma EventMark(cfg: Config, w: D.World, e: D.Event, m: nat, sh: ShardId, mark: Mark)
    requires D.CanHappen(cfg, w, e) && m in w.managers && HasMark(w.managers[m], sh, mark) && LeavesMark(w, e, m, sh)
    ensures m in D.Happened(cfg, w, e).managers && HasMark(D.Happened(cfg, w, e).managers[m], sh, mark)
  {
    hide Enabled, Do, HasMark;
    if e.Move? {
      MoveMark(cfg, w, e, m, sh, mark);
    } else if e.Finish? {
      FinishMark(cfg, w, e, m, sh, mark);
    } else if !e.TakeOver? {
      L.ManagersSame(cfg, w, e);
      hide D.CanHappen, D.Happened;
    }
  }

  lemma MoveMark(cfg: Config, w: D.World, e: D.Event, m: nat, sh: ShardId, mark: Mark)
    requires D.CanHappen(cfg, w, e) && m in w.managers && HasMark(w.managers[m], sh, mark) && e.Move?
    ensures m in D.Happened(cfg, w, e).managers && HasMark(D.Happened(cfg, w, e).managers[m], sh, mark)
  {
    hide Enabled, Do, HasMark;
    if e.m == m {
      MarkStep(cfg, w.managers[m], e.a, sh, mark);
    }
  }

  lemma FinishMark(cfg: Config, w: D.World, e: D.Event, m: nat, sh: ShardId, mark: Mark)
    requires D.CanHappen(cfg, w, e) && m in w.managers && HasMark(w.managers[m], sh, mark)
    requires e.Finish? && LeavesMark(w, e, m, sh)
    ensures m in D.Happened(cfg, w, e).managers && HasMark(D.Happened(cfg, w, e).managers[m], sh, mark)
  {
    FinishedMarks(cfg, w, e.r);
    hide OwnedUnder, D.Finished;
  }

  lemma {:induction false} RunMark(cfg: Config, w: D.World, es: seq<D.Event>, m: nat, sh: ShardId, mark: Mark)
    requires D.CanAll(cfg, w, es) && m in w.managers && HasMark(w.managers[m], sh, mark)
      && LeavingMark(cfg, w, es, m, sh)
    ensures var v := D.WorldAfter(cfg, w, es); m in v.managers && HasMark(v.managers[m], sh, mark)
    decreases |es|
  {
    hide D.CanHappen, D.Happened, HasMark, LeavesMark;
    if es != [] {
      RunMark(cfg, w, es[..|es| - 1], m, sh, mark);
      EventMark(cfg, D.WorldAfter(cfg, w, es[..|es| - 1]), es[|es| - 1], m, sh, mark);
    }
  }

  lemma GrantMark(cfg: Config, w: D.World, m: nat, u: WorkerInfo, sh: ShardId, id: F.Id, mark: Mark)
    requires D.CanHappen(cfg, w, D.HandOut(m, u, sh, id)) && HasMark(w.managers[m], sh, mark) && mark != Unset
    ensures D.Happened(cfg, w, D.HandOut(m, u, sh, id)).grants == w.grants + {D.Grant(sh, id, mark)}
  {
  }

  /** A number stored for a shard when a manager begins to read, and not overwritten before it takes over, is what
      the new leader hands out, until a checkpoint of the shard is recorded in it. */
  lemma NewLeaderHandsOn(cfg: Config, w: D.World, m: nat, es: seq<D.Event>, a: Action, later: seq<D.Event>,
                         u: WorkerInfo, sh: ShardId, id: F.Id, mark: Mark)
    requires D.CanAll(cfg, D.Happened(cfg, w, D.StartLoad(m)), es) && mark != Unset
    requires a.Takeover? && sh in a.index.shards
    requires StoredThroughout(cfg, D.Happened(cfg, w, D.StartLoad(m)), es, sh, mark)
    requires var v := D.WorldAfter(cfg, D.Happened(cfg, w, D.StartLoad(m)), es);
      D.CanHappen(cfg, v, D.TakeOver(m, a))
      && var t := D.Happened(cfg, v, D.TakeOver(m, a));
        D.CanAll(cfg, t, later) && LeavingMark(cfg, t, later, m, sh)
        && D.CanHappen(cfg, D.WorldAfter(cfg, t, later), D.HandOut(m, u, sh, id))
    ensures var v := D.WorldAfter(cfg, D.Happened(cfg, w, D.StartLoad(m)), es);
      var x := D.WorldAfter(cfg, D.Happened(cfg, v, D.TakeOver(m, a)), later);
      D.Happened(cfg, x, D.HandOut(m, u, sh, id)).grants == x.grants + {D.Grant(sh, id, mark)}
  {
    StoredTakenOver(cfg, w, m, es, a, sh, mark);
    var v := D.WorldAfter(cfg, D.Happened(cfg, w, D.StartLoad(m)), es);
    var t := D.Happened(cfg, v, D.TakeOver(m, a));
    assert m in t.managers;
    hide D.CanAll, D.WorldAfter, D.CanHappen, D.Happened, StoredThroughout, LeavingMark;
    RunMark(cfg, t, later, m, sh, mark);
    GrantMark(cfg, D.WorldAfter(cfg, t, later), m, u, sh, id, mark);
  }

  /** The checkpoint of an accepted request, recorded while its worker owns the shard, is what whoever is handed the
      shard next is told, until another one is recorded. */
  lemma RecordedHandsOn(cfg: Config, w: D.World, r: nat, later: seq<D.Event>, u: WorkerInfo, sh: ShardId, id: F.Id)
    requires D.CanHappen(cfg, w, D.Finish(r))
    requires var o, q := w.origins[r], w.fence.requests[r];
      && q.shard == sh && q.mark != Unset && OwnedUnder(w.managers[o.manager], o.worker, sh, q.id)
      && D.CanAll(cfg, D.Happened(cfg, w, D.Finish(r)), later)
      && LeavingMark(cfg, D.Happened(cfg, w, D.Finish(r)), later, o.manager, sh)
      && D.CanHappen(cfg, D.WorldAfter(cfg, D.Happened(cfg, w, D.Finish(r)), later), D.HandOut(o.manager, u, sh, id))
    ensures var o, q := w.origins[r], w.fence.requests[r];
      var x := D.WorldAfter(cfg, D.Happened(cfg, w, D.Finish(r)), later);
      D.Happened(cfg, x, D.HandOut(o.manager, u, sh, id)).grants == x.grants + {D.Grant(sh, id, q.mark)}
  {
    FinishedMarks(cfg, w, r);
    var o, q := w.origins[r], w.fence.requests[r];
    var t := D.Happened(cfg, w, D.Finish(r));
    assert o.manager in t.managers && HasMark(t.managers[o.manager], sh, q.mark);
    hide D.CanAll, D.WorldAfter, D.CanHappen, D.Happened, OwnedUnder, LeavingMark, HasMark;
    RunMark(cfg, t, later, o.manager, sh, q.mark);
    GrantMark(cfg, D.WorldAfter(cfg, t, later), o.manager, u, sh, id, q.mark);
  }
}
