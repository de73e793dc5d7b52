/** What a worker is told, over runs of handler calls and in the world of stores and processors. */
module Responses {
  import opened Finite
  import opened Lineage
  import opened WorkerRecord
  import opened ManagerModel
  import opened Conservation
  import opened ManagerRuns
  import opened Expiry
  import opened Frontier
  import opened AssignCalls
  import opened AssignResults
  import opened HandlerCalls
  import opened MarkHistory
  import opened ManagerService
  import D = Delivery
  import F = Fencing

  // ---------- In the world ----------

  /** The grants that a worker can be handed are the entries of the response to it: each shard with its id and its
      checkpoint, and no others. */
  lemma GrantsTold(cfg: Config, w: D.World, m: nat, u: WorkerInfo, sh: ShardId, id: F.Id)
    requires m in w.managers && w.managers[m].Registered(u)
    ensures var r := ResponseTo(w.managers[m], u);
      && r.Assignments?
      && (D.CanHappen(cfg, w, D.HandOut(m, u, sh, id)) <==> sh in r.given && r.given[sh].id == id)
      && (D.CanHappen(cfg, w, D.HandOut(m, u, sh, id)) ==>
            D.Happened(cfg, w, D.HandOut(m, u, sh, id)).grants
              == w.grants + {D.Grant(sh, id, r.given[sh].sequenceNumber)})
  {
  }

  // ---------- Over calls ----------

  /** The call records a checkpoint of the shard. */
  predicate CallRecords(s: State, call: Call, sh: ShardId) {
    call.Record? && call.sh == sh
  }

  lemma AnswerMark(cfg: Config, index: Index, s: State, t: State, id: WorkerId, w: WorkerInfo, maxShards: int, at: int,
                   turn: Turn, sh: ShardId, mark: Mark)
    requires Answers(cfg, index, s, t, id, w, maxShards, at, turn) && Named(s) && Beating(s) && HasMark(s, sh, mark)
    ensures HasMark(t, sh, mark)
  {
    hide Answers, Named, Beating, CanRun, Run, Along, Framed, HasMark, Orderly, State.Registered;
    var acts := AnswerRuns(cfg, index, s, t, id, w, maxShards, at, turn);
    forall i | 0 <= i < |acts| ensures !acts[i].Takeover? && !Records(acts[i], sh) {
      assert CallMove(index, at, acts[i]);
    }
    MarkStays(cfg, s, acts, sh, mark);
  }

  lemma CallMark(cfg: Config, index: Index, s: State, call: Call, t: State, sh: ShardId, mark: Mark)
    requires Effect(cfg, index, s, call, t) && Named(s) && Beating(s) && HasMark(s, sh, mark)
    requires !call.Lead? && !CallRecords(s, call, sh)
    ensures HasMark(t, sh, mark)
  {
    hide Named, Beating, Answers, OwnedUnder;
    if call.Assign? && s.inService {
      hide HasMark;
      AnswerMark(cfg, index, s, t, call.worker, call.w, call.maxShards, call.at, call.turn, sh, mark);
    }
  }

  lemma {:induction false} CallsMark(cfg: Config, index: Index, calls: seq<Call>, states: seq<State>, i: nat, k: nat,
                                     sh: ShardId, mark: Mark)
    requires index.Complete() && CallRun(cfg, index, calls, states) && i <= k <= |calls| && HasMark(states[i], sh, mark)
    requires forall j :: i <= j < k ==> !calls[j].Lead? && !CallRecords(states[j], calls[j], sh)
    ensures HasMark(states[k], sh, mark)
    decreases k
  {
    hide CallRun, Effect, HasMark, Named, Beating, Index.Complete, CallRecords, Sound;
    CallStates(cfg, index, calls, states);
    if i < k {
      CallsMark(cfg, index, calls, states, i, k - 1, sh, mark);
      var loc := CallBegins(cfg, index, calls, states, k - 1);
      CallMark(cfg, index, states[k - 1], calls[k - 1], states[k], sh, mark);
    }
  }

  /** A checkpoint recorded for its owner is what every worker is told that is given the shard, until another one is
      recorded for it or another manager takes over. */
  lemma ToldAsRecorded(cfg: Config, index: Index, calls: seq<Call>, states: seq<State>, i: nat, k: nat, w: WorkerInfo,
                       sh: ShardId)
    requires index.Complete() && CallRun(cfg, index, calls, states) && i < k <= |calls| && w in states[k].info
    requires calls[i].Record? && calls[i].sh == sh && calls[i].mark != Unset
    requires OwnedUnder(states[i], calls[i].name, sh, calls[i].id)
    requires forall j :: i < j < k ==> !calls[j].Lead? && !CallRecords(states[j], calls[j], sh)
    ensures var r := ResponseTo(states[k], w);
      r.Assignments? && (sh in r.given ==> r.given[sh].sequenceNumber == calls[i].mark)
  {
    assert Effect(cfg, index, states[i], calls[i], states[i + 1]);
    assert HasMark(states[i + 1], sh, calls[i].mark);
    hide CallRun, Effect, OwnedUnder, Index.Complete, Guarded;
    CallsMark(cfg, index, calls, states, i + 1, k, sh, calls[i].mark);
  }

  /** After a takeover every worker is told what was stored, until a checkpoint is recorded. */
  lemma ToldAsStored(cfg: Config, index: Index, calls: seq<Call>, states: seq<State>, i: nat, k: nat, w: WorkerInfo,
                     sh: ShardId)
    requires index.Complete() && CallRun(cfg, index, calls, states) && i < k <= |calls| && w in states[k].info
    requires calls[i].Lead? && calls[i].takeover.Takeover? && sh in calls[i].takeover.index.shards
    requires sh in calls[i].takeover.stored ==> calls[i].takeover.stored[sh] != Unset
    requires forall j :: i < j < k ==> !calls[j].Lead? && !CallRecords(states[j], calls[j], sh)
    ensures var r := ResponseTo(states[k], w);
      var stored := calls[i].takeover.stored;
      r.Assignments? && (sh in r.given ==> r.given[sh].sequenceNumber == if sh in stored then stored[sh] else Latest)
  {
    var stored := calls[i].takeover.stored;
    var mark := if sh in stored then stored[sh] else Latest;
    assert Effect(cfg, index, states[i], calls[i], states[i + 1]);
    assert HasMark(states[i + 1], sh, mark) by { TakenMarks(cfg, states[i], calls[i].takeover); }
    hide CallRun, Effect, Index.Complete, Guarded;
    CallsMark(cfg, index, calls, states, i + 1, k, sh, mark);
  }
}
