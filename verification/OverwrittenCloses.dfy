/** Hypothesis G3 is exact: a CLOSED checkpoint that is overwritten before its close is settled leaves a shard that
    nobody will ever hold. */
module OverwrittenCloses {
  import opened Finite
  import opened Lineage
  import opened WorkerRecord
  import opened ManagerModel
  import opened Conservation
  import opened ManagerRuns
  import opened Frontier
  import opened LineageGrowth

  /** A notification of p will find its child c ready. */
  ghost predicate MakesReady(index: Index, shut: set<ShardId>, p: ShardId, c: ShardId) {
    p in index.children && c in index.children[p] && c in index.shards && Ready(index, shut, c)
  }

  /** No child that a pending notification will find ready has been visited, or CLOSED, before. */
  ghost predicate Calm(index: Index, s: State, visited: set<ShardId>) {
    forall p, c :: p in ShardsIn(s.closed) && MakesReady(index, ShutOf(s), p, c) ==> c !in visited && c !in ShutOf(s)
  }

  /** So it is when the worklist has been drained ... */
  lemma QuietCalm(index: Index, s: State, visited: set<ShardId>)
    requires Quiet(index, s)
    ensures Calm(index, s, visited)
  {
    hide Ready;
  }

  /** A shard that is not CLOSED has no visited child, and no CLOSED one. */
  lemma OpenParent(index: Index, s: State, visited: set<ShardId>, sh: ShardId, c: ShardId)
    requires index.Complete() && Followed(index, s, visited) && sh in visited && sh !in ShutOf(s)
    requires c in index.shards && sh in NamedParents(index, c) && Ready(index, ShutOf(s) + {sh}, c)
    ensures c !in visited && c !in ShutOf(s) + {sh}
  {
    assert !index.IsRoot(c);
    assert !Ready(index, ShutOf(s), c);
  }

  lemma MarkedShut(s: State, w: WorkerInfo, sh: ShardId, mark: Mark)
    ensures ShutOf(AfterCheckpoint(s, w, sh, mark)) == if mark == Closed then ShutOf(s) + {sh} else ShutOf(s) - {sh}
    ensures ShardsIn(AfterCheckpoint(s, w, sh, mark).closed)
         == if mark == Closed then ShardsIn(s.closed) + {sh} else ShardsIn(s.closed)
  {
    if mark == Closed { NotesAppend(s.closed, Note(sh, Some(w))); }
  }

  /** What one more CLOSED shard makes ready names it as a parent. */
  lemma ReadyByClose(index: Index, s: State, visited: set<ShardId>, sh: ShardId, p: ShardId, c: ShardId)
    requires index.Complete() && Followed(index, s, visited) && Calm(index, s, visited) && sh in visited
      && sh !in ShutOf(s)
    requires p in ShardsIn(s.closed) + {sh} && MakesReady(index, ShutOf(s) + {sh}, p, c)
    ensures c !in visited && c !in ShutOf(s) + {sh}
  {
    assert index.IsParent(p, c);
    if sh in NamedParents(index, c) {
      OpenParent(index, s, visited, sh, c);
    } else {
      assert MakesReady(index, ShutOf(s), p, c);
    }
  }

  /** ... and the checkpoints of live shards keep it so until the next assign call. */
  lemma CheckpointCalm(index: Index, s: State, visited: set<ShardId>, w: WorkerInfo, sh: ShardId, mark: Mark)
    requires index.Complete() && Followed(index, s, visited) && Calm(index, s, visited)
    requires sh in visited && sh !in ShutOf(s)
    ensures Calm(index, AfterCheckpoint(s, w, sh, mark), visited)
  {
    var t := AfterCheckpoint(s, w, sh, mark);
    MarkedShut(s, w, sh, mark);
    if mark == Closed {
      forall p, c | p in ShardsIn(t.closed) && MakesReady(index, ShutOf(t), p, c)
        ensures c !in visited && c !in ShutOf(t) {
        ReadyByClose(index, s, visited, sh, p, c);
      }
    } else {
      assert ShutOf(t) == ShutOf(s);
    }
    hide MakesReady, Followed, ShutOf, ShardsIn;
  }

  /** Nothing pending leads to sh, or to a CLOSED shard. */
  ghost predicate Harmless(index: Index, shut: set<ShardId>, pending: set<ShardId>, sh: ShardId) {
    forall p, c :: p in pending && MakesReady(index, shut, p, c) ==> c != sh && c !in shut
  }

  /** ... and sh is live only as long as a notification of its owner waits. */
  ghost predicate Aside(index: Index, shut: set<ShardId>, s: State, sh: ShardId) {
    ShutOf(s) == shut && (sh in s.live ==> sh in OwnedIn(s.closed)) && Harmless(index, shut, ShardsIn(s.closed), sh)
  }

  lemma ReadyNames(index: Index, shut: set<ShardId>, p: ShardId, c: ShardId)
    requires index.Complete() && MakesReady(index, shut, p, c)
    ensures p in shut
  {
    assert index.IsParent(p, c);
  }

  lemma HarmlessMore(index: Index, shut: set<ShardId>, pending: set<ShardId>, sh: ShardId, more: set<ShardId>,
                     ready: set<ShardId>)
    requires index.Complete() && Harmless(index, shut, pending, sh) && more <= pending + ready && ready !! shut
    ensures Harmless(index, shut, more, sh)
  {
    forall p, c | p in more && MakesReady(index, shut, p, c) ensures c != sh && c !in shut {
      ReadyNames(index, shut, p, c);
    }
  }

  lemma HeadReadies(index: Index, s: State, shut: set<ShardId>, sh: ShardId, kids: seq<ShardId>)
    requires Aside(index, shut, s, sh) && s.closed != []
    requires s.closed[0].shard in index.children && Lists(kids, index.children[s.closed[0].shard])
    requires forall c :: c in kids ==> c in index.shards
    ensures var ready := set c | c in Elements(kids) && Ready(index, shut, c); sh !in ready && ready !! shut
  {
    assert s.closed[0] in s.closed;
    forall c | c in Elements(kids) && Ready(index, shut, c) ensures c != sh && c !in shut {
      assert MakesReady(index, shut, s.closed[0].shard, c);
    }
  }

  lemma SettleAside(index: Index, s: State, shut: set<ShardId>, sh: ShardId, kids: seq<ShardId>)
    requires index.Complete() && Aside(index, shut, s, sh)
    requires s.closed != [] && (s.closed[0].worker.Some? ==> s.closed[0].worker.value in s.info)
    requires s.closed[0].shard in index.children && Lists(kids, index.children[s.closed[0].shard])
    requires forall c :: c in kids ==> c in index.shards
    ensures Aside(index, shut, AfterSettle(s, index, kids), sh)
  {
    hide Harmless, ShutOf, Index.Complete;
    HeadReadies(index, s, shut, sh, kids);
    ViewParts(s);
    ViewParts(AfterSettle(s, index, kids));
    SettleView(index, s, kids);
    var ready := set c | c in Elements(kids) && Ready(index, shut, c);
    SettleSets(index, s, kids);
    hide Ready, AfterSettle, ViewOf, ShardsIn, OwnedIn;
    HarmlessMore(index, shut, ShardsIn(s.closed), sh, ShardsIn(AfterSettle(s, index, kids).closed), ready);
  }

  lemma ViewParts(s: State)
    ensures ViewOf(s).shut == ShutOf(s) && ViewOf(s).live == s.live && ViewOf(s).closing == OwnedIn(s.closed)
  {
  }

  lemma SettleSets(index: Index, s: State, kids: seq<ShardId>)
    requires s.closed != [] && (s.closed[0].worker.Some? ==> s.closed[0].worker.value in s.info)
    requires forall c :: c in kids ==> c in index.shards
    ensures ShardsIn(AfterSettle(s, index, kids).closed)
         <= ShardsIn(s.closed) + set c | c in Elements(kids) && Ready(index, ShutOf(s), c)
    ensures s.closed[0].worker.Some? ==> s.closed[0].shard in OwnedIn(s.closed)
  {
    var u := Detach(s.(closed := s.closed[1..]), s.closed[0]);
    HeadRemoved(s.closed);
    VisitAllEffect(index, u, kids);
    assert ShutOf(u) == ShutOf(s) && s.closed[0] in s.closed;
    hide Ready, VisitAll, ShardsIn, OwnedIn;
  }

  /** acts drain the worklist, or some of it, under the lineage index. */
  ghost predicate DrainsUnder(index: Index, acts: seq<Action>) {
    forall i :: 0 <= i < |acts| ==> acts[i].Settle? && acts[i].index == index
  }

  lemma {:induction false} DrainAside(cfg: Config, index: Index, s: State, acts: seq<Action>, shut: set<ShardId>,
                                      sh: ShardId)
    requires index.Complete() && Aside(index, shut, s, sh) && CanRun(cfg, s, acts) && DrainsUnder(index, acts)
    ensures Aside(index, shut, Run(cfg, s, acts), sh)
    decreases |acts|
  {
    hide Aside, Index.Complete;
    if acts != [] {
      var front := acts[..|acts| - 1];
      DrainAside(cfg, index, s, front, shut, sh);
      SettleAside(index, Run(cfg, s, front), shut, sh, acts[|acts| - 1].kids);
    }
  }

  lemma {:induction false} DrainFollowed(cfg: Config, index: Index, s: State, acts: seq<Action>, visited: set<ShardId>)
    returns (reached: set<ShardId>)
    requires index.Complete() && Followed(index, s, visited) && CanRun(cfg, s, acts) && DrainsUnder(index, acts)
    ensures Followed(index, Run(cfg, s, acts), reached)
    decreases |acts|
  {
    hide Followed, Index.Complete, Ready;
    reached := visited;
    if acts != [] {
      var front := acts[..|acts| - 1];
      var a := acts[|acts| - 1];
      reached := DrainFollowed(cfg, index, s, front, visited);
      var t := Run(cfg, s, front);
      SettleFollowed(index, t, reached, a.kids);
      reached := reached + set c | c in index.children[t.closed[0].shard] && Ready(index, ShutOf(t), c);
    }
  }

  /** sh has been closed by its owner, and its close is not settled. */
  ghost predicate Closing(index: Index, s: State, visited: set<ShardId>, sh: ShardId) {
    Followed(index, s, visited) && Calm(index, s, visited) && sh in OwnedIn(s.closed)
  }

  lemma ClosingFacts(index: Index, s: State, visited: set<ShardId>, sh: ShardId)
    requires Closing(index, s, visited, sh)
    ensures sh in visited && sh in ShutOf(s) && sh in index.shards && ShutOf(s) <= index.shards.Keys
    ensures index.IsRoot(sh) || Ready(index, ShutOf(s), sh)
  {
    ViewParts(s);
  }

  /** CLOSED again changes nothing that the frontier depends on. */
  lemma ClosedAgain(index: Index, s: State, visited: set<ShardId>, w: WorkerInfo, sh: ShardId)
    requires Closing(index, s, visited, sh)
    ensures Followed(index, AfterCheckpoint(s, w, sh, Closed), visited)
  {
    var t := AfterCheckpoint(s, w, sh, Closed);
    ClosingFacts(index, s, visited, sh);
    MarkedShut(s, w, sh, Closed);
    NotesAppend(s.closed, Note(sh, Some(w)));
    OwnedPending(s, sh);
    assert ViewOf(t) == ViewOf(s);
    hide ViewOf, Tracked, Ready;
  }

  lemma OwnedPending(s: State, sh: ShardId)
    requires sh in OwnedIn(s.closed)
    ensures sh in ShardsIn(s.closed)
  {
  }

  lemma OverwrittenAside(index: Index, s: State, visited: set<ShardId>, w: WorkerInfo, sh: ShardId, mark: Mark)
    requires Closing(index, s, visited, sh) && mark != Closed
    ensures var t := AfterCheckpoint(s, w, sh, mark); Aside(index, ShutOf(s) - {sh}, t, sh)
  {
    ClosingFacts(index, s, visited, sh);
    MarkedShut(s, w, sh, mark);
    var shut := ShutOf(s) - {sh};
    forall p, c | p in ShardsIn(s.closed) && MakesReady(index, shut, p, c) ensures c != sh && c !in shut {
      assert MakesReady(index, ShutOf(s), p, c);
    }
  }

  lemma NotItsOwnParent(index: Index, height: map<ShardId, nat>, shut: set<ShardId>, sh: ShardId)
    requires index.Acyclic(height) && sh in index.shards && Ready(index, shut, sh)
    ensures Ready(index, shut - {sh}, sh)
  {
    assert !index.IsParent(sh, sh);
  }

  /** G3 is exact. While a close of sh waits to be settled, a further checkpoint of sh is recorded, and the worklist is
      drained: the live set is the frontier if and only if that checkpoint was CLOSED too. */
  lemma OverwriteExact(cfg: Config, index: Index, height: map<ShardId, nat>, s: State, visited: set<ShardId>,
                       w: WorkerInfo, sh: ShardId, mark: Mark, acts: seq<Action>)
    requires index.Complete() && index.Acyclic(height) && Closing(index, s, visited, sh)
    requires CanRun(cfg, AfterCheckpoint(s, w, sh, mark), acts) && DrainsUnder(index, acts)
    requires Run(cfg, AfterCheckpoint(s, w, sh, mark), acts).closed == []
    ensures var t := Run(cfg, AfterCheckpoint(s, w, sh, mark), acts);
      t.live == Front(index, ShutOf(t)) <==> mark == Closed
  {
    hide CanRun, Run, AfterCheckpoint, Followed, Index.Complete, Index.Acyclic, Harmless, Ready;
    var c := AfterCheckpoint(s, w, sh, mark);
    if mark == Closed {
      ClosedAgain(index, s, visited, w, sh);
      var reached := DrainFollowed(cfg, index, c, acts, visited);
      FollowedFront(index, height, Run(cfg, c, acts), reached);
    } else {
      ClosingFacts(index, s, visited, sh);
      OverwrittenAside(index, s, visited, w, sh, mark);
      DrainAside(cfg, index, c, acts, ShutOf(s) - {sh}, sh);
      if !index.IsRoot(sh) { NotItsOwnParent(index, height, ShutOf(s), sh); }
      assert sh in Front(index, ShutOf(s) - {sh});
    }
  }
}
