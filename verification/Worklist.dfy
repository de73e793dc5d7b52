/** The close worklist is drained on every acyclic lineage, although it appends to the queue it drains. */
module Worklist {
  import opened Finite
  import opened Lineage
  import opened WorkerRecord
  import opened ManagerModel

  /** One for the notification, and the weights of those it may give rise to. */
  ghost function Weight(index: Index, height: map<ShardId, nat>, s: ShardId): int
    requires index.Complete() && index.Acyclic(height) && s in index.shards
    decreases height[s]
  {
    1 + Sum(map c | c in index.children[s] && index.IsParent(s, c) :: Weight(index, height, c))
  }

  lemma {:induction false} WeightPositive(index: Index, height: map<ShardId, nat>, s: ShardId)
    requires index.Complete() && index.Acyclic(height) && s in index.shards
    ensures Weight(index, height, s) >= 1
    decreases height[s]
  {
    var m: map<ShardId, int> := map c | c in index.children[s] && index.IsParent(s, c) :: Weight(index, height, c);
    forall c | c in m ensures m[c] >= 0 {
      WeightPositive(index, height, c);
    }
    var zero := map c | c in m :: 0;
    SumMonotone(zero, m);
    SumConstant(zero, 0);
  }

  ghost function NotesWeight(index: Index, height: map<ShardId, nat>, notes: seq<Note>): int
    requires index.Complete() && index.Acyclic(height) && forall n :: n in notes ==> n.shard in index.shards
    decreases |notes|
  {
    if notes == [] then 0
    else NotesWeight(index, height, notes[..|notes| - 1]) + Weight(index, height, notes[|notes| - 1].shard)
  }

  lemma {:induction false} HeadWeight(index: Index, height: map<ShardId, nat>, notes: seq<Note>)
    requires index.Complete() && index.Acyclic(height) && forall n :: n in notes ==> n.shard in index.shards
    requires notes != []
    ensures NotesWeight(index, height, notes)
      == Weight(index, height, notes[0].shard) + NotesWeight(index, height, notes[1..])
    decreases |notes|
  {
    hide Weight;
    if |notes| > 1 {
      var front := notes[..|notes| - 1];
      HeadWeight(index, height, front);
      assert front[1..] == notes[1..][..|notes| - 2];
    }
  }

  lemma {:induction false} NotesNonNegative(index: Index, height: map<ShardId, nat>, notes: seq<Note>)
    requires index.Complete() && index.Acyclic(height) && forall n :: n in notes ==> n.shard in index.shards
    ensures NotesWeight(index, height, notes) >= 0
    decreases |notes|
  {
    hide Weight;
    if notes != [] {
      NotesNonNegative(index, height, notes[..|notes| - 1]);
      WeightPositive(index, height, notes[|notes| - 1].shard);
    }
  }

  ghost function KidsWeight(index: Index, height: map<ShardId, nat>, kids: seq<ShardId>): int
    requires index.Complete() && index.Acyclic(height) && forall c :: c in kids ==> c in index.shards
    decreases |kids|
  {
    if kids == [] then 0
    else KidsWeight(index, height, kids[..|kids| - 1]) + Weight(index, height, kids[|kids| - 1])
  }

  ghost function Weights(index: Index, height: map<ShardId, nat>, kids: set<ShardId>): map<ShardId, int>
    requires index.Complete() && index.Acyclic(height) && kids <= index.shards.Keys
  {
    map c | c in kids :: Weight(index, height, c)
  }

  lemma {:induction false} KidsSum(index: Index, height: map<ShardId, nat>, kids: seq<ShardId>)
    requires index.Complete() && index.Acyclic(height) && NoDup(kids) && Elements(kids) <= index.shards.Keys
    ensures KidsWeight(index, height, kids) == Sum(Weights(index, height, Elements(kids)))
    decreases |kids|
  {
    if kids == [] {
      assert Weights(index, height, Elements(kids)) == map[];
    } else {
      hide Weight, Sum, Index.Complete, Index.Acyclic;
      var front := kids[..|kids| - 1];
      var k := kids[|kids| - 1];
      assert kids == front + [k];
      assert Elements(front) == Elements(kids) - {k};
      KidsSum(index, height, front);
      SumSplit(Weights(index, height, Elements(kids)), k);
      assert Weights(index, height, Elements(kids)) - {k} == Weights(index, height, Elements(front));
    }
  }

  /** Visiting kids queues at most one notification for each. */
  lemma {:induction false} VisitAllWeight(index: Index, height: map<ShardId, nat>, s: State, kids: seq<ShardId>)
    requires index.Complete() && index.Acyclic(height)
    requires forall n :: n in s.closed ==> n.shard in index.shards
    requires forall c :: c in kids ==> c in index.shards
    ensures forall n :: n in VisitAll(s, index, kids).closed ==> n.shard in index.shards
    ensures NotesWeight(index, height, VisitAll(s, index, kids).closed)
         <= NotesWeight(index, height, s.closed) + KidsWeight(index, height, kids)
    decreases |kids|
  {
    hide Weight, Eligible;
    if kids != [] {
      var front := kids[..|kids| - 1];
      var c := kids[|kids| - 1];
      VisitAllWeight(index, height, s, front);
      var t := VisitAll(s, index, front);
      WeightPositive(index, height, c);
      assert (t.closed + [Note(c, None)])[..|t.closed|] == t.closed;
    }
  }

  /** Each turn of the worklist lowers the weight of what is pending. */
  lemma SettleFalls(index: Index, height: map<ShardId, nat>, s: State, kids: seq<ShardId>)
    requires index.Complete() && index.Acyclic(height)
    requires s.closed != [] && (s.closed[0].worker.Some? ==> s.closed[0].worker.value in s.info)
    requires forall n :: n in s.closed ==> n.shard in index.shards
    requires Lists(kids, index.children[s.closed[0].shard]) && Elements(kids) <= index.shards.Keys
    ensures forall n :: n in AfterSettle(s, index, kids).closed ==> n.shard in index.shards
    ensures 0 <= NotesWeight(index, height, AfterSettle(s, index, kids).closed) < NotesWeight(index, height, s.closed)
  {
    var p := s.closed[0].shard;
    var t := Detach(s.(closed := s.closed[1..]), s.closed[0]);
    assert p in index.shards by { assert s.closed[0] in s.closed; }
    assert t.closed == s.closed[1..];
    HeadWeight(index, height, s.closed);
    KidsOf(index, height, p, kids);
    hide Weight, Detach;
    VisitAllWeight(index, height, t, kids);
    NotesNonNegative(index, height, AfterSettle(s, index, kids).closed);
  }

  lemma KidsOf(index: Index, height: map<ShardId, nat>, p: ShardId, kids: seq<ShardId>)
    requires index.Complete() && index.Acyclic(height) && p in index.shards
    requires Lists(kids, index.children[p]) && Elements(kids) <= index.shards.Keys
    ensures Weight(index, height, p) == 1 + KidsWeight(index, height, kids)
  {
    KidsSum(index, height, kids);
    assert index.children[p] == Elements(kids);
    assert forall c :: c in index.children[p] ==> index.IsParent(p, c);
    hide Sum, Index.Complete, Index.Acyclic, KidsWeight;
    assert (map c | c in index.children[p] && index.IsParent(p, c) :: Weight(index, height, c))
        == Weights(index, height, Elements(kids));
  }
}
