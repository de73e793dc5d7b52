/** The parent/child structure of a stream's shards, as the discovery index presents it. */
module Lineage {
  import opened Finite

  type ShardId = string

  datatype Shard = Shard(id: ShardId, parent: Option<ShardId>, adjacent: Option<ShardId>) {
    predicate Names(p: ShardId) {
      parent == Some(p) || adjacent == Some(p)
    }
  }

  /** What the discovery service's getters answer: the known shards and, for each, its children. */
  datatype Index = Index(shards: map<ShardId, Shard>, children: map<ShardId, set<ShardId>>) {
    /** GetRoots looks at the first parent only: absent, or not (or no longer) known. */
    predicate IsRoot(c: ShardId)
      requires c in shards
    {
      shards[c].parent.None? || shards[c].parent.value !in shards
    }

    predicate IsParent(p: ShardId, c: ShardId) {
      p in shards && c in shards && shards[c].Names(p)
    }

    /** Hypothesis G4, without acyclicity: records sit under their own id, a shard with a parent
        names its first parent, a non-root's named parents are known, the child index is complete. */
    ghost predicate Complete() {
      && children.Keys == shards.Keys
      && (forall c :: c in shards ==> shards[c].id == c)
      && (forall c :: c in shards && shards[c].adjacent.Some? ==> shards[c].parent.Some?)
      && (forall c :: c in shards && !IsRoot(c) && shards[c].adjacent.Some? ==> shards[c].adjacent.value in shards)
      && (forall p, c :: p in shards ==> (c in children[p] <==> IsParent(p, c)))
    }

    /** height falls from a shard to its children, which is what it takes to be acyclic. */
    ghost predicate Acyclic(height: map<ShardId, nat>) {
      && shards.Keys <= height.Keys
      && forall p, c :: IsParent(p, c) ==> height[c] < height[p]
    }
  }

  lemma HeightBound(height: map<ShardId, nat>, c: ShardId)
    requires c in height
    ensures height[c] <= Sum(map d | d in height :: height[d])
  {
    var m: map<ShardId, int> := map d | d in height :: height[d];
    SumSplit(m, c);
    var rest := m - {c};
    SumMonotone(map d | d in rest :: 0, rest);
    SumConstant(map d | d in rest :: 0, 0);
  }
}
