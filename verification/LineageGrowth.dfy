/** The frontier while the lineage grows: discovery catches up with splits and merges between requests. */
module LineageGrowth {
  import opened Finite
  import opened Lineage
  import opened WorkerRecord
  import opened ManagerModel
  import opened Conservation
  import opened ManagerRuns
  import opened Frontier
  import opened Discovery
  import opened DiscoveryConverges

  /** A stretch of a run under one state of the index. */
  datatype Stretch = Stretch(index: Index, acts: seq<Action>)

  /** The run starts with a takeover. From one stretch to the next the index grows, between requests. */
  ghost predicate GrowingRun(cfg: Config, s: State, parts: seq<Stretch>)
    decreases |parts|, 0
  {
    parts != [] &&
    var last := parts[|parts| - 1];
    last.index.Complete() &&
    if |parts| == 1 then FromTakeover(cfg, last.index, s, last.acts) && CanRun(cfg, s, last.acts)
    else
      var front := parts[..|parts| - 1];
      && GrowingRun(cfg, s, front) && Grows(front[|front| - 1].index, last.index)
      && GrownState(cfg, s, front).deferred == []
      && CanRun(cfg, GrownState(cfg, s, front), last.acts)
      && Along(cfg, GrownState(cfg, s, front), last.acts, (t: State, a: Action) => Faithful(last.index, t, a))
  }

  ghost function GrownState(cfg: Config, s: State, parts: seq<Stretch>): State
    requires GrowingRun(cfg, s, parts)
    decreases |parts|, 1
  {
    var last := parts[|parts| - 1];
    if |parts| == 1 then Run(cfg, s, last.acts) else Run(cfg, GrownState(cfg, s, parts[..|parts| - 1]), last.acts)
  }

  /** The invariant is kept along any faithful stretch. */
  lemma {:induction false} FollowedOn(cfg: Config, index: Index, s: State, loc: Places, visited: set<ShardId>,
                                      acts: seq<Action>)
    returns (m: Places, reached: set<ShardId>)
    requires index.Complete() && Sound(s, loc) && Followed(index, s, visited)
    requires CanRun(cfg, s, acts) && Along(cfg, s, acts, (t: State, a: Action) => Faithful(index, t, a))
    ensures Sound(Run(cfg, s, acts), m) && Followed(index, Run(cfg, s, acts), reached)
    decreases |acts|
  {
    hide Sound, Followed, Index.Complete, Enabled, Faithful, Do;
    m, reached := loc, visited;
    if acts != [] {
      var front := acts[..|acts| - 1];
      var a := acts[|acts| - 1];
      var t := Run(cfg, s, front);
      m, reached := FollowedOn(cfg, index, s, loc, visited, front);
      FaithfulOrderly(index, t, a);
      MoveFollowed(cfg, index, t, m, reached, a);
      MoveSoundAny(cfg, t, a, m);
      m, reached := Moved(cfg, t, a, m), Reached(index, t, a, reached);
    }
  }

  lemma {:induction false} GrowingFollowed(cfg: Config, s: State, parts: seq<Stretch>)
    returns (loc: Places, visited: set<ShardId>)
    requires GrowingRun(cfg, s, parts)
    ensures Sound(GrownState(cfg, s, parts), loc)
      && Followed(parts[|parts| - 1].index, GrownState(cfg, s, parts), visited)
    decreases |parts|
  {
    hide Sound, Followed, Index.Complete, FromTakeover, CanRun, Run, Along, Faithful, Grows;
    var last := parts[|parts| - 1];
    if |parts| == 1 {
      loc, visited := FollowedRun(cfg, last.index, s, last.acts);
    } else {
      var front := parts[..|parts| - 1];
      var index := front[|front| - 1].index;
      loc, visited := GrowingFollowed(cfg, s, front);
      var t := GrownState(cfg, s, front);
      GrownFollowed(index, last.index, t, visited);
      loc, visited := FollowedOn(cfg, last.index, t, loc, visited, last.acts);
    }
  }

  /** Frontier, on a lineage that grows: whenever the worklist has been drained, the live set equals the one computed
      from scratch on the lineage as it is known by then. */
  lemma GrowingFrontier(cfg: Config, height: map<ShardId, nat>, s: State, parts: seq<Stretch>)
    requires GrowingRun(cfg, s, parts) && parts[|parts| - 1].index.Acyclic(height)
    requires var t := GrownState(cfg, s, parts); t.closed == [] || Quiet(parts[|parts| - 1].index, t)
    ensures GrownState(cfg, s, parts).live == Front(parts[|parts| - 1].index, ShutOf(GrownState(cfg, s, parts)))
  {
    var loc, visited := GrowingFollowed(cfg, s, parts);
    var index := parts[|parts| - 1].index;
    var t := GrownState(cfg, s, parts);
    hide GrowingRun, GrownState, Sound;
    FollowedFront(index, height, t, visited);
  }

  lemma FollowedFront(index: Index, height: map<ShardId, nat>, t: State, visited: set<ShardId>)
    requires index.Complete() && index.Acyclic(height) && Followed(index, t, visited)
      && (t.closed == [] || Quiet(index, t))
    ensures t.live == Front(index, ShutOf(t))
  {
    if t.closed == [] { DrainedQuiet(index, t, visited); }
    QuietView(index, t);
    hide ViewOf, Quiet;
    LiveIsFront(index, ViewOf(t), visited, height);
    LiveView(t);
    ShutView(t);
  }

  // ---------- Growth by discovery ----------

  /** What splits and merges add to a listing: each new shard names parents that are known or listed, none of them with
      children so far, and no shard listed anew is a parent of a known one. */
  ghost predicate Additions(index: Index, listing: seq<Shard>) {
    && (forall i :: 0 <= i < |listing| && listing[i].id !in index.shards ==> Added(index, listing, listing[i]))
    && (forall c, p :: c in index.shards && index.shards[c].Names(p) && Listed(listing, p) ==> p in index.shards)
  }

  ghost predicate Added(index: Index, listing: seq<Shard>, ks: Shard) {
    && ks.parent.Some? && Known(index, listing, ks.parent.value)
    && (ks.adjacent.Some? ==> Known(index, listing, ks.adjacent.value))
    && forall p :: p in index.shards && ks.Names(p) ==> p in index.children && index.children[p] == {}
  }

  ghost predicate Known(index: Index, listing: seq<Shard>, p: ShardId) {
    p in index.shards || Listed(listing, p)
  }

  lemma NewRecord(index: Index, listing: seq<Shard>, c: ShardId)
    requires Justified(index) && Consistent(index, listing) && Additions(index, listing)
    requires c in Twice(index, listing).shards && c !in index.shards
    ensures Added(index, listing, Twice(index, listing).shards[c]) && Twice(index, listing).shards[c].id == c
  {
    TwiceRecords(index, listing, c);
    PassRecords(index, listing, c);
    var i :| 0 <= i < |listing| && listing[i].id == c;
    hide Discovered, Consistent, Justified;
    assert listing[i].id !in index.shards;
  }

  lemma OldRecord(index: Index, listing: seq<Shard>, c: ShardId)
    requires Justified(index) && Consistent(index, listing) && c in index.shards
    ensures c in Twice(index, listing).shards && Twice(index, listing).shards[c] == index.shards[c]
  {
    TwiceRecords(index, listing, c);
    PassRecords(index, listing, c);
  }

  lemma AfterKeys(index: Index, listing: seq<Shard>)
    requires Justified(index) && Consistent(index, listing)
    ensures Twice(index, listing).children.Keys == Twice(index, listing).shards.Keys
    ensures forall p :: p in Twice(index, listing).shards <==> Known(index, listing, p)
  {
    PassJustified(index, listing);
    TwiceRecords(index, listing, "");
    PassJustified(Discovered(index, listing), listing);
    forall p ensures p in Twice(index, listing).shards <==> Known(index, listing, p) {
      TwiceRecords(index, listing, p);
    }
  }

  /** Two passes over a listing that only adds children to childless shards make a complete index grow, and leave it
      complete. */
  lemma DiscoveryGrows(index: Index, listing: seq<Shard>)
    requires index.Complete() && Consistent(index, listing) && Additions(index, listing)
    ensures Grows(index, Twice(index, listing)) && Twice(index, listing).Complete()
  {
    hide Twice, Discovered, Consistent, Justified, Additions, Added, Known, Grows, Index.Complete, Index.IsRoot,
         Index.IsParent;
    CompleteJustified(index);
    var after := Twice(index, listing);
    AfterKeys(index, listing);
    forall c | c in index.shards ensures c in after.shards && after.shards[c] == index.shards[c] {
      OldRecord(index, listing, c);
    }
    forall c | c in after.shards && c !in index.shards
      ensures Added(index, listing, after.shards[c]) && after.shards[c].id == c {
      NewRecord(index, listing, c);
    }
    forall p, c | p in after.shards ensures c in after.children[p] <==> after.IsParent(p, c) {
      EdgeExact(index, listing, p, c);
    }
    GrownShape(index, after, listing);
  }

  lemma CompleteJustified(index: Index)
    requires index.Complete()
    ensures Justified(index)
  {
  }

  lemma EdgeExact(index: Index, listing: seq<Shard>, p: ShardId, c: ShardId)
    requires index.Complete() && Consistent(index, listing) && Additions(index, listing)
      && p in Twice(index, listing).shards
    ensures p in Twice(index, listing).children
    ensures c in Twice(index, listing).children[p] <==> Twice(index, listing).IsParent(p, c)
  {
    hide Twice, Discovered, Consistent, Index.Complete;
    CompleteJustified(index);
    AfterKeys(index, listing);
    TwoPasses(index, listing, p, c);
    AfterJustified(index, listing);
    TwiceRecords(index, listing, c);
    if c in index.shards { OldRecord(index, listing, c); }
    EdgeCases(index, listing, Twice(index, listing), p, c);
  }

  lemma AfterJustified(index: Index, listing: seq<Shard>)
    requires Justified(index) && Consistent(index, listing)
    ensures Justified(Twice(index, listing))
  {
    hide Justified, Discovered;
    PassJustified(index, listing);
    TwiceRecords(index, listing, "");
    PassJustified(Discovered(index, listing), listing);
  }

  /** An unlisted child was linked to its known parents before. */
  lemma EdgeCases(index: Index, listing: seq<Shard>, after: Index, p: ShardId, c: ShardId)
    requires index.Complete() && Justified(after) && Additions(index, listing) && p in after.shards
    requires p in after.shards <==> Known(index, listing, p)
    requires c in after.shards <==> c in index.shards || Listed(listing, c)
    requires Edge(after, p, c) <==> Edge(index, p, c) || (Listed(listing, c) && after.IsParent(p, c))
    requires c in index.shards ==> c in after.shards && after.shards[c] == index.shards[c]
    ensures p in after.children && (c in after.children[p] <==> after.IsParent(p, c))
  {
    assert Edge(after, p, c) ==> after.IsParent(p, c);
    if !Listed(listing, c) && after.IsParent(p, c) {
      assert index.shards[c].Names(p);
      assert index.IsParent(p, c);
      assert c in index.children[p] <==> index.IsParent(p, c);
    }
  }

  /** What DiscoveryGrows has found out about the index after the passes. */
  ghost predicate RightIndex(index: Index, listing: seq<Shard>, after: Index) {
    && after.children.Keys == after.shards.Keys
    && (forall p :: p in after.shards <==> Known(index, listing, p))
    && (forall c :: c in index.shards ==> c in after.shards && after.shards[c] == index.shards[c])
    && (forall c :: c in after.shards && c !in index.shards ==>
        Added(index, listing, after.shards[c]) && after.shards[c].id == c)
    && (forall p, c :: p in after.shards ==> (c in after.children[p] <==> after.IsParent(p, c)))
  }

  lemma SameRoots(index: Index, after: Index, listing: seq<Shard>)
    requires Additions(index, listing) && RightIndex(index, listing, after)
    ensures forall c :: c in index.shards ==> c in after.shards && after.IsRoot(c) == index.IsRoot(c)
    ensures forall c :: c in after.shards && c !in index.shards ==> !after.IsRoot(c)
  {
    forall c | c in index.shards ensures after.IsRoot(c) == index.IsRoot(c) {
      if index.shards[c].parent.Some? { assert index.shards[c].Names(index.shards[c].parent.value); }
    }
  }

  lemma SameChildren(index: Index, after: Index, listing: seq<Shard>, p: ShardId)
    requires index.Complete() && Additions(index, listing) && RightIndex(index, listing, after)
    requires p in index.shards && index.children[p] != {}
    ensures after.children[p] == index.children[p]
  {
    forall c ensures c in after.children[p] <==> c in index.children[p] {
      assert c in after.children[p] <==> after.IsParent(p, c);
      assert c in index.children[p] <==> index.IsParent(p, c);
      if c in after.shards && c !in index.shards {
        assert Added(index, listing, after.shards[c]);
      }
    }
  }

  lemma StillComplete(index: Index, after: Index, listing: seq<Shard>)
    requires index.Complete() && RightIndex(index, listing, after)
    requires forall c :: c in index.shards ==> c in after.shards && after.IsRoot(c) == index.IsRoot(c)
    ensures after.Complete()
  {
    hide Listed;
    forall c | c in after.shards
      ensures after.shards[c].id == c && (after.shards[c].adjacent.Some? ==> after.shards[c].parent.Some?)
      ensures !after.IsRoot(c) && after.shards[c].adjacent.Some? ==> after.shards[c].adjacent.value in after.shards {
      if c in index.shards {
        assert after.shards[c] == index.shards[c];
      } else {
        assert Added(index, listing, after.shards[c]);
      }
    }
  }

  lemma GrownShape(index: Index, after: Index, listing: seq<Shard>)
    requires index.Complete() && Additions(index, listing) && RightIndex(index, listing, after)
    ensures Grows(index, after) && after.Complete()
  {
    hide Index.Complete, Index.IsRoot, Index.IsParent, Additions, Known, Added, Listed;
    SameRoots(index, after, listing);
    StillComplete(index, after, listing);
    forall p | p in index.shards && p in index.children && index.children[p] != {}
      ensures after.children[p] == index.children[p] {
      SameChildren(index, after, listing, p);
    }
  }
}
