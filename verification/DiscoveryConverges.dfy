/** When the discovery index is complete: after two passes in any order, after one when parents come first. */
module DiscoveryConverges {
  import opened Finite
  import opened Lineage
  import opened Discovery

  ghost predicate Edge(index: Index, p: ShardId, c: ShardId) {
    p in index.children && c in index.children[p]
  }

  ghost predicate Listed(listing: seq<Shard>, p: ShardId) {
    exists m :: 0 <= m < |listing| && listing[m].id == p
  }

  /** The record at k names p, and p is known by the time it is reached. */
  ghost predicate Links(index: Index, listing: seq<Shard>, k: nat, p: ShardId, c: ShardId)
    requires k < |listing|
  {
    listing[k].id == c && listing[k].Names(p) && (p in index.shards || Listed(listing[..k + 1], p))
  }

  ghost predicate Linking(index: Index, listing: seq<Shard>, p: ShardId, c: ShardId) {
    exists k :: 0 <= k < |listing| && Links(index, listing, k, p, c)
  }

  lemma RecordedEdge(index: Index, ks: Shard, p: ShardId, c: ShardId)
    requires index.shards.Keys == index.children.Keys
    ensures Recorded(index, ks).shards.Keys == Recorded(index, ks).children.Keys == index.shards.Keys + {ks.id}
    ensures Edge(Recorded(index, ks), p, c) <==>
      Edge(index, p, c) || (ks.id == c && ks.Names(p) && (p in index.shards || p == ks.id))
  {
  }

  lemma PrefixListed(listing: seq<Shard>, p: ShardId)
    requires listing != []
    ensures Listed(listing, p) <==> Listed(listing[..|listing| - 1], p) || listing[|listing| - 1].id == p
  {
    var front := listing[..|listing| - 1];
    if Listed(front, p) {
      var m :| 0 <= m < |front| && front[m].id == p;
      assert listing[m].id == p;
    }
    if Listed(listing, p) && listing[|listing| - 1].id != p {
      var m :| 0 <= m < |listing| && listing[m].id == p;
      assert front[m].id == p;
    }
  }

  lemma PrefixLinks(index: Index, listing: seq<Shard>, k: nat, p: ShardId, c: ShardId)
    requires k < |listing| - 1
    ensures Links(index, listing[..|listing| - 1], k, p, c) <==> Links(index, listing, k, p, c)
  {
    hide Listed;
    assert listing[..|listing| - 1][..k + 1] == listing[..k + 1];
  }

  lemma PrefixLinking(index: Index, listing: seq<Shard>, p: ShardId, c: ShardId)
    requires listing != []
    ensures Linking(index, listing, p, c) <==>
      Linking(index, listing[..|listing| - 1], p, c) || Links(index, listing, |listing| - 1, p, c)
  {
    var front := listing[..|listing| - 1];
    forall k | 0 <= k < |front| ensures Links(index, front, k, p, c) <==> Links(index, listing, k, p, c) {
      PrefixLinks(index, listing, k, p, c);
    }
    hide Links;
    if Linking(index, front, p, c) {
      var k :| 0 <= k < |front| && Links(index, front, k, p, c);
      assert Links(index, listing, k, p, c);
    }
    if Linking(index, listing, p, c) && !Links(index, listing, |listing| - 1, p, c) {
      var k :| 0 <= k < |listing| && Links(index, listing, k, p, c);
      assert Links(index, front, k, p, c);
    }
  }

  /** Exactly the edges that one pass leaves: the earlier ones, and those whose parent was known before
      the pass or listed no later than the child. */
  lemma {:induction false} OnePass(index: Index, listing: seq<Shard>, p: ShardId, c: ShardId)
    requires index.shards.Keys == index.children.Keys
    ensures Discovered(index, listing).shards.Keys == Discovered(index, listing).children.Keys
    ensures p in Discovered(index, listing).shards <==> p in index.shards || Listed(listing, p)
    ensures Edge(Discovered(index, listing), p, c) <==> Edge(index, p, c) || Linking(index, listing, p, c)
    decreases |listing|
  {
    if listing != [] {
      var n := |listing| - 1;
      var front := listing[..n];
      OnePass(index, front, p, c);
      PrefixListed(listing, p);
      PrefixLinking(index, listing, p, c);
      RecordedEdge(Discovered(index, front), listing[n], p, c);
      assert listing[..n + 1] == listing;
      hide Recorded, Linking, Listed;
    }
  }

  /** The same id always comes with the same record, in the listing and in the index. */
  ghost predicate Consistent(index: Index, listing: seq<Shard>) {
    && (forall i :: 0 <= i < |listing| && listing[i].id in index.shards ==> listing[i] == index.shards[listing[i].id])
    && (forall i, j :: 0 <= i < |listing| && 0 <= j < |listing| && listing[i].id == listing[j].id ==>
        listing[i] == listing[j])
  }

  /** Children are known shards that name their parent. */
  ghost predicate Justified(index: Index) {
    && index.shards.Keys == index.children.Keys
    && (forall c :: c in index.shards ==> index.shards[c].id == c)
    && (forall p, c :: Edge(index, p, c) ==> index.IsParent(p, c))
  }

  /** ... and all of them: GetChildren of each known shard is exactly the shards naming it. */
  ghost predicate Exact(index: Index) {
    Justified(index) && forall p, c :: index.IsParent(p, c) ==> Edge(index, p, c)
  }

  lemma {:induction false} PassRecords(index: Index, listing: seq<Shard>, c: ShardId)
    requires Consistent(index, listing)
    ensures c in Discovered(index, listing).shards <==> c in index.shards || Listed(listing, c)
    ensures c in index.shards ==> Discovered(index, listing).shards[c] == index.shards[c]
    ensures forall i :: 0 <= i < |listing| && listing[i].id == c ==>
      c in Discovered(index, listing).shards && Discovered(index, listing).shards[c] == listing[i]
    decreases |listing|
  {
    if listing != [] {
      PassRecords(index, listing[..|listing| - 1], c);
      PrefixListed(listing, c);
      assert forall i :: 0 <= i < |listing| - 1 ==> listing[..|listing| - 1][i] == listing[i];
      assert listing[|listing| - 1] == listing[|listing| - 1];
    }
  }

  /** Whatever a listing says, a pass leaves the last record listed for a shard, and those of other shards as they
      were. */
  lemma {:induction false} LastRecordStays(index: Index, listing: seq<Shard>, c: ShardId)
    ensures !Listed(listing, c) ==>
      (c in Discovered(index, listing).shards <==> c in index.shards)
      && (c in index.shards ==> Discovered(index, listing).shards[c] == index.shards[c])
    ensures forall k :: 0 <= k < |listing| && listing[k].id == c && !Listed(listing[k + 1..], c) ==>
      c in Discovered(index, listing).shards && Discovered(index, listing).shards[c] == listing[k]
    decreases |listing|
  {
    if listing != [] {
      var front, last := listing[..|listing| - 1], listing[|listing| - 1];
      LastRecordStays(index, front, c);
      PrefixListed(listing, c);
      forall k | 0 <= k < |listing| && listing[k].id == c && !Listed(listing[k + 1..], c)
        ensures c in Discovered(index, listing).shards && Discovered(index, listing).shards[c] == listing[k] {
        if k < |front| {
          assert listing[k + 1..][|front| - k - 1] == last;
          assert front[k + 1..] == listing[k + 1..][..|front| - k - 1];
          PrefixListed(listing[k + 1..], c);
        }
      }
    }
  }

  lemma PassJustified(index: Index, listing: seq<Shard>)
    requires Justified(index) && Consistent(index, listing)
    ensures Justified(Discovered(index, listing))
  {
    var after := Discovered(index, listing);
    forall c | c in after.shards ensures after.shards[c].id == c {
      PassRecords(index, listing, c);
      OnePass(index, listing, c, c);
    }
    forall p, c | Edge(after, p, c) ensures after.IsParent(p, c) {
      OnePass(index, listing, p, c);
      PassRecords(index, listing, c);
      PassRecords(index, listing, p);
      if !Edge(index, p, c) {
        var k :| 0 <= k < |listing| && Links(index, listing, k, p, c);
      }
    }
    OnePass(index, listing, "", "");
  }

  ghost function Twice(index: Index, listing: seq<Shard>): Index {
    Discovered(Discovered(index, listing), listing)
  }

  lemma TwiceRecords(index: Index, listing: seq<Shard>, c: ShardId)
    requires Justified(index) && Consistent(index, listing)
    ensures Consistent(Discovered(index, listing), listing)
    ensures c in Twice(index, listing).shards <==> c in index.shards || Listed(listing, c)
    ensures Twice(index, listing).shards == Discovered(index, listing).shards
  {
    var once := Discovered(index, listing);
    forall i | 0 <= i < |listing| && listing[i].id in once.shards ensures listing[i] == once.shards[listing[i].id] {
      PassRecords(index, listing, listing[i].id);
    }
    PassRecords(index, listing, c);
    forall d ensures d in Twice(index, listing).shards <==> d in once.shards {
      PassRecords(index, listing, d);
      PassRecords(once, listing, d);
    }
    forall d | d in once.shards ensures Twice(index, listing).shards[d] == once.shards[d] {
      PassRecords(once, listing, d);
    }
  }

  /** The edges that two passes over the same listing leave, in whatever order it comes: the earlier ones,
      and for every listed shard those from all of its known parents. */
  lemma TwoPasses(index: Index, listing: seq<Shard>, p: ShardId, c: ShardId)
    requires Justified(index) && Consistent(index, listing)
    ensures var after := Twice(index, listing);
      Edge(after, p, c) <==> Edge(index, p, c) || (Listed(listing, c) && after.IsParent(p, c))
  {
    var once := Discovered(index, listing);
    var after := Twice(index, listing);
    PassJustified(index, listing);
    TwiceRecords(index, listing, c);
    PassJustified(once, listing);
    OnePass(index, listing, p, c);
    OnePass(once, listing, p, c);
    PassRecords(once, listing, c);
    if Listed(listing, c) && after.IsParent(p, c) {
      var k :| 0 <= k < |listing| && listing[k].id == c;
      assert Links(once, listing, k, p, c);
    }
    if Linking(index, listing, p, c) || Linking(once, listing, p, c) {
      assert Edge(after, p, c);
      if Linking(index, listing, p, c) {
        var k :| 0 <= k < |listing| && Links(index, listing, k, p, c);
        assert listing[k].id == c;
      } else {
        var k :| 0 <= k < |listing| && Links(once, listing, k, p, c);
        assert listing[k].id == c;
      }
    }
  }

  /** Two passes leave an exact index exactly when every child that is not listed was linked before. */
  lemma TwoPassesExact(index: Index, listing: seq<Shard>)
    requires Justified(index) && Consistent(index, listing)
    ensures var after := Twice(index, listing);
      Exact(after) <==> forall p, c :: after.IsParent(p, c) ==> Edge(index, p, c) || Listed(listing, c)
  {
    var after := Twice(index, listing);
    PassJustified(index, listing);
    TwiceRecords(index, listing, "");
    PassJustified(Discovered(index, listing), listing);
    forall p, c ensures Edge(after, p, c) <==> Edge(index, p, c) || (Listed(listing, c) && after.IsParent(p, c)) {
      TwoPasses(index, listing, p, c);
    }
  }

  function Empty(): Index {
    Index(map[], map[])
  }

  /** A new service is exact after two passes over the same listing, in any order. */
  lemma FirstTwoPasses(listing: seq<Shard>)
    requires Consistent(Empty(), listing)
    ensures Exact(Twice(Empty(), listing))
  {
    TwoPassesExact(Empty(), listing);
    var after := Twice(Empty(), listing);
    forall p, c | after.IsParent(p, c) ensures Listed(listing, c) {
      TwiceRecords(Empty(), listing, c);
    }
  }

  /** It is exact after one pass exactly when each listed child comes, somewhere, after each listed parent. */
  lemma FirstPassExact(listing: seq<Shard>)
    requires Consistent(Empty(), listing)
    ensures var once := Discovered(Empty(), listing);
      Exact(once) <==> forall p, c :: once.IsParent(p, c) ==> Linking(Empty(), listing, p, c)
  {
    var once := Discovered(Empty(), listing);
    PassJustified(Empty(), listing);
    forall p, c ensures Edge(once, p, c) <==> Linking(Empty(), listing, p, c) {
      OnePass(Empty(), listing, p, c);
    }
  }

  // ---------- Reachability ----------

  /** path leads from a root to c through GetChildren. */
  ghost predicate LeadsDown(index: Index, path: seq<ShardId>, c: ShardId) {
    && path != [] && path[|path| - 1] == c
    && path[0] in index.shards && index.IsRoot(path[0])
    && forall i :: 0 <= i < |path| - 1 ==> Edge(index, path[i], path[i + 1])
  }

  /** On an acyclic lineage with an exact index, every known shard is reachable from GetRoots. */
  lemma {:induction false} Reachable(index: Index, height: map<ShardId, nat>, c: ShardId) returns (path: seq<ShardId>)
    requires Exact(index) && index.Acyclic(height) && c in index.shards
    ensures LeadsDown(index, path, c)
    decreases Sum(map d | d in height :: height[d]) - height[c]
  {
    if index.IsRoot(c) {
      path := [c];
    } else {
      var p := index.shards[c].parent.value;
      assert index.IsParent(p, c);
      HeightBound(height, p);
      path := Reachable(index, height, p);
      assert Edge(index, p, c);
      path := path + [c];
    }
  }
}
