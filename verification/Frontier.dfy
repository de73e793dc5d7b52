/** The incrementally kept live set is the frontier of the lineage: the close worklist misses nothing. */
module Frontier {
  import opened Finite
  import opened Lineage
  import opened WorkerRecord
  import opened ManagerModel
  import opened Conservation
  import opened ManagerRuns

  // ---------- The worklist, seen as sets of shards ----------

  function NamedParents(index: Index, c: ShardId): set<ShardId>
    requires c in index.shards
  {
    var r := index.shards[c];
    (if r.parent.Some? then {r.parent.value} else {}) + (if r.adjacent.Some? then {r.adjacent.value} else {})
  }

  predicate Ready(index: Index, shut: set<ShardId>, c: ShardId)
    requires c in index.shards
  {
    index.shards[c].parent.Some? && NamedParents(index, c) <= shut
  }

  /** shut: the CLOSED shards; live: the live set; pending: shards with a close notification waiting;
      closing: those whose notification still names a worker; visited: shards that are roots or have been
      reached through a notification of a parent. */
  datatype View = View(shut: set<ShardId>, live: set<ShardId>, pending: set<ShardId>, closing: set<ShardId>)

  ghost predicate VisitedOk(index: Index, v: View, visited: set<ShardId>) {
    && visited <= index.shards.Keys && v.shut <= index.shards.Keys
    && v.live <= visited && v.pending <= visited
    && (forall c :: c in index.shards && index.IsRoot(c) ==> c in visited)
    && (forall c :: c in visited && !index.IsRoot(c) ==> Ready(index, v.shut, c))
  }

  ghost predicate LiveOk(v: View, visited: set<ShardId>) {
    visited - v.shut <= v.live && v.live * v.shut <= v.closing && v.closing <= v.shut && v.closing <= v.pending
  }

  /** A CLOSED shard is a root or has CLOSED parents. */
  ghost predicate ShutOk(index: Index, shut: set<ShardId>) {
    forall c :: c in shut && c in index.shards && !index.IsRoot(c) ==> Ready(index, shut, c)
  }

  /** A shard whose parents have all been visited and closed is visited, or will be: a parent is pending. */
  ghost predicate ReachOk(index: Index, v: View, visited: set<ShardId>) {
    && (forall c :: (c in index.shards && !index.IsRoot(c) && Ready(index, v.shut, c)
                     && NamedParents(index, c) <= visited) ==>
          c in visited || NamedParents(index, c) * v.pending != {})
    && (forall c :: c in visited && c in v.shut && c in index.children && index.children[c] == {} ==> c in v.pending)
  }

  ghost predicate Tracked(index: Index, v: View, visited: set<ShardId>) {
    VisitedOk(index, v, visited) && LiveOk(v, visited) && ShutOk(index, v.shut) && ReachOk(index, v, visited)
  }

  /** The non-CLOSED shards that are roots or have all named parents CLOSED, from scratch. */
  ghost function Front(index: Index, shut: set<ShardId>): set<ShardId> {
    set c | c in index.shards && c !in shut && (index.IsRoot(c) || Ready(index, shut, c))
  }

  /** With nothing pending but childless shards, every shard with closed parents has been visited. */
  lemma {:induction false} AllVisited(index: Index, v: View, visited: set<ShardId>, height: map<ShardId, nat>,
                                      c: ShardId)
    requires index.Complete() && index.Acyclic(height) && Tracked(index, v, visited)
    requires forall p :: p in v.pending ==> p in index.children && index.children[p] == {}
    requires c in index.shards && (index.IsRoot(c) || Ready(index, v.shut, c))
    ensures c in visited
    decreases Sum(map d | d in height :: height[d]) - height[c]
  {
    if !index.IsRoot(c) {
      forall p | p in NamedParents(index, c) ensures p in visited && p !in v.pending {
        assert p in index.shards && index.IsParent(p, c);
        HeightBound(height, p);
        AllVisited(index, v, visited, height, p);
        assert c in index.children[p];
      }
    }
  }

  /** When the worklist has run dry, the live set is the frontier. */
  lemma LiveIsFront(index: Index, v: View, visited: set<ShardId>, height: map<ShardId, nat>)
    requires index.Complete() && index.Acyclic(height) && Tracked(index, v, visited)
    requires forall p :: p in v.pending ==> p in index.children && index.children[p] == {}
    requires v.closing == {}
    ensures v.live == Front(index, v.shut)
  {
    hide ReachOk, ShutOk, Index.Complete, Index.Acyclic, NamedParents;
    forall c | c in index.shards && c !in v.shut && (index.IsRoot(c) || Ready(index, v.shut, c)) ensures c in v.live {
      AllVisited(index, v, visited, height, c);
    }
    forall c | c in v.live ensures c in Front(index, v.shut) {
      assert c in visited && c !in v.live * v.shut;
    }
  }

  /** One notification, for shard p, is taken off and its children are visited. */
  ghost predicate Settles(index: Index, v: View, u: View, p: ShardId, own: bool) {
    var kids := ReadyKids(index, v, p);
    && u.shut == v.shut
    && u.live == (if own then v.live - {p} else v.live) + (kids - v.shut)
    && (if own then v.closing - {p} <= u.closing <= v.closing else u.closing == v.closing)
    && (v.pending - {p}) + kids * v.shut <= u.pending <= v.pending + kids
    && ((p in index.children && index.children[p] == {}) || p in u.closing ==> p in u.pending)
  }

  ghost function ReadyKids(index: Index, v: View, p: ShardId): set<ShardId> {
    if p in index.children then set c | c in index.children[p] && c in index.shards && Ready(index, v.shut, c) else {}
  }

  lemma ChildOf(index: Index, p: ShardId, c: ShardId)
    requires index.Complete() && p in index.shards && c in index.shards
    ensures p in index.children && (p in NamedParents(index, c) ==> c in index.children[p])
  {
    assert c in index.children[p] <==> index.IsParent(p, c);
  }

  /** A shard whose closed parents have been visited by now, if not itself visited, has a pending parent. */
  lemma SettledReachOne(index: Index, v: View, u: View, visited: set<ShardId>, p: ShardId, own: bool, c: ShardId)
    requires index.Complete() && VisitedOk(index, v, visited) && ReachOk(index, v, visited) && p in v.pending
    requires Settles(index, v, u, p, own)
    requires c in index.shards && !index.IsRoot(c) && Ready(index, u.shut, c) && c !in visited + ReadyKids(index, v, p)
    requires NamedParents(index, c) <= visited + ReadyKids(index, v, p)
    ensures NamedParents(index, c) * u.pending != {}
  {
    ChildOf(index, p, c);
    hide Index.Complete, VisitedOk;
    if NamedParents(index, c) <= visited {
      var q :| q in NamedParents(index, c) * v.pending;
      assert q in u.pending;
    } else {
      var q :| q in NamedParents(index, c) && q !in visited;
      assert q in ReadyKids(index, v, p) * v.shut;
    }
  }

  lemma SettledReach(index: Index, v: View, u: View, visited: set<ShardId>, p: ShardId, own: bool)
    requires index.Complete() && Tracked(index, v, visited) && p in v.pending && Settles(index, v, u, p, own)
    ensures ReachOk(index, u, visited + ReadyKids(index, v, p))
  {
    var more := visited + ReadyKids(index, v, p);
    forall c | c in index.shards && !index.IsRoot(c) && Ready(index, u.shut, c) && NamedParents(index, c) <= more
      ensures c in more || NamedParents(index, c) * u.pending != {} {
      if c !in more { SettledReachOne(index, v, u, visited, p, own, c); }
    }
    hide LiveOk, ShutOk, Ready, NamedParents;
    forall c | c in more && c in u.shut && c in index.children && index.children[c] == {} ensures c in u.pending {
    }
  }

  lemma SettledVisited(index: Index, v: View, u: View, visited: set<ShardId>, p: ShardId, own: bool)
    requires index.Complete() && VisitedOk(index, v, visited) && p in v.pending && Settles(index, v, u, p, own)
    ensures VisitedOk(index, u, visited + ReadyKids(index, v, p))
  {
    assert forall c :: c in ReadyKids(index, v, p) ==> index.IsParent(p, c) && Ready(index, v.shut, c);
    hide Ready;
  }

  lemma SettledLive(index: Index, v: View, u: View, visited: set<ShardId>, p: ShardId, own: bool)
    requires index.Complete() && VisitedOk(index, v, visited) && LiveOk(v, visited) && Settles(index, v, u, p, own)
    requires own ==> p in v.closing
    ensures LiveOk(u, visited + ReadyKids(index, v, p))
  {
    hide Ready;
  }

  lemma SettledTracked(index: Index, v: View, u: View, visited: set<ShardId>, p: ShardId, own: bool)
    requires index.Complete() && Tracked(index, v, visited) && p in v.pending
    requires own ==> p in v.closing
    requires Settles(index, v, u, p, own)
    ensures Tracked(index, u, visited + ReadyKids(index, v, p))
  {
    SettledReach(index, v, u, visited, p, own);
    SettledVisited(index, v, u, visited, p, own);
    SettledLive(index, v, u, visited, p, own);
    hide ReachOk, VisitedOk, LiveOk, Ready, ReadyKids, Index.Complete;
  }

  /** A held shard has been recorded CLOSED, and its notification queued. */
  lemma ClosedTracked(index: Index, v: View, visited: set<ShardId>, p: ShardId)
    requires index.Complete() && Tracked(index, v, visited) && p in v.live
    ensures Tracked(index, v.(shut := v.shut + {p}, pending := v.pending + {p}, closing := v.closing + {p}), visited)
  {
    var u := v.(shut := v.shut + {p}, pending := v.pending + {p}, closing := v.closing + {p});
    forall c | c in index.shards && !index.IsRoot(c) && Ready(index, u.shut, c) && NamedParents(index, c) <= visited
      ensures c in visited || NamedParents(index, c) * u.pending != {} {
      if p in NamedParents(index, c) {
        assert p in NamedParents(index, c) * u.pending;
      } else if c !in visited {
        var q :| q in NamedParents(index, c) * v.pending;
        assert q in NamedParents(index, c) * u.pending;
      }
    }
  }

  /** A takeover from checkpoints in which a CLOSED shard's parents are CLOSED. */
  lemma TakenOver(index: Index, shut: set<ShardId>)
    requires index.Complete() && shut <= index.shards.Keys && ShutOk(index, shut)
    ensures var roots := set c | c in index.shards && index.IsRoot(c);
      Tracked(index, View(shut, roots - shut, roots * shut, {}), roots)
  {
    var roots := set c | c in index.shards && index.IsRoot(c);
    forall c | c in index.shards && !index.IsRoot(c) && Ready(index, shut, c) && NamedParents(index, c) <= roots
      ensures NamedParents(index, c) * (roots * shut) != {} {
      assert index.shards[c].parent.value in NamedParents(index, c) * (roots * shut);
    }
  }

  /** New shards may appear as whole families: children of shards that had none. */
  ghost predicate Grows(index: Index, grown: Index) {
    && index.shards.Keys <= grown.shards.Keys
    && (forall c :: c in index.shards ==> grown.shards[c] == index.shards[c] && grown.IsRoot(c) == index.IsRoot(c))
    && (forall c :: c in grown.shards && c !in index.shards ==> !grown.IsRoot(c))
    && (forall p :: p in index.shards && p in index.children && p in grown.children && index.children[p] != {} ==>
          grown.children[p] == index.children[p])
  }

  lemma GrownTracked(index: Index, grown: Index, v: View, visited: set<ShardId>)
    requires index.Complete() && grown.Complete() && Grows(index, grown) && Tracked(index, v, visited)
    ensures Tracked(grown, v, visited)
  {
    forall c | c in index.shards ensures NamedParents(grown, c) == NamedParents(index, c) {}
    forall c | c in grown.shards && !grown.IsRoot(c) && Ready(grown, v.shut, c) && NamedParents(grown, c) <= visited
      ensures c in visited || NamedParents(grown, c) * v.pending != {} {
      if c !in index.shards {
        var p := grown.shards[c].parent.value;
        assert p in NamedParents(grown, c) && p in index.shards;
        assert c in grown.children[p] && c !in index.children[p];
        assert p in NamedParents(grown, c) * v.pending;
      }
    }
    forall c | c in visited && c in v.shut && c in grown.children && grown.children[c] == {} ensures c in v.pending {
      assert c in index.children;
      assert forall d :: d in index.children[c] ==> index.IsParent(c, d) && grown.IsParent(c, d);
    }
  }

  // ---------- The manager's moves, seen on those sets ----------

  ghost function ShutOf(s: State): set<ShardId> {
    set c | c in s.checkpoints && s.checkpoints[c] == Closed
  }

  ghost function ShardsIn(notes: seq<Note>): set<ShardId> {
    set n | n in notes :: n.shard
  }

  ghost function OwnedIn(notes: seq<Note>): set<ShardId> {
    set n | n in notes && n.worker.Some? :: n.shard
  }

  ghost function ViewOf(s: State): View {
    View(ShutOf(s), s.live, ShardsIn(s.closed) + ShardsIn(s.deferred), OwnedIn(s.closed))
  }

  ghost predicate Childless(index: Index, notes: seq<Note>) {
    forall n :: n in notes ==> n.shard in index.children && index.children[n.shard] == {}
  }

  lemma NotesAppend(notes: seq<Note>, n: Note)
    ensures ShardsIn(notes + [n]) == ShardsIn(notes) + {n.shard}
    ensures OwnedIn(notes + [n]) == OwnedIn(notes) + if n.worker.Some? then {n.shard} else {}
  {
    forall x ensures x in ShardsIn(notes + [n]) <==> x in ShardsIn(notes) + {n.shard} {
      if x in ShardsIn(notes) {
        var m :| m in notes && m.shard == x;
        assert m in notes + [n];
      }
      if x == n.shard { assert n in notes + [n]; }
    }
    forall x ensures x in OwnedIn(notes + [n]) <==> x in OwnedIn(notes) || (n.worker.Some? && x == n.shard) {
      if x in OwnedIn(notes) {
        var m :| m in notes && m.worker.Some? && m.shard == x;
        assert m in notes + [n];
      }
      if n.worker.Some? && x == n.shard { assert n in notes + [n]; }
    }
  }

  lemma ReadyEligible(s: State, index: Index, c: ShardId)
    requires c in index.shards
    ensures Eligible(s, index, c) <==> Ready(index, ShutOf(s), c)
  {
  }

  /** What visiting kids has done: the ready ones that are not CLOSED are live, the CLOSED ones pending. */
  ghost predicate VisitEffect(index: Index, s: State, t: State, kids: set<ShardId>) {
    && kids <= index.shards.Keys
    && ShutOf(t) == ShutOf(s) && t.deferred == s.deferred
    && var ready := set c | c in kids && Ready(index, ShutOf(s), c);
      && t.live == s.live + (ready - ShutOf(s))
      && OwnedIn(t.closed) == OwnedIn(s.closed)
      && ShardsIn(s.closed) + ready * ShutOf(s) <= ShardsIn(t.closed) <= ShardsIn(s.closed) + ready
  }

  lemma ReadyOne(index: Index, shut: set<ShardId>, c: ShardId)
    requires c in index.shards
    ensures (set d | d in {c} && Ready(index, shut, d)) == if Ready(index, shut, c) then {c} else {}
  {
  }

  lemma VisitShut(s: State, index: Index, c: ShardId)
    requires c in index.shards
    ensures ShutOf(Visit(s, index, c)) == ShutOf(s)
  {
    hide Eligible;
  }

  lemma VisitCases(index: Index, s: State, c: ShardId)
    requires c in index.shards
    ensures var t := Visit(s, index, c);
      && t.deferred == s.deferred
      && if Eligible(s, index, c) && !s.IsClosed(c) && c !in s.live then t.live == s.live + {c} && t.closed == s.closed
         else t.live == s.live && t.closed == if Eligible(s, index, c) then s.closed + [Note(c, None)] else s.closed
  {
    hide Eligible;
  }

  lemma VisitOne(index: Index, s: State, c: ShardId)
    requires c in index.shards
    ensures VisitEffect(index, s, Visit(s, index, c), {c})
  {
    hide Ready, Eligible, ShutOf, ShardsIn, OwnedIn, Visit;
    VisitShut(s, index, c);
    VisitCases(index, s, c);
    ReadyEligible(s, index, c);
    ReadyOne(index, ShutOf(s), c);
    NotesAppend(s.closed, Note(c, None));
    ShutClosed(s, c);
  }

  lemma ShutClosed(s: State, c: ShardId)
    ensures s.IsClosed(c) <==> c in ShutOf(s)
  {
  }

  lemma VisitJoin(index: Index, s: State, t: State, u: State, kids: set<ShardId>, c: ShardId)
    requires VisitEffect(index, s, t, kids) && VisitEffect(index, t, u, {c})
    ensures VisitEffect(index, s, u, kids + {c})
  {
    hide Ready;
    var all := set d | d in kids + {c} && Ready(index, ShutOf(s), d);
    assert all == (set d | d in kids && Ready(index, ShutOf(s), d)) + (set d | d in {c} && Ready(index, ShutOf(s), d));
  }

  lemma VisitNone(index: Index, s: State)
    ensures VisitEffect(index, s, s, {})
  {
  }

  lemma {:induction false} VisitAllEffect(index: Index, s: State, kids: seq<ShardId>)
    requires forall c :: c in kids ==> c in index.shards
    ensures VisitEffect(index, s, VisitAll(s, index, kids), Elements(kids))
    decreases |kids|
  {
    hide VisitEffect, Visit;
    if kids == [] {
      VisitNone(index, s);
      assert Elements(kids) == {};
    } else {
      var front := kids[..|kids| - 1];
      var c := kids[|kids| - 1];
      VisitAllEffect(index, s, front);
      VisitOne(index, VisitAll(s, index, front), c);
      VisitJoin(index, s, VisitAll(s, index, front), VisitAll(s, index, kids), Elements(front), c);
      assert Elements(kids) == Elements(front) + {c} by { assert kids == front + [c]; }
    }
  }

  lemma HeadRemoved(notes: seq<Note>)
    requires notes != []
    ensures ShardsIn(notes) - {notes[0].shard} <= ShardsIn(notes[1..]) <= ShardsIn(notes)
    ensures OwnedIn(notes) - {notes[0].shard} <= OwnedIn(notes[1..]) <= OwnedIn(notes)
    ensures notes[0].worker.None? ==> OwnedIn(notes[1..]) == OwnedIn(notes)
    ensures OwnedIn(notes[1..]) <= ShardsIn(notes[1..])
  {
    assert notes == [notes[0]] + notes[1..];
  }

  /** A shard with a notification that names its worker has no second one. */
  lemma SettleView(index: Index, s: State, kids: seq<ShardId>)
    requires s.closed != [] && (s.closed[0].worker.Some? ==> s.closed[0].worker.value in s.info)
    requires Elements(kids) <= index.shards.Keys
    ensures var n := s.closed[0];
      var v := ViewOf(s);
      var u := ViewOf(AfterSettle(s, index, kids));
      var ready := set c | c in Elements(kids) && Ready(index, v.shut, c);
      && u.shut == v.shut
      && u.live == (if n.worker.Some? then v.live - {n.shard} else v.live) + (ready - v.shut)
      && (if n.worker.Some? then v.closing - {n.shard} <= u.closing <= v.closing else u.closing == v.closing)
      && (v.pending - {n.shard}) + ready * v.shut <= u.pending <= v.pending + ready
      && (kids == [] || n.shard in u.closing ==> n.shard in u.pending)
  {
    var n := s.closed[0];
    var t := Detach(s.(closed := s.closed[1..]), n);
    HeadRemoved(s.closed);
    VisitAllEffect(index, t, kids);
    NotesAppend(t.deferred, n.(worker := None));
    assert n in s.closed;
    hide Ready, VisitAll, ShardsIn, OwnedIn;
  }

  // ---------- Runs ----------

  /** Hypothesis G3: a CLOSED checkpoint is never overwritten by another value. */
  ghost predicate ClosedKept(s: State, a: Action) {
    a.Checkpoint? && s.IsClosed(a.shard) ==> a.mark == Closed
  }

  /** The checkpoints taken over record no shard CLOSED before its parents. */
  ghost predicate StoredInOrder(index: Index, stored: map<ShardId, Mark>) {
    ShutOk(index, set c | c in index.shards && StoredMark(stored, c) == Closed)
  }

  /** The hypotheses on a move under a fixed lineage. */
  ghost predicate Faithful(index: Index, s: State, a: Action) {
    && Orderly(s, a) && ClosedKept(s, a)
    && (a.Settle? ==> a.index == index)
    && (a.Takeover? ==> a.index == index && StoredInOrder(index, a.stored))
    && (a.Checkpoint? ==> a.mark != Unset)
    && (a.Takeover? ==> forall c :: c in a.stored ==> a.stored[c] != Unset)
  }

  ghost predicate Followed(index: Index, s: State, visited: set<ShardId>) {
    Tracked(index, ViewOf(s), visited) && Childless(index, s.deferred)
  }

  /** ... even if two notifications name the same shard. */
  lemma SettleFollowed(index: Index, s: State, visited: set<ShardId>, kids: seq<ShardId>)
    requires index.Complete() && Followed(index, s, visited)
    requires s.closed != [] && (s.closed[0].worker.Some? ==> s.closed[0].worker.value in s.info)
    requires s.closed[0].shard in index.children && Lists(kids, index.children[s.closed[0].shard])
    requires forall c :: c in kids ==> c in index.shards
    ensures Followed(index, AfterSettle(s, index, kids),
                     visited + set c | c in index.children[s.closed[0].shard] && Ready(index, ShutOf(s), c))
  {
    hide Ready, Tracked, AfterSettle, ViewOf, Index.Complete;
    var n := s.closed[0];
    SettleView(index, s, kids);
    SettleDeferred(index, s, kids);
    HeadPending(s);
    assert Elements(kids) == index.children[n.shard];
    assert forall c :: c in index.children[n.shard] ==> c in index.shards;
    ShutView(s);
    assert ReadyKids(index, ViewOf(s), n.shard) == set c | c in index.children[n.shard] && Ready(index, ShutOf(s), c);
    EmptyList(kids);
    SettledTracked(index, ViewOf(s), ViewOf(AfterSettle(s, index, kids)), visited, n.shard, n.worker.Some?);
  }

  lemma EmptyList(kids: seq<ShardId>)
    ensures kids == [] <==> Elements(kids) == {}
  {
    if kids != [] { assert kids[0] in Elements(kids); }
  }

  lemma HeadPending(s: State)
    requires s.closed != []
    ensures s.closed[0].shard in ViewOf(s).pending
    ensures s.closed[0].worker.Some? ==> s.closed[0].shard in ViewOf(s).closing
    ensures ViewOf(s).shut == ShutOf(s)
  {
    assert s.closed[0] in s.closed;
  }

  lemma SettleDeferred(index: Index, s: State, kids: seq<ShardId>)
    requires Childless(index, s.deferred)
    requires s.closed != [] && (s.closed[0].worker.Some? ==> s.closed[0].worker.value in s.info)
    requires s.closed[0].shard in index.children && Lists(kids, index.children[s.closed[0].shard])
    requires forall c :: c in kids ==> c in index.shards
    ensures Childless(index, AfterSettle(s, index, kids).deferred)
  {
    VisitAllInfo(Detach(s.(closed := s.closed[1..]), s.closed[0]), index, kids);
    assert kids == [] ==> index.children[s.closed[0].shard] == {};
    hide VisitAll;
  }

  lemma ClosedView(s: State, w: WorkerInfo, sh: ShardId)
    ensures ViewOf(AfterCheckpoint(s, w, sh, Closed)) ==
      ViewOf(s).(shut := ViewOf(s).shut + {sh}, pending := ViewOf(s).pending + {sh},
                 closing := ViewOf(s).closing + {sh})
  {
    NotesAppend(s.closed, Note(sh, Some(w)));
    hide ShardsIn, OwnedIn;
    assert ShutOf(AfterCheckpoint(s, w, sh, Closed)) == ShutOf(s) + {sh};
  }

  lemma MarkedView(s: State, w: WorkerInfo, sh: ShardId, mark: Mark)
    requires mark != Closed && !s.IsClosed(sh)
    ensures ViewOf(AfterCheckpoint(s, w, sh, mark)) == ViewOf(s)
  {
    assert ShutOf(AfterCheckpoint(s, w, sh, mark)) == ShutOf(s);
  }

  lemma CheckpointFollowed(index: Index, s: State, loc: Places, visited: set<ShardId>, w: WorkerInfo, sh: ShardId,
                           mark: Mark)
    requires Sound(s, loc) && index.Complete() && Followed(index, s, visited)
    requires s.Registered(w) && sh in s.info[w].assignments
    requires s.IsClosed(sh) ==> mark == Closed
    ensures Followed(index, AfterCheckpoint(s, w, sh, mark), visited)
  {
    hide Sound, Index.Complete, Tracked, ViewOf;
    HeldLive(s, loc, w, sh);
    assert ViewOf(s).live == s.live by { LiveView(s); }
    if mark == Closed {
      ClosedView(s, w, sh);
      ClosedTracked(index, ViewOf(s), visited, sh);
    } else {
      MarkedView(s, w, sh, mark);
    }
  }

  lemma LiveView(s: State)
    ensures ViewOf(s).live == s.live
  {
  }

  lemma HeldLive(s: State, loc: Places, w: WorkerInfo, sh: ShardId)
    requires Sound(s, loc) && s.Registered(w) && sh in s.info[w].assignments
    ensures sh in s.live
  {
    assert w in RosterOf(s);
  }

  lemma TakeoverFollowed(index: Index, s: State, a: Action)
    requires index.Complete() && a.Takeover? && a.index == index && StoredInOrder(index, a.stored)
    requires Lists(a.open, set sh | sh in index.shards && index.IsRoot(sh) && StoredMark(a.stored, sh) != Closed)
    requires Lists(a.shut, set sh | sh in index.shards && index.IsRoot(sh) && StoredMark(a.stored, sh) == Closed)
    ensures Followed(index, AfterTakeover(s, index, a.stored, a.open, a.shut, a.newTerm),
                     set c | c in index.shards && index.IsRoot(c))
  {
    var t := AfterTakeover(s, index, a.stored, a.open, a.shut, a.newTerm);
    var roots := set c | c in index.shards && index.IsRoot(c);
    var shut := set c | c in index.shards && StoredMark(a.stored, c) == Closed;
    assert ShutOf(t) == shut;
    assert ShardsIn(t.closed) == Elements(a.shut) by {
      forall x | x in a.shut ensures x in ShardsIn(t.closed) {
        var i :| 0 <= i < |a.shut| && a.shut[i] == x;
        assert t.closed[i].shard == x && t.closed[i] in t.closed;
      }
    }
    assert OwnedIn(t.closed) == {};
    assert ViewOf(t) == View(shut, roots - shut, roots * shut, {});
    TakenOver(index, shut);
  }

  /** The moves that touch neither checkpoints, live set nor notifications. */
  lemma OtherView(cfg: Config, s: State, a: Action)
    requires Enabled(cfg, s, a) && !a.Settle? && !a.Checkpoint? && !a.Takeover? && !a.EndSettle?
    ensures ViewOf(Do(cfg, s, a)) == ViewOf(s) && Do(cfg, s, a).deferred == s.deferred
  {
    hide ShardsIn, OwnedIn;
  }

  lemma EndSettleView(s: State, loc: Places)
    requires Sound(s, loc) && s.closed == []
    ensures ViewOf(s.(closed := s.deferred, deferred := [])) == ViewOf(s)
  {
    assert OwnedIn(s.deferred) == {} == OwnedIn(s.closed);
    assert ShardsIn(s.closed) == {};
  }

  ghost function Reached(index: Index, s: State, a: Action, visited: set<ShardId>): set<ShardId>
    requires index.Complete()
  {
    if a.Settle? && s.closed != [] && s.closed[0].shard in index.children then
      visited + set c | c in index.children[s.closed[0].shard] && Ready(index, ShutOf(s), c)
    else if a.Takeover? then set c | c in index.shards && index.IsRoot(c)
    else visited
  }

  lemma MoveFollowed(cfg: Config, index: Index, s: State, loc: Places, visited: set<ShardId>, a: Action)
    requires index.Complete() && Enabled(cfg, s, a) && Faithful(index, s, a)
    requires a.Takeover? || (Sound(s, loc) && Followed(index, s, visited))
    ensures Followed(index, Do(cfg, s, a), Reached(index, s, a, visited))
  {
    hide Sound, Followed, Index.Complete, StoredInOrder;
    match a
    case Settle(i, kids) => SettleFollowed(index, s, visited, kids);
    case Checkpoint(w, sh, id, mark) => CheckpointFollowed(index, s, loc, visited, w, sh, mark);
    case Takeover(i, stored, open, shut, newTerm) => TakeoverFollowed(index, s, a);
    case EndSettle => EndSettleFollowed(index, s, loc, visited);
    case _ => OtherFollowed(cfg, index, s, visited, a);
  }

  lemma EndSettleFollowed(index: Index, s: State, loc: Places, visited: set<ShardId>)
    requires Sound(s, loc) && s.closed == [] && Followed(index, s, visited)
    ensures Followed(index, s.(closed := s.deferred, deferred := []), visited)
  {
    EndSettleView(s, loc);
    hide Tracked, ViewOf, Sound;
  }

  lemma OtherFollowed(cfg: Config, index: Index, s: State, visited: set<ShardId>, a: Action)
    requires index.Complete() && Followed(index, s, visited)
    requires Enabled(cfg, s, a) && !a.Settle? && !a.Checkpoint? && !a.Takeover? && !a.EndSettle?
    ensures Followed(index, Do(cfg, s, a), visited)
  {
    OtherView(cfg, s, a);
    hide Tracked, ViewOf;
  }

  /** A takeover followed by any moves. */
  ghost predicate FromTakeover(cfg: Config, index: Index, s: State, acts: seq<Action>) {
    && acts != [] && acts[0].Takeover?
    && CanRun(cfg, s, acts) && Along(cfg, s, acts, (t: State, a: Action) => Faithful(index, t, a))
  }

  lemma {:induction false} FollowedRun(cfg: Config, index: Index, s: State, acts: seq<Action>)
    returns (loc: Places, visited: set<ShardId>)
    requires index.Complete() && FromTakeover(cfg, index, s, acts)
    ensures Sound(Run(cfg, s, acts), loc) && Followed(index, Run(cfg, s, acts), visited)
    decreases |acts|
  {
    hide Sound, Followed, Index.Complete, Enabled, Faithful, Orderly, Do;
    var front := acts[..|acts| - 1];
    var a := acts[|acts| - 1];
    var t := Run(cfg, s, front);
    if front == [] {
      loc, visited := map[], {};
    } else {
      assert front[0] == acts[0];
      loc, visited := FollowedRun(cfg, index, s, front);
    }
    FaithfulOrderly(index, t, a);
    MoveFollowed(cfg, index, t, loc, visited, a);
    MoveSoundAny(cfg, t, a, loc);
    loc, visited := Moved(cfg, t, a, loc), Reached(index, t, a, visited);
  }

  lemma FaithfulOrderly(index: Index, s: State, a: Action)
    requires Faithful(index, s, a)
    ensures Orderly(s, a)
  {
  }

  lemma MoveSoundAny(cfg: Config, s: State, a: Action, loc: Places)
    requires Enabled(cfg, s, a) && Orderly(s, a) && (a.Takeover? || Sound(s, loc))
    ensures Sound(Do(cfg, s, a), Moved(cfg, s, a, loc))
  {
    hide Sound;
    MoveSound(cfg, s, a, loc);
  }

  /** The close worklist has been drained: only notifications of childless shards are kept for later. */
  ghost predicate Quiet(index: Index, s: State) {
    Childless(index, s.closed) && Childless(index, s.deferred) && s.Drained()
  }

  lemma DrainedQuiet(index: Index, s: State, visited: set<ShardId>)
    requires Followed(index, s, visited) && s.closed == []
    ensures Quiet(index, s)
  {
  }

  /** Frontier: from a takeover on, whenever the close worklist has been drained, the live set equals the
      one computed from scratch. */
  lemma FrontierExact(cfg: Config, index: Index, height: map<ShardId, nat>, s: State, acts: seq<Action>)
    requires index.Complete() && index.Acyclic(height) && FromTakeover(cfg, index, s, acts)
    requires var t := Run(cfg, s, acts); t.closed == [] || Quiet(index, t)
    ensures Run(cfg, s, acts).live == Front(index, ShutOf(Run(cfg, s, acts)))
  {
    var loc, visited := FollowedRun(cfg, index, s, acts);
    hide Run, CanRun, FromTakeover, Sound;
    var t := Run(cfg, s, acts);
    if t.closed == [] { DrainedQuiet(index, t, visited); }
    QuietView(index, t);
    hide ViewOf, Quiet;
    LiveIsFront(index, ViewOf(t), visited, height);
    LiveView(t);
    ShutView(t);
  }

  lemma ShutView(s: State)
    ensures ViewOf(s).shut == ShutOf(s)
  {
  }

  lemma QuietView(index: Index, s: State)
    requires Quiet(index, s)
    ensures ViewOf(s).closing == {}
    ensures forall p :: p in ViewOf(s).pending ==> p in index.children && index.children[p] == {}
  {
  }

  /** A grown lineage may take over between requests: the same invariant holds of it. */
  lemma GrownFollowed(index: Index, grown: Index, s: State, visited: set<ShardId>)
    requires index.Complete() && grown.Complete() && Grows(index, grown)
    requires Followed(index, s, visited) && s.deferred == []
    ensures Followed(grown, s, visited)
  {
    GrownTracked(index, grown, ViewOf(s), visited);
  }

  /** Lineage order: a live shard that is not a root has all its named parents recorded CLOSED. */
  lemma LineageOrder(cfg: Config, index: Index, s: State, acts: seq<Action>)
    requires index.Complete() && FromTakeover(cfg, index, s, acts)
    ensures var t := Run(cfg, s, acts);
      forall c :: c in t.live ==> c in index.shards && (index.IsRoot(c) || NamedParents(index, c) <= ShutOf(t))
  {
    var loc, visited := FollowedRun(cfg, index, s, acts);
  }

  lemma ShutKept(cfg: Config, s: State, a: Action)
    requires Enabled(cfg, s, a) && ClosedKept(s, a) && !a.Takeover?
    ensures ShutOf(s) <= ShutOf(Do(cfg, s, a))
  {
    if a.Settle? {
      var t := Detach(s.(closed := s.closed[1..]), s.closed[0]);
      VisitAllEffect(a.index, t, a.kids);
      hide VisitAll;
    }
  }

  /** ... and CLOSED shards stay CLOSED until the next takeover. */
  lemma {:induction false} ShutStays(cfg: Config, s: State, acts: seq<Action>)
    requires CanRun(cfg, s, acts) && Along(cfg, s, acts, ClosedKept)
    requires forall i :: 0 <= i < |acts| ==> !acts[i].Takeover?
    ensures ShutOf(s) <= ShutOf(Run(cfg, s, acts))
    decreases |acts|
  {
    hide Enabled, Do, ClosedKept, ShutOf;
    if acts != [] {
      ShutStays(cfg, s, acts[..|acts| - 1]);
      ShutKept(cfg, Run(cfg, s, acts[..|acts| - 1]), acts[|acts| - 1]);
    }
  }

  // ---------- What an assign response hands out ----------

  ghost predicate MarksSet(s: State) {
    forall c :: c in s.live ==> s.MarkOf(c) != Unset
  }

  lemma VisitMarks(s: State, index: Index, c: ShardId)
    requires c in index.shards && MarksSet(s)
    ensures MarksSet(Visit(s, index, c))
  {
    hide Eligible;
  }

  lemma {:induction false} VisitAllMarks(s: State, index: Index, kids: seq<ShardId>)
    requires MarksSet(s) && forall c :: c in kids ==> c in index.shards
    ensures MarksSet(VisitAll(s, index, kids))
    decreases |kids|
  {
    hide MarksSet, Visit;
    if kids != [] {
      VisitAllMarks(s, index, kids[..|kids| - 1]);
      VisitMarks(VisitAll(s, index, kids[..|kids| - 1]), index, kids[|kids| - 1]);
    }
  }

  lemma MoveMarks(cfg: Config, index: Index, s: State, a: Action)
    requires Enabled(cfg, s, a) && Faithful(index, s, a) && (MarksSet(s) || a.Takeover?)
    ensures MarksSet(Do(cfg, s, a))
  {
    if a.Settle? {
      VisitAllMarks(Detach(s.(closed := s.closed[1..]), s.closed[0]), a.index, a.kids);
      hide VisitAll;
    }
  }

  lemma {:induction false} MarksRun(cfg: Config, index: Index, s: State, acts: seq<Action>)
    requires FromTakeover(cfg, index, s, acts)
    ensures MarksSet(Run(cfg, s, acts))
    decreases |acts|
  {
    hide MarksSet, Enabled, Do, Faithful;
    var front := acts[..|acts| - 1];
    if front != [] {
      assert front[0] == acts[0];
      MarksRun(cfg, index, s, front);
    }
    MoveMarks(cfg, index, Run(cfg, s, front), acts[|acts| - 1]);
  }

  /** Once the worklist has been drained, no worker holds a shard whose checkpoint is empty or CLOSED: a
      shard processor is never started on either. */
  lemma HandedOutOpen(cfg: Config, index: Index, s: State, acts: seq<Action>, w: WorkerInfo, sh: ShardId)
    requires index.Complete() && FromTakeover(cfg, index, s, acts)
    requires var t := Run(cfg, s, acts); (t.closed == [] || Quiet(index, t)) && Holds(t, w, sh)
    ensures Run(cfg, s, acts).MarkOf(sh) != Unset && Run(cfg, s, acts).MarkOf(sh) != Closed
  {
    hide Run, CanRun, Along, Faithful, Sound, Index.Complete, MarksSet, Followed, Quiet;
    var loc, visited := FollowedRun(cfg, index, s, acts);
    MarksRun(cfg, index, s, acts);
    var t := Run(cfg, s, acts);
    if t.closed == [] { DrainedQuiet(index, t, visited); }
    HeldOpen(index, t, loc, visited, w, sh);
  }

  lemma HeldOpen(index: Index, s: State, loc: Places, visited: set<ShardId>, w: WorkerInfo, sh: ShardId)
    requires Sound(s, loc) && Followed(index, s, visited) && Quiet(index, s) && MarksSet(s) && Holds(s, w, sh)
    ensures s.MarkOf(sh) != Unset && s.MarkOf(sh) != Closed
  {
    HeldLive(s, loc, w, sh);
    QuietView(index, s);
    ShutClosed(s, sh);
    ShutView(s);
    LiveView(s);
    assert LiveOk(ViewOf(s), visited);
    hide Sound, Quiet, ViewOf;
    assert sh !in ViewOf(s).live * ViewOf(s).shut;
  }
}
