/** The run guards G1 and G2 are exact: where one fails, conservation is broken as soon as the closes are settled,
    whatever else is on the worklist. */
module GuardsNeeded {
  import opened Finite
  import opened Lineage
  import opened WorkerRecord
  import opened ManagerModel
  import opened Conservation
  import opened ManagerRuns
  import opened Expiry
  import opened AssignCalls

  /** acts settle notifications, under any lineage index each. */
  ghost predicate Settlings(acts: seq<Action>) {
    forall i :: 0 <= i < |acts| ==> acts[i].Settle?
  }

  lemma SettleEffect(s: State, index: Index, kids: seq<ShardId>)
    requires s.closed != [] && (s.closed[0].worker.Some? ==> s.closed[0].worker.value in s.info)
    requires forall c :: c in kids ==> c in index.shards
    ensures var t := AfterSettle(s, index, kids);
      var u := Detach(s.(closed := s.closed[1..]), s.closed[0]);
      && t.info == u.info && t.workers == s.workers && t.counts == u.counts && t.inService == s.inService
      && u.live <= t.live
      && (|s.closed| > 1 ==> t.closed != [] && t.closed[0] == s.closed[1])
      && s.closed[1..] <= t.closed && u.pool <= t.pool
      && forall n :: n in t.closed && n.worker.Some? ==> n in s.closed[1..]
  {
    var u := Detach(s.(closed := s.closed[1..]), s.closed[0]);
    VisitAllInfo(u, index, kids);
    VisitAllLive(u, index, kids);
    VisitAllGrows(u, index, kids);
    VisitAllNotes(u, index, kids);
    hide VisitAll;
  }

  lemma {:induction false} VisitAllGrows(s: State, index: Index, kids: seq<ShardId>)
    requires forall c :: c in kids ==> c in index.shards
    ensures s.closed <= VisitAll(s, index, kids).closed && s.pool <= VisitAll(s, index, kids).pool
    decreases |kids|
  {
    hide Eligible;
    if kids != [] { VisitAllGrows(s, index, kids[..|kids| - 1]); }
  }

  lemma {:induction false} VisitAllShut(s: State, index: Index, kids: seq<ShardId>, sh: ShardId)
    requires forall c :: c in kids ==> c in index.shards
    requires s.IsClosed(sh)
    ensures VisitAll(s, index, kids).IsClosed(sh) && (sh in VisitAll(s, index, kids).live <==> sh in s.live)
    decreases |kids|
  {
    hide Eligible;
    if kids != [] { VisitAllShut(s, index, kids[..|kids| - 1], sh); }
  }

  // ---------- A CLOSED shard leaves the live set with its last close ----------

  /** sh is CLOSED, and live only as long as a notification of an owner waits. */
  ghost predicate Leaving(s: State, sh: ShardId) {
    s.IsClosed(sh) && (sh in s.live ==> exists n :: n in s.closed && n.worker.Some? && n.shard == sh)
  }

  lemma TailHas(notes: seq<Note>, n: Note)
    requires notes != [] && n in notes && n != notes[0]
    ensures n in notes[1..]
  {
    assert notes == [notes[0]] + notes[1..];
  }

  lemma PrefixNote(p: seq<Note>, q: seq<Note>, n: Note)
    requires p <= q && n in p
    ensures n in q
  {
    var i :| 0 <= i < |p| && p[i] == n;
    assert q[i] == n;
  }

  lemma SettleLeaving(s: State, index: Index, kids: seq<ShardId>, sh: ShardId)
    requires Leaving(s, sh)
    requires s.closed != [] && (s.closed[0].worker.Some? ==> s.closed[0].worker.value in s.info)
    requires forall c :: c in kids ==> c in index.shards
    ensures Leaving(AfterSettle(s, index, kids), sh)
  {
    var u := Detach(s.(closed := s.closed[1..]), s.closed[0]);
    var t := AfterSettle(s, index, kids);
    VisitAllShut(u, index, kids, sh);
    SettleEffect(s, index, kids);
    hide VisitAll;
    assert t.IsClosed(sh) && (sh in t.live <==> sh in u.live);
    if sh in t.live {
      var n :| n in s.closed && n.worker.Some? && n.shard == sh;
      TailHas(s.closed, n);
      hide AfterSettle, Detach;
      PrefixNote(s.closed[1..], t.closed, n);
    }
  }

  lemma {:induction false} RunLeaving(cfg: Config, s: State, acts: seq<Action>, sh: ShardId)
    requires Leaving(s, sh) && CanRun(cfg, s, acts) && Settlings(acts)
    ensures Leaving(Run(cfg, s, acts), sh)
    decreases |acts|
  {
    hide Leaving;
    if acts != [] {
      var a := acts[|acts| - 1];
      RunLeaving(cfg, s, acts[..|acts| - 1], sh);
      SettleLeaving(Run(cfg, s, acts[..|acts| - 1]), a.index, a.kids, sh);
    }
  }

  /** Once no notification names a worker, it is gone. */
  lemma DrainedLeft(cfg: Config, s: State, acts: seq<Action>, sh: ShardId)
    requires Leaving(s, sh) && CanRun(cfg, s, acts) && Settlings(acts) && Run(cfg, s, acts).Drained()
    ensures sh !in Run(cfg, s, acts).live
  {
    RunLeaving(cfg, s, acts, sh);
    hide CanRun, Run;
  }

  lemma {:induction false} SettlingsOrderly(cfg: Config, s: State, acts: seq<Action>)
    requires CanRun(cfg, s, acts) && Settlings(acts)
    ensures Along(cfg, s, acts, Orderly)
    decreases |acts|
  {
    hide Enabled, Do;
    if acts != [] {
      SettlingsOrderly(cfg, s, acts[..|acts| - 1]);
      assert Orderly(Run(cfg, s, acts[..|acts| - 1]), acts[|acts| - 1]);
    }
  }

  lemma SettledOnePlace(cfg: Config, s: State, loc: Places, acts: seq<Action>)
    requires Sound(s, loc) && CanRun(cfg, s, acts) && Settlings(acts)
    ensures OnePlace(Run(cfg, s, acts))
  {
    hide Sound, OnePlace, Exclusive, Run, CanRun;
    SettlingsOrderly(cfg, s, acts);
    var m := RunSound(cfg, s, loc, acts);
    SoundOnePlace(Run(cfg, s, acts), m);
  }

  // ---------- A close while the assignment has a reassignment request ----------

  lemma StillOffers(s: State, index: Index, kids: seq<ShardId>, h: WorkerInfo, l: Loan)
    requires s.closed != [] && (s.closed[0].worker.Some? ==> s.closed[0].worker.value in s.info)
    requires forall c :: c in kids ==> c in index.shards
    requires Offers(s, h, l)
    ensures Offers(AfterSettle(s, index, kids), h, l)
  {
    SettleInfo(s, index, kids);
    hide AfterSettle;
  }

  lemma {:induction false} RunOffers(cfg: Config, s: State, acts: seq<Action>, h: WorkerInfo, l: Loan)
    requires Offers(s, h, l) && CanRun(cfg, s, acts) && Settlings(acts)
    ensures Offers(Run(cfg, s, acts), h, l)
    decreases |acts|
  {
    hide Offers;
    if acts != [] {
      var a := acts[|acts| - 1];
      RunOffers(cfg, s, acts[..|acts| - 1], h, l);
      StillOffers(Run(cfg, s, acts[..|acts| - 1]), a.index, a.kids, h, l);
    }
  }

  lemma LentOffered(s: State, loc: Places, w: WorkerInfo, sh: ShardId) returns (h: WorkerInfo)
    requires Sound(s, loc) && s.Registered(w) && sh in s.info[w].assignments && s.info[w].assignments[sh].requested
    ensures Offers(AfterCheckpoint(s, w, sh, Closed), h, Loan(w, sh)) && Leaving(AfterCheckpoint(s, w, sh, Closed), sh)
  {
    Readings(s, loc);
    assert Holds(s, w, sh);
    h := loc[sh].holder;
    assert Offers(s, h, Loan(w, sh));
    hide Sound;
    var c := AfterCheckpoint(s, w, sh, Closed);
    assert Note(sh, Some(w)) in c.closed;
  }

  /** G1, second half: a CLOSED checkpoint is recorded, the first of its assignment, and all closes are settled:
      each live shard is still in one place if and only if the assignment had no reassignment request. */
  lemma CloseExact(cfg: Config, s: State, loc: Places, w: WorkerInfo, sh: ShardId, acts: seq<Action>)
    requires Sound(s, loc) && s.Registered(w) && sh in s.info[w].assignments
    requires forall n :: n in s.closed && n.worker.Some? ==> n.shard != sh
    requires var c := AfterCheckpoint(s, w, sh, Closed);
      CanRun(cfg, c, acts) && Settlings(acts) && Run(cfg, c, acts).Drained()
    ensures OnePlace(Run(cfg, AfterCheckpoint(s, w, sh, Closed), acts)) <==> !s.info[w].assignments[sh].requested
  {
    hide CanRun, Run, Sound, AfterCheckpoint;
    var c := AfterCheckpoint(s, w, sh, Closed);
    if s.info[w].assignments[sh].requested {
      var h := LentOffered(s, loc, w, sh);
      RunOffers(cfg, c, acts, h, Loan(w, sh));
      DrainedLeft(cfg, c, acts, sh);
      assert OnOffer(Run(cfg, c, acts), sh);
    } else {
      hide OnePlace;
      CheckpointSound(s, w, sh, Closed, loc);
      SettledOnePlace(cfg, c, loc, acts);
    }
  }

  // ---------- A second close of the same assignment ----------

  ghost predicate CountedAt(s: State, w: WorkerInfo) {
    w in s.info && s.info[w].active == |s.info[w].Open()|
  }

  /** The notifications that name w. */
  ghost function NotesOf(notes: seq<Note>, w: WorkerInfo): seq<Note>
    decreases |notes|
  {
    if notes == [] then [] else (if notes[0].worker == Some(w) then [notes[0]] else []) + NotesOf(notes[1..], w)
  }

  ghost function ShardsOfNotes(notes: seq<Note>): set<ShardId> {
    set n | n in notes :: n.shard
  }

  lemma {:induction false} NotesOfJoin(a: seq<Note>, b: seq<Note>, w: WorkerInfo)
    ensures NotesOf(a + b, w) == NotesOf(a, w) + NotesOf(b, w)
    decreases |a|
  {
    if a == [] {
      assert a + b == b;
    } else {
      NotesOfJoin(a[1..], b, w);
      assert (a + b)[0] == a[0] && (a + b)[1..] == a[1..] + b;
    }
  }

  lemma {:induction false} NotesOfNone(notes: seq<Note>, w: WorkerInfo)
    requires forall n :: n in notes ==> n.worker.None?
    ensures NotesOf(notes, w) == []
    decreases |notes|
  {
    if notes != [] {
      assert notes[0] in notes;
      NotesOfNone(notes[1..], w);
    }
  }

  lemma {:induction false} NotesOfIn(notes: seq<Note>, w: WorkerInfo, n: Note)
    ensures n in NotesOf(notes, w) <==> n in notes && n.worker == Some(w)
    decreases |notes|
  {
    if notes != [] {
      NotesOfIn(notes[1..], w, n);
      assert notes == [notes[0]] + notes[1..];
    }
  }

  /** Settling adds only notifications that name nobody. */
  lemma {:induction false} VisitAllAdds(s: State, index: Index, kids: seq<ShardId>) returns (more: seq<Note>)
    requires forall c :: c in kids ==> c in index.shards
    ensures VisitAll(s, index, kids).closed == s.closed + more && forall n :: n in more ==> n.worker.None?
    decreases |kids|
  {
    hide Eligible;
    more := [];
    if kids != [] {
      more := VisitAllAdds(s, index, kids[..|kids| - 1]);
      if VisitAll(s, index, kids).closed != s.closed + more {
        more := more + [Note(kids[|kids| - 1], None)];
      }
    }
  }

  /** w's active count less its waiting closes, and its unrequested assignments not among them. */
  ghost function Outstanding(s: State, w: WorkerInfo): int
    requires w in s.info
  {
    s.info[w].active - |NotesOf(s.closed, w)|
  }

  ghost function Remaining(s: State, w: WorkerInfo): set<ShardId>
    requires w in s.info
  {
    s.info[w].Open() - ShardsOfNotes(NotesOf(s.closed, w))
  }

  lemma SettledNotes(s: State, index: Index, kids: seq<ShardId>, w: WorkerInfo)
    requires s.closed != [] && (s.closed[0].worker.Some? ==> s.closed[0].worker.value in s.info)
    requires forall c :: c in kids ==> c in index.shards
    ensures NotesOf(AfterSettle(s, index, kids).closed, w) == NotesOf(s.closed[1..], w)
  {
    var u := Detach(s.(closed := s.closed[1..]), s.closed[0]);
    var more := VisitAllAdds(u, index, kids);
    hide VisitAll;
    NotesOfJoin(s.closed[1..], more, w);
    NotesOfNone(more, w);
  }

  lemma SettleKeeps(s: State, index: Index, kids: seq<ShardId>, w: WorkerInfo)
    requires w in s.info
    requires s.closed != [] && (s.closed[0].worker.Some? ==> s.closed[0].worker.value in s.info)
    requires forall c :: c in kids ==> c in index.shards
    ensures var t := AfterSettle(s, index, kids);
      w in t.info && Outstanding(t, w) == Outstanding(s, w) && Remaining(t, w) == Remaining(s, w)
  {
    SettleInfo(s, index, kids);
    SettledNotes(s, index, kids, w);
    hide AfterSettle;
    var n := s.closed[0];
    if n.worker == Some(w) {
      HeadNotes(s.closed, w);
    }
  }

  lemma HeadNotes(notes: seq<Note>, w: WorkerInfo)
    requires notes != [] && notes[0].worker == Some(w)
    ensures NotesOf(notes, w) == [notes[0]] + NotesOf(notes[1..], w)
    ensures ShardsOfNotes(NotesOf(notes, w)) == ShardsOfNotes(NotesOf(notes[1..], w)) + {notes[0].shard}
  {
    var rest := NotesOf(notes[1..], w);
    forall sh ensures sh in ShardsOfNotes([notes[0]] + rest) <==> sh in ShardsOfNotes(rest) + {notes[0].shard} {
      if sh in ShardsOfNotes(rest) {
        var n :| n in rest && n.shard == sh;
        assert n in [notes[0]] + rest;
      }
      assert notes[0] in [notes[0]] + rest;
    }
  }

  lemma {:induction false} RunKeeps(cfg: Config, s: State, acts: seq<Action>, w: WorkerInfo)
    requires w in s.info && CanRun(cfg, s, acts) && Settlings(acts)
    ensures var t := Run(cfg, s, acts);
      w in t.info && Outstanding(t, w) == Outstanding(s, w)
      && Remaining(t, w) == Remaining(s, w)
    decreases |acts|
  {
    hide Outstanding, Remaining;
    if acts != [] {
      var a := acts[|acts| - 1];
      RunKeeps(cfg, s, acts[..|acts| - 1], w);
      SettleKeeps(Run(cfg, s, acts[..|acts| - 1]), a.index, a.kids, w);
    }
  }

  /** The waiting closes of a worker are about different shards, all of them unrequested assignments of it. */
  lemma {:induction false} DifferentShards(r: Roster, notes: seq<Note>, w: WorkerInfo)
    requires Noted(r, notes, []) && w in r
    ensures |ShardsOfNotes(NotesOf(notes, w))| == |NotesOf(notes, w)| && ShardsOfNotes(NotesOf(notes, w)) <= r[w].Open()
    decreases |notes|
  {
    if notes != [] {
      TailNoted(r, notes);
      DifferentShards(r, notes[1..], w);
      if notes[0].worker == Some(w) {
        HeadNotes(notes, w);
        assert notes[0] in notes;
        forall n | n in NotesOf(notes[1..], w) ensures n.shard != notes[0].shard {
          NotesOfIn(notes[1..], w, n);
          var i :| 0 <= i < |notes| - 1 && notes[1..][i] == n;
          assert notes[i + 1] == n;
        }
        assert notes[0].shard !in ShardsOfNotes(NotesOf(notes[1..], w));
      } else {
        assert [] + NotesOf(notes[1..], w) == NotesOf(notes[1..], w);
      }
    }
  }

  lemma TailNoted(r: Roster, notes: seq<Note>)
    requires Noted(r, notes, []) && notes != []
    ensures Noted(r, notes[1..], [])
  {
    assert forall m :: m in notes[1..] ==> m in notes;
  }

  lemma SoundNotes(s: State, loc: Places, w: WorkerInfo)
    requires Sound(s, loc) && s.Registered(w)
    ensures w in RosterOf(s) && RosterOf(s)[w] == s.info[w] && Noted(RosterOf(s), s.closed, []) && CountedAt(s, w)
  {
  }

  lemma DrainedCounted(s: State, w: WorkerInfo)
    requires w in s.info && s.Drained()
    ensures CountedAt(s, w) <==> Outstanding(s, w) == |Remaining(s, w)|
  {
    NotesOfNone(s.closed, w);
    assert Remaining(s, w) == s.info[w].Open();
  }

  /** A close more: one outstanding less, but one assignment less only if it is the first of its shard. */
  lemma OneMoreClose(s: State, loc: Places, w: WorkerInfo, sh: ShardId)
    requires Sound(s, loc) && s.Registered(w) && sh in s.info[w].Open()
    ensures var c := AfterCheckpoint(s, w, sh, Closed);
      w in c.info && (Outstanding(c, w) == |Remaining(c, w)| <==> Note(sh, Some(w)) !in s.closed)
  {
    var c := AfterCheckpoint(s, w, sh, Closed);
    var notes := NotesOf(s.closed, w);
    SoundNotes(s, loc, w);
    DifferentShards(RosterOf(s), s.closed, w);
    hide Sound, RosterOf, Noted;
    NotesOfJoin(s.closed, [Note(sh, Some(w))], w);
    NotesOfIn(s.closed, w, Note(sh, Some(w)));
    assert NotesOf([Note(sh, Some(w))], w) == [Note(sh, Some(w))] by { assert [Note(sh, Some(w))][1..] == []; }
    ShardsMore(notes, Note(sh, Some(w)));
    NoteFor(s.closed, w, sh);
    hide NotesOf, ShardsOfNotes;
    assert c.info[w] == s.info[w] && s.info[w].active == |s.info[w].Open()|;
    OpenLess(s.info[w].Open(), ShardsOfNotes(notes), sh);
  }

  lemma ShardsMore(notes: seq<Note>, n: Note)
    ensures ShardsOfNotes(notes + [n]) == ShardsOfNotes(notes) + {n.shard}
  {
    forall sh ensures sh in ShardsOfNotes(notes + [n]) <==> sh in ShardsOfNotes(notes) + {n.shard} {
      if sh in ShardsOfNotes(notes) {
        var m :| m in notes && m.shard == sh;
        assert m in notes + [n];
      }
      assert n in notes + [n];
    }
  }

  lemma NoteFor(notes: seq<Note>, w: WorkerInfo, sh: ShardId)
    ensures sh in ShardsOfNotes(NotesOf(notes, w)) <==> Note(sh, Some(w)) in notes
  {
    NotesOfIn(notes, w, Note(sh, Some(w)));
    if sh in ShardsOfNotes(NotesOf(notes, w)) {
      var n :| n in NotesOf(notes, w) && n.shard == sh;
      NotesOfIn(notes, w, n);
    }
  }

  lemma OpenLess(open: set<ShardId>, closing: set<ShardId>, sh: ShardId)
    requires closing <= open && sh in open
    ensures |open - (closing + {sh})| == |open| - |closing| - if sh in closing then 0 else 1
  {
    assert open == (open - closing) + closing;
    assert |open| == |open - closing| + |closing|;
    if sh in closing {
      assert open - (closing + {sh}) == open - closing;
    } else {
      assert open - (closing + {sh}) == (open - closing) - {sh};
    }
  }

  /** G1, first half: a CLOSED checkpoint of an unrequested assignment is recorded, and all closes are settled: the
      worker's active count agrees with its assignments if and only if no close of that assignment was waiting already.
      */
  lemma CloseOnceExact(cfg: Config, s: State, loc: Places, w: WorkerInfo, sh: ShardId, acts: seq<Action>)
    requires Sound(s, loc) && s.Registered(w) && sh in s.info[w].Open()
    requires var c := AfterCheckpoint(s, w, sh, Closed);
      CanRun(cfg, c, acts) && Settlings(acts) && Run(cfg, c, acts).Drained()
    ensures CountedAt(Run(cfg, AfterCheckpoint(s, w, sh, Closed), acts), w) <==> Note(sh, Some(w)) !in s.closed
  {
    hide CanRun, Run, Sound, AfterCheckpoint, Outstanding, Remaining, CountedAt, State.Drained;
    OneMoreClose(s, loc, w, sh);
    RunKeeps(cfg, AfterCheckpoint(s, w, sh, Closed), acts, w);
    DrainedCounted(Run(cfg, AfterCheckpoint(s, w, sh, Closed), acts), w);
  }

  // ---------- A worker that times out before its close is settled ----------

  lemma {:induction false} RunPool(cfg: Config, s: State, acts: seq<Action>, sh: ShardId)
    requires CanRun(cfg, s, acts) && Settlings(acts) && sh in s.pool
    ensures sh in Run(cfg, s, acts).pool
    decreases |acts|
  {
    if acts != [] {
      var a := acts[|acts| - 1];
      var t := Run(cfg, s, acts[..|acts| - 1]);
      RunPool(cfg, s, acts[..|acts| - 1], sh);
      SettleEffect(t, a.index, a.kids);
      hide AfterSettle;
      PrefixHas(t.pool, AfterSettle(t, a.index, a.kids).pool, sh);
    }
  }

  lemma PrefixHas(p: seq<ShardId>, q: seq<ShardId>, sh: ShardId)
    requires p <= q && sh in p
    ensures sh in q
  {
    var i :| 0 <= i < |p| && p[i] == sh;
    assert q[i] == sh;
  }

  lemma CloserPooled(s: State, loc: Places, w: WorkerInfo, order: seq<ShardId>, n: Note)
    requires Sound(s, loc) && n in s.closed && n.worker == Some(w) && s.Registered(w) && s.IsClosed(n.shard)
    requires Lists(order, s.info[w].Open() + ShardsOf(s.info[w].Loans()))
    ensures n.shard in AfterExpire(s, w, order).pool && Leaving(AfterExpire(s, w, order), n.shard)
  {
    assert n.shard in s.info[w].Open();
    assert n.shard in Elements(order);
    hide Sound, Forget;
    assert n in AfterExpire(s, w, order).closed;
  }

  /** G2: a worker expires while closes are waiting, and all closes are settled: each live shard is still in one
      place if and only if none of them was that worker's. */
  lemma ExpireExact(cfg: Config, s: State, loc: Places, w: WorkerInfo, order: seq<ShardId>, acts: seq<Action>)
    requires Sound(s, loc) && s.Registered(w)
    requires forall n :: n in s.closed && n.worker.Some? ==> s.IsClosed(n.shard)
    requires Lists(order, s.info[w].Open() + ShardsOf(s.info[w].Loans()))
    requires var e := AfterExpire(s, w, order); CanRun(cfg, e, acts) && Settlings(acts) && Run(cfg, e, acts).Drained()
    ensures OnePlace(Run(cfg, AfterExpire(s, w, order), acts)) <==> forall n :: n in s.closed ==> n.worker != Some(w)
  {
    hide CanRun, Run, Sound, AfterExpire, Lists, State.IsClosed;
    var e := AfterExpire(s, w, order);
    if n :| n in s.closed && n.worker == Some(w) {
      CloserPooled(s, loc, w, order, n);
      RunPool(cfg, e, acts, n.shard);
      DrainedLeft(cfg, e, acts, n.shard);
    } else {
      hide OnePlace;
      ExpireSound(s, w, order, loc);
      SettledOnePlace(cfg, e, map sh | sh in loc :: if sh in order then Pooled else loc[sh], acts);
    }
  }
}
