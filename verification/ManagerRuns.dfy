/** What holds after every move of every run of the manager. */
module ManagerRuns {
  import opened Finite
  import opened Lineage
  import opened WorkerRecord
  import opened ManagerModel
  import opened Conservation

  /** g holds of every move of the run, in the state it is made in. */
  ghost predicate Along(cfg: Config, s: State, acts: seq<Action>, g: (State, Action) -> bool)
    requires CanRun(cfg, s, acts)
    decreases |acts|
  {
    acts == [] ||
    (var front := acts[..|acts| - 1];
     Along(cfg, s, front, g) && g(Run(cfg, s, front), acts[|acts| - 1]))
  }

  /** Hypotheses G1 and G2. */
  ghost predicate Orderly(s: State, a: Action) {
    ClosedOnce(s, a) && ClosesSettled(s, a)
  }

  /** A manager as its constructor leaves it. */
  function Fresh(): State {
    State(false, 0, 0, map[], [], {}, map[], map[], map[], map[], [], [])
  }

  lemma FreshSound()
    ensures Sound(Fresh(), map[])
  {
  }

  lemma {:induction false} RunSound(cfg: Config, s: State, loc: Places, acts: seq<Action>) returns (m: Places)
    requires Sound(s, loc)
    requires CanRun(cfg, s, acts) && Along(cfg, s, acts, Orderly)
    ensures Sound(Run(cfg, s, acts), m)
    decreases |acts|
  {
    hide Sound;
    if acts == [] {
      m := loc;
    } else {
      var front := acts[..|acts| - 1];
      m := RunSound(cfg, s, loc, front);
      MoveSound(cfg, Run(cfg, s, front), acts[|acts| - 1], m);
      m := Moved(cfg, Run(cfg, s, front), acts[|acts| - 1], m);
    }
  }

  // ---------- Conservation, read off the invariant ----------

  ghost predicate Holds(s: State, older w: WorkerInfo, sh: ShardId) {
    s.Registered(w) && sh in s.info[w].assignments
  }

  ghost predicate Owns(s: State, older w: WorkerInfo, sh: ShardId) {
    Holds(s, w, sh) && !s.info[w].assignments[sh].requested
  }

  ghost predicate Offers(s: State, older h: WorkerInfo, older l: Loan) {
    s.Registered(h) && l in s.info[h].Loans()
  }

  ghost predicate HasOwner(s: State, sh: ShardId) {
    exists w :: Owns(s, w, sh)
  }

  ghost predicate OnOffer(s: State, sh: ShardId) {
    exists h, l :: Offers(s, h, l) && l.shard == sh
  }

  /** Each live shard is in exactly one of: the pool, a worker's unrequested assignments, a worker's
      offer. Nothing else is in any of them. */
  ghost predicate OnePlace(s: State) {
    && NoDup(s.pool)
    && (forall sh :: sh in s.live <==> sh in s.pool || HasOwner(s, sh) || OnOffer(s, sh))
    && (forall sh :: sh in s.pool ==> !HasOwner(s, sh) && !OnOffer(s, sh))
    && (forall sh :: HasOwner(s, sh) ==> !OnOffer(s, sh))
  }

  /** No two registered workers hold the same shard, and no two offers contain it. */
  ghost predicate Exclusive(s: State) {
    && (forall v, w, sh :: Holds(s, v, sh) && Holds(s, w, sh) ==> v == w)
    && (forall g, h, k, l :: Offers(s, g, k) && Offers(s, h, l) && k.shard == l.shard ==> g == h && k == l)
  }

  /** The requested assignments of registered donors are the loans on offer, one to one. */
  ghost predicate Matched(s: State) {
    && (forall w, sh :: Holds(s, w, sh) ==>
          (s.info[w].assignments[sh].requested <==> exists h :: Offers(s, h, Loan(w, sh))))
    && (forall h, l :: Offers(s, h, l) && s.Registered(l.donor) ==>
          Holds(s, l.donor, l.shard) && s.info[l.donor].assignments[l.shard].requested)
  }

  /** What loc says is what the registered workers hold and offer. */
  lemma Readings(s: State, loc: Places)
    requires Sound(s, loc)
    ensures forall w, sh :: Holds(s, w, sh) ==>
      sh in loc && if s.info[w].assignments[sh].requested then loc[sh].Lent? && loc[sh].donor == w
        else loc[sh] == Owned(w)
    ensures forall h, l :: Offers(s, h, l) ==> l.shard in loc && loc[l.shard] == Lent(h, l.donor)
    ensures forall sh :: sh in loc && loc[sh].Owned? ==> Owns(s, loc[sh].owner, sh)
    ensures forall sh :: sh in loc && loc[sh].Lent? ==> Offers(s, loc[sh].holder, Loan(loc[sh].donor, sh))
  {
    var r := RosterOf(s);
    assert forall w :: w in s.info && s.Registered(w) <==> w in r;
    forall sh | sh in loc ensures loc[sh].Owned? ==> Owns(s, loc[sh].owner, sh)
      ensures loc[sh].Lent? ==> Offers(s, loc[sh].holder, Loan(loc[sh].donor, sh)) {
      assert BackedAt(r, loc[sh], sh);
    }
  }

  lemma LentHeld(s: State, loc: Places, sh: ShardId)
    requires Sound(s, loc) && sh in loc && loc[sh].Lent? && s.Registered(loc[sh].donor)
    ensures Holds(s, loc[sh].donor, sh) && s.info[loc[sh].donor].assignments[sh].requested
  {
    assert BackedAt(RosterOf(s), loc[sh], sh);
  }

  lemma PoolIs(s: State, loc: Places)
    requires Sound(s, loc)
    ensures NoDup(s.pool) && loc.Keys == s.live && forall sh :: sh in s.pool <==> sh in loc && loc[sh] == Pooled
  {
  }

  lemma SoundOnePlace(s: State, loc: Places)
    requires Sound(s, loc)
    ensures OnePlace(s) && Exclusive(s)
  {
    hide OnePlace, Exclusive, Sound;
    SoundPlaces(s, loc);
    SoundExclusive(s, loc);
  }

  lemma SoundExclusive(s: State, loc: Places)
    requires Sound(s, loc)
    ensures Exclusive(s)
  {
    Readings(s, loc);
    hide Sound, Holds, Offers;
  }

  lemma SoundPlaces(s: State, loc: Places)
    requires Sound(s, loc)
    ensures OnePlace(s)
  {
    Readings(s, loc);
    PoolIs(s, loc);
    hide Sound, Holds, Offers;
    forall sh | sh in s.live ensures sh in s.pool || HasOwner(s, sh) || OnOffer(s, sh) {
      if loc[sh].Lent? {
        assert Offers(s, loc[sh].holder, Loan(loc[sh].donor, sh));
      }
    }
  }

  lemma SoundMatched(s: State, loc: Places)
    requires Sound(s, loc)
    ensures Matched(s)
  {
    Readings(s, loc);
    forall h, l | Offers(s, h, l) && s.Registered(l.donor)
      ensures Holds(s, l.donor, l.shard) && s.info[l.donor].assignments[l.shard].requested {
      LentHeld(s, loc, l.shard);
    }
    hide Sound, Holds, Offers;
    forall w, sh | Holds(s, w, sh) ensures
        s.info[w].assignments[sh].requested <==> exists h :: Offers(s, h, Loan(w, sh)) {
      if s.info[w].assignments[sh].requested {
        assert Offers(s, loc[sh].holder, Loan(w, sh));
      }
    }
  }

  /** Conservation: after every move of every orderly run. */
  lemma ConservedAlways(cfg: Config, acts: seq<Action>)
    requires CanRun(cfg, Fresh(), acts) && Along(cfg, Fresh(), acts, Orderly)
    ensures OnePlace(Run(cfg, Fresh(), acts)) && Exclusive(Run(cfg, Fresh(), acts)) && Matched(Run(cfg, Fresh(), acts))
  {
    FreshSound();
    var m := RunSound(cfg, Fresh(), map[], acts);
    hide Sound, OnePlace, Exclusive, Matched;
    SoundOnePlace(Run(cfg, Fresh(), acts), m);
    SoundMatched(Run(cfg, Fresh(), acts), m);
  }
}
