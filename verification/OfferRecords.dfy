/** Offers as the worker objects hold them, a list of shards per donor, and as sets of loans. */
module OfferRecords {
  import opened Finite
  import opened Lineage
  import opened WorkerRecord
  import opened ManagerModel

  ghost function LoansOf(shards: map<WorkerInfo, seq<ShardId>>): set<Loan> {
    set d, i | d in shards && 0 <= i < |shards[d]| :: Loan(d, shards[d][i])
  }

  lemma LoansIn(shards: map<WorkerInfo, seq<ShardId>>, d: WorkerInfo, sh: ShardId)
    ensures Loan(d, sh) in LoansOf(shards) <==> d in shards && sh in shards[d]
  {
    if d in shards && sh in shards[d] {
      var i :| 0 <= i < |shards[d]| && shards[d][i] == sh;
      assert Loan(d, shards[d][i]) in LoansOf(shards);
    }
  }

  ghost function OfferOf(offer: Option<ReassignmentOffer>): Option<Offer> {
    if offer.None? then None else Some(Offer(LoansOf(offer.value.shards), offer.value.createdAt))
  }

  ghost function ValueOf(w: WorkerInfo): Worker
    reads w
  {
    Worker(w.workerId, w.lastHeartbeat, w.assignments, OfferOf(w.offer), w.activeShardCount)
  }

  lemma ListsJoin(s: seq<ShardId>, t: seq<ShardId>)
    requires NoDup(s) && NoDup(t) && Elements(s) !! Elements(t)
    ensures Lists(s + t, Elements(s) + Elements(t))
  {
    assert forall i :: 0 <= i < |s| ==> s[i] in Elements(s);
    assert forall i :: 0 <= i < |t| ==> t[i] in Elements(t);
    assert Elements(s + t) == Elements(s) + Elements(t);
  }

  lemma ListsBoth(s: seq<ShardId>, xs: set<ShardId>, t: seq<ShardId>, ys: set<ShardId>, before: set<ShardId>)
    requires Lists(s, xs - before) && Lists(t, ys - (before + xs))
    ensures Lists(s + t, xs + ys - before) && before + xs + ys == before + Elements(s + t)
  {
    ListsJoin(s, t);
    assert (xs - before) + (ys - (before + xs)) == xs + ys - before;
  }

  ghost function DonorLoans(d: WorkerInfo, shards: seq<ShardId>): set<Loan> {
    set sh | sh in shards :: Loan(d, sh)
  }

  lemma LoansDone(shards: map<WorkerInfo, seq<ShardId>>, donors: set<WorkerInfo>, d: WorkerInfo)
    requires d in donors && donors <= shards.Keys
    ensures LoansOf(shards - donors) + DonorLoans(d, shards[d]) == LoansOf(shards - (donors - {d}))
  {
    forall l
      ensures l in LoansOf(shards - donors) + DonorLoans(d, shards[d]) <==> l in LoansOf(shards - (donors - {d})) {
      LoansIn(shards - donors, l.donor, l.shard);
      LoansIn(shards - (donors - {d}), l.donor, l.shard);
    }
  }

  lemma NoneDone(info: map<WorkerInfo, Worker>, shards: map<WorkerInfo, seq<ShardId>>)
    ensures Forget(info, {}) == info && LoansOf(shards - shards.Keys) == {} && ShardsOf({}) == {}
    ensures Lists<ShardId>([], {})
  {
    ForgetNone(info);
  }

  lemma DonorShards(done: set<Loan>, d: WorkerInfo, shards: seq<ShardId>)
    ensures ShardsOf(done + DonorLoans(d, shards)) == ShardsOf(done) + Elements(shards)
  {
    forall sh | sh in shards ensures sh in ShardsOf(done + DonorLoans(d, shards)) {
      assert Loan(d, sh) in DonorLoans(d, shards);
    }
  }

  lemma DoneShards(done: set<Loan>, released: set<ShardId>, d: WorkerInfo, shards: seq<ShardId>, all: set<ShardId>)
    requires all == released + ShardsOf(done)
    ensures all + Elements(shards) == released + ShardsOf(done + DonorLoans(d, shards))
  {
    DonorShards(done, d, shards);
  }

  lemma DoneOrder(done: set<Loan>, released: set<ShardId>, d: WorkerInfo, shards: seq<ShardId>,
                  order: seq<ShardId>, more: seq<ShardId>)
    requires Lists(order, ShardsOf(done) - released) && Lists(more, Elements(shards) - (released + ShardsOf(done)))
    ensures Lists(order + more, ShardsOf(done + DonorLoans(d, shards)) - released)
  {
    DonorShards(done, d, shards);
    ListsJoin(order, more);
    assert (ShardsOf(done) - released) + (Elements(shards) - (released + ShardsOf(done)))
        == (ShardsOf(done) + Elements(shards)) - released;
  }

  lemma ForgetKeys(info: map<WorkerInfo, Worker>, loans: set<Loan>)
    ensures Forget(info, loans).Keys == info.Keys
  {
  }

  lemma ForgetNone(info: map<WorkerInfo, Worker>)
    ensures Forget(info, {}) == info
  {
    forall u | u in info ensures Forget(info, {})[u] == info[u] {
      assert Forget(info, {})[u].assignments == info[u].assignments;
    }
  }

  lemma ForgetAt(info: map<WorkerInfo, Worker>, loans: set<Loan>, u: WorkerInfo)
    requires u in info
    ensures Forget(info, loans)[u] == info[u].(assignments := info[u].assignments - Taken(loans, u))
  {
  }

  lemma TakenMore(done: set<Loan>, d: WorkerInfo, shards: seq<ShardId>, u: WorkerInfo)
    ensures Taken(done + DonorLoans(d, shards), u) == Taken(done, u) + if u == d then Elements(shards) else {}
  {
    forall sh | u == d && sh in shards ensures sh in Taken(done + DonorLoans(d, shards), u) {
      assert Loan(d, sh) in DonorLoans(d, shards);
    }
  }

  lemma ForgetMore(info: map<WorkerInfo, Worker>, done: set<Loan>, d: WorkerInfo, shards: seq<ShardId>)
    requires d in info && d in Forget(info, done)
    ensures var f := Forget(info, done);
      Forget(info, done + DonorLoans(d, shards)) == f[d := f[d].(assignments := f[d].assignments - Elements(shards))]
  {
    hide Forget, Taken;
    ForgetKeys(info, done);
    ForgetKeys(info, done + DonorLoans(d, shards));
    var f := Forget(info, done);
    forall u | u in info ensures
        Forget(info, done + DonorLoans(d, shards))[u]
        == if u == d then f[d].(assignments := f[d].assignments - Elements(shards)) else f[u] {
      ForgetAt(info, done, u);
      ForgetAt(info, done + DonorLoans(d, shards), u);
      TakenMore(done, d, shards, u);
      assert u != d ==> Taken(done, u) + {} == Taken(done, u);
    }
  }

  ghost function Taken(loans: set<Loan>, u: WorkerInfo): set<ShardId> {
    set l | l in loans && l.donor == u :: l.shard
  }

  lemma ForgetOne(info: map<WorkerInfo, Worker>, d: WorkerInfo, sh: ShardId)
    requires d in info
    ensures Forget(info, {Loan(d, sh)}) == info[d := info[d].(assignments := info[d].assignments - {sh})]
  {
    forall u | u in info ensures Forget(info, {Loan(d, sh)})[u]
        == info[d := info[d].(assignments := info[d].assignments - {sh})][u] {
      ForgetAt(info, {Loan(d, sh)}, u);
      assert Taken({Loan(d, sh)}, u) == if u == d then {sh} else {} by {
        if u == d { assert Loan(d, sh).shard == sh; }
      }
      assert u != d ==> info[u].assignments - {} == info[u].assignments;
    }
    ForgetKeys(info, {Loan(d, sh)});
  }

  lemma UnlentKeys(t: State, w: WorkerInfo, loan: Loan)
    requires w in t.info && t.info[w].offer.Some?
    ensures Unlent(t, w, loan).info.Keys == t.info.Keys
  {
  }

  /** What the donors still to be visited have on offer. */
  ghost function Owing(shards: map<WorkerInfo, seq<ShardId>>, donors: set<WorkerInfo>): set<Loan> {
    LoansOf(map d | d in donors && d in shards :: shards[d])
  }

  lemma OwingEnds(shards: map<WorkerInfo, seq<ShardId>>)
    ensures Owing(shards, shards.Keys) == LoansOf(shards) && Owing(shards, {}) == {}
  {
    assert (map d | d in shards.Keys && d in shards :: shards[d]) == shards;
  }

  lemma OwingLess(shards: map<WorkerInfo, seq<ShardId>>, donors: set<WorkerInfo>, d: WorkerInfo)
    requires d in donors && d in shards
    ensures Owing(shards, donors) == Owing(shards, donors - {d}) + DonorLoans(d, shards[d])
    ensures forall l :: l in Owing(shards, donors - {d}) ==> l.donor != d
  {
    var all := map e | e in donors && e in shards :: shards[e];
    var less := map e | e in donors - {d} && e in shards :: shards[e];
    forall l ensures l in LoansOf(all) <==> l in LoansOf(less) + DonorLoans(d, shards[d]) {
      LoansIn(all, l.donor, l.shard);
      LoansIn(less, l.donor, l.shard);
    }
  }

  lemma NoLoans(d: WorkerInfo, shards: seq<ShardId>)
    requires shards == []
    ensures DonorLoans(d, shards) == {}
  {
  }

  lemma NextLoan(rest: set<Loan>, d: WorkerInfo, shards: seq<ShardId>, i: nat)
    requires NoDup(shards) && i < |shards| && forall l :: l in rest ==> l.donor != d
    ensures var loan := Loan(d, shards[i]);
      var loans := rest + DonorLoans(d, shards[i..]);
      loan in loans && loans - {loan} == rest + DonorLoans(d, shards[i + 1..])
  {
    var loan := Loan(d, shards[i]);
    var loans := rest + DonorLoans(d, shards[i..]);
    assert shards[i] == shards[i..][0];
    assert shards[i..] == [shards[i]] + shards[i + 1..];
    forall l ensures l in loans - {loan} <==> l in rest + DonorLoans(d, shards[i + 1..]) {
    }
  }

  /** The offer that rebalance attaches to the requester: none, if nothing was found to steal. */
  ghost function NewOffer(ro: map<WorkerInfo, seq<ShardId>>, now: int): Option<Offer> {
    if ro == map[] then None else Some(Offer(LoansOf(ro), now))
  }

  ghost function Lent(offer: Option<Offer>): set<Loan> {
    if offer.Some? then offer.value.loans else {}
  }

  /** One more shard of donor d. */
  function WithShard(ro: map<WorkerInfo, seq<ShardId>>, d: WorkerInfo, sh: ShardId): map<WorkerInfo, seq<ShardId>> {
    ro[d := (if d in ro then ro[d] else []) + [sh]]
  }

  lemma MoreLoans(ro: map<WorkerInfo, seq<ShardId>>, d: WorkerInfo, sh: ShardId)
    ensures LoansOf(WithShard(ro, d, sh)) == LoansOf(ro) + {Loan(d, sh)}
  {
    var more := WithShard(ro, d, sh);
    forall l ensures l in LoansOf(more) <==> l in LoansOf(ro) + {Loan(d, sh)} {
      LoansIn(more, l.donor, l.shard);
      LoansIn(ro, l.donor, l.shard);
    }
  }

  lemma MoreOffered(ro: map<WorkerInfo, seq<ShardId>>, d: WorkerInfo, sh: ShardId, now: int)
    requires Loan(d, sh) !in Lent(NewOffer(ro, now))
    requires forall e :: e in ro ==> NoDup(ro[e])
    ensures var more := WithShard(ro, d, sh);
      && more != map[] && NewOffer(more, now) == Some(Offer(Lent(NewOffer(ro, now)) + {Loan(d, sh)}, now))
      && forall e :: e in more ==> NoDup(more[e])
  {
    var more := WithShard(ro, d, sh);
    assert d in more;
    MoreLoans(ro, d, sh);
    assert ro == map[] ==> LoansOf(ro) == {};
    if d in ro {
      LoansIn(ro, d, sh);
      NoDupAppend(ro[d], sh);
    }
  }
}
