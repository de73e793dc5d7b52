/** The worker service's reconcile loop, in place, and its shutdown. */
module WorkerService {
  import opened Finite
  import opened Lineage
  import opened WorkerRecord
  import opened Handover

  datatype Assigned = Assigned(shard: ShardId, id: int, sequenceNumber: Mark)

  ghost function GivenBy(response: seq<Assigned>): map<ShardId, int>
    decreases |response|
  {
    if response == [] then map[]
    else GivenBy(response[..|response| - 1])[response[|response| - 1].shard := response[|response| - 1].id]
  }

  /** A response lists each shard once: the manager makes it from a map. */
  ghost predicate OncePerShard(response: seq<Assigned>) {
    forall i, j :: 0 <= i < j < |response| ==> response[i].shard != response[j].shard
  }

  lemma {:induction false} GivenKeys(response: seq<Assigned>)
    ensures forall sh :: sh in GivenBy(response) <==> exists i :: 0 <= i < |response| && response[i].shard == sh
    decreases |response|
  {
    if response != [] {
      var front := response[..|response| - 1];
      GivenKeys(front);
      forall sh | sh in GivenBy(response) ensures exists i :: 0 <= i < |response| && response[i].shard == sh {
        if sh == response[|response| - 1].shard {
        } else {
          assert sh in GivenBy(front);
          var i :| 0 <= i < |front| && front[i].shard == sh;
          assert response[i].shard == sh;
        }
      }
      forall i | 0 <= i < |response| ensures response[i].shard in GivenBy(response) {
        if i < |front| { assert front[i].shard == response[i].shard; }
      }
    }
  }

  lemma GivenNone(response: seq<Assigned>)
    ensures GivenBy(response[..0]) == map[]
  {
  }

  lemma GivenStep(response: seq<Assigned>, i: nat)
    requires i < |response| && OncePerShard(response)
    ensures response[i].shard !in GivenBy(response[..i])
    ensures GivenBy(response[..i + 1]) == GivenBy(response[..i])[response[i].shard := response[i].id]
  {
    GivenKeys(response[..i]);
    assert response[..i + 1][..i] == response[..i];
  }

  /** The processors made have the ids and sequence numbers that the response gives. */
  ghost predicate MadeAsTold(response: seq<Assigned>, made: map<ShardId, Processor>) {
    forall a :: a in response && a.shard in made ==>
      made[a.shard].id == a.id && made[a.shard].sequenceNumber == a.sequenceNumber
  }

  /** A processor for each shard of the response and for no other: the one there was, unless the response has a larger
      id for it; else a new one with that id and with the sequence number that comes with it. */
  ghost predicate DoneAsTold(before: map<ShardId, Processor>, after: map<ShardId, Processor>, response: seq<Assigned>) {
    && (forall a :: a in response ==>
          a.shard in after
          && if a.shard in before && a.id <= before[a.shard].id then after[a.shard] == before[a.shard]
             else after[a.shard].id == a.id && after[a.shard].sequenceNumber == a.sequenceNumber)
    && (forall sh :: sh in after ==> exists a :: a in response && a.shard == sh)
  }

  lemma ToldNone(response: seq<Assigned>)
    ensures MadeAsTold(response[..0], map[])
  {
  }

  lemma ToldStep(response: seq<Assigned>, i: nat, made: map<ShardId, Processor>)
    requires i < |response| && OncePerShard(response) && MadeAsTold(response[..i], made) && response[i].shard !in made
    ensures MadeAsTold(response[..i + 1], made)
  {
    assert response[..i + 1] == response[..i] + [response[i]];
  }

  lemma ToldMade(response: seq<Assigned>, i: nat, made: map<ShardId, Processor>, p: Processor)
    requires i < |response| && OncePerShard(response) && MadeAsTold(response[..i], made)
    requires p.id == response[i].id && p.sequenceNumber == response[i].sequenceNumber
    ensures MadeAsTold(response[..i + 1], made[response[i].shard := p])
  {
    forall a | a in response[..i] ensures a.shard != response[i].shard {
      var j :| 0 <= j < i && response[j] == a;
    }
    assert response[..i + 1] == response[..i] + [response[i]];
  }

  lemma {:induction false} GivenExact(response: seq<Assigned>)
    requires OncePerShard(response)
    ensures forall a :: a in response ==> a.shard in GivenBy(response) && GivenBy(response)[a.shard] == a.id
    decreases |response|
  {
    if response != [] {
      var front, last := response[..|response| - 1], response[|response| - 1];
      assert response == front + [last];
      GivenExact(front);
      forall a | a in response ensures a.shard in GivenBy(response) && GivenBy(response)[a.shard] == a.id {
        if a in front {
          var j :| 0 <= j < |front| && front[j] == a;
          assert response[j] == a && response[|front|] == last;
        }
      }
    }
  }

  /** Every shard given is one of the response. */
  lemma GivenListed(response: seq<Assigned>)
    ensures forall sh :: sh in GivenBy(response) ==> exists a :: a in response && a.shard == sh
  {
    GivenKeys(response);
    hide GivenBy;
    forall sh | sh in GivenBy(response) ensures exists a :: a in response && a.shard == sh {
      var i :| 0 <= i < |response| && response[i].shard == sh;
      assert response[i] in response;
    }
  }

  lemma ToldDone(s: Crew, response: seq<Assigned>, made: map<ShardId, Processor>)
    requires OncePerShard(response) && response != []
    requires MadeFor(s, GivenBy(response), made) && MadeAsTold(response, made)
    ensures DoneAsTold(s.current, Reconciled(s, GivenBy(response), made).current, response)
  {
    GivenExact(response);
    GivenListed(response);
    GivenSome(response);
    hide GivenBy, OncePerShard;
    assert made.Keys == Starts(s, GivenBy(response)) + Restarts(s, GivenBy(response));
  }

  // ---------- A response applied in part ----------

  /** What matters of WellRun here. */
  ghost predicate Seated(s: Crew) {
    forall sh :: sh in s.current ==> s.current[sh] in s.runs && s.current[sh].shard == sh
  }

  function PartialRun(s: Crew, placed: set<ShardId>, gone: set<ShardId>, p: Processor): Run {
    if p in s.runs then s.runs[p].(asks := s.runs[p].asks + if s.Current(p) && p.shard in placed + gone then 1 else 0)
    else Run(Replaced(s, p.shard), 0, 0, Queued)
  }

  /** The shards in placed have their new processors, those in gone have lost theirs. */
  ghost function Partial(s: Crew, made: map<ShardId, Processor>, placed: set<ShardId>, gone: set<ShardId>): Crew
    requires placed <= made.Keys
  {
    s.(current := map sh | sh in (s.current.Keys + placed) - gone :: if sh in placed then made[sh] else s.current[sh],
       runs := map p | p in s.runs.Keys + made.Values
         && (p in s.runs || p.shard in placed) :: PartialRun(s, placed, gone, p))
  }

  lemma PartialNone(s: Crew, made: map<ShardId, Processor>)
    ensures Partial(s, made, {}, {}) == s
  {
    assert forall p :: p in s.runs ==> s.runs[p].(asks := s.runs[p].asks + 0) == s.runs[p];
  }

  lemma PartialAll(s: Crew, given: map<ShardId, int>, made: map<ShardId, Processor>)
    requires Seated(s) && MadeFor(s, given, made) && given != map[]
    ensures Partial(s, made, made.Keys, Stops(s, given)) == Reconciled(s, given, made)
  {
    var t := Partial(s, made, made.Keys, Stops(s, given));
    var u := Reconciled(s, given, made);
    assert t.current == u.current;
    assert t.runs.Keys == u.runs.Keys;
    forall p | p in t.runs ensures t.runs[p] == u.runs[p] {
      PartialRunAll(s, given, made, p);
    }
  }

  lemma PartialRunAll(s: Crew, given: map<ShardId, int>, made: map<ShardId, Processor>, p: Processor)
    requires Seated(s) && MadeFor(s, given, made)
    ensures PartialRun(s, made.Keys, Stops(s, given), p)
         == if p in s.runs then s.runs[p].(asks := Asked(s, given, p)) else Run(Replaced(s, p.shard), 0, 0, Queued)
  {
  }

  lemma PlaceCurrent(s: Crew, made: map<ShardId, Processor>, placed: set<ShardId>, sh: ShardId)
    requires placed <= made.Keys && sh in made && sh !in placed
    ensures var t := Partial(s, made, placed, {});
      var u := Partial(s, made, placed + {sh}, {});
      && u.current == t.current[sh := made[sh]] && u.down == t.down
      && (sh in t.current <==> sh in s.current) && (sh in s.current ==> t.current[sh] == s.current[sh])
  {
    hide PartialRun;
  }

  lemma PlaceRun(s: Crew, placed: set<ShardId>, sh: ShardId, q: Processor)
    requires Seated(s) && sh !in placed && q in s.runs
    ensures PartialRun(s, placed + {sh}, {}, q)
         == if sh in s.current && q == s.current[sh]
            then PartialRun(s, placed, {}, q).(asks := PartialRun(s, placed, {}, q).asks + 1)
              else PartialRun(s, placed, {}, q)
  {
  }

  lemma PlaceRuns(s: Crew, made: map<ShardId, Processor>, placed: set<ShardId>, p: Processor)
    requires Seated(s) && placed <= made.Keys && p.shard in made && made[p.shard] == p && p.shard !in placed
      && p !in s.runs
    requires forall sh :: sh in made ==> made[sh].shard == sh && made[sh] !in s.runs
    ensures var t := Partial(s, made, placed, {});
      var u := Partial(s, made, placed + {p.shard}, {});
      && u.runs.Keys == t.runs.Keys + {p} && u.runs[p] == Run(Replaced(s, p.shard), 0, 0, Queued)
      && s.runs.Keys <= t.runs.Keys
      && p !in t.runs
      && forall q :: q in t.runs ==> (
           u.runs[q] ==
           if p.shard in s.current && q == s.current[p.shard] then t.runs[q].(asks := t.runs[q].asks + 1)
             else t.runs[q])
  {
    var t := Partial(s, made, placed, {});
    var u := Partial(s, made, placed + {p.shard}, {});
    forall q | q in t.runs ensures u.runs[q] ==
        if p.shard in s.current && q == s.current[p.shard] then t.runs[q].(asks := t.runs[q].asks + 1) else t.runs[q] {
      if q in s.runs { PlaceRun(s, placed, p.shard, q); }
    }
  }

  lemma PlaceOne(s: Crew, given: map<ShardId, int>, made: map<ShardId, Processor>, placed: set<ShardId>, p: Processor)
    requires Seated(s) && MadeFor(s, given, made) && placed <= made.Keys
    requires p.shard in made && made[p.shard] == p && p.shard !in placed
    ensures var t := Partial(s, made, placed, {});
      var u := Partial(s, made, placed + {p.shard}, {});
      && u.current == t.current[p.shard := p] && u.down == t.down
      && (p.shard !in s.current ==> p.shard !in t.current && u.runs == t.runs[p := Run(None, 0, 0, Queued)])
      && (p.shard in s.current ==> (
            var c := s.current[p.shard];
            p.shard in t.current && t.current[p.shard] == c && c in t.runs && c != p
            && u.runs == t.runs[c := t.runs[c].(asks := t.runs[c].asks + 1)][p := Run(Some(c), 0, 0, Queued)]))
  {
    hide Partial, PartialRun, MadeFor, Crew.Current, Seated;
    MadeFits(s, given, made, p);
    PlaceCurrent(s, made, placed, p.shard);
    PlaceRuns(s, made, placed, p);
    var t := Partial(s, made, placed, {}).runs;
    var u := Partial(s, made, placed + {p.shard}, {}).runs;
    if p.shard in s.current {
      var c := s.current[p.shard];
      TwoUpdates(t, u, c, t[c].(asks := t[c].asks + 1), p, Run(Some(c), 0, 0, Queued));
    } else {
      OneUpdate(t, u, p, Run(None, 0, 0, Queued));
    }
  }

  lemma MadeFits(s: Crew, given: map<ShardId, int>, made: map<ShardId, Processor>, p: Processor)
    requires Seated(s) && MadeFor(s, given, made) && p.shard in made && made[p.shard] == p
    ensures p !in s.runs && forall sh :: sh in made ==> made[sh].shard == sh && made[sh] !in s.runs
    ensures p.shard in s.current ==> s.current[p.shard] in s.runs && Replaced(s, p.shard) == Some(s.current[p.shard])
    ensures p.shard !in s.current ==> Replaced(s, p.shard) == None
  {
  }

  lemma OneUpdate<K, V>(t: map<K, V>, u: map<K, V>, p: K, y: V)
    requires p !in t && u.Keys == t.Keys + {p} && u[p] == y && forall q :: q in t ==> u[q] == t[q]
    ensures u == t[p := y]
  {
  }

  lemma TwoUpdates<K, V>(t: map<K, V>, u: map<K, V>, c: K, x: V, p: K, y: V)
    requires p !in t && c in t && u.Keys == t.Keys + {p} && u[p] == y
    requires forall q :: q in t ==> u[q] == if q == c then x else t[q]
    ensures u == t[c := x][p := y]
  {
  }

  lemma RemoveRun(s: Crew, placed: set<ShardId>, gone: set<ShardId>, sh: ShardId, q: Processor)
    requires Seated(s) && sh !in placed && sh !in gone && sh in s.current && (q in s.runs || q.shard in placed)
    ensures PartialRun(s, placed, gone + {sh}, q)
         == if q == s.current[sh] then PartialRun(s, placed, gone, q).(asks := PartialRun(s, placed, gone, q).asks + 1)
            else PartialRun(s, placed, gone, q)
  {
  }

  lemma RemoveOne(s: Crew, given: map<ShardId, int>, made: map<ShardId, Processor>, gone: set<ShardId>, sh: ShardId)
    requires Seated(s) && MadeFor(s, given, made) && sh in Stops(s, given) && sh !in gone && gone <= Stops(s, given)
    ensures var t := Partial(s, made, made.Keys, gone);
      var u := Partial(s, made, made.Keys, gone + {sh});
      var c := s.current[sh];
      && sh in t.current && t.current[sh] == c && c in t.runs && u.down == t.down
      && u.current == t.current - {sh} && u.runs == t.runs[c := t.runs[c].(asks := t.runs[c].asks + 1)]
  {
    var t := Partial(s, made, made.Keys, gone);
    var u := Partial(s, made, made.Keys, gone + {sh});
    forall q | q in t.runs ensures q in u.runs
        && u.runs[q] == if q == s.current[sh] then t.runs[q].(asks := t.runs[q].asks + 1) else t.runs[q] {
      RemoveRun(s, made.Keys, gone, sh, q);
    }
    hide PartialRun;
  }

  // ---------- The service ----------

  class WorkerService {
    var shardProcessors: map<ShardId, Processor>
    var goroutines: map<Processor, Run>  // what has been launched for each processor so far
    var stopped: bool

    constructor ()
      ensures Value() == NOBODY
    {
      shardProcessors, goroutines, stopped := map[], map[], false;
    }

    function Value(): Crew
      reads this
    {
      Crew(shardProcessors, goroutines, stopped)
    }

    /** go p.Start() */
    method Launch(p: Processor)
      modifies this`goroutines
      ensures goroutines == old(goroutines)[p := Run(None, 0, 0, Queued)]
    {
      goroutines := goroutines[p := Run(None, 0, 0, Queued)];
    }

    /** A goroutine that stops p and waits for its end. */
    method LaunchStop(p: Processor)
      requires p in goroutines
      modifies this`goroutines
      ensures goroutines == old(goroutines)[p := old(goroutines)[p].(asks := old(goroutines)[p].asks + 1)]
    {
      goroutines := goroutines[p := goroutines[p].(asks := goroutines[p].asks + 1)];
    }

    /** A goroutine that stops current, waits for its end, and starts p. */
    method LaunchRestart(current: Processor, p: Processor)
      requires current in goroutines && current != p
      modifies this`goroutines
      ensures goroutines
           == old(goroutines)[current := old(goroutines)[current].(asks := old(goroutines)[current].asks + 1)]
                                           [p := Run(Some(current), 0, 0, Queued)]
    {
      LaunchStop(current);
      goroutines := goroutines[p := Run(Some(current), 0, 0, Queued)];
    }

    /** The processors to start and to restart, made for the response. */
    method Evaluate(response: seq<Assigned>)
      returns (lt: map<ShardId, int>, start: seq<Processor>, restart: seq<Processor>,
               ghost made: map<ShardId, Processor>)
      requires OncePerShard(response)
      ensures made.Keys <= lt.Keys
      ensures lt == GivenBy(response) && made.Keys == Starts(Value(), lt) + Restarts(Value(), lt)
      ensures forall sh :: sh in made ==> fresh(made[sh]) && made[sh].shard == sh && made[sh].id == lt[sh]
      ensures MadeExactly(start, made, Starts(Value(), lt)) && MadeExactly(restart, made, Restarts(Value(), lt))
      ensures MadeAsTold(response, made)
    {
      hide MadeExactly, Starts, Restarts, GivenBy, MadeAsTold;
      ToldNone(response);
      lt, start, restart, made := map[], [], [], map[];
      GivenNone(response);
      NobodyMade(Value());
      for i := 0 to |response|
        invariant made.Keys <= lt.Keys
        invariant lt == GivenBy(response[..i]) && made.Keys == Starts(Value(), lt) + Restarts(Value(), lt)
        invariant forall sh :: sh in made ==> fresh(made[sh]) && made[sh].shard == sh && made[sh].id == lt[sh]
        invariant MadeExactly(start, made, Starts(Value(), lt)) && MadeExactly(restart, made, Restarts(Value(), lt))
        invariant MadeAsTold(response[..i], made)
      {
        var a := response[i];
        GivenStep(response, i);
        ToldStep(response, i, made);
        ghost var before := made;
        GivenMore(Value(), lt, a);
        ghost var starts, restarts := Starts(Value(), lt), Restarts(Value(), lt);
        lt := lt[a.shard := a.id];
        if a.shard !in shardProcessors {
          var p := new Processor(a.shard, a.id, a.sequenceNumber);
          MadeOneMore(start, made, starts, p);
          MadeAnother(restart, made, restarts, p);
          ToldMade(response, i, before, p);
          made := made[a.shard := p];
          start := start + [p];
        } else if shardProcessors[a.shard].id < a.id {
          var p := new Processor(a.shard, a.id, a.sequenceNumber);
          MadeOneMore(restart, made, restarts, p);
          MadeAnother(start, made, starts, p);
          ToldMade(response, i, before, p);
          made := made[a.shard := p];
          restart := restart + [p];
        }
      }
      assert response[..|response|] == response;
    }

    /** The processors whose shards are no longer assigned. */
    method FindStops(lt: map<ShardId, int>) returns (stop: seq<Processor>)
      requires Seated(Value())
      ensures MadeExactly(stop, shardProcessors, Stops(Value(), lt))
    {
      hide MadeExactly;
      stop := [];
      var todo := shardProcessors.Keys;
      NobodyMadeIn(shardProcessors);
      assert Stops(Value(), lt) - todo == {};
      while todo != {}
        invariant todo <= shardProcessors.Keys && MadeExactly(stop, shardProcessors, Stops(Value(), lt) - todo)
      {
        var sh :| sh in todo;
        if sh !in lt {
          MadeNext(stop, shardProcessors, Stops(Value(), lt) - todo, shardProcessors[sh]);
          stop := stop + [shardProcessors[sh]];
          assert Stops(Value(), lt) - todo + {sh} == Stops(Value(), lt) - (todo - {sh});
        } else {
          assert Stops(Value(), lt) - todo == Stops(Value(), lt) - (todo - {sh});
        }
        todo := todo - {sh};
      }
      assert Stops(Value(), lt) - todo == Stops(Value(), lt);
    }

    method StartAll(start: seq<Processor>, ghost s: Crew, ghost given: map<ShardId, int>,
                    ghost made: map<ShardId, Processor>)
      requires Seated(s) && MadeFor(s, given, made) && Value() == s && MadeExactly(start, made, Starts(s, given))
      modifies this`shardProcessors, this`goroutines
      ensures Value() == Partial(s, made, Starts(s, given), {})
    {
      hide Partial, MadeFor, Starts;
      PartialNone(s, made);
      ShardsFirst(start, made, Starts(s, given));
      for i := 0 to |start|
        invariant Shards(start[..i]) <= made.Keys && Value() == Partial(s, made, Shards(start[..i]), {})
      {
        var p := start[i];
        ShardsNext(start, made, Starts(s, given), i);
        PlaceOne(s, given, made, Shards(start[..i]), p);
        StartIsNew(s, given, p.shard);
        shardProcessors := shardProcessors[p.shard := p];
        Launch(p);
      }
      assert start[..|start|] == start;
    }

    method RestartAll(restart: seq<Processor>, ghost s: Crew, ghost given: map<ShardId, int>,
                      ghost made: map<ShardId, Processor>)
      requires Seated(s) && MadeFor(s, given, made) && MadeExactly(restart, made, Restarts(s, given))
      requires Starts(s, given) <= made.Keys && Value() == Partial(s, made, Starts(s, given), {})
      modifies this`shardProcessors, this`goroutines
      ensures Value() == Partial(s, made, made.Keys, {})
    {
      hide Partial, Starts, Restarts, MadeExactly, Seated;
      ShardsFirst(restart, made, Restarts(s, given));
      ghost var begun := Starts(s, given);
      assert begun + {} == begun;
      for i := 0 to |restart|
        invariant begun + Shards(restart[..i]) <= made.Keys
          && Value() == Partial(s, made, begun + Shards(restart[..i]), {})
      {
        var p := restart[i];
        ShardsNext(restart, made, Restarts(s, given), i);
        RestartIsOld(s, given, p.shard);
        PlaceOne(s, given, made, begun + Shards(restart[..i]), p);
        assert begun + Shards(restart[..i]) + {p.shard} == begun + Shards(restart[..i + 1]);
        var current := shardProcessors[p.shard];
        shardProcessors := shardProcessors[p.shard := p];
        LaunchRestart(current, p);
      }
      assert restart[..|restart|] == restart;
    }

    method StopAll(stop: seq<Processor>, ghost s: Crew, ghost given: map<ShardId, int>,
                   ghost made: map<ShardId, Processor>)
      requires Seated(s) && MadeFor(s, given, made) && given != map[]
      requires MadeExactly(stop, s.current, Stops(s, given)) && Value() == Partial(s, made, made.Keys, {})
      modifies this`shardProcessors, this`goroutines
      ensures Value() == Reconciled(s, given, made)
    {
      hide Partial, MadeFor, Stops, Reconciled;
      ShardsFirst(stop, s.current, Stops(s, given));
      for i := 0 to |stop|
        invariant Value() == Partial(s, made, made.Keys, Shards(stop[..i]))
      {
        var p := stop[i];
        ShardsNext(stop, s.current, Stops(s, given), i);
        RemoveOne(s, given, made, Shards(stop[..i]), p.shard);
        shardProcessors := shardProcessors - {p.shard};
        LaunchStop(p);
      }
      assert stop[..|stop|] == stop;
      PartialAll(s, given, made);
    }

    /** Apply a response of a manager in service. Without assignments it changes nothing. */
    method Reconcile(response: seq<Assigned>) returns (ghost made: map<ShardId, Processor>)
      requires OncePerShard(response) && WellRun(Value()) && !stopped
      modifies this`shardProcessors, this`goroutines
      ensures CanHappen(old(Value()), Respond(GivenBy(response), made))
      ensures Value() == Happened(old(Value()), Respond(GivenBy(response), made))
      ensures WellRun(Value()) && (response != [] ==> DoneAsTold(old(shardProcessors), shardProcessors, response))
    {
      hide WellRun, MadeExactly, Starts, Restarts, Stops, Reconciled, DoneAsTold, MadeAsTold, GivenBy;
      ghost var s := Value();
      WellRunSeated(s);
      if |response| > 0 {
        var lt, start, restart;
        lt, start, restart, made := Evaluate(response);
        GivenSome(response);
        assert MadeFor(s, lt, made);
        var stop := FindStops(lt);
        StartAll(start, s, lt, made);
        RestartAll(restart, s, lt, made);
        StopAll(stop, s, lt, made);
      } else {
        made := map[];
        NobodyMade(s);
        NothingGiven(s);
      }
      EventWellRun(s, Respond(GivenBy(response), made));
      if response != [] { ToldDone(s, response, made); }
    }

    /** The context is done: every current processor is stopped. */
    method Shutdown()
      requires WellRun(Value()) && !stopped
      modifies this
      ensures CanHappen(old(Value()), Handover.Event.Shutdown) && Value() == Down(old(Value())) && WellRun(Value())
    {
      hide WellRun, PartlyDown, Down, CanHappen;
      ghost var s := Value();
      ShutdownEvent(s);
      WellRunSeated(s);
      var todo := shardProcessors.Keys;
      PartlyDownNone(s);
      while todo != {}
        invariant todo <= shardProcessors.Keys && Value() == PartlyDown(s, s.current.Keys - todo)
      {
        var sh :| sh in todo;
        DownOne(s, s.current.Keys - todo, sh);
        assert s.current.Keys - todo + {sh} == s.current.Keys - (todo - {sh});
        LaunchStop(shardProcessors[sh]);
        todo := todo - {sh};
      }
      stopped := true;
      assert s.current.Keys - todo == s.current.Keys;
      PartlyDownAll(s);
    }
  }

  ghost function PartlyDown(s: Crew, done: set<ShardId>): Crew {
    s.(runs := map p | p in s.runs ::
         if s.Current(p) && p.shard in done then s.runs[p].(asks := s.runs[p].asks + 1) else s.runs[p])
  }

  lemma PartlyDownNone(s: Crew)
    ensures PartlyDown(s, {}) == s && s.current.Keys - s.current.Keys == {}
  {
  }

  lemma PartlyDownAll(s: Crew)
    ensures PartlyDown(s, s.current.Keys).(down := true) == Down(s)
  {
  }

  lemma DownOne(s: Crew, done: set<ShardId>, sh: ShardId)
    requires Seated(s) && sh in s.current && sh !in done
    ensures var c := s.current[sh];
      var t := PartlyDown(s, done);
      t.current == s.current && c in t.runs
        && PartlyDown(s, done + {sh}) == t.(runs := t.runs[c := t.runs[c].(asks := t.runs[c].asks + 1)])
  {
    var c := s.current[sh];
    var t := PartlyDown(s, done);
    var u := PartlyDown(s, done + {sh});
    forall p | p in s.runs ensures u.runs[p] == if p == c then t.runs[p].(asks := t.runs[p].asks + 1) else t.runs[p] {
    }
  }

  lemma ShutdownEvent(s: Crew)
    requires WellRun(s) && !s.down
    ensures CanHappen(s, Handover.Event.Shutdown) && WellRun(Down(s))
  {
    EventWellRun(s, Handover.Event.Shutdown);
    hide WellRun;
  }

  lemma WellRunSeated(s: Crew)
    requires WellRun(s)
    ensures Seated(s)
  {
  }

  lemma GivenSome(response: seq<Assigned>)
    requires response != []
    ensures GivenBy(response) != map[]
  {
    assert response[|response| - 1].shard in GivenBy(response);
  }

  lemma NothingGiven(s: Crew)
    ensures GivenBy([]) == map[] && MadeFor(s, map[], map[]) && Reconciled(s, map[], map[]) == s
  {
  }

  lemma StartIsNew(s: Crew, given: map<ShardId, int>, sh: ShardId)
    requires sh in Starts(s, given)
    ensures sh !in s.current
  {
  }

  lemma RestartIsOld(s: Crew, given: map<ShardId, int>, sh: ShardId)
    requires sh in Restarts(s, given)
    ensures sh in s.current && sh !in Starts(s, given)
  {
  }

  lemma NobodyMadeIn(made: map<ShardId, Processor>)
    ensures MadeExactly([], made, {})
  {
  }

  lemma MadeNext(ps: seq<Processor>, made: map<ShardId, Processor>, shards: set<ShardId>, p: Processor)
    requires MadeExactly(ps, made, shards) && p.shard in made && made[p.shard] == p && p.shard !in shards
    ensures MadeExactly(ps + [p], made, shards + {p.shard})
  {
    var qs := ps + [p];
    assert forall i :: 0 <= i < |ps| ==> qs[i] == ps[i] && ps[i].shard in Shards(ps);
    forall sh ensures sh in Shards(qs) <==> sh in shards + {p.shard} {
      if sh in shards {
        var i :| 0 <= i < |ps| && ps[i].shard == sh;
        assert qs[i].shard == sh;
      }
      assert qs[|ps|] == p;
    }
  }

  lemma ShardsFirst(ps: seq<Processor>, made: map<ShardId, Processor>, shards: set<ShardId>)
    requires MadeExactly(ps, made, shards)
    ensures Shards(ps[..0]) == {} && ps[..|ps|] == ps && Shards(ps) == shards
  {
  }

  lemma ShardsNext(ps: seq<Processor>, made: map<ShardId, Processor>, shards: set<ShardId>, i: nat)
    requires MadeExactly(ps, made, shards) && i < |ps|
    ensures Shards(ps[..i + 1]) == Shards(ps[..i]) + {ps[i].shard} && ps[i].shard !in Shards(ps[..i])
    ensures ps[i].shard in shards && ps[i].shard in made && made[ps[i].shard] == ps[i] && Shards(ps[..i]) <= shards
  {
    assert ps[i].shard in Shards(ps);
    forall sh ensures sh in Shards(ps[..i + 1]) <==> sh in Shards(ps[..i]) + {ps[i].shard} {
      if sh in Shards(ps[..i]) {
        var j :| 0 <= j < |ps[..i]| && ps[..i][j].shard == sh;
        assert ps[..i + 1][j].shard == sh;
      }
      assert ps[..i + 1][i] == ps[i];
    }
    forall sh | sh in Shards(ps[..i]) ensures sh in Shards(ps) {
      var j :| 0 <= j < |ps[..i]| && ps[..i][j].shard == sh;
      assert ps[j].shard == sh;
    }
  }

  /** ps are the processors made for the shards in shards, each once. */
  ghost predicate MadeExactly(ps: seq<Processor>, made: map<ShardId, Processor>, shards: set<ShardId>) {
    && (forall i :: 0 <= i < |ps| ==> ps[i].shard in made && made[ps[i].shard] == ps[i])
    && (forall i, j :: 0 <= i < j < |ps| ==> ps[i].shard != ps[j].shard)
    && Shards(ps) == shards
  }

  ghost function Shards(ps: seq<Processor>): set<ShardId> {
    set i | 0 <= i < |ps| :: ps[i].shard
  }

  lemma NobodyMade(s: Crew)
    ensures Starts(s, map[]) == {} && Restarts(s, map[]) == {} && MadeExactly([], map[], {})
  {
  }

  lemma GivenMore(s: Crew, lt: map<ShardId, int>, a: Assigned)
    requires a.shard !in lt
    ensures Starts(s, lt[a.shard := a.id]) == if a.shard !in s.current then Starts(s, lt) + {a.shard} else Starts(s, lt)
    ensures Restarts(s, lt[a.shard := a.id])
         == if a.shard in s.current && s.current[a.shard].id < a.id then Restarts(s, lt) + {a.shard}
           else Restarts(s, lt)
    ensures a.shard !in Starts(s, lt) && a.shard !in Restarts(s, lt)
  {
  }

  lemma MadeOneMore(ps: seq<Processor>, made: map<ShardId, Processor>, shards: set<ShardId>, p: Processor)
    requires MadeExactly(ps, made, shards) && p.shard !in made
    ensures MadeExactly(ps + [p], made[p.shard := p], shards + {p.shard})
  {
    var qs := ps + [p];
    assert forall i :: 0 <= i < |ps| ==> qs[i] == ps[i];
    forall sh ensures sh in Shards(qs) <==> sh in shards + {p.shard} {
      if sh in shards {
        var i :| 0 <= i < |ps| && ps[i].shard == sh;
        assert qs[i].shard == sh;
      }
      assert qs[|ps|] == p;
    }
  }

  lemma MadeAnother(ps: seq<Processor>, made: map<ShardId, Processor>, shards: set<ShardId>, p: Processor)
    requires MadeExactly(ps, made, shards) && p.shard !in made
    ensures MadeExactly(ps, made[p.shard := p], shards)
  {
  }
}
