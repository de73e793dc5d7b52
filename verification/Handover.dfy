/** The worker's shard processors over any sequence of assign responses: who is started, restarted and stopped,
    and how a shard is handed over from one processor to the next. */
module Handover {
  import opened Finite
  import opened Lineage
  import opened WorkerRecord

  /** A shard processor: an object, made for one assignment. */
  class Processor {
    const shard: ShardId
    const id: int
    const sequenceNumber: Mark

    constructor (shard: ShardId, id: int, sequenceNumber: Mark)
      ensures this.shard == shard && this.id == id && this.sequenceNumber == sequenceNumber
    {
      this.shard := shard;
      this.id := id;
      this.sequenceNumber := sequenceNumber;
    }
  }

  datatype Phase = Queued | Running | Finished

  /** asks counts the goroutines that will call Stop, stops the calls made. A processor that replaces another is
      queued behind it. */
  datatype Run = Run(behind: Option<Processor>, asks: nat, stops: nat, phase: Phase)

  datatype Crew = Crew(current: map<ShardId, Processor>, runs: map<Processor, Run>, down: bool) {
    predicate Current(p: Processor) {
      p.shard in current && current[p.shard] == p
    }
  }

  // ---------- One response ----------

  function Starts(s: Crew, given: map<ShardId, int>): set<ShardId> {
    given.Keys - s.current.Keys
  }

  function Restarts(s: Crew, given: map<ShardId, int>): set<ShardId> {
    set sh | sh in given && sh in s.current && s.current[sh].id < given[sh]
  }

  function Stops(s: Crew, given: map<ShardId, int>): set<ShardId> {
    s.current.Keys - given.Keys
  }

  /** The processors made for the shards to start and restart. */
  ghost predicate MadeFor(s: Crew, given: map<ShardId, int>, made: map<ShardId, Processor>) {
    && made.Keys == Starts(s, given) + Restarts(s, given)
    && (forall sh :: sh in made ==> made[sh].shard == sh && made[sh].id == given[sh] && made[sh] !in s.runs)
  }

  /** A processor that is replaced or no longer wanted will be stopped by one goroutine more. */
  function Asked(s: Crew, given: map<ShardId, int>, p: Processor): nat
    requires p in s.runs
  {
    s.runs[p].asks + if s.Current(p) && (p.shard in Restarts(s, given) || p.shard in Stops(s, given)) then 1 else 0
  }

  function Replaced(s: Crew, sh: ShardId): Option<Processor> {
    if sh in s.current then Some(s.current[sh]) else None
  }

  /** A response without assignments changes nothing. */
  function Reconciled(s: Crew, given: map<ShardId, int>, made: map<ShardId, Processor>): Crew
    requires made.Keys == Starts(s, given) + Restarts(s, given)
  {
    if given == map[] then s else
      s.(current := map sh | sh in given :: if sh in made then made[sh] else s.current[sh],
         runs := map p | p in s.runs.Keys + made.Values ::
           if p in s.runs then s.runs[p].(asks := Asked(s, given, p)) else Run(Replaced(s, p.shard), 0, 0, Queued))
  }

  // ---------- Everything that happens ----------

  datatype Event =
    | Respond(given: map<ShardId, int>, made: map<ShardId, Processor>)
    | Shutdown
    | CallStop(p: Processor)
    | Begin(p: Processor)
    | End(p: Processor)

  /** Goroutines run when they please: a replacement once its predecessor is done; a processor ends only after a
      stop signal. */
  ghost predicate CanHappen(s: Crew, e: Event) {
    match e
    case Respond(given, made) => !s.down && MadeFor(s, given, made)
    case Shutdown => !s.down
    case CallStop(p) => p in s.runs && s.runs[p].stops < s.runs[p].asks
    case Begin(p) =>
      p in s.runs && s.runs[p].phase == Queued &&
      (s.runs[p].behind.Some? ==> s.runs[p].behind.value in s.runs && s.runs[s.runs[p].behind.value].phase == Finished)
    case End(p) => p in s.runs && s.runs[p].phase == Running && s.runs[p].stops > 0
  }

  function Down(s: Crew): Crew {
    s.(runs := map p | p in s.runs :: if s.Current(p) then s.runs[p].(asks := s.runs[p].asks + 1) else s.runs[p],
       down := true)
  }

  ghost function Happened(s: Crew, e: Event): Crew
    requires CanHappen(s, e)
  {
    match e
    case Respond(given, made) => Reconciled(s, given, made)
    case Shutdown => Down(s)
    case CallStop(p) => s.(runs := s.runs[p := s.runs[p].(stops := s.runs[p].stops + 1)])
    case Begin(p) => s.(runs := s.runs[p := s.runs[p].(phase := Running)])
    case End(p) => s.(runs := s.runs[p := s.runs[p].(phase := Finished)])
  }

  ghost predicate CanAll(s: Crew, es: seq<Event>)
    decreases |es|, 0
  {
    es == [] || (CanAll(s, es[..|es| - 1]) && CanHappen(CrewAfter(s, es[..|es| - 1]), es[|es| - 1]))
  }

  ghost function CrewAfter(s: Crew, es: seq<Event>): Crew
    requires CanAll(s, es)
    decreases |es|, 1
  {
    if es == [] then s else Happened(CrewAfter(s, es[..|es| - 1]), es[|es| - 1])
  }

  // ---------- What always holds ----------

  /** Current processors are known, under their shard, and unasked until shutdown; nobody is asked twice; only the
      stopped finish; nobody starts before the predecessor is done, and predecessors are of the same shard with a
      smaller id, and have been asked to stop. */
  ghost predicate WellRun(s: Crew) {
    && (forall sh :: sh in s.current ==> s.current[sh] in s.runs && s.current[sh].shard == sh)
    && (forall p :: p in s.runs ==> s.runs[p].stops <= s.runs[p].asks <= 1)
    && (forall p :: p in s.runs && s.Current(p) && !s.down ==> s.runs[p].asks == 0)
    && (forall p :: p in s.runs && !s.Current(p) ==> s.runs[p].asks == 1)
    && (forall p :: p in s.runs && s.runs[p].phase == Finished ==> s.runs[p].stops == 1)
    && (forall p :: p in s.runs && s.runs[p].behind.Some? ==> BehindOk(s, p, s.runs[p].behind.value))
  }

  ghost predicate BehindOk(s: Crew, p: Processor, q: Processor)
    requires p in s.runs
  {
    && q in s.runs && q.shard == p.shard && q.id < p.id && !s.Current(q)
    && (s.runs[p].phase != Queued ==> s.runs[q].phase == Finished)
  }

  lemma RespondBehind(s: Crew, given: map<ShardId, int>, made: map<ShardId, Processor>)
    requires WellRun(s) && CanHappen(s, Respond(given, made)) && given != map[]
    ensures var t := Reconciled(s, given, made);
      forall p :: p in t.runs && t.runs[p].behind.Some? ==> BehindOk(t, p, t.runs[p].behind.value)
  {
    var t := Reconciled(s, given, made);
    forall p | p in t.runs && t.runs[p].behind.Some? ensures BehindOk(t, p, t.runs[p].behind.value) {
      if p in s.runs {
        assert BehindOk(s, p, s.runs[p].behind.value);
      } else {
        assert p.shard in made && made[p.shard] == p;
      }
    }
  }

  lemma RespondAsks(s: Crew, given: map<ShardId, int>, made: map<ShardId, Processor>)
    requires WellRun(s) && CanHappen(s, Respond(given, made)) && given != map[]
    ensures var t := Reconciled(s, given, made);
      && (forall p :: p in t.runs && t.Current(p) ==> t.runs[p].asks == 0)
      && (forall p :: p in t.runs && !t.Current(p) ==> t.runs[p].asks == 1)
  {
    hide BehindOk;
    var t := Reconciled(s, given, made);
    forall p | p in t.runs && p !in s.runs ensures t.Current(p) {
      assert p.shard in made && made[p.shard] == p;
    }
    forall p | p in s.runs ensures t.runs[p].asks == if t.Current(p) then 0 else 1 {
    }
  }

  lemma RespondRuns(s: Crew, given: map<ShardId, int>, made: map<ShardId, Processor>)
    requires WellRun(s) && CanHappen(s, Respond(given, made)) && given != map[]
    ensures var t := Reconciled(s, given, made);
      && t.down == s.down
      && (forall sh :: sh in t.current ==> t.current[sh] in t.runs && t.current[sh].shard == sh)
      && (forall p :: p in t.runs && p in s.runs ==>
          t.runs[p].stops == s.runs[p].stops && t.runs[p].phase == s.runs[p].phase
                                                     && s.runs[p].asks <= t.runs[p].asks)
      && (forall p :: p in t.runs && p !in s.runs ==> t.runs[p].stops == 0 && t.runs[p].phase == Queued)
  {
    hide BehindOk, Crew.Current;
  }

  lemma RespondWellRun(s: Crew, given: map<ShardId, int>, made: map<ShardId, Processor>)
    requires WellRun(s) && CanHappen(s, Respond(given, made))
    ensures WellRun(Reconciled(s, given, made))
  {
    if given == map[] {
      hide WellRun;
    } else {
      hide BehindOk, Crew.Current, Reconciled;
      RespondBehind(s, given, made);
      RespondAsks(s, given, made);
      RespondRuns(s, given, made);
    }
  }

  lemma QuietWellRun(s: Crew, e: Event)
    requires WellRun(s) && CanHappen(s, e) && !e.Respond?
    ensures WellRun(Happened(s, e))
  {
    QuietBehind(s, e);
    hide BehindOk;
    if e.Shutdown? { DownWellRun(s); } else { OneWellRun(s, e, e.p); }
  }

  lemma DownWellRun(s: Crew)
    requires WellRun(s) && !s.down
    requires forall p :: p in Down(s).runs && Down(s).runs[p].behind.Some? ==>
      BehindOk(Down(s), p, Down(s).runs[p].behind.value)
    ensures WellRun(Down(s))
  {
    hide BehindOk;
  }

  /** One processor's run goes on, within bounds. */
  lemma OneRun(s: Crew, e: Event, p: Processor)
    requires CanHappen(s, e) && !e.Respond? && !e.Shutdown? && e.p == p
    requires s.runs[p].stops <= s.runs[p].asks <= 1 && (s.runs[p].phase == Finished ==> s.runs[p].stops == 1)
    ensures var t := Happened(s, e);
      && t.current == s.current && t.down == s.down && t.runs.Keys == s.runs.Keys
      && (forall q :: q in s.runs && q != p ==> t.runs[q] == s.runs[q])
      && t.runs[p].asks == s.runs[p].asks && t.runs[p].stops <= t.runs[p].asks
      && (t.runs[p].phase == Finished ==> t.runs[p].stops == 1)
  {
  }

  lemma OneWellRun(s: Crew, e: Event, p: Processor)
    requires WellRun(s) && CanHappen(s, e) && !e.Respond? && !e.Shutdown? && e.p == p
    requires var t := Happened(s, e); forall q :: q in t.runs && t.runs[q].behind.Some? ==>
      BehindOk(t, q, t.runs[q].behind.value)
    ensures WellRun(Happened(s, e))
  {
    hide BehindOk, CanHappen, Happened;
    assert p in s.runs by { OneKnown(s, e, p); }
    OneRun(s, e, p);
  }

  lemma OneKnown(s: Crew, e: Event, p: Processor)
    requires CanHappen(s, e) && !e.Respond? && !e.Shutdown? && e.p == p
    ensures p in s.runs
  {
  }

  lemma QuietBehind(s: Crew, e: Event)
    requires WellRun(s) && CanHappen(s, e) && !e.Respond?
    ensures var t := Happened(s, e);
      forall p :: p in t.runs && t.runs[p].behind.Some? ==> BehindOk(t, p, t.runs[p].behind.value)
  {
    var t := Happened(s, e);
    forall p | p in t.runs && t.runs[p].behind.Some? ensures BehindOk(t, p, t.runs[p].behind.value) {
      assert BehindOk(s, p, s.runs[p].behind.value);
    }
  }

  lemma EventWellRun(s: Crew, e: Event)
    requires WellRun(s) && CanHappen(s, e)
    ensures WellRun(Happened(s, e))
  {
    hide WellRun;
    if e.Respond? {
      RespondWellRun(s, e.given, e.made);
    } else {
      QuietWellRun(s, e);
    }
  }

  const NOBODY := Crew(map[], map[], false)

  lemma {:induction false} WellRunAlways(s: Crew, es: seq<Event>)
    requires WellRun(s) && CanAll(s, es)
    ensures WellRun(CrewAfter(s, es))
    decreases |es|
  {
    if es != [] {
      hide WellRun, CanHappen, Happened;
      WellRunAlways(s, es[..|es| - 1]);
      EventWellRun(CrewAfter(s, es[..|es| - 1]), es[|es| - 1]);
    }
  }

  /** No processor is ever stopped twice: closing its channel cannot fail. */
  lemma StoppedOnce(es: seq<Event>, p: Processor)
    requires CanAll(NOBODY, es) && p in CrewAfter(NOBODY, es).runs
    ensures CrewAfter(NOBODY, es).runs[p].stops <= 1
    ensures CanHappen(CrewAfter(NOBODY, es), CallStop(p)) ==> CrewAfter(NOBODY, es).runs[p].stops == 0
  {
    WellRunAlways(NOBODY, es);
  }

  /** After a response with assignments exactly the assigned shards have a processor, which is queued or running and
      has not been asked to stop; its id is at least the assigned one, and no smaller than the id held before. */
  lemma ExactlyAssigned(s: Crew, given: map<ShardId, int>, made: map<ShardId, Processor>)
    requires WellRun(s) && CanHappen(s, Respond(given, made)) && given != map[]
    ensures var t := Reconciled(s, given, made);
      && t.current.Keys == given.Keys
      && (forall sh :: sh in given ==> (
            t.current[sh] in t.runs && t.current[sh].shard == sh
            && t.runs[t.current[sh]].phase != Finished && t.runs[t.current[sh]].asks == 0))
      && (forall sh :: sh in given && sh !in s.current ==> t.current[sh].id == given[sh])
      && (forall sh :: sh in given && sh in s.current ==> (
            t.current[sh].id == (if s.current[sh].id < given[sh] then given[sh] else s.current[sh].id)
            && (t.current[sh] == s.current[sh] <==> given[sh] <= s.current[sh].id)))
  {
    RespondWellRun(s, given, made);
    var t := Reconciled(s, given, made);
    forall sh | sh in given ensures t.runs[t.current[sh]].phase != Finished && t.runs[t.current[sh]].asks == 0 {
      assert t.Current(t.current[sh]);
    }
  }

  // ---------- The chain of restarts ----------

  /** q is p, or is queued behind a processor that descends from p. */
  ghost predicate Descends(runs: map<Processor, Run>, p: Processor, q: Processor, steps: nat)
    decreases steps
  {
    && q in runs
    && if steps == 0 then p == q
      else runs[q].behind.Some? && Descends(runs, p, runs[q].behind.value, steps - 1)
  }

  /** Once a processor has begun, all those it descends from are done. */
  lemma {:induction false} ForebearsDone(s: Crew, p: Processor, q: Processor, steps: nat)
    requires WellRun(s) && Descends(s.runs, p, q, steps) && steps > 0 && s.runs[q].phase != Queued
    ensures p in s.runs && s.runs[p].phase == Finished
    decreases steps
  {
    var b := s.runs[q].behind.value;
    assert BehindOk(s, q, b);
    if steps > 1 { ForebearsDone(s, p, b, steps - 1); }
  }

  /** Of two processors in one chain at most one runs, whatever happens when. */
  lemma OneRuns(es: seq<Event>, p: Processor, q: Processor, steps: nat)
    requires CanAll(NOBODY, es) && Descends(CrewAfter(NOBODY, es).runs, p, q, steps)
    requires CrewAfter(NOBODY, es).runs[q].phase == Running && p in CrewAfter(NOBODY, es).runs && p != q
    ensures CrewAfter(NOBODY, es).runs[p].phase == Finished
  {
    WellRunAlways(NOBODY, es);
    ForebearsDone(CrewAfter(NOBODY, es), p, q, steps);
  }

  /** The shard is in every response with assignments. */
  ghost predicate HeldThroughout(es: seq<Event>, sh: ShardId) {
    forall i :: 0 <= i < |es| && es[i].Respond? && es[i].given != map[] ==> sh in es[i].given
  }

  /** Nobody's predecessor changes. */
  lemma BehindKept(s: Crew, e: Event)
    requires CanHappen(s, e)
    ensures forall p :: p in s.runs ==> p in Happened(s, e).runs && Happened(s, e).runs[p].behind == s.runs[p].behind
  {
  }

  lemma {:induction false} DescendsKept(s: map<Processor, Run>, t: map<Processor, Run>, p: Processor, q: Processor,
                                        steps: nat)
    requires Descends(s, p, q, steps)
    requires forall r :: r in s ==> r in t && t[r].behind == s[r].behind
    ensures Descends(t, p, q, steps)
    decreases steps
  {
    if steps > 0 { DescendsKept(s, t, p, s[q].behind.value, steps - 1); }
  }

  /** While a shard is held, every processor that comes to hold it descends from the one that held it first: the
      chain of restarts is unbroken. */
  lemma {:induction false} HeldChain(s: Crew, es: seq<Event>, sh: ShardId) returns (steps: nat)
    requires WellRun(s) && CanAll(s, es) && HeldThroughout(es, sh) && sh in s.current
    ensures var t := CrewAfter(s, es);
      sh in t.current && Descends(t.runs, s.current[sh], t.current[sh], steps)
    decreases |es|
  {
    hide WellRun, CanHappen, Happened, Descends;
    if es == [] {
      steps := 0;
      DescendsNone(s, sh);
    } else {
      var front := es[..|es| - 1];
      var e := es[|es| - 1];
      steps := HeldChain(s, front, sh);
      var u := CrewAfter(s, front);
      WellRunAlways(s, front);
      BehindKept(u, e);
      HeldNext(u, e, sh);
      DescendsKept(u.runs, Happened(u, e).runs, s.current[sh], u.current[sh], steps);
      if Happened(u, e).current[sh] != u.current[sh] {
        DescendsOnce(Happened(u, e).runs, s.current[sh], Happened(u, e).current[sh], steps);
        steps := steps + 1;
      }
    }
  }

  lemma DescendsNone(s: Crew, sh: ShardId)
    requires WellRun(s) && sh in s.current
    ensures Descends(s.runs, s.current[sh], s.current[sh], 0)
  {
  }

  lemma DescendsOnce(runs: map<Processor, Run>, p: Processor, q: Processor, steps: nat)
    requires q in runs && runs[q].behind.Some? && Descends(runs, p, runs[q].behind.value, steps)
    ensures Descends(runs, p, q, steps + 1)
  {
  }

  /** One event leaves a held shard with its processor, or with one queued behind it. */
  lemma HeldNext(s: Crew, e: Event, sh: ShardId)
    requires WellRun(s) && CanHappen(s, e) && sh in s.current && HeldThroughout([e], sh)
    ensures var t := Happened(s, e);
      && sh in t.current && t.current[sh] in t.runs
      && (t.current[sh] == s.current[sh] || t.runs[t.current[sh]].behind == Some(s.current[sh]))
  {
    hide BehindOk;
    assert HeldThroughout([e], sh) ==> (e.Respond? && e.given != map[] ==> sh in e.given) by { assert [e][0] == e; }
  }

  /** While a worker holds a shard without a break, at most one of the processors it has had for it runs: when the
      present one runs, the first one is the same or done. */
  lemma HandedOver(before: seq<Event>, es: seq<Event>, sh: ShardId)
    requires CanAll(NOBODY, before) && sh in CrewAfter(NOBODY, before).current
    requires CanAll(CrewAfter(NOBODY, before), es) && HeldThroughout(es, sh)
    ensures var s := CrewAfter(NOBODY, before);
      var t := CrewAfter(s, es);
      && sh in t.current && t.current[sh] in t.runs && s.current[sh] in t.runs
      && s.current[sh].id <= t.current[sh].id
      && (t.current[sh] == s.current[sh] || t.runs[t.current[sh]].phase == Queued
          || t.runs[s.current[sh]].phase == Finished)
  {
    WellRunAlways(NOBODY, before);
    var s := CrewAfter(NOBODY, before);
    WellRunAlways(s, es);
    var steps := HeldChain(s, es, sh);
    var t := CrewAfter(s, es);
    hide CanAll, CrewAfter;
    DescendsKnown(t, s.current[sh], t.current[sh], steps);
    if t.current[sh] != s.current[sh] && t.runs[t.current[sh]].phase != Queued {
      ForebearsDone(t, s.current[sh], t.current[sh], steps);
    }
  }

  lemma {:induction false} DescendsKnown(s: Crew, p: Processor, q: Processor, steps: nat)
    requires WellRun(s) && Descends(s.runs, p, q, steps)
    ensures p in s.runs && p.id <= q.id && (steps > 0 ==> p.id < q.id)
    decreases steps
  {
    if steps > 0 {
      assert BehindOk(s, q, s.runs[q].behind.value);
      DescendsKnown(s, p, s.runs[q].behind.value, steps - 1);
    }
  }

  // ---------- Why the chain must be unbroken ----------

  /** A shard that is given up and given again gets a processor that waits for nobody. */
  lemma GivenAgain(s: Crew, sh: ShardId, p: Processor, without: map<ShardId, int>, made: map<ShardId, Processor>,
                   again: map<ShardId, int>, remade: map<ShardId, Processor>)
    requires p in s.runs && without != map[] && sh !in without && CanHappen(s, Respond(without, made))
    requires sh in again && sh in remade && CanHappen(Reconciled(s, without, made), Respond(again, remade))
    ensures var u := Reconciled(Reconciled(s, without, made), again, remade);
      && p in u.runs && u.runs[p].phase == s.runs[p].phase
      && remade[sh] in u.runs && u.runs[remade[sh]] == Run(None, 0, 0, Queued) && remade[sh] != p
  {
    var t := Reconciled(s, without, made);
    assert sh !in t.current && p in t.runs && t.runs[p].phase == s.runs[p].phase;
    hide MadeFor;
    assert MadeFor(t, again, remade);
    MadeNew(t, again, remade, sh);
  }

  lemma MadeNew(s: Crew, given: map<ShardId, int>, made: map<ShardId, Processor>, sh: ShardId)
    requires MadeFor(s, given, made) && sh in made
    ensures made[sh] !in s.runs && made[sh].shard == sh
  {
  }

  /** ... and then both may run at once. */
  lemma BrokenChain(s: Crew, sh: ShardId, p: Processor, without: map<ShardId, int>, made: map<ShardId, Processor>,
                    again: map<ShardId, int>, remade: map<ShardId, Processor>)
    requires p in s.runs && s.runs[p].phase == Running
    requires without != map[] && sh !in without && CanHappen(s, Respond(without, made))
    requires sh in again && sh in remade && CanHappen(Reconciled(s, without, made), Respond(again, remade))
    ensures var es := [Respond(without, made), Respond(again, remade), Begin(remade[sh])];
      && CanAll(s, es) && p != remade[sh] && p in CrewAfter(s, es).runs && remade[sh] in CrewAfter(s, es).runs
      && CrewAfter(s, es).runs[p].phase == Running && CrewAfter(s, es).runs[remade[sh]].phase == Running
  {
    var es := [Respond(without, made), Respond(again, remade), Begin(remade[sh])];
    var t := Reconciled(s, without, made);
    var u := Reconciled(t, again, remade);
    GivenAgain(s, sh, p, without, made, again, remade);
    hide Reconciled;
    Extend(s, es, 0, s, t);
    Extend(s, es, 1, t, u);
    Extend(s, es, 2, u, Happened(u, es[2]));
    assert es[..3] == es;
  }

  lemma NoEvents(s: Crew)
    ensures CanAll(s, []) && CrewAfter(s, []) == s
  {
  }

  lemma NextEvent(s: Crew, es: seq<Event>, e: Event)
    requires CanAll(s, es) && CanHappen(CrewAfter(s, es), e)
    ensures CanAll(s, es + [e]) && CrewAfter(s, es + [e]) == Happened(CrewAfter(s, es), e)
  {
    hide CanHappen, Happened;
    assert (es + [e])[..|es|] == es;
  }

  lemma {:induction false} JoinRuns(s: Crew, es: seq<Event>, more: seq<Event>)
    requires CanAll(s, es) && CanAll(CrewAfter(s, es), more)
    ensures CanAll(s, es + more) && CrewAfter(s, es + more) == CrewAfter(CrewAfter(s, es), more)
    decreases |more|
  {
    hide CanHappen, Happened;
    if more == [] {
      assert es + more == es;
    } else {
      var front := more[..|more| - 1];
      JoinRuns(s, es, front);
      NextEvent(s, es + front, more[|more| - 1]);
      assert es + front + [more[|more| - 1]] == es + more;
    }
  }

  lemma Extend(start: Crew, es: seq<Event>, k: nat, s: Crew, t: Crew)
    requires k < |es| && CanAll(start, es[..k]) && CrewAfter(start, es[..k]) == s
    requires CanHappen(s, es[k]) && Happened(s, es[k]) == t
    ensures CanAll(start, es[..k + 1]) && CrewAfter(start, es[..k + 1]) == t
  {
    assert es[..k + 1][..k] == es[..k];
  }
}
