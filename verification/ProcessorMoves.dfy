/** The shard processor's code does nothing that the processors of the delivery model cannot do: its acts, in
    whatever it meets, are those of a run of the model's local moves. */
module ProcessorMoves {
  import opened Finite
  import opened Lineage
  import opened WorkerRecord
  import opened ManagerModel
  import opened ShardProcessors
  import opened AssignCalls
  import D = Delivery
  import F = Fencing

  /** What a local move shows of itself. */
  function ActOf(p: D.Processor, l: D.Local): seq<Act> {
    match l
    case Begins(at) => [Subscribed(at, D.AtLatest(p))]
    case Handles => if p.phase.Reading? then [Processed(p.phase.pos + 1)] else []
    case Sends(mark) => if p.phase.Reading? || p.phase.Waiting? then [Sent(mark, p.phase.pos)] else []
    case _ => []
  }

  ghost predicate CanDo(p: D.Processor, ls: seq<D.Local>)
    decreases |ls|
  {
    ls == [] || (D.CanLocally(p, ls[0]) && CanDo(D.Locally(p, ls[0]), ls[1..]))
  }

  ghost function Finally(p: D.Processor, ls: seq<D.Local>): D.Processor
    requires CanDo(p, ls)
    decreases |ls|
  {
    if ls == [] then p else Finally(D.Locally(p, ls[0]), ls[1..])
  }

  ghost function Shown(p: D.Processor, ls: seq<D.Local>): seq<Act>
    requires CanDo(p, ls)
    decreases |ls|
  {
    if ls == [] then [] else ActOf(p, ls[0]) + Shown(D.Locally(p, ls[0]), ls[1..])
  }

  lemma DoFirst(p: D.Processor, ls: seq<D.Local>)
    requires CanDo(p, ls) && ls != []
    ensures D.CanLocally(p, ls[0]) && CanDo(D.Locally(p, ls[0]), ls[1..])
    ensures Finally(p, ls) == Finally(D.Locally(p, ls[0]), ls[1..])
    ensures Shown(p, ls) == ActOf(p, ls[0]) + Shown(D.Locally(p, ls[0]), ls[1..])
  {
    hide D.CanLocally, D.Locally;
  }

  lemma FirstDone(p: D.Processor, l: D.Local, ls: seq<D.Local>)
    requires D.CanLocally(p, l) && CanDo(D.Locally(p, l), ls)
    ensures CanDo(p, [l] + ls) && Finally(p, [l] + ls) == Finally(D.Locally(p, l), ls)
    ensures Shown(p, [l] + ls) == ActOf(p, l) + Shown(D.Locally(p, l), ls)
  {
    hide D.CanLocally, D.Locally;
    assert ([l] + ls)[1..] == ls;
  }

  lemma {:induction false} DoBoth(p: D.Processor, a: seq<D.Local>, b: seq<D.Local>)
    requires CanDo(p, a) && CanDo(Finally(p, a), b)
    ensures CanDo(p, a + b) && Finally(p, a + b) == Finally(Finally(p, a), b)
    ensures Shown(p, a + b) == Shown(p, a) + Shown(Finally(p, a), b)
    decreases |a|
  {
    hide D.CanLocally, D.Locally, CanDo, Finally, Shown, ActOf;
    if a == [] {
      DoNothing(p);
      assert a + b == b;
    } else {
      DoFirst(p, a);
      var q := D.Locally(p, a[0]);
      assert CanDo(q, a[1..]) && Finally(p, a) == Finally(q, a[1..]);
      DoBoth(q, a[1..], b);
      assert [a[0]] + (a[1..] + b) == a + b;
      FirstDone(p, a[0], a[1..] + b);
      assert Shown(p, a) + Shown(Finally(p, a), b)
        == ActOf(p, a[0]) + (Shown(q, a[1..]) + Shown(Finally(q, a[1..]), b));
    }
  }

  lemma DoOne(p: D.Processor, l: D.Local)
    requires D.CanLocally(p, l)
    ensures CanDo(p, [l]) && Finally(p, [l]) == D.Locally(p, l) && Shown(p, [l]) == ActOf(p, l)
  {
    hide D.CanLocally, D.Locally;
    assert [l][1..] == [];
  }

  lemma {:induction false} HandlesMany(p: D.Processor, pos: nat, last: Option<nat>, inside: bool, size: nat)
    returns (ls: seq<D.Local>)
    requires p.phase == D.Reading(pos, last, inside)
    ensures CanDo(p, ls) && Finally(p, ls) == p.(phase := D.Reading(pos + size, last, size > 0 || inside))
    ensures Shown(p, ls) == Records(pos, size)
    decreases size
  {
    if size == 0 {
      ls := [];
    } else {
      ls := HandlesMany(p, pos, last, inside, size - 1);
      var q := Finally(p, ls);
      DoOne(q, D.Handles);
      DoBoth(p, ls, [D.Handles]);
      ls := ls + [D.Handles];
      assert Records(pos, size) == Records(pos, size - 1) + [Processed(pos + size)];
    }
  }

  /** A checkpoint, sent n times. */
  lemma {:induction false} SendsMany(p: D.Processor, mark: Mark, n: nat) returns (ls: seq<D.Local>)
    requires n > 0 && D.CanLocally(p, D.Sends(mark)) && (mark.At? || mark == Closed)
    ensures CanDo(p, ls) && Finally(p, ls) == p.(phase := D.Waiting(p.phase.pos, p.phase.last))
    ensures Shown(p, ls) == Sends(mark, p.phase.pos, n)
    decreases n
  {
    if n == 1 {
      DoOne(p, D.Sends(mark));
      ls := [D.Sends(mark)];
    } else {
      ls := SendsMany(p, mark, n - 1);
      var q := Finally(p, ls);
      DoOne(q, D.Sends(mark));
      DoBoth(p, ls, [D.Sends(mark)]);
      ls := ls + [D.Sends(mark)];
    }
  }

  lemma {:induction false} SomeTries(replies: seq<Reply>)
    ensures Tries(replies) > 0
  {
  }

  /** One event of the stream. */
  lemma TurnMoves(interval: int, item: Item, p: D.Processor, pos: nat, number: Option<nat>, since: int)
    returns (ls: seq<D.Local>)
    requires p.phase == D.Reading(pos, number, false)
    ensures var t := TurnOf(interval, item, pos, number, since);
      && CanDo(p, ls) && Shown(p, ls) == t.acts
      && (t.goesOn ==> Finally(p, ls) == p.(phase := D.Reading(t.pos, t.number, false)))
  {
    hide Records, Sends, Tries, Answer, CanDo, Finally, Shown;
    if item.Odd? {
      ls := [];
      DoNothing(p);
    } else {
      var end := pos + item.size;
      ls := HandlesMany(p, pos, number, false, item.size);
      if !item.last {
        var q := Finally(p, ls);
        DoOne(q, D.Continues);
        DoBoth(p, ls, [D.Continues]);
        ls := ls + [D.Continues];
        assert Records(pos, item.size) + [] == Records(pos, item.size);
      }
      if item.last || item.at - since >= interval {
        SomeTries(item.replies);
        var q := Finally(p, ls);
        var more := SendsMany(q, MarkAt(item.last, end), Tries(item.replies));
        DoBoth(p, ls, more);
        ls := ls + more;
        if GoesOn(Answer(item.replies), item.last) {
          var r := Finally(p, ls);
          DoOne(r, D.Hears(true));
          DoBoth(p, ls, [D.Hears(true)]);
          ls := ls + [D.Hears(true)];
          var acts := Records(pos, item.size) + Sends(MarkAt(item.last, end), end, Tries(item.replies));
          assert acts + [] == acts;
        }
      }
    }
  }

  lemma DoNothing(p: D.Processor)
    ensures CanDo(p, []) && Finally(p, []) == p && Shown(p, []) == []
  {
  }

  /** A whole stream. */
  lemma {:induction false} ReadMoves(interval: int, items: seq<Item>, stopped: bool, p: D.Processor, pos: nat,
                                     number: Option<nat>,
                                     since: int) returns (ls: seq<D.Local>)
    requires p.phase == D.Reading(pos, number, false)
    ensures var o := Read(interval, items, stopped, pos, number, since);
      && CanDo(p, ls) && Shown(p, ls) == o.acts
      && (o.again ==> Finally(p, ls) == p.(resume := o.number, phase := D.Idle))
    decreases |items|
  {
    hide TurnOf, CanDo, Finally, Shown;
    if items == [] {
      if stopped {
        ls := [];
        DoNothing(p);
      } else {
        ls := [D.Ends];
        DoOne(p, D.Ends);
      }
    } else {
      var t := TurnOf(interval, items[0], pos, number, since);
      ls := TurnMoves(interval, items[0], p, pos, number, since);
      if t.goesOn {
        var more := ReadMoves(interval, items[1..], stopped, Finally(p, ls), t.pos, t.number, t.since);
        DoBoth(p, ls, more);
        ls := ls + more;
      }
    }
  }

  lemma SubscribeMoves(interval: int, sub: Subscription, p: D.Processor) returns (ls: seq<D.Local>)
    requires sub.Stream? && p.phase == D.Idle && (p.grant.mark.At? || p.grant.mark == Latest)
    ensures var o := AfterSubscribing(interval, p.grant.mark, p.resume, sub);
      && CanDo(p, ls) && Shown(p, ls) == o.acts
      && (o.again ==> Finally(p, ls) == p.(resume := o.number, phase := D.Idle))
  {
    hide Read, CanDo, Finally, Shown;
    var pos := Position(p.grant.mark, p.resume, sub.tip);
    DoOne(p, D.Begins(pos));
    var more := ReadMoves(interval, sub.items, sub.stopped, D.Locally(p, D.Begins(pos)), pos, None, sub.began);
    DoBoth(p, [D.Begins(pos)], more);
    ls := [D.Begins(pos)] + more;
  }

  /** Whatever a processor meets, what Start does is a run of the local moves of the delivery model: it subscribes,
      resumes and sends checkpoints only where the model lets it. */
  lemma {:induction false} StartMoves(interval: int, p: D.Processor, subs: seq<Subscription>) returns (ls: seq<D.Local>)
    requires p.phase == D.Idle && (p.grant.mark.At? || p.grant.mark == Latest)
    ensures CanDo(p, ls) && Shown(p, ls) == All(interval, p.grant.mark, p.resume, subs)
    decreases |subs|
  {
    hide AfterSubscribing, CanDo, Finally, Shown;
    if subs == [] {
      ls := [];
      DoNothing(p);
    } else if subs[0].Refused? {
      ls := StartMoves(interval, p, subs[1..]);
    } else {
      var o := AfterSubscribing(interval, p.grant.mark, p.resume, subs[0]);
      ls := SubscribeMoves(interval, subs[0], p);
      if o.again {
        var more := StartMoves(interval, Finally(p, ls), subs[1..]);
        DoBoth(p, ls, more);
        ls := ls + more;
      }
    }
  }

  // ---------- In the world ----------

  /** The moves tell of one log, with tip records so far: LATEST is at or past the tip, no record comes after the end,
      and CLOSED is sent there. */
  ghost predicate Fits(p: D.Processor, ls: seq<D.Local>, tip: nat, ended: bool)
    decreases |ls|
  {
    ls == [] || (D.CanLocally(p, ls[0]) && Fitting(p, ls[0], tip, ended)
                 && Fits(D.Locally(p, ls[0]), ls[1..], TipAfter(p, ls[0], tip), EndedAfter(ls[0], ended)))
  }

  predicate Fitting(p: D.Processor, l: D.Local, tip: nat, ended: bool) {
    match l
    case Begins(at) => D.AtLatest(p) ==> tip <= at && (ended ==> at == tip)
    case Handles => p.phase.Reading? && ended ==> p.phase.pos < tip
    case Sends(mark) => mark == Closed && (p.phase.Reading? || p.phase.Waiting?) ==> p.phase.pos == tip
    case _ => true
  }

  function TipAfter(p: D.Processor, l: D.Local, tip: nat): nat {
    match l
    case Begins(at) => if D.AtLatest(p) then at else tip
    case Handles => if p.phase.Reading? && tip <= p.phase.pos then p.phase.pos + 1 else tip
    case _ => tip
  }

  predicate EndedAfter(l: D.Local, ended: bool) {
    ended || l == D.Sends(Closed)
  }

  /** What the acts show of one log, with tip records so far: LATEST is at or past the tip, no record comes after the
      end, and CLOSED is sent there. */
  ghost predicate OneLog(acts: seq<Act>, tip: nat, ended: bool)
    decreases |acts|
  {
    acts == [] ||
    match acts[0]
    case Subscribed(after, latest) =>
      (latest ==> tip <= after && (ended ==> after == tip)) && OneLog(acts[1..], if latest then after else tip, ended)
    case Processed(number) => (ended ==> number <= tip)
      && OneLog(acts[1..], if tip < number then number else tip, ended)
    case Sent(mark, upto) => (mark == Closed ==> upto == tip) && OneLog(acts[1..], tip, ended || mark == Closed)
  }

  /** If the acts tell of one log, so do the moves. */
  lemma {:induction false} LogFits(p: D.Processor, ls: seq<D.Local>, tip: nat, ended: bool)
    requires CanDo(p, ls) && OneLog(Shown(p, ls), tip, ended)
    ensures Fits(p, ls, tip, ended)
    decreases |ls|
  {
    if ls != [] {
      DoFirst(p, ls);
      var q := D.Locally(p, ls[0]);
      FirstFits(p, ls[0], Shown(q, ls[1..]), tip, ended);
      hide OneLog, D.CanLocally, D.Locally, Fitting, TipAfter, EndedAfter, ActOf;
      LogFits(q, ls[1..], TipAfter(p, ls[0], tip), EndedAfter(ls[0], ended));
    }
  }

  lemma FirstFits(p: D.Processor, l: D.Local, rest: seq<Act>, tip: nat, ended: bool)
    requires D.CanLocally(p, l) && OneLog(ActOf(p, l) + rest, tip, ended)
    ensures Fitting(p, l, tip, ended) && OneLog(rest, TipAfter(p, l, tip), EndedAfter(l, ended))
  {
    if ActOf(p, l) == [] {
      assert ActOf(p, l) + rest == rest;
    } else {
      assert ActOf(p, l) == [ActOf(p, l)[0]] && (ActOf(p, l) + rest)[1..] == rest;
    }
  }

  /** v differs from u at most in the log of sh, what is done of it, processor p, and requests begun since. */
  ghost predicate Beside(u: D.World, v: D.World, p: nat, sh: ShardId) {
    && v.managers == u.managers && v.loads == u.loads && v.finished == u.finished && v.grants == u.grants
    && v.fence.store == u.fence.store && v.fence.log == u.fence.log
    && (forall r :: r in u.fence.requests ==> r in v.fence.requests && v.fence.requests[r] == u.fence.requests[r])
    && (forall r :: r in u.origins ==> r in v.origins && v.origins[r] == u.origins[r])
    && v.processors - {p} == u.processors - {p} && u.done <= v.done
    && forall x :: x != sh ==> v.Tip(x) == u.Tip(x) && (x in v.ended <==> x in u.ended)
  }

  /** The way out for p's checkpoints: a manager in service at which its worker owns the shard; or none, and they
      get lost. */
  ghost predicate WayOut(u: D.World, grant: D.Grant, way: Option<D.Origin>) {
    way.Some? ==>
      && way.value.manager in u.managers && u.managers[way.value.manager].inService
      && OwnedUnder(u.managers[way.value.manager], way.value.worker, grant.shard, grant.id)
  }

  /** If there is a way out, a request with that checkpoint has begun. */
  ghost predicate Begun(v: D.World, grant: D.Grant, way: Option<D.Origin>, mark: Mark) {
    way.Some? ==> exists r :: BegunAs(v, grant, way.value, mark, r)
  }

  ghost predicate BegunAs(v: D.World, grant: D.Grant, origin: D.Origin, mark: Mark, r: nat) {
    && r in v.fence.requests && r in v.origins && v.origins[r] == origin
    && v.fence.requests[r] == F.Request(grant.shard, grant.id, mark, 0, F.Trying, 0, 0)
  }

  lemma BegunStays(u: D.World, v: D.World, p: nat, sh: ShardId, grant: D.Grant, way: Option<D.Origin>, mark: Mark)
    requires Beside(u, v, p, sh) && Begun(u, grant, way, mark)
    ensures Begun(v, grant, way, mark)
  {
    if way.Some? {
      var r :| BegunAs(u, grant, way.value, mark, r);
      assert BegunAs(v, grant, way.value, mark, r);
    }
  }

  lemma {:induction false} FreshNumber(s: set<nat>) returns (n: nat)
    ensures forall k :: k in s ==> k < n
    decreases |s|
  {
    n := 0;
    if s != {} {
      var k :| k in s;
      n := FreshNumber(s - {k});
      if n <= k { n := k + 1; }
      assert s == (s - {k}) + {k};
    }
  }

  lemma BesideJoin(u: D.World, v: D.World, w: D.World, p: nat, sh: ShardId)
    requires Beside(u, v, p, sh) && Beside(v, w, p, sh)
    ensures Beside(u, w, p, sh)
  {
  }

  lemma {:induction false} AppendTo(cfg: Config, w: D.World, es: seq<D.Event>, p: nat, sh: ShardId, n: nat)
    returns (all: seq<D.Event>)
    requires D.CanAll(cfg, w, es)
    requires var u := D.WorldAfter(cfg, w, es); u.Tip(sh) <= n && (u.Tip(sh) < n ==> sh !in u.ended)
    ensures D.CanAll(cfg, w, all)
    ensures var u := D.WorldAfter(cfg, w, es);
      var v := D.WorldAfter(cfg, w, all);
      Beside(u, v, p, sh) && v.Tip(sh) == n && v.ended == u.ended && v.processors == u.processors
    decreases n
  {
    hide D.CanAll, D.WorldAfter;
    all := es;
    if D.WorldAfter(cfg, w, es).Tip(sh) < n {
      all := AppendTo(cfg, w, es, p, sh, n - 1);
      D.NextEvent(cfg, w, all, D.Append(sh));
      all := all + [D.Append(sh)];
    }
  }

  /** The processor has not been started on an empty or CLOSED assignment. */
  predicate Startable(p: D.Processor) {
    p.grant.mark.At? || p.grant.mark == Latest
  }

  /** From u to v, p has made the local move l, and nothing else has happened than what it needed. */
  ghost predicate Lifted(u: D.World, v: D.World, p: nat, sh: ShardId, l: D.Local, way: Option<D.Origin>)
    requires p in u.processors
  {
    var me := u.processors[p];
    && D.CanLocally(me, l) && Beside(u, v, p, sh) && p in v.processors && v.processors[p] == D.Locally(me, l)
    && v.Tip(sh) == TipAfter(me, l, u.Tip(sh)) && (sh in v.ended <==> EndedAfter(l, sh in u.ended))
    && ShownKept(v, me.grant, way, ActOf(me, l))
  }

  /** What is shown as processed is done, and what is shown as sent has begun, if it could. */
  ghost predicate ShownKept(v: D.World, grant: D.Grant, way: Option<D.Origin>, acts: seq<Act>) {
    && (forall n: nat :: Processed(n) in acts ==> D.Record(grant.shard, n) in v.done)
    && (forall mark, n: nat :: Sent(mark, n) in acts ==> Begun(v, grant, way, mark))
  }

  lemma KeptJoin(u: D.World, v: D.World, p: nat, sh: ShardId, grant: D.Grant, way: Option<D.Origin>, a: seq<Act>,
                 b: seq<Act>)
    requires Beside(u, v, p, sh) && ShownKept(u, grant, way, a) && ShownKept(v, grant, way, b)
    ensures ShownKept(v, grant, way, a + b)
  {
    hide Begun;
    forall mark, n: nat | Sent(mark, n) in a + b ensures Begun(v, grant, way, mark) {
      if Sent(mark, n) in a { BegunStays(u, v, p, sh, grant, way, mark); }
    }
  }

  /** The event by which p makes the local move l. */
  function EventOf(p: nat, l: D.Local, way: Option<D.Origin>, r: nat): D.Event {
    match l
    case Begins(at) => D.Subscribe(p)
    case Handles => D.Handle(p)
    case Continues => D.Continue(p)
    case Ends => D.StreamEnds(p)
    case Sends(mark) => if way.Some? then D.Send(p, r, way.value, mark) else D.Unsent(p, mark)
    case Hears(ok) => D.Answered(p, ok)
  }

  /** The log is ready for the move. */
  predicate LogReady(u: D.World, p: nat, sh: ShardId, l: D.Local) {
    && p in u.processors && u.processors[p].grant.shard == sh && D.CanLocally(u.processors[p], l)
    && (l.Begins? ==> l.at == D.StartOf(u.processors[p], u.Tip(sh)))
    && (l.Handles? ==> u.processors[p].phase.Reading? && u.processors[p].phase.pos < u.Tip(sh))
    && (l.Sends? ==> D.Ending(u, u.processors[p], l.mark))
  }

  /** r has not been used. */
  predicate Unused(u: D.World, r: nat) {
    r !in u.fence.requests && r !in u.origins
  }

  lemma ReadyCan(cfg: Config, u: D.World, p: nat, sh: ShardId, l: D.Local, way: Option<D.Origin>, r: nat)
    requires LogReady(u, p, sh, l) && WayOut(u, u.processors[p].grant, way) && Unused(u, r)
    ensures D.CanHappen(cfg, u, EventOf(p, l, way, r))
  {
  }

  lemma OwnEvent(cfg: Config, u: D.World, p: nat, sh: ShardId, l: D.Local, way: Option<D.Origin>, r: nat)
    requires LogReady(u, p, sh, l) && D.CanHappen(cfg, u, EventOf(p, l, way, r)) && Unused(u, r)
    ensures var v := D.Happened(cfg, u, EventOf(p, l, way, r));
      && Beside(u, v, p, sh) && v.tips == u.tips && v.ended == u.ended
      && p in v.processors && v.processors[p] == D.Locally(u.processors[p], l)
  {
    OwnFence(cfg, u, p, sh, l, way, r);
    OwnRest(cfg, u, p, sh, l, way, r);
    hide D.CanHappen, D.Happened, LogReady, Unused, EventOf, D.Locally;
  }

  lemma OwnRest(cfg: Config, u: D.World, p: nat, sh: ShardId, l: D.Local, way: Option<D.Origin>, r: nat)
    requires LogReady(u, p, sh, l) && D.CanHappen(cfg, u, EventOf(p, l, way, r))
    ensures var v := D.Happened(cfg, u, EventOf(p, l, way, r));
      && v.managers == u.managers && v.loads == u.loads && v.finished == u.finished && v.grants == u.grants
      && v.tips == u.tips && v.ended == u.ended && u.done <= v.done
      && v.processors == u.processors[p := D.Locally(u.processors[p], l)]
  {
    hide D.Locally, D.CanLocally, OwnedUnder, F.StepOf;
  }

  lemma OwnFence(cfg: Config, u: D.World, p: nat, sh: ShardId, l: D.Local, way: Option<D.Origin>, r: nat)
    requires LogReady(u, p, sh, l) && D.CanHappen(cfg, u, EventOf(p, l, way, r)) && Unused(u, r)
    ensures var v := D.Happened(cfg, u, EventOf(p, l, way, r));
      && v.fence.store == u.fence.store && v.fence.log == u.fence.log
      && (forall x :: x in u.fence.requests ==> x in v.fence.requests && v.fence.requests[x] == u.fence.requests[x])
      && (forall x :: x in u.origins ==> x in v.origins && v.origins[x] == u.origins[x])
  {
    hide D.Locally, D.CanLocally, OwnedUnder;
  }

  lemma OwnKept(cfg: Config, u: D.World, p: nat, sh: ShardId, l: D.Local, way: Option<D.Origin>, r: nat)
    requires LogReady(u, p, sh, l) && D.CanHappen(cfg, u, EventOf(p, l, way, r)) && Unused(u, r)
    ensures ShownKept(D.Happened(cfg, u, EventOf(p, l, way, r)), u.processors[p].grant, way, ActOf(u.processors[p], l))
  {
    hide D.Locally, D.CanLocally, OwnedUnder;
    if l.Sends? && way.Some? {
      var v := D.Happened(cfg, u, EventOf(p, l, way, r));
      assert BegunAs(v, u.processors[p].grant, way.value, l.mark, r);
    }
  }

  /** What makes the log ready leaves p where it is. */
  ghost predicate Prepared(u: D.World, t: D.World, p: nat, sh: ShardId, l: D.Local)
    requires p in u.processors
  {
    && Beside(u, t, p, sh) && t.processors == u.processors && LogReady(t, p, sh, l)
    && t.Tip(sh) == TipAfter(u.processors[p], l, u.Tip(sh)) && (sh in t.ended <==> EndedAfter(l, sh in u.ended))
  }

  /** Once the log is ready, the move is made. */
  lemma LiftReady(cfg: Config, w: D.World, es: seq<D.Event>, all: seq<D.Event>, p: nat, sh: ShardId, l: D.Local,
                  way: Option<D.Origin>)
    returns (more: seq<D.Event>)
    requires D.CanAll(cfg, w, es) && p in D.WorldAfter(cfg, w, es).processors && D.CanAll(cfg, w, all)
    requires WayOut(D.WorldAfter(cfg, w, es), D.WorldAfter(cfg, w, es).processors[p].grant, way)
    requires Prepared(D.WorldAfter(cfg, w, es), D.WorldAfter(cfg, w, all), p, sh, l)
    ensures D.CanAll(cfg, w, more) && Lifted(D.WorldAfter(cfg, w, es), D.WorldAfter(cfg, w, more), p, sh, l, way)
  {
    var t := D.WorldAfter(cfg, w, all);
    assert WayOut(t, t.processors[p].grant, way);
    hide D.CanAll, D.WorldAfter, D.CanHappen, D.Happened, D.Locally, EventOf, Beside, TipAfter, EndedAfter, ActOf,
         ShownKept, WayOut;
    var r := FreshNumber(t.fence.requests.Keys + t.origins.Keys);
    assert Unused(t, r);
    ReadyCan(cfg, t, p, sh, l, way, r);
    var e := EventOf(p, l, way, r);
    D.NextEvent(cfg, w, all, e);
    OwnEvent(cfg, t, p, sh, l, way, r);
    OwnKept(cfg, t, p, sh, l, way, r);
    more := all + [e];
    BesideJoin(D.WorldAfter(cfg, w, es), t, D.WorldAfter(cfg, w, more), p, sh);
  }

  lemma Appended(cfg: Config, w: D.World, es: seq<D.Event>, p: nat, sh: ShardId, l: D.Local) returns (all: seq<D.Event>)
    requires D.CanAll(cfg, w, es) && p in D.WorldAfter(cfg, w, es).processors && (l.Begins? || l.Handles?)
    requires var u := D.WorldAfter(cfg, w, es);
      var me := u.processors[p];
      sh == me.grant.shard && Startable(me) && D.CanLocally(me, l) && Fitting(me, l, u.Tip(sh), sh in u.ended)
    ensures D.CanAll(cfg, w, all) && Prepared(D.WorldAfter(cfg, w, es), D.WorldAfter(cfg, w, all), p, sh, l)
  {
    hide D.CanAll, D.WorldAfter, Beside;
    var u := D.WorldAfter(cfg, w, es);
    all := AppendTo(cfg, w, es, p, sh, TipAfter(u.processors[p], l, u.Tip(sh)));
  }

  lemma EndedFor(cfg: Config, w: D.World, es: seq<D.Event>, p: nat, sh: ShardId, l: D.Local) returns (all: seq<D.Event>)
    requires D.CanAll(cfg, w, es) && p in D.WorldAfter(cfg, w, es).processors && !l.Begins? && !l.Handles?
    requires var u := D.WorldAfter(cfg, w, es);
      var me := u.processors[p];
      sh == me.grant.shard && D.CanLocally(me, l) && Fitting(me, l, u.Tip(sh), sh in u.ended)
    ensures D.CanAll(cfg, w, all) && Prepared(D.WorldAfter(cfg, w, es), D.WorldAfter(cfg, w, all), p, sh, l)
  {
    hide D.CanAll, D.WorldAfter;
    all := es;
    if l == D.Sends(Closed) {
      D.NextEvent(cfg, w, es, D.EndShard(sh));
      all := es + [D.EndShard(sh)];
    }
  }

  /** One local move of p, with the records it needs added before. */
  lemma LiftOne(cfg: Config, w: D.World, es: seq<D.Event>, p: nat, sh: ShardId, l: D.Local, way: Option<D.Origin>)
    returns (all: seq<D.Event>)
    requires D.CanAll(cfg, w, es) && p in D.WorldAfter(cfg, w, es).processors
    requires var u := D.WorldAfter(cfg, w, es);
      var me := u.processors[p];
      && sh == me.grant.shard && Startable(me) && WayOut(u, me.grant, way)
      && D.CanLocally(me, l) && Fitting(me, l, u.Tip(sh), sh in u.ended)
    ensures D.CanAll(cfg, w, all) && Lifted(D.WorldAfter(cfg, w, es), D.WorldAfter(cfg, w, all), p, sh, l, way)
  {
    hide D.CanAll, D.WorldAfter, Lifted, D.CanLocally, Fitting, Prepared, WayOut;
    if l.Begins? || l.Handles? {
      all := Appended(cfg, w, es, p, sh, l);
    } else {
      all := EndedFor(cfg, w, es, p, sh, l);
    }
    all := LiftReady(cfg, w, es, all, p, sh, l, way);
  }

  lemma SameShard(p: D.Processor, l: D.Local)
    requires D.CanLocally(p, l)
    ensures D.Locally(p, l).grant == p.grant
  {
  }

  lemma WayStays(u: D.World, v: D.World, p: nat, sh: ShardId, grant: D.Grant, way: Option<D.Origin>)
    requires Beside(u, v, p, sh) && WayOut(u, grant, way)
    ensures WayOut(v, grant, way)
  {
  }

  /** A whole run of local moves that fits the log is part of a run of the world, in which everything it shows as
      processed has been, and everything it shows as sent has begun. */
  lemma {:induction false} Lift(cfg: Config, w: D.World, es: seq<D.Event>, p: nat, sh: ShardId, ls: seq<D.Local>,
                                way: Option<D.Origin>)
    returns (all: seq<D.Event>)
    requires D.CanAll(cfg, w, es) && p in D.WorldAfter(cfg, w, es).processors
    requires var u := D.WorldAfter(cfg, w, es);
      var me := u.processors[p];
      && sh == me.grant.shard && Startable(me) && WayOut(u, me.grant, way)
      && CanDo(me, ls) && Fits(me, ls, u.Tip(sh), sh in u.ended)
    ensures D.CanAll(cfg, w, all)
    ensures var u := D.WorldAfter(cfg, w, es);
      var v := D.WorldAfter(cfg, w, all);
      var me := u.processors[p];
      && Beside(u, v, p, sh) && p in v.processors && v.processors[p] == Finally(me, ls)
      && ShownKept(v, me.grant, way, Shown(me, ls))
    decreases |ls|
  {
    hide D.CanAll, D.WorldAfter, D.CanLocally, D.Locally, Fitting, TipAfter, EndedAfter, ActOf, WayOut, ShownKept;
    all := es;
    var u := D.WorldAfter(cfg, w, es);
    if ls == [] {
      NothingKept(u, u.processors[p].grant, way);
    } else {
      var me := u.processors[p];
      SameShard(me, ls[0]);
      all := LiftOne(cfg, w, es, p, sh, ls[0], way);
      var t := D.WorldAfter(cfg, w, all);
      WayStays(u, t, p, sh, me.grant, way);
      all := Lift(cfg, w, all, p, sh, ls[1..], way);
      var v := D.WorldAfter(cfg, w, all);
      BesideJoin(u, t, v, p, sh);
      KeptJoin(t, v, p, sh, me.grant, way, ActOf(me, ls[0]), Shown(D.Locally(me, ls[0]), ls[1..]));
    }
  }

  lemma NothingKept(v: D.World, grant: D.Grant, way: Option<D.Origin>)
    ensures ShownKept(v, grant, way, [])
  {
  }

  /** What Start does in a world whose log its acts tell of is part of a run of that world: everything it processed
      is done; the checkpoints it sent have begun as requests, if its worker owns the shard at the manager it talks to;
      and no other processor, manager or stored checkpoint has changed. */
  lemma StartInWorld(cfg: Config, w: D.World, p: nat, interval: int, subs: seq<Subscription>, way: Option<D.Origin>)
    returns (es: seq<D.Event>)
    requires p in w.processors && w.processors[p].phase == D.Idle && Startable(w.processors[p])
    requires WayOut(w, w.processors[p].grant, way)
    requires var me := w.processors[p];
      OneLog(All(interval, me.grant.mark, me.resume, subs), w.Tip(me.grant.shard), me.grant.shard in w.ended)
    ensures D.CanAll(cfg, w, es)
    ensures var me := w.processors[p];
      var v := D.WorldAfter(cfg, w, es);
      Beside(w, v, p, me.grant.shard) && p in v.processors
        && ShownKept(v, me.grant, way, All(interval, me.grant.mark, me.resume, subs))
  {
    hide D.CanAll, D.WorldAfter, CanDo, Shown, Finally, Fits, Beside, All, OneLog, WayOut, ShownKept;
    var me := w.processors[p];
    var sh := me.grant.shard;
    var ls := StartMoves(interval, me, subs);
    LogFits(me, ls, w.Tip(sh), sh in w.ended);
    D.EmptyRun(cfg, w);
    es := Lift(cfg, w, [], p, sh, ls, way);
  }
}
