/** The shard processor: subscriptions, events, checkpoints and where each subscription resumes. */
module ShardProcessors {
  import opened Finite
  import opened WorkerRecord

  /** What one checkpoint request comes to: a transport or server error, the manager's answer, or one that ends the
      process: a 4xx status, or an answer that cannot be parsed. */
  datatype Reply = Failed | Replied(notInService: bool, ownershipChanged: bool) | Fatal

  /** What a subscription delivers: a nil or unexpected event, or the next size records of the shard. The last
      event of a closed shard carries no continuation number. at is the time once its records are processed;
      replies answer the checkpoint requests it may lead to, after which the stop signal arrives. */
  datatype Item = Odd | Batch(size: nat, last: bool, at: int, replies: seq<Reply>)

  /** A try to subscribe: refused, or a stream. tip is where LATEST is by then; the stream closes after its
      items, unless the stop signal arrives first. */
  datatype Subscription = Refused | Stream(tip: nat, began: int, items: seq<Item>, stopped: bool)

  /** What the processor does. upto is how far it has got in the shard when it sends a checkpoint. */
  datatype Act = Subscribed(after: nat, latest: bool) | Processed(number: nat) | Sent(mark: Mark, upto: nat)

  /** A subscription's acts, whether to subscribe again, and the number to go on from. */
  datatype Outcome = Outcome(acts: seq<Act>, again: bool, number: Option<nat>)

  // ---------- What the code does, as functions ----------

  function Records(pos: nat, size: nat): seq<Act> {
    seq(size, i requires 0 <= i < size => Processed(pos + i + 1))
  }

  /** The number of requests a checkpoint takes: errors are retried until there is an answer or a stop. */
  function Tries(replies: seq<Reply>): nat {
    if replies == [] then 1 else if replies[0].Failed? then 1 + Tries(replies[1..]) else 1
  }

  function Answer(replies: seq<Reply>): Option<Reply> {
    if replies == [] then None else if replies[0].Failed? then Answer(replies[1..]) else Some(replies[0])
  }

  function Sends(mark: Mark, upto: nat, n: nat): seq<Act> {
    seq(n, i requires 0 <= i < n => Sent(mark, upto))
  }

  /** Reading goes on only after a clean answer to a checkpoint that does not close the shard. */
  predicate GoesOn(reply: Option<Reply>, last: bool) {
    reply.Some? && reply.value == Replied(false, false) && !last
  }

  function Then(acts: seq<Act>, o: Outcome): Outcome {
    o.(acts := acts + o.acts)
  }

  function MarkAt(last: bool, pos: nat): Mark {
    if last then Closed else At(pos)
  }

  /** One event: what is done, whether reading goes on, and from where. */
  datatype Turn = Turn(acts: seq<Act>, goesOn: bool, pos: nat, number: Option<nat>, since: int)

  function TurnOf(interval: int, item: Item, pos: nat, number: Option<nat>, since: int): Turn {
    match item
    case Odd => Turn([], true, pos, number, since)
    case Batch(size, last, at, replies) =>
      var end := pos + size;
      var next := if last then number else Some(end);
      if !last && at - since < interval then Turn(Records(pos, size), true, end, next, since)
      else Turn(Records(pos, size) + Sends(MarkAt(last, end), end, Tries(replies)), GoesOn(Answer(replies), last), end,
                next, at)
  }

  function Read(interval: int, items: seq<Item>, stopped: bool, pos: nat, number: Option<nat>, since: int): Outcome {
    if items == [] then Outcome([], !stopped, if stopped then None else number)
    else
      var t := TurnOf(interval, items[0], pos, number, since);
      if t.goesOn then Then(t.acts, Read(interval, items[1..], stopped, t.pos, t.number, t.since))
        else Outcome(t.acts, false, None)
  }

  /** Where a subscription starts. */
  function Position(mark: Mark, number: Option<nat>, tip: nat): nat {
    if number.Some? then number.value else if mark.At? then mark.number else tip
  }

  function AfterSubscribing(interval: int, mark: Mark, number: Option<nat>, s: Subscription): Outcome
    requires s.Stream?
  {
    var pos := Position(mark, number, s.tip);
    Then([Subscribed(pos, number.None? && !mark.At?)], Read(interval, s.items, s.stopped, pos, None, s.began))
  }

  /** Until a subscription says stop, or the stop signal arrives before the next one. */
  function All(interval: int, mark: Mark, number: Option<nat>, subs: seq<Subscription>): seq<Act>
    decreases |subs|
  {
    if subs == [] then []
    else if subs[0].Refused? then All(interval, mark, number, subs[1..])
    else
      var o := AfterSubscribing(interval, mark, number, subs[0]);
      o.acts + if o.again then All(interval, mark, o.number, subs[1..]) else []
  }

  /** A checkpoint is answered cleanly: errors at most, and then neither of the two refusals. */
  predicate Clean(replies: seq<Reply>) {
    exists k :: 0 <= k < |replies| && replies[k] == Replied(false, false) && forall j :: 0 <= j < k ==>
      replies[j] == Failed
  }

  // ---------- The code ----------

  class ShardProcessor {
    const interval: int
    const sequenceNumber: Mark  // of the assignment
    var acts: seq<Act>

    constructor (interval: int, sequenceNumber: Mark)
      ensures this.interval == interval && this.sequenceNumber == sequenceNumber && acts == []
    {
      this.interval := interval;
      this.sequenceNumber := sequenceNumber;
      acts := [];
    }

    method ProcessRecords(pos: nat, size: nat)
      modifies this
      ensures acts == old(acts) + Records(pos, size)
    {
      for i := 0 to size
        invariant acts == old(acts) + Records(pos, i)
      {
        acts := acts + [Processed(pos + i + 1)];
        assert Records(pos, i + 1) == Records(pos, i) + [Processed(pos + i + 1)];
      }
    }

    /** Send a checkpoint until it is answered, the stop signal arrives, or the process dies of it. */
    method Checkpoint(upto: nat, closed: bool, replies: seq<Reply>) returns (reply: Option<Reply>)
      modifies this
      ensures acts == old(acts) + Sends(MarkAt(closed, upto), upto, Tries(replies)) && reply == Answer(replies)
    {
      var mark := if closed then Closed else At(upto);
      acts := acts + [Sent(mark, upto)];
      var i := 0;
      while i < |replies| && replies[i].Failed?
        invariant 0 <= i <= |replies| && acts == old(acts) + Sends(mark, upto, i + 1)
        invariant Tries(replies) == i + Tries(replies[i..]) && Answer(replies) == Answer(replies[i..])
      {
        assert replies[i..][1..] == replies[i + 1..];
        i := i + 1;
        acts := acts + [Sent(mark, upto)];
        assert Sends(mark, upto, i + 1) == Sends(mark, upto, i) + [Sent(mark, upto)];
      }
      reply := if i < |replies| then Some(replies[i]) else None;
    }

    /** The body of the event loop. */
    method HandleEvent(item: Item, pos: nat, number: Option<nat>, since: int)
      returns (goesOn: bool, at: nat, sn: Option<nat>, lastCheckpointTime: int)
      modifies this
      ensures var t := TurnOf(interval, item, pos, number, since);
        && acts == old(acts) + t.acts && goesOn == t.goesOn
        && (goesOn ==> at == t.pos && sn == t.number && lastCheckpointTime == t.since)
      ensures goesOn <==> item.Odd? || (!item.last && (item.at - since < interval || Clean(item.replies)))
    {
      hide Records, Sends, Answer, Tries, Clean;
      goesOn, at, sn, lastCheckpointTime := true, pos, number, since;
      if item.Odd? {
        return;
      }
      ProcessRecords(pos, item.size);
      at := pos + item.size;
      var closed := item.last;
      if !closed {
        sn := Some(at);
      }
      if !closed && item.at - lastCheckpointTime < interval {
        return;
      }
      var reply := Checkpoint(at, closed, item.replies);
      AnswerReplied(item.replies);
      CleanAnswer(item.replies);
      assert acts == old(acts) + (Records(pos, item.size) + Sends(MarkAt(closed, at), at, Tries(item.replies)));
      if reply.None? || reply.value.Fatal? || reply.value.ownershipChanged || reply.value.notInService || closed {
        goesOn := false;
        return;
      }
      lastCheckpointTime := item.at;
    }

    /** After a reason to stop, no more events are read: only the stop signal is waited for. */
    method HandleSubscription(pos: nat, s: Subscription) returns (again: bool, number: Option<nat>)
      requires s.Stream?
      modifies this
      ensures var o := Read(interval, s.items, s.stopped, pos, None, s.began);
        acts == old(acts) + o.acts && again == o.again && number == o.number
    {
      hide TurnOf;
      var items := s.items;
      var at: nat, sn: Option<nat>, lastCheckpointTime := pos, None, s.began;
      ghost var whole := Read(interval, s.items, s.stopped, pos, None, s.began);
      ghost var done: seq<Act> := [];
      while items != []
        invariant acts == old(acts) + done
        invariant whole == Then(done, Read(interval, items, s.stopped, at, sn, lastCheckpointTime))
        decreases |items|
      {
        ghost var t := TurnOf(interval, items[0], at, sn, lastCheckpointTime);
        var goesOn;
        goesOn, at, sn, lastCheckpointTime := HandleEvent(items[0], at, sn, lastCheckpointTime);
        items := items[1..];
        assert acts == old(acts) + (done + t.acts);
        if !goesOn {
          return false, None;
        }
        ThenThen(done, t.acts, Read(interval, items, s.stopped, at, sn, lastCheckpointTime));
        done := done + t.acts;
      }
      return !s.stopped, if s.stopped then None else sn;
    }

    /** The processor's life, given what it meets. An empty or CLOSED assignment is fatal to the process. */
    method Start(subs: seq<Subscription>) returns (fatal: bool)
      modifies this
      ensures fatal == (sequenceNumber == Unset || sequenceNumber == Closed)
      ensures acts == if fatal then old(acts) else old(acts) + All(interval, sequenceNumber, None, subs)
    {
      hide All, Read, AfterSubscribing;
      if sequenceNumber == Unset || sequenceNumber == Closed {
        return true;
      }
      var resume: Option<nat> := None;
      var okToSubscribe := true;
      var left := subs;
      ghost var done: seq<Act> := [];
      while okToSubscribe && left != []
        invariant acts == old(acts) + done
        invariant All(interval, sequenceNumber, None, subs)
          == done + if okToSubscribe then All(interval, sequenceNumber, resume, left) else []
        decreases |left|
      {
        AllNext(interval, sequenceNumber, resume, left);
        var s := left[0];
        left := left[1..];
        if s.Refused? {
          continue;
        }
        ghost var o := AfterSubscribing(interval, sequenceNumber, resume, s);
        okToSubscribe, resume := Subscribe(resume, s);
        Joined(old(acts), done, o.acts);
        Joined(done, o.acts, if o.again then All(interval, sequenceNumber, o.number, left) else []);
        done := done + o.acts;
      }
      if left == [] && okToSubscribe { AllEmpty(interval, sequenceNumber, resume); }
      return false;
    }

    /** The body of the loop: find the starting position, subscribe, and process the events. */
    method Subscribe(resume: Option<nat>, s: Subscription) returns (again: bool, number: Option<nat>)
      requires s.Stream? && (sequenceNumber.At? || sequenceNumber == Latest)
      modifies this
      ensures var o := AfterSubscribing(interval, sequenceNumber, resume, s);
        acts == old(acts) + o.acts && again == o.again && number == o.number
    {
      hide Read;
      var pos := if resume.Some? then resume.value else if sequenceNumber == Latest then s.tip
        else sequenceNumber.number;
      ghost var first := [Subscribed(pos, resume.None? && sequenceNumber == Latest)];
      acts := acts + [Subscribed(pos, resume.None? && sequenceNumber == Latest)];
      again, number := HandleSubscription(pos, s);
      Joined(old(acts), first, Read(interval, s.items, s.stopped, pos, None, s.began).acts);
    }
  }

  lemma {:induction false} CleanAnswer(replies: seq<Reply>)
    ensures Clean(replies) <==> Answer(replies) == Some(Replied(false, false))
    decreases |replies|
  {
    if replies != [] && replies[0].Failed? {
      CleanAnswer(replies[1..]);
      if k :| 0 <= k < |replies| && replies[k] == Replied(false, false) && forall j :: 0 <= j < k ==>
        replies[j] == Failed {
        assert replies[1..][k - 1] == replies[k] && forall j :: 0 <= j < k - 1 ==> replies[1..][j] == replies[j + 1];
      }
      if k :| 0 <= k < |replies[1..]| && replies[1..][k] == Replied(false, false)
              && forall j :: 0 <= j < k ==> replies[1..][j] == Failed {
        assert replies[k + 1] == replies[1..][k] && forall j :: 0 < j < k + 1 ==> replies[j] == replies[1..][j - 1];
      }
    }
  }

  lemma {:induction false} AnswerReplied(replies: seq<Reply>)
    ensures Answer(replies).Some? ==> !Answer(replies).value.Failed?
  {
    if replies != [] && replies[0].Failed? { AnswerReplied(replies[1..]); }
  }

  lemma Joined(a: seq<Act>, b: seq<Act>, c: seq<Act>)
    ensures a + (b + c) == a + b + c
  {
  }

  lemma ThenThen(a: seq<Act>, b: seq<Act>, o: Outcome)
    ensures Then(a, Then(b, o)) == Then(a + b, o)
  {
    assert a + (b + o.acts) == a + b + o.acts;
  }

  lemma AllEmpty(interval: int, mark: Mark, number: Option<nat>)
    ensures All(interval, mark, number, []) == []
  {
  }

  lemma AllNext(interval: int, mark: Mark, number: Option<nat>, subs: seq<Subscription>)
    requires subs != []
    ensures subs[0].Refused? ==> All(interval, mark, number, subs) == All(interval, mark, number, subs[1..])
    ensures subs[0].Stream? ==> (
      var o := AfterSubscribing(interval, mark, number, subs[0]);
      All(interval, mark, number, subs) == o.acts + if o.again then All(interval, mark, o.number, subs[1..]) else [])
  {
    hide Read;
  }

  // ---------- What its checkpoints promise ----------

  /** Every record after s up to n has been processed. */
  ghost predicate Done(acts: seq<Act>, s: nat, n: nat) {
    forall k: nat :: s < k <= n ==> Processed(k) in acts
  }

  /** A checkpoint, and the start of a subscription after a number, vouch for everything from s up to there. */
  ghost predicate Vouched(past: seq<Act>, act: Act, s: nat) {
    match act
    case Processed(_) => true
    case Sent(mark, upto) => Done(past, s, upto) && (mark == At(upto) || mark == Closed)
    case Subscribed(after, latest) => latest || Done(past, s, after)
  }

  ghost predicate Honest(past: seq<Act>, acts: seq<Act>, s: nat) {
    forall i :: 0 <= i < |acts| ==> Vouched(past + acts[..i], acts[i], s)
  }

  /** Hypothesis G6: no subscription at LATEST skips anything. */
  ghost predicate Skipless(past: seq<Act>, acts: seq<Act>, s: nat) {
    forall i :: 0 <= i < |acts| && acts[i].Subscribed? && acts[i].latest ==> Done(past + acts[..i], s, acts[i].after)
  }

  lemma DoneMore(past: seq<Act>, more: seq<Act>, s: nat, n: nat)
    requires Done(past, s, n)
    ensures Done(past + more, s, n)
  {
  }

  lemma HonestJoin(past: seq<Act>, a: seq<Act>, b: seq<Act>, s: nat)
    requires Honest(past, a, s) && Honest(past + a, b, s)
    ensures Honest(past, a + b, s)
  {
    forall i | 0 <= i < |a + b| ensures Vouched(past + (a + b)[..i], (a + b)[i], s) {
      if i < |a| {
        assert (a + b)[..i] == a[..i];
      } else {
        assert (a + b)[..i] == a + b[..i - |a|];
        assert past + (a + b[..i - |a|]) == past + a + b[..i - |a|];
      }
    }
  }

  lemma SkiplessParts(past: seq<Act>, a: seq<Act>, b: seq<Act>, s: nat)
    requires Skipless(past, a + b, s)
    ensures Skipless(past, a, s) && Skipless(past + a, b, s)
  {
    forall i | 0 <= i < |a| && a[i].Subscribed? && a[i].latest ensures Done(past + a[..i], s, a[i].after) {
      assert (a + b)[i] == a[i] && (a + b)[..i] == a[..i];
    }
    forall i | 0 <= i < |b| && b[i].Subscribed? && b[i].latest ensures Done(past + a + b[..i], s, b[i].after) {
      assert (a + b)[|a| + i] == b[i] && (a + b)[..|a| + i] == a + b[..i];
      assert past + (a + b[..i]) == past + a + b[..i];
    }
  }

  lemma RecordsDone(past: seq<Act>, pos: nat, size: nat, s: nat)
    requires Done(past, s, pos)
    ensures Done(past + Records(pos, size), s, pos + size) && Honest(past, Records(pos, size), s)
  {
    forall k: nat | s < k <= pos + size ensures Processed(k) in past + Records(pos, size) {
      if k > pos { assert Records(pos, size)[k - pos - 1] == Processed(k); }
    }
  }

  lemma SendsHonest(past: seq<Act>, mark: Mark, upto: nat, n: nat, s: nat)
    requires Done(past, s, upto) && (mark == At(upto) || mark == Closed)
    ensures Honest(past, Sends(mark, upto, n), s)
  {
  }

  lemma TurnHonest(interval: int, item: Item, pos: nat, number: Option<nat>, since: int, past: seq<Act>, s: nat)
    requires Done(past, s, pos) && (number.Some? ==> Done(past, s, number.value))
    ensures var t := TurnOf(interval, item, pos, number, since);
      && Honest(past, t.acts, s) && Done(past + t.acts, s, t.pos)
      && (t.number.Some? ==> Done(past + t.acts, s, t.number.value))
  {
    hide Records, Sends, Done, Honest;
    var t := TurnOf(interval, item, pos, number, since);
    if number.Some? { DoneMore(past, t.acts, s, number.value); }
    if item.Odd? {
      NothingHonest(past, s);
      assert past + [] == past;
    } else {
      var records := Records(pos, item.size);
      var sends := Sends(MarkAt(item.last, pos + item.size), pos + item.size, Tries(item.replies));
      RecordsDone(past, pos, item.size, s);
      if t.acts != records {
        SendsHonest(past + records, MarkAt(item.last, pos + item.size), pos + item.size, Tries(item.replies), s);
        HonestJoin(past, records, sends, s);
        DoneMore(past + records, sends, s, pos + item.size);
        assert past + (records + sends) == past + records + sends;
      }
    }
  }

  lemma NothingHonest(past: seq<Act>, s: nat)
    ensures Honest(past, [], s)
  {
  }

  lemma {:induction false} ReadHonest(interval: int, items: seq<Item>, stopped: bool, pos: nat, number: Option<nat>,
                                      since: int,
                                      past: seq<Act>, s: nat)
    requires Done(past, s, pos) && (number.Some? ==> Done(past, s, number.value))
    ensures var o := Read(interval, items, stopped, pos, number, since);
      Honest(past, o.acts, s) && (o.number.Some? ==> Done(past + o.acts, s, o.number.value))
    decreases |items|
  {
    hide Done, Honest, TurnOf;
    if items == [] {
      NothingHonest(past, s);
      assert past + [] == past;
    } else {
      var t := TurnOf(interval, items[0], pos, number, since);
      TurnHonest(interval, items[0], pos, number, since, past, s);
      if t.goesOn {
        var o := Read(interval, items[1..], stopped, t.pos, t.number, t.since);
        ReadHonest(interval, items[1..], stopped, t.pos, t.number, t.since, past + t.acts, s);
        HonestJoin(past, t.acts, o.acts, s);
        assert past + (t.acts + o.acts) == past + t.acts + o.acts;
      }
    }
  }

  lemma SubscribeHonest(interval: int, mark: Mark, number: Option<nat>, sub: Subscription, past: seq<Act>, s: nat)
    requires sub.Stream? && (mark.At? ==> Done(past, s, mark.number)) && (number.Some? ==> Done(past, s, number.value))
    requires Skipless(past, AfterSubscribing(interval, mark, number, sub).acts, s)
    ensures var o := AfterSubscribing(interval, mark, number, sub);
      Honest(past, o.acts, s) && (o.number.Some? ==> Done(past + o.acts, s, o.number.value))
  {
    var pos := Position(mark, number, sub.tip);
    var first := [Subscribed(pos, number.None? && !mark.At?)];
    var rest := Read(interval, sub.items, sub.stopped, pos, None, sub.began);
    var o := AfterSubscribing(interval, mark, number, sub);
    assert o.acts[0] == first[0] && past + o.acts[..0] == past;
    assert Done(past, s, pos);
    assert Honest(past, first, s) by { assert past + first[..0] == past; }
    hide Done, Honest, Read;
    DoneMore(past, first, s, pos);
    ReadHonest(interval, sub.items, sub.stopped, pos, None, sub.began, past + first, s);
    HonestJoin(past, first, rest.acts, s);
    assert past + (first + rest.acts) == past + first + rest.acts;
  }

  lemma {:induction false} AllHonest(interval: int, mark: Mark, number: Option<nat>, subs: seq<Subscription>,
                                     past: seq<Act>, s: nat)
    requires (mark.At? ==> Done(past, s, mark.number)) && (number.Some? ==> Done(past, s, number.value))
    requires Skipless(past, All(interval, mark, number, subs), s)
    ensures Honest(past, All(interval, mark, number, subs), s)
    decreases |subs|
  {
    hide Done, Honest, AfterSubscribing, Skipless;
    if subs == [] {
      NothingHonest(past, s);
    } else if subs[0].Refused? {
      AllHonest(interval, mark, number, subs[1..], past, s);
    } else {
      var o := AfterSubscribing(interval, mark, number, subs[0]);
      var rest := if o.again then All(interval, mark, o.number, subs[1..]) else [];
      SkiplessParts(past, o.acts, rest, s);
      SubscribeHonest(interval, mark, number, subs[0], past, s);
      if mark.At? { DoneMore(past, o.acts, s, mark.number); }
      if o.again {
        AllHonest(interval, mark, o.number, subs[1..], past + o.acts, s);
      } else {
        NothingHonest(past + o.acts, s);
      }
      HonestJoin(past, o.acts, rest, s);
    }
  }

  lemma {:induction false} ReadNeverSubscribes(interval: int, items: seq<Item>, stopped: bool, pos: nat,
                                               number: Option<nat>, since: int)
    ensures forall act :: act in Read(interval, items, stopped, pos, number, since).acts ==> !act.Subscribed?
    decreases |items|
  {
    if items != [] {
      var t := TurnOf(interval, items[0], pos, number, since);
      ReadNeverSubscribes(interval, items[1..], stopped, t.pos, t.number, t.since);
    }
  }

  lemma {:induction false} NumberNeverLatest(interval: int, mark: Mark, number: Option<nat>, subs: seq<Subscription>)
    requires mark.At?
    ensures forall act :: act in All(interval, mark, number, subs) && act.Subscribed? ==> !act.latest
    decreases |subs|
  {
    hide Read;
    if subs != [] {
      if subs[0].Refused? {
        NumberNeverLatest(interval, mark, number, subs[1..]);
      } else {
        var pos := Position(mark, number, subs[0].tip);
        ReadNeverSubscribes(interval, subs[0].items, subs[0].stopped, pos, None, subs[0].began);
        NumberNeverLatest(interval, mark, AfterSubscribing(interval, mark, number, subs[0]).number, subs[1..]);
      }
    }
  }

  /** A processor assigned with a number never loses a record: whatever subscriptions, events, errors and answers
      it meets, each checkpoint it sends, and each number it subscribes after, has every record from the assigned
      number up to it processed before. */
  lemma NumberedHonest(interval: int, n: nat, subs: seq<Subscription>)
    ensures Honest([], All(interval, At(n), None, subs), n)
  {
    NumberNeverLatest(interval, At(n), None, subs);
    AllHonest(interval, At(n), None, subs, [], n);
  }

  /** Nor does one assigned at LATEST, from its first start s on, if no later subscription at LATEST skips anything. */
  lemma LatestHonest(interval: int, s: nat, subs: seq<Subscription>)
    requires Skipless([], All(interval, Latest, None, subs), s)
    ensures Honest([], All(interval, Latest, None, subs), s)
  {
    AllHonest(interval, Latest, None, subs, [], s);
  }

  // ---------- Where it resumes, and where it ends ----------

  function Total(items: seq<Item>): nat {
    if items == [] then 0 else (if items[0].Batch? then items[0].size else 0) + Total(items[1..])
  }

  predicate Eventless(items: seq<Item>) {
    forall i :: 0 <= i < |items| ==> items[i].Odd?
  }

  /** A stream that closes leaves the number of the last record it delivered, and no number at all if it delivered
      no event; the next subscription then goes back to the assignment's own number, or to LATEST. */
  lemma {:induction false} ResumeNumber(interval: int, items: seq<Item>, pos: nat, number: Option<nat>, since: int)
    ensures var o := Read(interval, items, false, pos, number, since);
      o.again ==> o.number == if Eventless(items) then number else Some(pos + Total(items))
    decreases |items|
  {
    if items != [] {
      var t := TurnOf(interval, items[0], pos, number, since);
      if t.goesOn {
        ResumeNumber(interval, items[1..], t.pos, t.number, t.since);
        assert Eventless(items) <==> items[0].Odd? && Eventless(items[1..]);
        assert Eventless(items[1..]) ==> Total(items[1..]) == 0 by {
          if Eventless(items[1..]) { EventlessTotal(items[1..]); }
        }
      }
    }
  }

  lemma {:induction false} EventlessTotal(items: seq<Item>)
    requires Eventless(items)
    ensures Total(items) == 0
    decreases |items|
  {
    if items != [] { EventlessTotal(items[1..]); }
  }

  /** What a stream holds after the event that made the processor stop is never read. */
  lemma {:induction false} StopsForGood(interval: int, items: seq<Item>, more: seq<Item>, stopped: bool, pos: nat,
                                        number: Option<nat>, since: int)
    requires !Read(interval, items, false, pos, number, since).again
    ensures Read(interval, items + more, stopped, pos, number, since)
      == Read(interval, items, false, pos, number, since)
    decreases |items|
  {
    if items != [] {
      var t := TurnOf(interval, items[0], pos, number, since);
      assert (items + more)[0] == items[0] && (items + more)[1..] == items[1..] + more;
      if t.goesOn {
        StopsForGood(interval, items[1..], more, stopped, t.pos, t.number, t.since);
      }
    }
  }

  /** Once CLOSED is sent, nothing else is ever done. */
  ghost predicate EndsClosed(acts: seq<Act>) {
    forall i, j :: 0 <= i < j < |acts| && acts[i].Sent? && acts[i].mark == Closed ==> acts[j] == acts[i]
  }

  ghost predicate NeverCloses(acts: seq<Act>) {
    forall act :: act in acts && act.Sent? ==> act.mark != Closed
  }

  lemma ClosedJoin(a: seq<Act>, b: seq<Act>)
    requires NeverCloses(a) && EndsClosed(b)
    ensures EndsClosed(a + b)
  {
    assert forall i :: 0 <= i < |a| ==> (a + b)[i] in a;
  }

  lemma TurnClosed(interval: int, item: Item, pos: nat, number: Option<nat>, since: int)
    ensures var t := TurnOf(interval, item, pos, number, since);
      EndsClosed(t.acts)
      && (t.goesOn ==> NeverCloses(t.acts))
  {
    if item.Batch? {
      assert NeverCloses(Records(pos, item.size));
      ClosedJoin(Records(pos, item.size),
                 Sends(MarkAt(item.last, pos + item.size), pos + item.size, Tries(item.replies)));
    }
  }

  lemma {:induction false} ReadClosed(interval: int, items: seq<Item>, stopped: bool, pos: nat, number: Option<nat>,
                                      since: int)
    ensures var o := Read(interval, items, stopped, pos, number, since);
      EndsClosed(o.acts)
      && (o.again ==> NeverCloses(o.acts))
    decreases |items|
  {
    hide TurnOf, EndsClosed, NeverCloses;
    if items == [] {
      ClosedNone();
    } else {
      var t := TurnOf(interval, items[0], pos, number, since);
      TurnClosed(interval, items[0], pos, number, since);
      if t.goesOn {
        ReadClosed(interval, items[1..], stopped, t.pos, t.number, t.since);
        var o := Read(interval, items[1..], stopped, t.pos, t.number, t.since);
        ClosedJoin(t.acts, o.acts);
        if o.again { NeverClosesJoin(t.acts, o.acts); }
      }
    }
  }

  lemma ClosedNone()
    ensures EndsClosed([]) && NeverCloses([])
  {
  }

  lemma NeverClosesJoin(a: seq<Act>, b: seq<Act>)
    requires NeverCloses(a) && NeverCloses(b)
    ensures NeverCloses(a + b)
  {
  }

  /** A processor that has sent CLOSED neither processes nor subscribes any more: it never continues a closed shard. */
  lemma {:induction false} ClosedIsFinal(interval: int, mark: Mark, number: Option<nat>, subs: seq<Subscription>)
    ensures EndsClosed(All(interval, mark, number, subs))
    decreases |subs|
  {
    hide Read, EndsClosed, NeverCloses;
    ClosedNone();
    if subs != [] {
      if subs[0].Refused? {
        ClosedIsFinal(interval, mark, number, subs[1..]);
      } else {
        var pos := Position(mark, number, subs[0].tip);
        var first := [Subscribed(pos, number.None? && !mark.At?)];
        var o := Read(interval, subs[0].items, subs[0].stopped, pos, None, subs[0].began);
        ReadClosed(interval, subs[0].items, subs[0].stopped, pos, None, subs[0].began);
        assert NeverCloses(first) by { NeverClosesOne(first[0]); }
        ClosedJoin(first, o.acts);
        assert first + o.acts + [] == first + o.acts;
        if o.again {
          NeverClosesJoin(first, o.acts);
          ClosedIsFinal(interval, mark, o.number, subs[1..]);
          ClosedJoin(first + o.acts, All(interval, mark, o.number, subs[1..]));
        }
      }
    }
  }

  lemma NeverClosesOne(act: Act)
    requires !act.Sent?
    ensures NeverCloses([act])
  {
  }
}
