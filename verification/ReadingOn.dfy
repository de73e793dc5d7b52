/** Which answers let a shard processor read on, and which end it: said of whole streams, in terms of what arrives
    and of the clock, not of the steps in which the code works it off. */
module ReadingOn {
  import opened Finite
  import opened WorkerRecord
  import opened ShardProcessors

  /** The time of the latest checkpoint, or of the beginning of the stream. */
  function LastSent(interval: int, began: int, items: seq<Item>): int
    decreases |items|, 1
  {
    if items == [] then began
    else if CheckpointDue(interval, began, items) then items[|items| - 1].at
    else LastSent(interval, began, items[..|items| - 1])
  }

  /** The last of these items leads to a checkpoint: the shard has ended, or the interval has passed since the one
      before. */
  predicate CheckpointDue(interval: int, began: int, items: seq<Item>)
    decreases |items|, 0
  {
    items != [] && items[|items| - 1].Batch?
    && (items[|items| - 1].last || items[|items| - 1].at - LastSent(interval, began, items[..|items| - 1]) >= interval)
  }

  /** The checkpoint that the last of these items leads to ends the reading: the shard has ended, or the answer is not
      clean, fatal, or missing. */
  predicate EndsReading(interval: int, began: int, items: seq<Item>) {
    CheckpointDue(interval, began, items) && (items[|items| - 1].last || !Clean(items[|items| - 1].replies))
  }

  /** None of the items ends the reading. */
  predicate Smooth(interval: int, began: int, items: seq<Item>) {
    forall i :: 0 < i <= |items| ==> !EndsReading(interval, began, items[..i])
  }

  /** One of the items leads to the checkpoint of number e, which is where its records end. */
  ghost predicate Marks(interval: int, began: int, items: seq<Item>, pos: nat, e: nat) {
    exists i :: 0 < i <= |items| && CheckpointDue(interval, began, items[..i]) && e == pos + Total(items[..i])
  }

  /** What the code does for items, read from pos on: it processes all their records, and sends the checkpoints due. */
  ghost predicate Worked(interval: int, began: int, items: seq<Item>, pos: nat, acts: seq<Act>) {
    && (forall n: nat :: Processed(n) in acts <==> pos < n <= pos + Total(items))
    && (forall m, e: nat :: Sent(m, e) in acts <==> m == At(e) && Marks(interval, began, items, pos, e))
    && forall a, l :: Subscribed(a, l) !in acts
  }

  /** The continuation number that a stream of these items leaves. */
  function LeftBy(items: seq<Item>, pos: nat): Option<nat> {
    if Eventless(items) then None else Some(pos + Total(items))
  }

  // ---------- How the code gets there ----------

  /** Errors are retried: one request more than there were errors before the first answer. */
  lemma {:induction false} TriesExact(replies: seq<Reply>, k: nat)
    requires k <= |replies| && (forall j :: 0 <= j < k ==> replies[j] == Failed)
      && (k < |replies| ==> replies[k] != Failed)
    ensures Tries(replies) == k + 1
    decreases k
  {
    if k > 0 {
      assert forall j :: 0 <= j < k - 1 ==> replies[1..][j] == replies[j + 1];
      TriesExact(replies[1..], k - 1);
    }
  }

  lemma {:induction false} TotalMore(items: seq<Item>, x: Item)
    ensures Total(items + [x]) == Total(items) + if x.Batch? then x.size else 0
    decreases |items|
  {
    if items == [] {
      assert [] + [x] == [x] && Total([]) == 0;
    } else {
      TotalMore(items[1..], x);
      assert (items + [x])[0] == items[0] && (items + [x])[1..] == items[1..] + [x];
    }
  }

  /** One item more. */
  lemma OneTurn(interval: int, began: int, items: seq<Item>, pos: nat, number: Option<nat>)
    requires items != [] && !EndsReading(interval, began, items)
    ensures var front, x := items[..|items| - 1], items[|items| - 1];
      var t := TurnOf(interval, x, pos, number, LastSent(interval, began, front));
      && t.goesOn && t.since == LastSent(interval, began, items)
      && t.pos == pos + (if x.Batch? then x.size else 0) && t.number == (if x.Batch? then Some(t.pos) else number)
      && (forall n: nat :: Processed(n) in t.acts <==> pos < n <= t.pos)
      && (forall m, e: nat :: Sent(m, e) in t.acts <==>
            CheckpointDue(interval, began, items) && m == At(t.pos) && e == t.pos)
      && forall a, l :: Subscribed(a, l) !in t.acts
  {
    var x := items[|items| - 1];
    if x.Batch? {
      CleanAnswer(x.replies);
      SomeTry(x.replies);
      RecordsExact(pos, x.size);
      SendsExact(MarkAt(x.last, pos + x.size), pos + x.size, Tries(x.replies));
      hide Records, Sends, Answer, Clean, Tries;
    }
  }

  lemma RecordsExact(pos: nat, size: nat)
    ensures forall n: nat :: Processed(n) in Records(pos, size) <==> pos < n <= pos + size
    ensures forall act :: act in Records(pos, size) ==> act.Processed?
  {
    forall n: nat | pos < n <= pos + size ensures Processed(n) in Records(pos, size) {
      assert Records(pos, size)[n - pos - 1] == Processed(n);
    }
  }

  lemma SendsExact(mark: Mark, upto: nat, n: nat)
    requires n > 0
    ensures forall act :: act in Sends(mark, upto, n) <==> act == Sent(mark, upto)
  {
    assert Sends(mark, upto, n)[0] == Sent(mark, upto);
  }

  lemma {:induction false} SomeTry(replies: seq<Reply>)
    ensures Tries(replies) > 0
  {
  }

  lemma SmoothFront(interval: int, began: int, items: seq<Item>)
    requires items != [] && Smooth(interval, began, items)
    ensures Smooth(interval, began, items[..|items| - 1]) && !EndsReading(interval, began, items)
  {
    assert items[..|items|] == items;
    var front := items[..|items| - 1];
    assert forall i :: 0 <= i <= |front| ==> front[..i] == items[..i];
  }

  lemma MarksMore(interval: int, began: int, items: seq<Item>, pos: nat, e: nat)
    requires items != []
    ensures Marks(interval, began, items, pos, e) <==>
      Marks(interval, began, items[..|items| - 1], pos, e)
      || (CheckpointDue(interval, began, items) && e == pos + Total(items))
  {
    hide CheckpointDue;
    var front := items[..|items| - 1];
    assert items[..|items|] == items && forall i :: 0 <= i < |items| ==> front[..i] == items[..i];
  }

  lemma EventlessMore(items: seq<Item>, x: Item)
    ensures Eventless(items + [x]) <==> Eventless(items) && x.Odd?
  {
    assert (items + [x])[|items|] == x && forall i :: 0 <= i < |items| ==> (items + [x])[i] == items[i];
  }

  lemma WorkedMore(interval: int, began: int, items: seq<Item>, pos: nat, acts: seq<Act>, t: Turn)
    requires items != [] && Worked(interval, began, items[..|items| - 1], pos, acts) && t.pos == pos + Total(items)
    requires var front := items[..|items| - 1];
      && pos + Total(front) <= t.pos
      && (forall n: nat :: Processed(n) in t.acts <==> pos + Total(front) < n <= t.pos)
      && (forall m, e: nat :: Sent(m, e) in t.acts <==>
            CheckpointDue(interval, began, items) && m == At(t.pos) && e == t.pos)
      && forall a, l :: Subscribed(a, l) !in t.acts
    ensures Worked(interval, began, items, pos, acts + t.acts)
  {
    hide CheckpointDue, Total;
    forall e: nat ensures Marks(interval, began, items, pos, e) <==>
        Marks(interval, began, items[..|items| - 1], pos, e)
        || (CheckpointDue(interval, began, items) && e == pos + Total(items)) {
      MarksMore(interval, began, items, pos, e);
    }
    hide Marks;
  }

  lemma NothingWorked(interval: int, began: int, pos: nat)
    ensures Worked(interval, began, [], pos, [])
  {
  }

  /** What the code does in a stream that holds nothing but these items, until the stop signal. */
  function WorkOn(interval: int, began: int, items: seq<Item>, pos: nat): seq<Act> {
    Read(interval, items, true, pos, None, began).acts
  }

  /** While nothing ends the reading, the code works through the items. */
  lemma {:induction false} ReadsThrough(interval: int, items: seq<Item>, more: seq<Item>, stopped: bool, pos: nat,
                                        began: int)
    requires Smooth(interval, began, items)
    ensures Read(interval, items + more, stopped, pos, None, began)
      == Then(WorkOn(interval, began, items, pos),
              Read(interval, more, stopped, pos + Total(items), LeftBy(items, pos), LastSent(interval, began, items)))
    ensures Worked(interval, began, items, pos, WorkOn(interval, began, items, pos))
    decreases |items|, 0
  {
    hide TurnOf, CheckpointDue, Smooth, EndsReading, Worked;
    if items == [] {
      NothingWorked(interval, began, pos);
      assert items + more == more;
    } else {
      var front, x := items[..|items| - 1], items[|items| - 1];
      SmoothFront(interval, began, items);
      OneTurn(interval, began, items, pos + Total(front), LeftBy(front, pos));
      TotalMore(front, x);
      var t := TurnOf(interval, x, pos + Total(front), LeftBy(front, pos), LastSent(interval, began, front));
      WorkedStep(interval, front, x, more, stopped, pos, began, t);
      WorkedStep(interval, front, x, [], true, pos, began, t);
      EventlessMore(front, x);
      assert front + [x] == items && items + [] == items;
      hide LastSent, Total, Eventless;
      WorkedMore(interval, began, items, pos, WorkOn(interval, began, front, pos), t);
      assert WorkOn(interval, began, items, pos) == WorkOn(interval, began, front, pos) + t.acts;
    }
  }

  lemma {:induction false} WorkedStep(interval: int, front: seq<Item>, x: Item, more: seq<Item>, stopped: bool,
                                      pos: nat,
                                      began: int, t: Turn)
    requires Smooth(interval, began, front) && t.goesOn
    requires t == TurnOf(interval, x, pos + Total(front), LeftBy(front, pos), LastSent(interval, began, front))
    ensures Read(interval, front + [x] + more, stopped, pos, None, began)
      == Then(WorkOn(interval, began, front, pos) + t.acts, Read(interval, more, stopped, t.pos, t.number, t.since))
    ensures Worked(interval, began, front, pos, WorkOn(interval, began, front, pos))
    decreases |front|, 1
  {
    hide TurnOf, CheckpointDue, Smooth, EndsReading, Worked, LastSent, Total, LeftBy;
    ReadsThrough(interval, front, [x] + more, stopped, pos, began);
    assert front + ([x] + more) == front + [x] + more;
    assert ([x] + more)[0] == x && ([x] + more)[1..] == more;
    ThenThen(WorkOn(interval, began, front, pos), t.acts, Read(interval, more, stopped, t.pos, t.number, t.since));
  }

  /** The records of x, and the checkpoint after it. */
  ghost predicate WorkedLast(x: Item, pos: nat, acts: seq<Act>)
    requires x.Batch?
  {
    var end := pos + x.size;
    && (forall n: nat :: Processed(n) in acts <==> pos < n <= end)
    && (forall m, e: nat :: Sent(m, e) in acts <==> m == (if x.last then Closed else At(end)) && e == end)
    && forall a, l :: Subscribed(a, l) !in acts
  }

  /** The item that ends the reading is still worked off; its checkpoint is the last thing done. */
  lemma LastTurn(interval: int, began: int, items: seq<Item>, more: seq<Item>, stopped: bool, pos: nat,
                 number: Option<nat>)
    requires EndsReading(interval, began, items)
    ensures var front, x := items[..|items| - 1], items[|items| - 1];
      var o := Read(interval, [x] + more, stopped, pos, number, LastSent(interval, began, front));
      && !o.again && o.number == None
      && WorkedLast(x, pos, o.acts)
      && o == Read(interval, [x], true, pos, number, LastSent(interval, began, front))
  {
    var x := items[|items| - 1];
    CleanAnswer(x.replies);
    SomeTry(x.replies);
    RecordsExact(pos, x.size);
    SendsExact(MarkAt(x.last, pos + x.size), pos + x.size, Tries(x.replies));
    assert ([x] + more)[0] == x;
    hide Records, Sends, Answer, Clean, Tries, LastSent;
  }

  /** A stream up to the item that ends the reading: whatever comes after it is not read. */
  lemma EndedRead(interval: int, items: seq<Item>, more: seq<Item>, stopped: bool, pos: nat, began: int)
    requires items != [] && Smooth(interval, began, items[..|items| - 1]) && EndsReading(interval, began, items)
    ensures Read(interval, items + more, stopped, pos, None, began)
      == Outcome(WorkOn(interval, began, items, pos), false, None)
    ensures var x := items[|items| - 1];
      Ended(interval, began, items[..|items| - 1], x, pos, WorkOn(interval, began, items, pos))
  {
    var front, x := items[..|items| - 1], items[|items| - 1];
    assert x.Batch?;
    hide Smooth, EndsReading, LastSent, LeftBy, CheckpointDue, Worked, WorkedLast, Ended, Read, Total;
    EndedStep(interval, items, more, stopped, pos, began);
    EndedStep(interval, items, [], true, pos, began);
    assert items + [] == items;
    EndedWork(interval, items, pos, began);
  }

  lemma EndedWork(interval: int, items: seq<Item>, pos: nat, began: int)
    requires items != [] && Smooth(interval, began, items[..|items| - 1]) && EndsReading(interval, began, items)
    ensures var front, x := items[..|items| - 1], items[|items| - 1];
      var last := Read(interval, [x], true, pos + Total(front), LeftBy(front, pos), LastSent(interval, began, front));
      x.Batch? && Ended(interval, began, front, x, pos, WorkOn(interval, began, front, pos) + last.acts)
  {
    var front, x := items[..|items| - 1], items[|items| - 1];
    assert x.Batch?;
    hide Smooth, EndsReading, LastSent, LeftBy, CheckpointDue, Worked, WorkedLast, Ended, Read, Total, WorkOn;
    LastTurn(interval, began, items, [], true, pos + Total(front), LeftBy(front, pos));
    ReadsThrough(interval, front, [], true, pos, began);
    var last := Read(interval, [x], true, pos + Total(front), LeftBy(front, pos),
                     LastSent(interval, began, front)).acts;
    assert [x] + [] == [x];
    EndedJoin(interval, began, front, x, pos, WorkOn(interval, began, front, pos), last);
  }

  lemma EndedJoin(interval: int, began: int, front: seq<Item>, x: Item, pos: nat, acts: seq<Act>, last: seq<Act>)
    requires x.Batch? && Worked(interval, began, front, pos, acts)
    requires WorkedLast(x, pos + Total(front), last)
    ensures Ended(interval, began, front, x, pos, acts + last)
  {
    hide Marks, Total;
  }

  /** Everything has been worked off, the item that ends the reading included; its checkpoint says CLOSED if the
      shard has ended. */
  ghost predicate Ended(interval: int, began: int, front: seq<Item>, x: Item, pos: nat, acts: seq<Act>)
    requires x.Batch?
  {
    var end := pos + Total(front) + x.size;
    && (forall n: nat :: Processed(n) in acts <==> pos < n <= end)
    && (forall m, e: nat :: Sent(m, e) in acts <==>
          (m == At(e) && Marks(interval, began, front, pos, e))
            || (m == (if x.last then Closed else At(end)) && e == end))
    && forall a, l :: Subscribed(a, l) !in acts
  }

  lemma EndedStep(interval: int, items: seq<Item>, more: seq<Item>, stopped: bool, pos: nat, began: int)
    requires items != [] && Smooth(interval, began, items[..|items| - 1]) && EndsReading(interval, began, items)
    ensures var front, x := items[..|items| - 1], items[|items| - 1];
      var last := Read(interval, [x], true, pos + Total(front), LeftBy(front, pos), LastSent(interval, began, front));
      Read(interval, items + more, stopped, pos, None, began)
      == Outcome(WorkOn(interval, began, front, pos) + last.acts, false, None)
  {
    hide Read, Smooth, EndsReading, Worked, WorkedLast, LastSent, Total, LeftBy, WorkOn, CheckpointDue;
    var front, x := items[..|items| - 1], items[|items| - 1];
    assert front + ([x] + more) == items + more;
    ReadsThrough(interval, front, [x] + more, stopped, pos, began);
    LastTurn(interval, began, items, more, stopped, pos + Total(front), LeftBy(front, pos));
  }

  /** The first item that ends the reading. */
  lemma {:induction false} FirstEnd(interval: int, began: int, items: seq<Item>) returns (k: nat)
    requires !Smooth(interval, began, items)
    ensures 0 < k <= |items| && Smooth(interval, began, items[..k - 1]) && EndsReading(interval, began, items[..k])
    decreases |items|
  {
    hide EndsReading;
    var i :| 0 < i <= |items| && EndsReading(interval, began, items[..i]);
    var front := items[..i - 1];
    if Smooth(interval, began, front) {
      k := i;
    } else {
      k := FirstEnd(interval, began, front);
      assert front[..k - 1] == items[..k - 1] && front[..k] == items[..k];
    }
  }

  // ---------- What an answer decides ----------

  /** After an item that ends the reading, nothing matters: neither the rest of the stream, nor how it closes. */
  lemma CutRead(interval: int, items: seq<Item>, more: seq<Item>, stopped: bool, pos: nat, began: int)
    requires EndsReading(interval, began, items)
    ensures Read(interval, items + more, stopped, pos, None, began) == Read(interval, items, true, pos, None, began)
    ensures !Read(interval, items, true, pos, None, began).again
  {
    assert !Smooth(interval, began, items) by { assert items[..|items|] == items; }
    var k := FirstEnd(interval, began, items);
    var head, tail := items[..k], items[k..];
    assert head + tail == items && head + (tail + more) == items + more && head[..k - 1] == items[..k - 1];
    EndedRead(interval, head, tail + more, stopped, pos, began);
    EndedRead(interval, head, tail, true, pos, began);
  }

  /** Once a checkpoint is refused, answered with something fatal, or not answered, and once a shard has ended, no act
      follows, whatever the stream still holds and whatever may be subscribed to later. */
  lemma {:induction false} NothingFollows(interval: int, mark: Mark, number: Option<nat>, before: seq<Subscription>,
                                          tip: nat, began: int, items: seq<Item>, more: seq<Item>, stopped: bool,
                                          after: seq<Subscription>)
    requires EndsReading(interval, began, items)
    ensures All(interval, mark, number, before + [Stream(tip, began, items + more, stopped)] + after)
      == All(interval, mark, number, before + [Stream(tip, began, items, true)])
    decreases |before|
  {
    hide Read, EndsReading;
    var whole, cut := Stream(tip, began, items + more, stopped), Stream(tip, began, items, true);
    if before == [] {
      assert [] + [whole] + after == [whole] + after && [] + [cut] == [cut];
      assert ([whole] + after)[0] == whole;
      CutRead(interval, items, more, stopped, Position(mark, number, tip), began);
    } else {
      assert (before + [whole] + after)[0] == before[0]
        && (before + [whole] + after)[1..] == before[1..] + [whole] + after;
      assert (before + [cut])[0] == before[0] && (before + [cut])[1..] == before[1..] + [cut];
      var next := if before[0].Refused? then number else AfterSubscribing(interval, mark, number, before[0]).number;
      NothingFollows(interval, mark, next, before[1..], tip, began, items, more, stopped, after);
    }
  }

  /** Where a subscription starts: after the number the last one left, after the number assigned, or at the tip. */
  predicate StartsAt(mark: Mark, number: Option<nat>, tip: nat, pos: nat) {
    pos == if number.Some? then number.value else if mark.At? then mark.number else tip
  }

  /** A stream in which nothing ends the reading: all its records are processed, exactly the checkpoints due are
      sent, and unless the stop signal comes, the processor subscribes again from where it got to. */
  lemma ReadsOn(interval: int, mark: Mark, number: Option<nat>, tip: nat, began: int, items: seq<Item>, stopped: bool,
                after: seq<Subscription>, pos: nat)
    returns (acts: seq<Act>)
    requires Smooth(interval, began, items) && StartsAt(mark, number, tip, pos)
    ensures All(interval, mark, number, [Stream(tip, began, items, stopped)] + after)
      == [Subscribed(pos, number.None? && !mark.At?)] + acts
         + if stopped then [] else All(interval, mark, LeftBy(items, pos), after)
    ensures Worked(interval, began, items, pos, acts)
  {
    ReadsThrough(interval, items, [], stopped, pos, began);
    assert items + [] == items;
    acts := WorkOn(interval, began, items, pos);
    var s := Stream(tip, began, items, stopped);
    assert ([s] + after)[0] == s && ([s] + after)[1..] == after;
    hide Smooth, Worked, LastSent, Total, LeftBy, WorkOn, CheckpointDue;
    assert acts + [] == acts;
  }

  /** A stream up to the item that ends the reading. */
  lemma ReadsToEnd(interval: int, mark: Mark, number: Option<nat>, tip: nat, began: int, items: seq<Item>, x: Item,
                   more: seq<Item>, stopped: bool, after: seq<Subscription>, pos: nat)
    returns (acts: seq<Act>)
    requires Smooth(interval, began, items) && EndsReading(interval, began, items + [x])
      && StartsAt(mark, number, tip, pos)
    ensures x.Batch? && Ended(interval, began, items, x, pos, acts)
    ensures All(interval, mark, number, [Stream(tip, began, items + [x] + more, stopped)] + after)
      == [Subscribed(pos, number.None? && !mark.At?)] + acts
  {
    var through := items + [x];
    assert through[..|through| - 1] == items;
    EndedRead(interval, through, more, stopped, pos, began);
    acts := WorkOn(interval, began, through, pos);
    var s := Stream(tip, began, through + more, stopped);
    assert ([s] + after)[0] == s;
    hide Smooth, EndsReading, Ended, WorkOn, Read;
  }

  /** After a clean answer on an open shard, and after an item that led to no checkpoint, the next batch is
      processed. */
  lemma NextBatch(interval: int, mark: Mark, number: Option<nat>, tip: nat, began: int, items: seq<Item>, x: Item,
                  more: seq<Item>, stopped: bool, after: seq<Subscription>, pos: nat)
    requires Smooth(interval, began, items) && x.Batch? && StartsAt(mark, number, tip, pos)
    ensures forall n: nat :: pos < n <= pos + Total(items) + x.size ==>
      Processed(n) in All(interval, mark, number, [Stream(tip, began, items + [x] + more, stopped)] + after)
  {
    ReadsThrough(interval, items, [x] + more, stopped, pos, began);
    assert items + ([x] + more) == items + [x] + more;
    assert ([x] + more)[0] == x;
    RecordsExact(pos + Total(items), x.size);
    var s := Stream(tip, began, items + [x] + more, stopped);
    assert ([s] + after)[0] == s;
    hide Smooth, LastSent, LeftBy, WorkOn, CheckpointDue, Records, Sends, Tries, Answer, Marks;
  }
}
