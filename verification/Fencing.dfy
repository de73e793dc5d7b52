/** Checkpoint fencing: three separate transactions on the shared store, by any number of managers, in any
    interleaving. The store compares assignment ids as texts. */
module Fencing {
  import opened Finite
  import opened Lineage
  import opened WorkerRecord

  // ---------- Ids as texts ----------

  /** Assignment ids, as the manager issues them: non-negative 64-bit integers. */
  type Id = n: int | 0 <= n < 0x8000_0000_0000_0000

  function Digit(d: nat): char
    requires d < 10
  {
    '0' + d as char
  }

  /** The last width digits of n. */
  function Digits(n: nat, width: nat): string {
    if width == 0 then "" else Digits(n / 10, width - 1) + [Digit(n % 10)]
  }

  /** "%020d" */
  function Text(id: Id): string {
    Digits(id, 20)
  }

  /** The store's order on values: the first difference decides, and a prefix comes first. */
  predicate Less(a: string, b: string) {
    if b == "" then false
    else if a == "" then true
    else if a[0] != b[0] then a[0] < b[0]
    else Less(a[1..], b[1..])
  }

  lemma {:induction false} LessAppend(a: string, b: string, x: char, y: char)
    requires |a| == |b|
    ensures Less(a + [x], b + [y]) <==> Less(a, b) || (a == b && x < y)
  {
    if a != "" {
      LessAppend(a[1..], b[1..], x, y);
      assert (a + [x])[1..] == a[1..] + [x] && (b + [y])[1..] == b[1..] + [y];
      assert a == b <==> a[0] == b[0] && a[1..] == b[1..];
    }
  }

  function Power(width: nat): nat {
    if width == 0 then 1 else 10 * Power(width - 1)
  }

  /** Padded to the same width, texts are ordered and told apart as the numbers are. */
  lemma {:induction false} DigitsOrder(m: nat, n: nat, width: nat)
    requires m < Power(width) && n < Power(width)
    ensures |Digits(m, width)| == width && |Digits(n, width)| == width
    ensures Less(Digits(m, width), Digits(n, width)) <==> m < n
    ensures Digits(m, width) == Digits(n, width) <==> m == n
  {
    if width > 0 {
      DigitsOrder(m / 10, n / 10, width - 1);
      var a, b := Digits(m / 10, width - 1), Digits(n / 10, width - 1);
      LessAppend(a, b, Digit(m % 10), Digit(n % 10));
      assert (a + [Digit(m % 10)])[..width - 1] == a && (b + [Digit(n % 10)])[..width - 1] == b;
      assert (a + [Digit(m % 10)])[width - 1] == Digit(m % 10) && (b + [Digit(n % 10)])[width - 1] == Digit(n % 10);
    }
  }

  /** On assignment ids the order of the texts is the order of the numbers. */
  lemma TextOrder(m: Id, n: Id)
    ensures Less(Text(m), Text(n)) <==> m < n
    ensures Text(m) == Text(n) <==> m == n
  {
    assert Power(20) == 100_000_000_000_000_000_000 by {
      assert Power(5) == 100_000;
      assert Power(10) == 10_000_000_000;
      assert Power(15) == 1_000_000_000_000_000;
    }
    DigitsOrder(m, n, 20);
  }

  /** The number that a text of digits stands for. */
  function Value(text: string): nat
    requires forall i :: 0 <= i < |text| ==> '0' <= text[i] <= '9'
  {
    if text == "" then 0 else Value(text[..|text| - 1]) * 10 + (text[|text| - 1] as nat - '0' as nat)
  }

  lemma {:induction false} DigitsRead(n: nat, width: nat)
    requires n < Power(width)
    ensures |Digits(n, width)| == width && (forall i :: 0 <= i < width ==> '0' <= Digits(n, width)[i] <= '9')
    ensures Value(Digits(n, width)) == n
  {
    if width > 0 {
      DigitsRead(n / 10, width - 1);
      var text := Digits(n, width);
      assert text[..width - 1] == Digits(n / 10, width - 1) && text[width - 1] == Digit(n % 10);
    }
  }

  /** An id is written in twenty decimal digits, from which it can be read back. */
  lemma TextReads(id: Id)
    ensures |Text(id)| == 20 && (forall i :: 0 <= i < 20 ==> '0' <= Text(id)[i] <= '9') && Value(Text(id)) == id
  {
    assert Power(20) == 100_000_000_000_000_000_000 by {
      assert Power(5) == 100_000;
      assert Power(10) == 10_000_000_000;
      assert Power(15) == 1_000_000_000_000_000;
    }
    DigitsRead(id, 20);
  }

  // ---------- Transactions ----------

  /** What the store holds for a shard: the assignment id that committed last, as text, and its checkpoint. */
  datatype Entry = Entry(owner: string, mark: Mark)

  type Store = map<ShardId, Entry>

  /** The conditions, in the order in which they are tried: the key holds this id; the key was never
      created; the key holds a smaller id. A value comparison on a missing key fails. */
  predicate Passes(store: Store, sh: ShardId, id: Id, k: nat) {
    match k
    case 0 => sh in store && store[sh].owner == Text(id)
    case 1 => sh !in store
    case 2 => sh in store && Less(store[sh].owner, Text(id))
    case _ => false
  }

  function Put(store: Store, sh: ShardId, id: Id, mark: Mark): Store {
    store[sh := Entry(Text(id), mark)]
  }

  function Attempt(store: Store, sh: ShardId, id: Id, mark: Mark, k: nat): Store {
    if Passes(store, sh, id, k) then Put(store, sh, id, mark) else store
  }

  /** The id that owns the key, if it is one. */
  ghost predicate OwnedBy(store: Store, sh: ShardId, id: Id) {
    sh in store && store[sh].owner == Text(id)
  }

  ghost predicate AtLeast(store: Store, sh: ShardId, id: Id) {
    exists o: Id :: OwnedBy(store, sh, o) && id <= o
  }

  /** Only ids are ever put. */
  ghost predicate Proper(store: Store) {
    forall sh :: sh in store ==> exists o: Id :: OwnedBy(store, sh, o)
  }

  /** No transaction lowers the id of any key. */
  lemma AttemptRaises(store: Store, sh: ShardId, id: Id, mark: Mark, k: nat, key: ShardId, low: Id)
    requires AtLeast(store, key, low)
    ensures AtLeast(Attempt(store, sh, id, mark, k), key, low)
  {
    var o: Id :| OwnedBy(store, key, o) && low <= o;
    var next := Attempt(store, sh, id, mark, k);
    if key == sh && Passes(store, sh, id, k) {
      TextOrder(o, id);
      assert OwnedBy(next, key, id);
    } else {
      assert OwnedBy(next, key, o);
    }
  }

  lemma AttemptProper(store: Store, sh: ShardId, id: Id, mark: Mark, k: nat)
    requires Proper(store)
    ensures Proper(Attempt(store, sh, id, mark, k))
  {
    var next := Attempt(store, sh, id, mark, k);
    forall key | key in next ensures exists o: Id :: OwnedBy(next, key, o) {
      if key == sh && Passes(store, sh, id, k) {
        assert OwnedBy(next, key, id);
      } else {
        var o: Id :| OwnedBy(store, key, o);
        assert OwnedBy(next, key, o);
      }
    }
  }

  /** The third condition fails, on a key that exists, only if the key holds an id at least as large. */
  lemma ThirdFails(store: Store, sh: ShardId, id: Id)
    requires Proper(store) && sh in store && !Passes(store, sh, id, 2)
    ensures AtLeast(store, sh, id)
  {
    var o: Id :| OwnedBy(store, sh, o);
    TextOrder(o, id);
  }

  // ---------- Any number of requests, in any interleaving ----------

  datatype Outcome = Trying | Accepted | Rejected | Failed

  /** A checkpoint request past its ownership check. tries counts the transactions made; since and until say how
      many commits there had been at the first and at the latest of them. */
  datatype Request = Request(shard: ShardId, id: Id, mark: Mark, tries: nat, outcome: Outcome, since: nat, until: nat)

  /** A successful transaction. */
  datatype Commit = Commit(r: nat, shard: ShardId, id: Id, mark: Mark)

  datatype Fence = Fence(store: Store, requests: map<nat, Request>, log: seq<Commit>)

  /** Lose: the transaction's answer is lost, and the request fails, whether it was applied or not. */
  datatype Step =
    | Begin(r: nat, shard: ShardId, id: Id, mark: Mark)
    | Try(r: nat)
    | Lose(r: nat, applied: bool)

  predicate CanStep(f: Fence, s: Step) {
    match s
    case Begin(r, _, _, _) => r !in f.requests
    case Try(r) => r in f.requests && f.requests[r].outcome == Trying && f.requests[r].tries < 3
    case Lose(r, _) => r in f.requests && f.requests[r].outcome == Trying && f.requests[r].tries < 3
  }

  /** The request has made one more transaction, after n commits. */
  function More(q: Request, n: nat, outcome: Outcome): Request {
    q.(tries := q.tries + 1, outcome := outcome, since := if q.tries == 0 then n else q.since, until := n)
  }

  function Tried(f: Fence, r: nat): Fence
    requires r in f.requests
  {
    var q := f.requests[r];
    if Passes(f.store, q.shard, q.id, q.tries) then
      Fence(Put(f.store, q.shard, q.id, q.mark), f.requests[r := More(q, |f.log|, Accepted)],
            f.log + [Commit(r, q.shard, q.id, q.mark)])
    else
      f.(requests := f.requests[r := More(q, |f.log|, if q.tries == 2 then Rejected else Trying)])
  }

  function StepOf(f: Fence, s: Step): Fence
    requires CanStep(f, s)
  {
    match s
    case Begin(r, sh, id, mark) => f.(requests := f.requests[r := Request(sh, id, mark, 0, Trying, 0, 0)])
    case Try(r) => Tried(f, r)
    case Lose(r, applied) =>
      var q := f.requests[r];
      var t := if applied then Tried(f, r) else f;
      t.(requests := t.requests[r := q.(outcome := Failed)])
  }

  ghost predicate CanSteps(f: Fence, steps: seq<Step>)
    decreases |steps|, 0
  {
    steps == [] ||
    (CanSteps(f, steps[..|steps| - 1]) && CanStep(FenceAfter(f, steps[..|steps| - 1]), steps[|steps| - 1]))
  }

  ghost function FenceAfter(f: Fence, steps: seq<Step>): Fence
    requires CanSteps(f, steps)
    decreases |steps|, 1
  {
    if steps == [] then f else StepOf(FenceAfter(f, steps[..|steps| - 1]), steps[|steps| - 1])
  }

  const EMPTY := Fence(map[], map[], [])

  /** Commits of a shard never go back to a smaller id. */
  ghost predicate Rising(log: seq<Commit>) {
    forall i, j :: 0 <= i < j < |log| && log[i].shard == log[j].shard ==> log[i].id <= log[j].id
  }

  /** The key of a shard holds what was committed last for it. */
  ghost predicate Latest(f: Fence) {
    && (forall i :: 0 <= i < |f.log| ==> AtLeast(f.store, f.log[i].shard, f.log[i].id))
    && (forall sh :: sh in f.store ==> exists i :: IsLast(f, sh, i))
  }

  ghost predicate IsLast(f: Fence, sh: ShardId, i: nat) {
    && i < |f.log| && f.log[i].shard == sh && sh in f.store
    && f.store[sh] == Entry(Text(f.log[i].id), f.log[i].mark)
    && forall j :: i < j < |f.log| ==> f.log[j].shard != sh
  }

  /** A request past its second try has seen the key; a rejected one has seen an id at least its own there. */
  ghost predicate Seen(store: Store, q: Request) {
    && q.tries <= 3
    && (q.tries >= 2 ==> q.shard in store)
    && (q.outcome == Rejected ==> q.tries == 3 && AtLeast(store, q.shard, q.id))
    && (q.outcome == Trying ==> q.tries < 3)
  }

  /** Every request commits at most once: if accepted, or if its answer was lost. */
  ghost predicate Logged(f: Fence) {
    && (forall i :: 0 <= i < |f.log| ==> LoggedFor(f.log[i], f.requests))
    && (forall i, j :: 0 <= i < j < |f.log| ==> f.log[i].r != f.log[j].r)
    && (forall r :: r in f.requests && f.requests[r].outcome == Accepted ==>
        exists i :: 0 <= i < |f.log| && f.log[i].r == r)
  }

  ghost predicate LoggedFor(c: Commit, requests: map<nat, Request>) {
    c.r in requests && (requests[c.r].outcome == Accepted || requests[c.r].outcome == Failed)
    && c == Commit(c.r, requests[c.r].shard, requests[c.r].id, requests[c.r].mark)
  }

  ghost predicate Fenced(f: Fence) {
    && Proper(f.store) && Rising(f.log) && Latest(f) && Logged(f)
    && (forall r :: r in f.requests ==> Seen(f.store, f.requests[r]))
    && forall r :: r in f.requests ==> Watched(f.log, f.requests[r])
  }

  /** i is the last of the first n commits that is about the shard. */
  ghost predicate LastBefore(log: seq<Commit>, sh: ShardId, n: nat, i: nat) {
    i < n <= |log| && log[i].shard == sh && forall j :: i < j < n ==> log[j].shard != sh
  }

  /** At its first try a request did not find its own id; at its third it found one at least as large. */
  ghost predicate Watched(log: seq<Commit>, q: Request) {
    && (q.tries >= 1 && (q.outcome == Trying || q.outcome == Rejected) ==>
          q.since <= |log| && forall i: nat :: LastBefore(log, q.shard, q.since, i) ==> log[i].id != q.id)
    && (q.outcome == Rejected ==>
          q.since <= q.until <= |log| && exists i: nat :: LastBefore(log, q.shard, q.until, i) && q.id <= log[i].id)
  }

  /** A transaction that passes raises the key to the request's id: earlier commits had no larger one. */
  lemma PassesAbove(store: Store, sh: ShardId, id: Id, k: nat, low: Id)
    requires Passes(store, sh, id, k) && AtLeast(store, sh, low)
    ensures low <= id
  {
    var o: Id :| OwnedBy(store, sh, o) && low <= o;
    TextOrder(o, id);
  }

  lemma TriedRising(f: Fence, r: nat)
    requires r in f.requests && Rising(f.log) && Latest(f)
    ensures Rising(Tried(f, r).log)
  {
    var q := f.requests[r];
    var t := Tried(f, r);
    if Passes(f.store, q.shard, q.id, q.tries) {
      forall i, j | 0 <= i < j < |t.log| && t.log[i].shard == t.log[j].shard ensures t.log[i].id <= t.log[j].id {
        if j == |f.log| {
          PassesAbove(f.store, q.shard, q.id, q.tries, f.log[i].id);
        }
      }
    }
  }

  lemma TriedLatest(f: Fence, r: nat)
    requires r in f.requests && Latest(f)
    ensures Latest(Tried(f, r))
  {
    var q := f.requests[r];
    var t := Tried(f, r);
    if Passes(f.store, q.shard, q.id, q.tries) {
      assert t.store == Attempt(f.store, q.shard, q.id, q.mark, q.tries);
      forall i | 0 <= i < |t.log| ensures AtLeast(t.store, t.log[i].shard, t.log[i].id) {
        if i < |f.log| {
          AttemptRaises(f.store, q.shard, q.id, q.mark, q.tries, f.log[i].shard, f.log[i].id);
        } else {
          assert OwnedBy(t.store, q.shard, q.id);
        }
      }
      forall sh | sh in t.store ensures exists i :: IsLast(t, sh, i) {
        if sh == q.shard {
          assert IsLast(t, sh, |f.log|);
        } else {
          var i :| IsLast(f, sh, i);
          assert IsLast(t, sh, i);
        }
      }
    } else {
      forall sh | sh in t.store ensures exists i :: IsLast(t, sh, i) {
        var i :| IsLast(f, sh, i);
        assert IsLast(t, sh, i);
      }
    }
  }

  lemma TriedLogged(f: Fence, r: nat)
    requires r in f.requests && f.requests[r].outcome == Trying && Logged(f)
    ensures Logged(Tried(f, r))
  {
    hide Passes;
    var q := f.requests[r];
    var t := Tried(f, r);
    assert forall i :: 0 <= i < |f.log| ==> LoggedFor(f.log[i], f.requests);
    if Passes(f.store, q.shard, q.id, q.tries) {
      forall x | x in t.requests && t.requests[x].outcome == Accepted
        ensures exists i :: 0 <= i < |t.log| && t.log[i].r == x {
        if x == r {
          assert t.log[|f.log|].r == r;
        } else {
          var i :| 0 <= i < |f.log| && f.log[i].r == x;
          assert t.log[i].r == x;
        }
      }
    }
  }

  lemma TriedSeen(f: Fence, r: nat, x: nat)
    requires r in f.requests && f.requests[r].outcome == Trying && Proper(f.store)
    requires x in f.requests && Seen(f.store, f.requests[x]) && Seen(f.store, f.requests[r])
    ensures Seen(Tried(f, r).store, Tried(f, r).requests[x])
  {
    var q := f.requests[r];
    var t := Tried(f, r);
    assert t.store == Attempt(f.store, q.shard, q.id, q.mark, q.tries);
    if f.requests[x].outcome == Rejected {
      AttemptRaises(f.store, q.shard, q.id, q.mark, q.tries, f.requests[x].shard, f.requests[x].id);
    }
    if x == r && t.requests[r].outcome == Rejected {
      ThirdFails(f.store, q.shard, q.id);
    }
  }

  /** What the key holds is the last commit about the shard. */
  lemma KeyIsLast(f: Fence, sh: ShardId, i: nat)
    requires Latest(f) && LastBefore(f.log, sh, |f.log|, i)
    ensures OwnedBy(f.store, sh, f.log[i].id)
  {
    assert AtLeast(f.store, f.log[i].shard, f.log[i].id);
    var k :| IsLast(f, sh, k);
  }

  lemma LastKept(log: seq<Commit>, c: Commit, sh: ShardId, n: nat, i: nat)
    requires n <= |log|
    ensures LastBefore(log + [c], sh, n, i) <==> LastBefore(log, sh, n, i)
  {
    var more := log + [c];
    assert forall j :: 0 <= j < |log| ==> more[j] == log[j];
    if LastBefore(more, sh, n, i) {
      forall j | i < j < n ensures log[j].shard != sh {
        assert more[j].shard != sh;
      }
    }
  }

  lemma WatchedKept(log: seq<Commit>, c: Commit, q: Request)
    requires Watched(log, q)
    ensures Watched(log + [c], q)
  {
    if q.tries >= 1 && (q.outcome == Trying || q.outcome == Rejected) {
      forall i: nat | LastBefore(log + [c], q.shard, q.since, i) ensures (log + [c])[i].id != q.id {
        LastKept(log, c, q.shard, q.since, i);
        assert LastBefore(log, q.shard, q.since, i) && (log + [c])[i] == log[i];
      }
    }
    if q.outcome == Rejected {
      var i: nat :| LastBefore(log, q.shard, q.until, i) && q.id <= log[i].id;
      LastKept(log, c, q.shard, q.until, i);
      assert LastBefore(log + [c], q.shard, q.until, i) && q.id <= (log + [c])[i].id;
    }
  }

  /** A first try that fails has not found its own id. */
  lemma FirstWatched(f: Fence, q: Request)
    requires Latest(f) && !Passes(f.store, q.shard, q.id, 0)
    ensures forall i: nat :: LastBefore(f.log, q.shard, |f.log|, i) ==> f.log[i].id != q.id
  {
    forall i: nat | LastBefore(f.log, q.shard, |f.log|, i) ensures f.log[i].id != q.id {
      KeyIsLast(f, q.shard, i);
      hide Latest, Text;
    }
  }

  /** A third try that fails has found an id at least as large. */
  lemma ThirdWatched(f: Fence, q: Request)
    requires Proper(f.store) && Latest(f) && q.shard in f.store && !Passes(f.store, q.shard, q.id, 2)
    ensures exists i: nat :: LastBefore(f.log, q.shard, |f.log|, i) && q.id <= f.log[i].id
  {
    ThirdFails(f.store, q.shard, q.id);
    hide Text, Less;
    var i: nat :| IsLast(f, q.shard, i);
    var o: Id :| OwnedBy(f.store, q.shard, o) && q.id <= o;
    TextOrder(o, f.log[i].id);
    assert LastBefore(f.log, q.shard, |f.log|, i);
  }

  /** A try that fails leaves its request watched. */
  lemma FailedWatched(f: Fence, r: nat)
    requires Fenced(f) && r in f.requests && f.requests[r].outcome == Trying
    requires !Passes(f.store, f.requests[r].shard, f.requests[r].id, f.requests[r].tries)
    ensures Watched(f.log, Tried(f, r).requests[r])
  {
    var q := f.requests[r];
    assert Seen(f.store, q) && Watched(f.log, q);
    hide Proper, Rising, Latest, Logged, LastBefore;
    if q.tries == 0 {
      FirstWatched(f, q);
    }
    if q.tries == 2 {
      ThirdWatched(f, q);
    }
    hide Passes;
  }

  lemma TriedWatched(f: Fence, r: nat, x: nat)
    requires Fenced(f) && r in f.requests && f.requests[r].outcome == Trying && x in f.requests
    ensures Watched(Tried(f, r).log, Tried(f, r).requests[x])
  {
    var q := f.requests[r];
    if Passes(f.store, q.shard, q.id, q.tries) {
      WatchedKept(f.log, Commit(r, q.shard, q.id, q.mark), f.requests[x]);
    } else if x == r {
      FailedWatched(f, r);
    }
  }

  lemma TriedFenced(f: Fence, r: nat)
    requires Fenced(f) && r in f.requests && f.requests[r].outcome == Trying
    ensures Fenced(Tried(f, r))
  {
    hide Proper, Rising, Latest, Logged, Passes;
    var q := f.requests[r];
    TriedRising(f, r);
    TriedLatest(f, r);
    TriedLogged(f, r);
    AttemptProper(f.store, q.shard, q.id, q.mark, q.tries);
    forall x | x in Tried(f, r).requests ensures Seen(Tried(f, r).store, Tried(f, r).requests[x]) {
      TriedSeen(f, r, x);
    }
    forall x | x in Tried(f, r).requests ensures Watched(Tried(f, r).log, Tried(f, r).requests[x]) {
      TriedWatched(f, r, x);
    }
  }

  lemma LatestSame(f: Fence, t: Fence)
    requires Latest(f) && t.store == f.store && t.log == f.log
    ensures Latest(t)
  {
    forall sh | sh in t.store ensures exists i :: IsLast(t, sh, i) {
      var i :| IsLast(f, sh, i);
      assert IsLast(t, sh, i);
    }
  }

  lemma FailedFenced(f: Fence, r: nat, q: Request)
    requires Fenced(f) && r in f.requests && q.outcome == Failed && Seen(f.store, q)
    requires q.shard == f.requests[r].shard && q.id == f.requests[r].id && q.mark == f.requests[r].mark
    ensures Fenced(f.(requests := f.requests[r := q]))
  {
    hide Proper, Rising, Latest, Seen;
    var t := f.(requests := f.requests[r := q]);
    LatestSame(f, t);
    forall i | 0 <= i < |t.log| ensures LoggedFor(t.log[i], t.requests) {
      assert LoggedFor(f.log[i], f.requests);
    }
  }

  lemma BeginFenced(f: Fence, r: nat, q: Request)
    requires Fenced(f) && r !in f.requests && q.outcome == Trying && q.tries == 0
    ensures Fenced(f.(requests := f.requests[r := q]))
  {
    hide Proper, Rising, Latest;
    var t := f.(requests := f.requests[r := q]);
    LatestSame(f, t);
    forall i | 0 <= i < |t.log| ensures LoggedFor(t.log[i], t.requests) {
      assert LoggedFor(f.log[i], f.requests);
    }
  }

  lemma StepFenced(f: Fence, s: Step)
    requires Fenced(f) && CanStep(f, s)
    ensures Fenced(StepOf(f, s))
  {
    match s
    case Begin(r, sh, id, mark) => BeginFenced(f, r, Request(sh, id, mark, 0, Trying, 0, 0));
    case Try(r) =>
      hide Fenced;
      TriedFenced(f, r);
    case Lose(r, applied) =>
      if applied {
        TriedFenced(f, r);
        hide Proper, Rising, Latest, Logged;
        FailedFenced(Tried(f, r), r, f.requests[r].(outcome := Failed));
      } else {
        hide Proper, Rising, Latest, Logged;
        FailedFenced(f, r, f.requests[r].(outcome := Failed));
      }
  }

  /** Fencing: in every interleaving, commits of a shard never go back to a smaller id, the store holds what was
      committed last, a request commits at most once (not at all if rejected), and a rejected request was
      confronted with an id at least its own. */
  lemma {:induction false} FencedAlways(steps: seq<Step>)
    requires CanSteps(EMPTY, steps)
    ensures Fenced(FenceAfter(EMPTY, steps))
    decreases |steps|
  {
    if steps != [] {
      FencedAlways(steps[..|steps| - 1]);
      hide Fenced, CanStep, StepOf;
      StepFenced(FenceAfter(EMPTY, steps[..|steps| - 1]), steps[|steps| - 1]);
    }
  }

  /** The id stored for a shard never decreases. */
  lemma {:induction false} StoredNeverFalls(f: Fence, steps: seq<Step>, sh: ShardId, low: Id)
    requires CanSteps(f, steps) && AtLeast(f.store, sh, low)
    ensures AtLeast(FenceAfter(f, steps).store, sh, low)
    decreases |steps|
  {
    if steps != [] {
      var front := steps[..|steps| - 1];
      StoredNeverFalls(f, front, sh, low);
      var t := FenceAfter(f, front);
      var a := steps[|steps| - 1];
      if !a.Begin? {
        var q := t.requests[a.r];
        AttemptRaises(t.store, q.shard, q.id, q.mark, q.tries, sh, low);
        hide Passes, AtLeast;
      }
    }
  }

  /** Once an id has been committed for a shard, no smaller one is accepted any more. */
  lemma StaleRefused(f: Fence, steps: seq<Step>, sh: ShardId, done: Id, r: nat)
    requires CanSteps(f, steps) && AtLeast(f.store, sh, done)
    requires var t := FenceAfter(f, steps); CanStep(t, Try(r)) && t.requests[r].shard == sh && t.requests[r].id < done
    ensures StepOf(FenceAfter(f, steps), Try(r)).requests[r].outcome != Accepted
    ensures StepOf(FenceAfter(f, steps), Try(r)).store == FenceAfter(f, steps).store
  {
    StoredNeverFalls(f, steps, sh, done);
    var t := FenceAfter(f, steps);
    if Passes(t.store, sh, t.requests[r].id, t.requests[r].tries) {
      PassesAbove(t.store, sh, t.requests[r].id, t.requests[r].tries, done);
    }
  }

  // ---------- What a rejection means ----------

  /** At the latest try of q the key held a larger id. */
  ghost predicate Superseded(log: seq<Commit>, q: Request) {
    exists i: nat :: LastBefore(log, q.shard, q.until, i) && q.id < log[i].id
  }

  /** After the first try of q another request under the same id committed, and no larger id did before the latest. */
  ghost predicate Raced(log: seq<Commit>, r: nat, q: Request) {
    exists t: nat :: TwinAt(log, r, q, t)
  }

  ghost predicate TwinAt(log: seq<Commit>, r: nat, q: Request, t: nat) {
    && q.since <= t < q.until <= |log| && log[t].shard == q.shard && log[t].id == q.id && log[t].r != r
    && forall j :: t < j < q.until && log[j].shard == q.shard ==> log[j].id <= q.id
  }

  /** A rejected request was superseded by a larger id if and only if it did not lose a race, after its first try,
      to another request of its own assignment. */
  lemma RejectionExact(steps: seq<Step>, r: nat)
    requires CanSteps(EMPTY, steps) && r in FenceAfter(EMPTY, steps).requests
    requires FenceAfter(EMPTY, steps).requests[r].outcome == Rejected
    ensures var f := FenceAfter(EMPTY, steps); Superseded(f.log, f.requests[r]) <==> !Raced(f.log, r, f.requests[r])
  {
    FencedAlways(steps);
    var f := FenceAfter(EMPTY, steps);
    hide CanSteps, FenceAfter;
    assert Watched(f.log, f.requests[r]);
    hide Watched;
    if !Superseded(f.log, f.requests[r]) {
      NotSuperseded(f, r);
    } else if Raced(f.log, r, f.requests[r]) {
      SupersededNoRace(f.log, r, f.requests[r]);
    }
  }

  lemma NotSuperseded(f: Fence, r: nat)
    requires Fenced(f) && r in f.requests && f.requests[r].outcome == Rejected && !Superseded(f.log, f.requests[r])
    ensures Raced(f.log, r, f.requests[r])
  {
    var q := f.requests[r];
    assert Watched(f.log, q) && Seen(f.store, q);
    forall i | 0 <= i < |f.log| ensures f.log[i].r != r {
      assert LoggedFor(f.log[i], f.requests);
    }
    hide Fenced, Watched;
    LostRace(f.log, r, q);
  }

  lemma LostRace(log: seq<Commit>, r: nat, q: Request)
    requires Watched(log, q) && q.outcome == Rejected && q.tries == 3 && !Superseded(log, q)
    requires forall i :: 0 <= i < |log| ==> log[i].r != r
    ensures Raced(log, r, q)
  {
    var i: nat :| LastBefore(log, q.shard, q.until, i) && q.id <= log[i].id;
    assert !(q.id < log[i].id);
    LastEarlier(log, q.shard, q.since, q.until, i);
    assert !LastBefore(log, q.shard, q.since, i);
    assert TwinAt(log, r, q, i);
  }

  lemma LastEarlier(log: seq<Commit>, sh: ShardId, n: nat, m: nat, i: nat)
    requires LastBefore(log, sh, m, i) && n <= m
    ensures i < n ==> LastBefore(log, sh, n, i)
  {
  }

  lemma SupersededNoRace(log: seq<Commit>, r: nat, q: Request)
    requires Superseded(log, q)
    ensures !Raced(log, r, q)
  {
    var i: nat :| LastBefore(log, q.shard, q.until, i) && q.id < log[i].id;
    forall t: nat ensures !TwinAt(log, r, q, t) {
    }
  }

  /** No two requests of one assignment are in flight. */
  ghost predicate OneInFlight(f: Fence) {
    forall q, r :: q in f.requests && r in f.requests && q != r
                   && f.requests[q].outcome == Trying && f.requests[r].outcome == Trying ==>
      !(f.requests[q].shard == f.requests[r].shard && f.requests[q].id == f.requests[r].id)
  }

  /** ... at any time. */
  ghost predicate OneAtATime(f: Fence, steps: seq<Step>)
    requires CanSteps(f, steps)
    decreases |steps|
  {
    OneInFlight(FenceAfter(f, steps)) && (steps == [] || OneAtATime(f, steps[..|steps| - 1]))
  }

  /** Since its first try, and before its last, nothing has committed under the request's id. */
  ghost predicate Unraced(log: seq<Commit>, q: Request) {
    q.tries >= 1 && (q.outcome == Trying || q.outcome == Rejected) ==>
      forall t :: q.since <= t < |log| && (q.outcome == Rejected ==> t < q.until) ==>
        !(log[t].shard == q.shard && log[t].id == q.id)
  }

  /** The request that is tried. */
  lemma SelfUnraced(f: Fence, r: nat)
    requires CanStep(f, Try(r)) && Unraced(f.log, f.requests[r]) && Watched(f.log, f.requests[r])
    ensures Unraced(Tried(f, r).log, Tried(f, r).requests[r])
  {
    hide Passes, LastBefore;
  }

  /** The others. */
  lemma OtherUnraced(f: Fence, r: nat, x: nat)
    requires CanStep(f, Try(r)) && OneInFlight(f) && x in f.requests && x != r
    requires Unraced(f.log, f.requests[x]) && Watched(f.log, f.requests[x])
    ensures Unraced(Tried(f, r).log, Tried(f, r).requests[x])
  {
    hide Passes, LastBefore;
  }

  lemma StepUnraced(f: Fence, s: Step, x: nat)
    requires CanStep(f, s) && Fenced(f) && OneInFlight(f)
    requires forall r :: r in f.requests ==> Unraced(f.log, f.requests[r])
    requires x in StepOf(f, s).requests
    ensures Unraced(StepOf(f, s).log, StepOf(f, s).requests[x])
  {
    hide OneInFlight, Passes, Proper, Rising, Latest, Logged, Watched, Seen;
    if !s.Begin? {
      assert s.r in f.requests && Watched(f.log, f.requests[s.r]) && Unraced(f.log, f.requests[s.r]);
      if x == s.r {
        SelfUnraced(f, x);
      } else {
        assert x in f.requests && Watched(f.log, f.requests[x]);
        OtherUnraced(f, s.r, x);
      }
    } else if x in f.requests {
      assert Unraced(f.log, f.requests[x]);
    }
  }

  lemma {:induction false} UnracedAlways(steps: seq<Step>)
    requires CanSteps(EMPTY, steps) && OneAtATime(EMPTY, steps)
    ensures var f := FenceAfter(EMPTY, steps); forall r :: r in f.requests ==> Unraced(f.log, f.requests[r])
    decreases |steps|
  {
    if steps != [] {
      var front := steps[..|steps| - 1];
      UnracedAlways(front);
      FencedAlways(front);
      hide CanStep, StepOf, Unraced, Fenced, OneInFlight;
      assert OneInFlight(FenceAfter(EMPTY, front));
      forall x | x in FenceAfter(EMPTY, steps).requests
        ensures Unraced(FenceAfter(EMPTY, steps).log, FenceAfter(EMPTY, steps).requests[x]) {
        StepUnraced(FenceAfter(EMPTY, front), steps[|steps| - 1], x);
      }
    }
  }

  /** What a caller can see to beforehand: if requests of one assignment follow one another, a rejection always means
      that a larger id has taken over. */
  lemma RejectedSuperseded(steps: seq<Step>, r: nat)
    requires CanSteps(EMPTY, steps) && OneAtATime(EMPTY, steps) && r in FenceAfter(EMPTY, steps).requests
    requires FenceAfter(EMPTY, steps).requests[r].outcome == Rejected
    ensures Superseded(FenceAfter(EMPTY, steps).log, FenceAfter(EMPTY, steps).requests[r])
  {
    UnracedAlways(steps);
    FencedAlways(steps);
    RejectionExact(steps, r);
    var f := FenceAfter(EMPTY, steps);
    assert Seen(f.store, f.requests[r]) && Unraced(f.log, f.requests[r]);
    hide CanSteps, FenceAfter, Fenced, OneAtATime, Superseded;
    forall t: nat ensures !TwinAt(f.log, r, f.requests[r], t) {
    }
  }

  lemma NextStep(f: Fence, steps: seq<Step>, s: Step)
    requires CanSteps(f, steps) && CanStep(FenceAfter(f, steps), s)
    ensures CanSteps(f, steps + [s]) && FenceAfter(f, steps + [s]) == StepOf(FenceAfter(f, steps), s)
  {
    hide CanStep, StepOf;
    assert (steps + [s])[..|steps|] == steps;
  }

  /** Two requests of one assignment, r past its first try, x about to commit. */
  ghost predicate AboutToRace(f: Fence, r: nat, x: nat) {
    && r in f.requests && x in f.requests && r != x
    && f.requests[r].outcome == Trying && f.requests[x].outcome == Trying
    && f.requests[r].shard == f.requests[x].shard && f.requests[r].id == f.requests[x].id
    && f.requests[r].tries == 1 && f.requests[x].tries < 3
    && Passes(f.store, f.requests[x].shard, f.requests[x].id, f.requests[x].tries)
  }

  /** From any such state r is rejected although its own id is stored: whether x creates the key or raises it. */
  lemma TwinWins(f: Fence, steps: seq<Step>, r: nat, x: nat) returns (all: seq<Step>)
    requires CanSteps(f, steps) && AboutToRace(FenceAfter(f, steps), r, x)
    ensures CanSteps(f, all)
    ensures var g := FenceAfter(f, all);
      r in g.requests && g.requests[r].outcome == Rejected && OwnedBy(g.store, g.requests[r].shard, g.requests[r].id)
  {
    hide CanSteps, FenceAfter, Text, Less;
    var u := FenceAfter(f, steps);
    TextOrder(u.requests[r].id, u.requests[r].id);
    NextStep(f, steps, Try(x));
    var one := steps + [Try(x)];
    NextStep(f, one, Try(r));
    var two := one + [Try(r)];
    NextStep(f, two, Try(r));
    all := two + [Try(r)];
  }

  /** The race to create a key, from nothing. */
  lemma RaceToCreate(sh: ShardId, id: Id, m: Mark, n: Mark) returns (steps: seq<Step>)
    ensures CanSteps(EMPTY, steps) && AboutToRace(FenceAfter(EMPTY, steps), 0, 1)
  {
    hide CanSteps, FenceAfter, Text, Less;
    NoSteps(EMPTY);
    NextStep(EMPTY, [], Begin(0, sh, id, m));
    var one := [] + [Begin(0, sh, id, m)];
    NextStep(EMPTY, one, Begin(1, sh, id, n));
    var two := one + [Begin(1, sh, id, n)];
    NextStep(EMPTY, two, Try(0));
    var three := two + [Try(0)];
    NextStep(EMPTY, three, Try(1));
    steps := three + [Try(1)];
  }

  lemma NoSteps(f: Fence)
    ensures CanSteps(f, []) && FenceAfter(f, []) == f
  {
  }

  /** A key holding low, from nothing. */
  lemma KeyCreated(sh: ShardId, low: Id, m: Mark) returns (steps: seq<Step>)
    ensures CanSteps(EMPTY, steps) && FenceAfter(EMPTY, steps).requests.Keys == {2}
    ensures OwnedBy(FenceAfter(EMPTY, steps).store, sh, low)
  {
    hide CanSteps, FenceAfter, Text, Less;
    NoSteps(EMPTY);
    NextStep(EMPTY, [], Begin(2, sh, low, m));
    var one := [] + [Begin(2, sh, low, m)];
    NextStep(EMPTY, one, Try(2));
    var two := one + [Try(2)];
    NextStep(EMPTY, two, Try(2));
    steps := two + [Try(2)];
  }

  /** The race to raise a key that holds a smaller id, from nothing. */
  lemma RaceToRaise(sh: ShardId, low: Id, id: Id, l: Mark, m: Mark, n: Mark) returns (steps: seq<Step>)
    requires low < id
    ensures CanSteps(EMPTY, steps) && AboutToRace(FenceAfter(EMPTY, steps), 0, 1)
  {
    var start := KeyCreated(sh, low, l);
    TextOrder(low, id);
    steps := RaceFrom(start, sh, id, m, n);
  }

  lemma RaceFrom(start: seq<Step>, sh: ShardId, id: Id, m: Mark, n: Mark) returns (steps: seq<Step>)
    requires CanSteps(EMPTY, start) && FenceAfter(EMPTY, start).requests.Keys == {2}
    requires var f := FenceAfter(EMPTY, start);
      sh in f.store && Less(f.store[sh].owner, Text(id))
      && f.store[sh].owner != Text(id)
    ensures CanSteps(EMPTY, steps) && AboutToRace(FenceAfter(EMPTY, steps), 0, 1)
  {
    hide CanSteps, FenceAfter, Text, Less;
    NextStep(EMPTY, start, Begin(0, sh, id, m));
    var one := start + [Begin(0, sh, id, m)];
    NextStep(EMPTY, one, Begin(1, sh, id, n));
    var two := one + [Begin(1, sh, id, n)];
    NextStep(EMPTY, two, Try(0));
    var three := two + [Try(0)];
    NextStep(EMPTY, three, Try(1));
    var four := three + [Try(1)];
    NextStep(EMPTY, four, Try(1));
    steps := four + [Try(1)];
  }

  // ---------- The loop over the three transactions ----------

  /** A transaction of another manager. */
  datatype Other = Other(shard: ShardId, id: Id, mark: Mark, k: nat)

  class KeyValueStore {
    var store: Store

    constructor ()
      ensures store == map[]
    {
      store := map[];
    }

    /** If the condition holds, the id and the checkpoint are put together. */
    method Txn(shard: ShardId, id: Id, mark: Mark, k: nat) returns (succeeded: bool)
      modifies this
      ensures succeeded == Passes(old(store), shard, id, k)
      ensures store == Attempt(old(store), shard, id, mark, k)
    {
      succeeded := Passes(store, shard, id, k);
      if succeeded {
        store := Put(store, shard, id, mark);
      }
    }

    /** Meanwhile other managers make transactions. */
    method Meanwhile(others: seq<Other>)
      modifies this
      ensures store == Interfered(old(store), others)
    {
      for i := 0 to |others|
        invariant store == Interfered(old(store), others[..i])
      {
        assert others[..i + 1][..i] == others[..i];
        var ok := Txn(others[i].shard, others[i].id, others[i].mark, others[i].k);
      }
      assert others[..|others|] == others;
    }
  }

  function Interfered(store: Store, others: seq<Other>): Store
    decreases |others|
  {
    if others == [] then store
    else
      var o := others[|others| - 1];
      Attempt(Interfered(store, others[..|others| - 1]), o.shard, o.id, o.mark, o.k)
  }

  lemma {:induction false} InterferedRaises(store: Store, others: seq<Other>, key: ShardId, low: Id)
    requires AtLeast(store, key, low)
    ensures AtLeast(Interfered(store, others), key, low)
    decreases |others|
  {
    if others != [] {
      var o := others[|others| - 1];
      InterferedRaises(store, others[..|others| - 1], key, low);
      AttemptRaises(Interfered(store, others[..|others| - 1]), o.shard, o.id, o.mark, o.k, key, low);
    }
  }

  lemma {:induction false} InterferedProper(store: Store, others: seq<Other>)
    requires Proper(store)
    ensures Proper(Interfered(store, others)) && store.Keys <= Interfered(store, others).Keys
    decreases |others|
  {
    if others != [] {
      var o := others[|others| - 1];
      InterferedProper(store, others[..|others| - 1]);
      AttemptProper(Interfered(store, others[..|others| - 1]), o.shard, o.id, o.mark, o.k);
    }
  }

  /** What comes of the request of one transaction: its answer, or an error, after which nobody knows whether it was
      applied. */
  datatype Answer = Answered | Lost(applied: bool)

  /** The three tries of one request, with what others do before each. Acceptance puts the request's entry, in a store
      whose id for the shard was no larger; rejection means that an id at least its own is there; an error ends it. */
  method CommitCheckpoint(kv: KeyValueStore, shard: ShardId, id: Id, mark: Mark, others: seq<seq<Other>>,
                          answers: seq<Answer>)
    returns (outcome: Outcome)
    requires Proper(kv.store) && |others| == 3 && |answers| == 3
    modifies kv
    ensures Proper(kv.store) && outcome != Trying
    ensures outcome == Accepted ==> shard in kv.store && kv.store[shard] == Entry(Text(id), mark)
    ensures outcome == Accepted ==> forall low: Id :: AtLeast(old(kv.store), shard, low) ==> low <= id
    ensures outcome == Rejected ==> AtLeast(kv.store, shard, id)
    ensures outcome == Failed ==> exists k :: 0 <= k < 3 && answers[k].Lost?
    ensures outcome == Rejected ==> forall k :: 0 <= k < 3 ==> answers[k].Answered?
    ensures forall key: ShardId, low: Id :: AtLeast(old(kv.store), key, low) ==> AtLeast(kv.store, key, low)
    ensures others == [[], [], []] && answers == [Answered, Answered, Answered] ==>
      (outcome == Accepted <==> forall low: Id :: AtLeast(old(kv.store), shard, low) ==> low <= id)
  {
    hide Proper, AtLeast, Passes;
    for k := 0 to 3
      invariant Proper(kv.store) && (k >= 2 ==> shard in kv.store) && (k == 3 ==> AtLeast(kv.store, shard, id))
      invariant forall j :: 0 <= j < k ==> answers[j].Answered?
      invariant forall key: ShardId, low: Id :: AtLeast(old(kv.store), key, low) ==> AtLeast(kv.store, key, low)
      invariant others == [[], [], []] ==>
        kv.store == old(kv.store) && forall j :: 0 <= j < k ==> !Passes(old(kv.store), shard, id, j)
    {
      ghost var was := kv.store;
      kv.Meanwhile(others[k]);
      Uninterrupted(was, others[k]);
      ghost var before := kv.store;
      OneTry(before, shard, id, mark, k);
      if answers[k] == Lost(false) {
        return Failed;
      }
      var succeeded := kv.Txn(shard, id, mark, k);
      if answers[k].Lost? {
        return Failed;
      }
      if succeeded {
        return Accepted;
      }
    }
    if others == [[], [], []] {
      NonePasses(old(kv.store), shard, id);
    }
    return Rejected;
  }

  /** If none of the three conditions holds, the key holds a larger id. */
  lemma NonePasses(store: Store, sh: ShardId, id: Id)
    requires Proper(store) && forall k :: 0 <= k < 3 ==> !Passes(store, sh, id, k)
    ensures exists low: Id :: AtLeast(store, sh, low) && id < low
  {
    assert !Passes(store, sh, id, 0) && !Passes(store, sh, id, 1) && !Passes(store, sh, id, 2);
    var o: Id :| OwnedBy(store, sh, o);
    TextOrder(o, id);
    assert AtLeast(store, sh, o);
  }

  lemma Uninterrupted(store: Store, others: seq<Other>)
    requires Proper(store)
    ensures Proper(Interfered(store, others)) && store.Keys <= Interfered(store, others).Keys
    ensures forall key: ShardId, low: Id :: AtLeast(store, key, low) ==> AtLeast(Interfered(store, others), key, low)
  {
    InterferedProper(store, others);
    forall key: ShardId, low: Id | AtLeast(store, key, low) ensures AtLeast(Interfered(store, others), key, low) {
      InterferedRaises(store, others, key, low);
    }
  }

  lemma OneTry(store: Store, sh: ShardId, id: Id, mark: Mark, k: nat)
    requires Proper(store) && k < 3 && (k == 2 ==> sh in store)
    ensures var next := Attempt(store, sh, id, mark, k);
      && Proper(next) && store.Keys <= next.Keys
      && (forall key: ShardId, low: Id :: AtLeast(store, key, low) ==> AtLeast(next, key, low))
      && (Passes(store, sh, id, k) ==>
            sh in next && next[sh] == Entry(Text(id), mark) && forall low: Id :: AtLeast(store, sh, low) ==> low <= id)
      && (!Passes(store, sh, id, k) ==>
          next == store && (k == 1 ==> sh in store) && (k == 2 ==> AtLeast(store, sh, id)))
  {
    AttemptProper(store, sh, id, mark, k);
    forall key: ShardId, low: Id | AtLeast(store, key, low) ensures AtLeast(Attempt(store, sh, id, mark, k), key, low) {
      AttemptRaises(store, sh, id, mark, k, key, low);
    }
    if Passes(store, sh, id, k) {
      forall low: Id | AtLeast(store, sh, low) ensures low <= id {
        PassesAbove(store, sh, id, k, low);
      }
    } else if k == 2 {
      ThirdFails(store, sh, id);
    }
  }
}
