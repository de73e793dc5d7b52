/** The indexed priority queue: a binary heap of items that know their position, and a map from values
    to items. It refines a plain map from value to priority. */
module PriorityQueues {
  import opened Finite

  // ---------- Heap order on a sequence of keys (smaller keys first) ----------

  function Exchange<A>(s: seq<A>, i: nat, j: nat): seq<A>
    requires i < |s| && j < |s|
  {
    s[i := s[j]][j := s[i]]
  }

  predicate Above(i: int, j: int) {
    0 < j && i == (j - 1) / 2
  }

  /** The first n keys are a heap. */
  ghost predicate Ordered(k: seq<int>, n: nat) {
    n <= |k| && forall i, j :: 0 <= i < j < n && Above(i, j) ==> k[i] <= k[j]
  }

  /** The first n keys are a heap but for position x: its own links may fail, the link from its parent
      to its children may not. */
  ghost predicate OrderedBut(k: seq<int>, n: nat, x: nat) {
    && n <= |k| && x < n
    && (forall i, j :: 0 <= i < j < n && Above(i, j) && i != x && j != x ==> k[i] <= k[j])
    && (forall i, j :: 0 <= i < j < n && Above(i, x) && Above(x, j) ==> k[i] <= k[j])
  }

  /** ... and x is not above its children: only the link from its parent may fail. */
  ghost predicate UpOk(k: seq<int>, n: nat, x: nat) {
    OrderedBut(k, n, x) && forall j :: 0 <= j < n && Above(x, j) ==> k[x] <= k[j]
  }

  /** ... and x is not below its parent: only the links to its children may fail. */
  ghost predicate DownOk(k: seq<int>, n: nat, x: nat) {
    OrderedBut(k, n, x) && forall i :: 0 <= i < n && Above(i, x) ==> k[i] <= k[x]
  }

  lemma UpStep(k: seq<int>, n: nat, x: nat)
    requires UpOk(k, n, x) && 0 < x && k[x] < k[(x - 1) / 2]
    ensures UpOk(Exchange(k, (x - 1) / 2, x), n, (x - 1) / 2)
  {
  }

  lemma UpDone(k: seq<int>, n: nat, x: nat)
    requires UpOk(k, n, x) && (x == 0 || k[(x - 1) / 2] <= k[x])
    ensures Ordered(k, n)
  {
  }

  /** The links that do not touch c hold once x and its child c have changed places. */
  lemma DownLinks(k: seq<int>, n: nat, x: nat, c: nat, i: nat, j: nat)
    requires OrderedBut(k, n, x) && n <= |k| && x < c < n && (c == 2 * x + 1 || c == 2 * x + 2) && k[c] < k[x]
    requires k[c] <= k[2 * x + 1] && (2 * x + 2 < n ==> k[c] <= k[2 * x + 2])
    requires i < j < n && Above(i, j) && i != c
    ensures Exchange(k, x, c)[i] <= Exchange(k, x, c)[j]
  {
  }

  /** The links from the parent of c to the children of c. */
  lemma DownAcross(k: seq<int>, n: nat, x: nat, c: nat, j: nat)
    requires OrderedBut(k, n, x) && n <= |k| && x < c < n && (c == 2 * x + 1 || c == 2 * x + 2)
    requires j < n && Above(c, j)
    ensures Exchange(k, x, c)[x] <= Exchange(k, x, c)[j]
  {
  }

  lemma DownStep(k: seq<int>, n: nat, x: nat, c: nat)
    requires OrderedBut(k, n, x) && n <= |k| && x < c < n && (c == 2 * x + 1 || c == 2 * x + 2) && k[c] < k[x]
    requires k[c] <= k[2 * x + 1] && (2 * x + 2 < n ==> k[c] <= k[2 * x + 2])
    ensures DownOk(Exchange(k, x, c), n, c)
  {
    var m := Exchange(k, x, c);
    forall i, j | 0 <= i < j < n && Above(i, j) && i != c ensures m[i] <= m[j] {
      DownLinks(k, n, x, c, i, j);
    }
    forall i, j | 0 <= i < j < n && Above(i, c) && Above(c, j) ensures m[i] <= m[j] {
      DownAcross(k, n, x, c, j);
    }
    hide Exchange;
  }

  lemma DownOkBut(k: seq<int>, n: nat, x: nat)
    requires DownOk(k, n, x)
    ensures OrderedBut(k, n, x)
  {
  }

  lemma DownMoves(k: seq<int>, n: nat, x: nat, c: nat)
    requires OrderedBut(k, n, x) && n <= |k| && x < c < n && (c == 2 * x + 1 || c == 2 * x + 2) && k[c] < k[x]
    requires k[c] <= k[2 * x + 1] && (2 * x + 2 < n ==> k[c] <= k[2 * x + 2])
    ensures DownOk(Exchange(k, x, c), n, c) && OrderedBut(Exchange(k, x, c), n, c)
  {
    DownStep(k, n, x, c);
    DownOkBut(Exchange(k, x, c), n, c);
  }

  lemma DownDone(k: seq<int>, n: nat, x: nat)
    requires OrderedBut(k, n, x) && n <= |k| && x < n
    requires 2 * x + 1 < n ==> k[x] <= k[2 * x + 1]
    requires 2 * x + 2 < n ==> k[x] <= k[2 * x + 2]
    ensures UpOk(k, n, x)
    ensures DownOk(k, n, x) ==> Ordered(k, n)
  {
  }

  /** The root of a heap is least. */
  lemma {:induction false} RootLeast(k: seq<int>, n: nat, j: nat)
    requires Ordered(k, n) && j < n
    ensures k[0] <= k[j]
  {
    if 0 < j { RootLeast(k, n, (j - 1) / 2); }
  }

  /** Replacing one key of a heap leaves a heap but for that position. */
  lemma Replaced(k: seq<int>, m: seq<int>, n: nat, x: nat)
    requires n <= |k| && Ordered(k, n) && n <= |m| && x < n
    requires forall j :: 0 <= j < n && j != x ==> m[j] == k[j]
    ensures OrderedBut(m, n, x)
  {
  }

  lemma Shorter(k: seq<int>, n: nat, m: nat)
    requires Ordered(k, n) && m <= n
    ensures Ordered(k, m)
  {
  }

  lemma AppendUpOk(k: seq<int>, m: seq<int>)
    requires Ordered(k, |k|) && |m| == |k| + 1 && m[..|k|] == k
    ensures UpOk(m, |m|, |k|)
  {
    assert forall j :: 0 <= j < |k| ==> m[j] == k[j];
  }

  /** After a swap with the last key, the rest is a heap but for the place swapped into. */
  lemma ExchangedOut(k: seq<int>, n: nat, x: nat)
    requires n + 1 == |k| && Ordered(k, n + 1) && x < n
    ensures OrderedBut(Exchange(k, x, n), n, x)
  {
    Shorter(k, n + 1, n);
    Replaced(k, Exchange(k, x, n), n, x);
  }

  lemma RootUpOk(k: seq<int>, n: nat)
    requires UpOk(k, n, 0)
    ensures Ordered(k, n)
  {
    UpDone(k, n, 0);
  }

  lemma OrderedPrefix(k: seq<int>, m: seq<int>, n: nat)
    requires Ordered(k, n) && |m| == n && forall i :: 0 <= i < n ==> m[i] == k[i]
    ensures Ordered(m, n)
  {
  }

  // ---------- The heap of items ----------

  class Item<T> {
    const value: T
    var priority: int
    var index: int

    constructor (value: T, priority: int)
      ensures this.value == value && this.priority == priority
    {
      this.value := value;
      this.priority := priority;
      this.index := 0;
    }
  }

  class Heap<T> {
    var items: seq<Item<T>>
    const reversed: bool
    ghost var members: set<Item<T>>

    constructor (reversed: bool)
      ensures this.reversed == reversed && items == [] && members == {} && Indexed()
    {
      this.reversed := reversed;
      items := [];
      members := {};
    }

    function Key(p: int): int {
      if reversed then -p else p
    }

    ghost function Keys(): (k: seq<int>)
      reads this, items
      ensures |k| == |items| && forall i :: 0 <= i < |items| ==> k[i] == Key(items[i].priority)
    {
      seq(|items|, i requires 0 <= i < |items| reads this, items => Key(items[i].priority))
    }

    /** Every member sits at the position it records, and only members sit anywhere. */
    ghost predicate Indexed()
      reads this, items, members
    {
      && (forall i :: 0 <= i < |items| ==> items[i] in members && items[i].index == i)
      && (forall o :: o in members ==> 0 <= o.index < |items| && items[o.index] == o)
    }

    predicate Less(i: nat, j: nat)
      requires i < |items| && j < |items|
      reads this, items
    {
      if reversed then items[i].priority > items[j].priority else items[i].priority < items[j].priority
    }

    method Swap(i: nat, j: nat)
      requires Indexed() && i < |items| && j < |items|
      modifies this`items, members`index
      ensures Indexed() && items == Exchange(old(items), i, j)
      ensures Keys() == Exchange(old(Keys()), i, j)
    {
      items := items[i := items[j]][j := items[i]];
      items[i].index := i;
      items[j].index := j;
    }

    /** Append an item, at the end. */
    method Append(item: Item<T>)
      requires Indexed() && item !in members
      modifies this`items, this`members, item`index
      ensures items == old(items) + [item] && members == old(members) + {item} && Indexed()
    {
      item.index := |items|;
      items := items + [item];
      members := members + {item};
    }

    /** Cut off the last item. */
    method RemoveLast() returns (item: Item<T>)
      requires Indexed() && items != []
      modifies this`items, this`members, members`index
      ensures item == old(items[|items| - 1]) && items == old(items[..|items| - 1])
      ensures members == old(members) - {item} && Indexed()
    {
      item := items[|items| - 1];
      items := items[..|items| - 1];
      members := members - {item};
      item.index := -1;
    }

    /** container/heap up: move the item towards the root while it comes before its parent. Positions
        from n on are not touched. */
    method Up(j0: nat, ghost n: nat)
      requires Indexed() && j0 < n <= |items| && UpOk(Keys(), n, j0)
      modifies this`items, members`index
      ensures Indexed() && |items| == old(|items|) && items[n..] == old(items[n..])
      ensures Ordered(Keys(), n)
    {
      hide UpOk, Ordered;
      var j: nat := j0;
      while true
        invariant j < n <= |items| == old(|items|) && items[n..] == old(items[n..])
        invariant Indexed() && UpOk(Keys(), n, j)
        decreases j
      {
        var i: nat := if j == 0 then 0 else (j - 1) / 2;  // Go's division truncates
        if i == j || !Less(j, i) {
          UpDone(Keys(), n, j);
          break;
        }
        UpStep(Keys(), n, j);
        Swap(i, j);
        j := i;
      }
    }

    /** The child of i that comes first. */
    method FirstChild(i: nat, n: nat) returns (j: nat)
      requires n <= |items| && 2 * i + 1 < n
      ensures j < n && (j == 2 * i + 1 || j == 2 * i + 2)
      ensures Keys()[j] <= Keys()[2 * i + 1] && (2 * i + 2 < n ==> Keys()[j] <= Keys()[2 * i + 2])
    {
      var j1 := 2 * i + 1;
      j := j1;
      var j2 := j1 + 1;
      if j2 < n && Less(j2, j1) {
        j := j2;
      }
    }

    /** container/heap down within the first n items; tells whether the item moved. */
    method Down(i0: nat, n: nat) returns (moved: bool)
      requires Indexed() && n <= |items| && i0 < n && OrderedBut(Keys(), n, i0)
      modifies this`items, members`index
      ensures Indexed() && |items| == old(|items|) && items[n..] == old(items[n..])
      ensures if moved then Ordered(Keys(), n) else UpOk(Keys(), n, i0)
    {
      hide OrderedBut, DownOk, UpOk, Ordered, Indexed, Keys;
      var i: nat := i0;
      while true
        invariant i0 <= i < n <= |items| == old(|items|) && items[n..] == old(items[n..])
        invariant Indexed() && OrderedBut(Keys(), n, i) && (i != i0 ==> DownOk(Keys(), n, i))
        decreases n - i
      {
        ghost var k := Keys();
        var j1 := 2 * i + 1;
        if j1 >= n {
          DownDone(k, n, i);
          break;
        }
        var j := FirstChild(i, n);
        if !Less(j, i) {
          DownDone(k, n, i);
          break;
        }
        DownMoves(k, n, i, j);
        Swap(i, j);
        i := j;
      }
      moved := i > i0;
    }
  
    ghost predicate IsHeap()
      reads this, items, members
      ensures IsHeap() ==> forall i :: 0 <= i < |items| ==> items[i] in members
    {
      Indexed() && Ordered(Keys(), |items|)
    }

    /** container/heap Fix: restore the order after the priority of the item at i has changed. */
    method Fix(i: nat)
      requires Indexed() && i < |items| && OrderedBut(Keys(), |items|, i)
      modifies this`items, members`index
      ensures IsHeap()
    {
      hide OrderedBut, UpOk, Ordered, Indexed, Keys;
      var moved := Down(i, |items|);
      if !moved {
        Up(i, |items|);
      }
    }

    lemma Located(item: Item<T>)
      requires IsHeap() && item in members
      ensures 0 <= item.index < |items| && items[item.index] == item
    {
    }

    /** Give an item another priority, and fix the heap. */
    method Change(item: Item<T>, priority: int)
      requires IsHeap() && item in members
      modifies this`items, members`index, item`priority
      ensures IsHeap() && item.priority == priority
    {
      ghost var k := Keys();
      item.priority := priority;
      Replaced(k, Keys(), |k|, item.index);
      Fix(item.index);
    }

    /** container/heap Push. */
    method Push(item: Item<T>)
      requires IsHeap() && item !in members
      modifies this`items, this`members, members`index, item`index
      ensures IsHeap() && members == old(members) + {item}
    {
      Append(item);
      AppendUpOk(old(Keys()), Keys());
      hide OrderedBut, UpOk, Ordered, Indexed, Keys;
      Up(|items| - 1, |items|);
    }

    /** container/heap Remove: the last item takes the place of the one at i. */
    method RemoveAt(i: nat) returns (item: Item<T>)
      requires IsHeap() && i < |items|
      modifies this`items, this`members, members`index
      ensures IsHeap() && item == old(items[i]) && members == old(members) - {item}
    {
      var n := |items| - 1;
      ghost var k := Keys();
      if n != i {
        Swap(i, n);
        ExchangedOut(k, n, i);
        var moved := Down(i, n);
        if !moved {
          Up(i, n);
        }
      } else {
        Shorter(k, n + 1, n);
      }
      assert items[n] == old(items[i]) by { assert items[n..][0] == items[n]; }
      ghost var m := Keys();
      item := RemoveLast();
      OrderedPrefix(m, Keys(), n);
    }

    /** container/heap Pop: the root. */
    method Pop() returns (item: Item<T>)
      requires IsHeap() && items != []
      modifies this`items, this`members, members`index
      ensures IsHeap() && item == old(items[0]) && members == old(members) - {item}
    {
      var n := |items| - 1;
      ghost var k := Keys();
      Swap(0, n);
      if 0 < n {
        ExchangedOut(k, n, 0);
        var moved := Down(0, n);
        if !moved { RootUpOk(Keys(), n); }
      }
      assert items[n] == old(items[0]) by { assert items[n..][0] == items[n]; }
      ghost var m := Keys();
      item := RemoveLast();
      OrderedPrefix(m, Keys(), n);
    }
  }

  // ---------- The queue ----------

  /** v comes first in m: no value has a smaller priority, or, reversed, a larger one. */
  ghost predicate First<T>(reversed: bool, m: map<T, int>, v: T) {
    v in m && forall u :: u in m ==> if reversed then m[u] <= m[v] else m[v] <= m[u]
  }

  class PriorityQueue<T(==)> {
    const pq: Heap<T>
    var idx: map<T, Item<T>>
    ghost var Contents: map<T, int>

    ghost predicate Linked()
      reads this, pq, pq.members
    {
      && Contents.Keys == idx.Keys
      && (forall v :: v in idx ==> idx[v] in pq.members && idx[v].value == v && idx[v].priority == Contents[v])
      && (forall o :: o in pq.members ==> o.value in idx && idx[o.value] == o)
    }

    ghost predicate Valid()
      reads this, pq, pq.members
    {
      (forall i :: 0 <= i < |pq.items| ==> pq.items[i] in pq.members) && pq.IsHeap() && Linked()
    }

    /** The value at the root, which comes first. */
    ghost function Top(): (v: T)
      requires Valid() && Contents != map[]
      reads this, pq, pq.members
      ensures First(pq.reversed, Contents, v)
    {
      RootFirst();
      pq.items[0].value
    }

    constructor (reversed: bool)
      ensures Valid() && fresh(pq) && pq.members == {} && Contents == map[] && pq.reversed == reversed
    {
      pq := new Heap(reversed);
      idx := map[];
      Contents := map[];
    }

    /** The first branch of Push: v is new. */
    method Insert(v: T, priority: int)
      requires Valid() && v !in idx
      modifies this, pq, pq.members
      ensures Valid() && fresh(pq.members - old(pq.members))
      ensures Contents == old(Contents)[v := priority]
    {
      hide Ordered, Heap.Indexed, Heap.Keys, Heap.IsHeap;
      var i := new Item(v, priority);
      idx := idx[v := i];
      pq.Push(i);
      Contents := Contents[v := priority];
    }

    /** The second branch of Push: v gets another priority. */
    method Reprioritise(v: T, priority: int)
      requires Valid() && v in idx
      modifies this, pq, pq.members
      ensures Valid() && pq.members == old(pq.members)
      ensures Contents == old(Contents)[v := priority]
    {
      hide Ordered, Heap.Indexed, Heap.Keys, Heap.IsHeap;
      pq.Change(idx[v], priority);
      Contents := Contents[v := priority];
    }

    /** Insert v, or give it another priority. */
    method Push(v: T, priority: int)
      requires Valid()
      modifies this, pq, pq.members
      ensures Valid() && fresh(pq.members - old(pq.members))
      ensures Contents == old(Contents)[v := priority]
    {
      if v !in idx {
        Insert(v, priority);
      } else {
        Reprioritise(v, priority);
      }
    }

    /** Remove the value that comes first. The source panics on an empty queue. */
    method Pop() returns (v: T)
      requires Valid() && Contents != map[]
      modifies this, pq, pq.members
      ensures Valid() && fresh(pq.members - old(pq.members))
      ensures v == old(Top()) && Contents == old(Contents) - {v}
    {
      hide Ordered, Heap.Indexed, Heap.Keys, Heap.IsHeap, First;
      RootFirst();
      var item := pq.Pop();
      v := item.value;
      idx := idx - {item.value};
      Contents := Contents - {v};
    }

    /** The value that comes first, which Pop would remove. */
    method Peek() returns (v: Option<T>)
      requires Valid()
      ensures v == None <==> Contents == map[]
      ensures v.Some? ==> v.value == Top()
    {
      if |pq.items| == 0 {
        assert forall u :: u in Contents ==> idx[u] in pq.members;
        return None;
      }
      RootFirst();
      return Some(pq.items[0].value);
    }

    /** Remove a value that is in the queue. */
    method RemoveKnown(v: T)
      requires Valid() && v in idx
      modifies this, pq, pq.members
      ensures Valid() && fresh(pq.members - old(pq.members))
      ensures Contents == old(Contents) - {v}
    {
      hide Ordered, Heap.Indexed, Heap.Keys, Heap.IsHeap;
      var i := idx[v];
      idx := idx - {v};
      pq.Located(i);
      var item := pq.RemoveAt(i.index);
      Contents := Contents - {v};
    }

    method Remove(v: T) returns (found: bool)
      requires Valid()
      modifies this, pq, pq.members
      ensures Valid() && fresh(pq.members - old(pq.members))
      ensures found <==> v in old(Contents)
      ensures Contents == old(Contents) - {v}
    {
      if v !in idx {
        return false;
      }
      RemoveKnown(v);
      return true;
    }

    /** Pop until nothing is left. */
    method Drain() returns (vs: seq<T>)
      requires Valid()
      modifies this, pq, pq.members
      ensures Valid() && fresh(pq.members - old(pq.members)) && Contents == map[]
      ensures Drains(pq.reversed, old(Contents), vs)
      decreases |Contents|
    {
      hide Valid, First, Drains;
      var top := Peek();
      if top.None? {
        DrainNone<T>(pq.reversed);
        return [];
      }
      ghost var m := Contents;
      TopIn();
      var v := Pop();
      MinusSmaller(m, v);
      var rest := Drain();
      DrainMore(pq.reversed, m, v, rest);
      vs := [v] + rest;
    }

    lemma TopIn()
      requires Valid() && Contents != map[]
      ensures First(pq.reversed, Contents, Top()) && Top() in Contents
    {
    }

    lemma RootFirst()
      requires Valid() && (Contents != map[] || pq.items != [])
      ensures pq.items != [] && pq.items[0].value in Contents && First(pq.reversed, Contents, pq.items[0].value)
    {
      if Contents != map[] {
        var u :| u in Contents;
        assert idx[u] in pq.members;
      }
      forall u | u in Contents ensures pq.Keys()[0] <= pq.Key(Contents[u]) {
        RootLeast(pq.Keys(), |pq.items|, idx[u].index);
      }
      assert pq.items[0] in pq.members;
    }
  }

  // ---------- Draining ----------

  /** vs are the values that Pop returns, one after the other, until the queue is empty. */
  ghost predicate Drains<T>(reversed: bool, m: map<T, int>, vs: seq<T>)
    decreases |vs|
  {
    if vs == [] then m == map[]
    else First(reversed, m, vs[0]) && Drains(reversed, m - {vs[0]}, vs[1..])
  }

  lemma DrainNone<T>(reversed: bool)
    ensures Drains<T>(reversed, map[], [])
  {
  }

  lemma DrainMore<T>(reversed: bool, m: map<T, int>, v: T, rest: seq<T>)
    requires First(reversed, m, v) && Drains(reversed, m - {v}, rest)
    ensures Drains(reversed, m, [v] + rest)
  {
    assert ([v] + rest)[1..] == rest;
  }

  /** Draining lists every value once, in priority order. */
  lemma {:induction false} DrainSorted<T>(reversed: bool, m: map<T, int>, vs: seq<T>)
    requires Drains(reversed, m, vs)
    ensures Lists(vs, m.Keys)
    ensures forall i, j :: 0 <= i < j < |vs| ==>
      vs[i] in m && vs[j] in m && if reversed then m[vs[i]] >= m[vs[j]] else m[vs[i]] <= m[vs[j]]
    decreases |vs|
  {
    if vs != [] {
      var v := vs[0];
      DrainSorted(reversed, m - {v}, vs[1..]);
      assert vs == [v] + vs[1..];
      assert Elements(vs) == {v} + Elements(vs[1..]);
    }
  }
}
