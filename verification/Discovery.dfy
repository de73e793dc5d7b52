/** The shard discovery service: the lineage index built in place from listings in any order. */
module Discovery {
  import opened Finite
  import opened Lineage

  // ---------- What a pass over a listing does to the index ----------

  function Linked(index: Index, p: Option<ShardId>, c: ShardId): Index {
    if p.Some? && p.value in index.children
    then index.(children := index.children[p.value := index.children[p.value] + {c}])
    else index
  }

  function Entered(index: Index, ks: Shard): Index {
    Index(index.shards[ks.id := ks], if ks.id in index.children then index.children else index.children[ks.id := {}])
  }

  /** One record: the shard becomes known, and is linked to those of its parents that are known. */
  function Recorded(index: Index, ks: Shard): Index {
    Linked(Linked(Entered(index, ks), ks.parent, ks.id), ks.adjacent, ks.id)
  }

  function Discovered(index: Index, listing: seq<Shard>): Index
    decreases |listing|
  {
    if listing == [] then index
    else Recorded(Discovered(index, listing[..|listing| - 1]), listing[|listing| - 1])
  }

  // ---------- The service ----------

  /** shard is None in the placeholders made for parents that are not known. */
  class ShardNode {
    var shard: Option<Shard>
    var parents: map<ShardId, ShardNode>
    var children: map<ShardId, ShardNode>

    constructor (shard: Option<Shard>)
      ensures this.shard == shard && parents == map[] && children == map[]
    {
      this.shard := shard;
      parents := map[];
      children := map[];
    }
  }

  ghost predicate RecordsIn(shards: map<ShardId, ShardNode>, nodes: set<ShardNode>, records: map<ShardId, Shard>)
    reads nodes`shard
  {
    && shards.Keys == records.Keys
    && forall c :: c in shards ==> shards[c] in nodes && shards[c].shard == Some(records[c]) && records[c].id == c
  }

  ghost predicate ChildrenIn(shards: map<ShardId, ShardNode>, nodes: set<ShardNode>,
                             children: map<ShardId, set<ShardId>>)
    reads nodes`children
  {
    && shards.Keys == children.Keys
    && (forall c :: c in shards ==> shards[c] in nodes && shards[c].children.Keys == children[c])
    && (forall p, c :: p in shards && c in shards[p].children ==> c in shards && shards[p].children[c] == shards[c])
  }

  lemma RecordsMore(shards: map<ShardId, ShardNode>, nodes: set<ShardNode>, records: map<ShardId, Shard>, s: ShardNode,
                    ks: Shard)
    requires RecordsIn(shards, nodes, records) && s.shard == Some(ks)
    ensures RecordsIn(shards[ks.id := s], nodes + {s}, records[ks.id := ks])
  {
  }

  lemma ChildrenMore(shards: map<ShardId, ShardNode>, nodes: set<ShardNode>, children: map<ShardId, set<ShardId>>,
                     s: ShardNode, id: ShardId)
    requires ChildrenIn(shards, nodes, children) && id !in shards && s.children == map[]
    ensures ChildrenIn(shards[id := s], nodes + {s}, children[id := {}])
  {
  }

  class ShardDiscoveryService {
    var shards: map<ShardId, ShardNode>
    ghost var nodes: set<ShardNode>
    ghost var index: Index  // what the getters answer

    ghost predicate RecordsAre(records: map<ShardId, Shard>)
      reads this`shards, this`nodes, nodes`shard
    {
      RecordsIn(shards, nodes, records)
    }

    ghost predicate ChildrenAre(children: map<ShardId, set<ShardId>>)
      reads this`shards, this`nodes, nodes`children
    {
      ChildrenIn(shards, nodes, children)
    }

    ghost predicate Valid()
      reads this, nodes`shard, nodes`children
    {
      RecordsAre(index.shards) && ChildrenAre(index.children)
    }

    lemma Apart(id: ShardId)
      requires RecordsAre(index.shards) && id in shards
      ensures shards[id] in nodes && forall c :: c in shards && c != id ==> shards[c] != shards[id]
    {
    }

    constructor ()
      ensures Valid() && index == Index(map[], map[]) && nodes == {}
    {
      shards := map[];
      nodes := {};
      index := Index(map[], map[]);
    }

    /** Enter c among the children of the known shard id. */
    method Adopt(id: ShardId, c: ShardId)
      requires Valid() && id in shards && c in shards
      modifies nodes`children, this`index
      ensures Valid() && index == Linked(old(index), Some(id), c) && shards == old(shards)
    {
      Apart(id);
      hide RecordsAre, ChildrenAre;
      AddChild(id, c, index.children);
      index := Linked(index, Some(id), c);
    }

    method AddChild(id: ShardId, c: ShardId, ghost children: map<ShardId, set<ShardId>>)
      requires ChildrenAre(children) && id in shards && c in shards
      requires forall d :: d in shards && d != id ==> shards[d] != shards[id]
      modifies nodes`children
      ensures ChildrenAre(children[id := children[id] + {c}])
    {
      var p := shards[id];
      p.children := p.children[c := shards[c]];
    }

    /** The parent is not known: c's link goes to a placeholder that is not entered in the index, and
        the placeholder's link to c is lost with it. */
    method LinkPlaceholder(id: ShardId, c: ShardId)
      requires Valid() && c in shards
      modifies nodes`parents
      ensures Valid()
    {
      Apart(c);
      hide RecordsAre, ChildrenAre;
      var node := shards[c];
      var p := new ShardNode(None);
      node.parents := node.parents[id := p];
      p.children := p.children[c := node];
    }

    method LinkParent(id: Option<ShardId>, c: ShardId)
      requires Valid() && c in shards
      modifies nodes, this`index
      ensures Valid() && index == Linked(old(index), id, c) && shards == old(shards) && nodes == old(nodes)
    {
      if id.Some? {
        Apart(c);
        hide RecordsAre, ChildrenAre;
        if id.value in shards {
          shards[c].parents := shards[c].parents[id.value := shards[id.value]];
          Adopt(id.value, c);
        } else {
          LinkPlaceholder(id.value, c);
        }
      }
    }

    /** A new node for ks. */
    method AddNode(ks: Shard)
      requires Valid() && ks.id !in shards
      modifies this
      ensures Valid() && fresh(nodes - old(nodes)) && old(nodes) <= nodes && ks.id in shards
      ensures index == Entered(old(index), ks)
    {
      Entries(ks.id);
      hide RecordsAre, ChildrenAre;
      var s := new ShardNode(Some(ks));
      PlaceNode(s, ks);
      index := Entered(index, ks);
    }

    method PlaceNode(s: ShardNode, ks: Shard)
      requires Valid() && ks.id !in shards && s !in nodes && s.shard == Some(ks) && s.children == map[]
      modifies this`shards, this`nodes
      ensures RecordsAre(index.shards[ks.id := ks]) && ChildrenAre(index.children[ks.id := {}])
      ensures nodes == old(nodes) + {s} && ks.id in shards
    {
      RecordsMore(shards, nodes, index.shards, s, ks);
      ChildrenMore(shards, nodes, index.children, s, ks.id);
      hide RecordsIn, ChildrenIn;
      shards := shards[ks.id := s];
      nodes := nodes + {s};
    }

    /** ks replaces the record of its node. */
    method SetRecord(ks: Shard)
      requires Valid() && ks.id in shards
      modifies nodes`shard, this`index
      ensures Valid() && index == old(index).(shards := old(index).shards[ks.id := ks])
    {
      Apart(ks.id);
      hide ChildrenAre;
      shards[ks.id].shard := Some(ks);
      index := index.(shards := index.shards[ks.id := ks]);
    }

    /** The node of ks, new or not, with ks as its record. */
    method Enter(ks: Shard)
      requires Valid()
      modifies this, nodes`shard
      ensures Valid() && fresh(nodes - old(nodes)) && old(nodes) <= nodes && ks.id in shards
      ensures index == Entered(old(index), ks)
    {
      if ks.id !in shards {
        AddNode(ks);
      }
      SetRecord(ks);
      assert old(index).shards[ks.id := ks][ks.id := ks] == old(index).shards[ks.id := ks];
    }

    /** The body of the pass: the shard is entered, and linked to those of its parents that are known. */
    method Record(ks: Shard)
      requires Valid()
      modifies this, nodes
      ensures Valid() && fresh(nodes - old(nodes)) && old(nodes) <= nodes
      ensures index == Recorded(old(index), ks)
    {
      Enter(ks);
      Entries(ks.id);
      hide Valid, Entered, Linked;
      LinkParent(ks.parent, ks.id);
      LinkParent(ks.adjacent, ks.id);
    }

    lemma Entries(id: ShardId)
      requires Valid()
      ensures (id in shards <==> id in index.shards) && (id in shards <==> id in index.children)
    {
    }

    /** One pass over a listing; a listing that failed changes nothing. */
    method DiscoverOnce(listing: Option<seq<Shard>>) returns (ok: bool)
      requires Valid()
      modifies this, nodes
      ensures Valid() && ok == listing.Some?
      ensures index == if ok then Discovered(old(index), listing.value) else old(index)
    {
      hide Valid, Recorded;
      if listing.None? {
        return false;
      }
      var ls := listing.value;
      for i := 0 to |ls|
        invariant Valid() && fresh(nodes - old(nodes)) && old(nodes) <= nodes
        invariant index == Discovered(old(index), ls[..i])
      {
        assert ls[..i + 1][..i] == ls[..i];
        Record(ls[i]);
      }
      assert ls[..|ls|] == ls;
      return true;
    }

    /** All known shards, in any order. */
    method GetAll() returns (r: seq<Shard>)
      requires Valid()
      ensures Names(r, index, index.shards.Keys)
    {
      r := [];
      var todo := shards.Keys;
      while todo != {}
        invariant todo <= shards.Keys && Names(r, index, shards.Keys - todo)
      {
        var id :| id in todo;
        todo := todo - {id};
        NamesMore(r, index, shards.Keys - todo, id);
        r := r + [shards[id].shard.value];
      }
    }

    /** The shards without a first parent, or whose first parent is not known, in any order. */
    method GetRoots() returns (r: seq<Shard>)
      requires Valid()
      ensures Names(r, index, set c | c in index.shards && index.IsRoot(c))
      ensures forall c :: c in index.shards ==>
        (index.shards[c] in r <==> index.shards[c].parent.None? || index.shards[c].parent.value !in index.shards)
    {
      r := [];
      var todo := shards.Keys;
      ghost var roots := set c | c in index.shards && index.IsRoot(c);
      while todo != {}
        invariant todo <= shards.Keys && Names(r, index, roots - todo)
      {
        var id :| id in todo;
        var v := shards[id];
        todo := todo - {id};
        if v.shard.value.parent.None? || v.shard.value.parent.value !in shards
           || shards[v.shard.value.parent.value].shard.None? {
          NamesMore(r, index, roots - todo, id);
          r := r + [v.shard.value];
        } else {
          assert roots - todo == roots - (todo + {id});
        }
      }
      assert roots - todo == roots;
      RootsExact(r, index, roots);
    }

    /** The children of a known shard, in any order. The source dereferences nil for an unknown one. */
    method GetChildren(id: ShardId) returns (r: seq<Shard>)
      requires Valid() && id in index.shards
      ensures Names(r, index, index.children[id])
    {
      r := [];
      var kids := shards[id].children;
      var todo := kids.Keys;
      while todo != {}
        invariant todo <= kids.Keys && Names(r, index, kids.Keys - todo)
      {
        var c :| c in todo;
        todo := todo - {c};
        NamesMore(r, index, kids.Keys - todo, c);
        r := r + [kids[c].shard.value];
      }
    }
  }

  function Ids(r: seq<Shard>): seq<ShardId> {
    seq(|r|, i requires 0 <= i < |r| => r[i].id)
  }

  /** r holds the records of the shards in ids, each once. */
  ghost predicate Names(r: seq<Shard>, index: Index, ids: set<ShardId>) {
    && Lists(Ids(r), ids)
    && forall i :: 0 <= i < |r| ==> r[i].id in index.shards && index.shards[r[i].id] == r[i]
  }

  lemma NamesMore(r: seq<Shard>, index: Index, ids: set<ShardId>, id: ShardId)
    requires Names(r, index, ids - {id}) && id in ids && id in index.shards && index.shards[id].id == id
    ensures Names(r + [index.shards[id]], index, ids)
  {
    assert Ids(r + [index.shards[id]]) == Ids(r) + [id];
    NoDupAppend(Ids(r), id);
  }

  lemma NamesOf(r: seq<Shard>, index: Index, ids: set<ShardId>)
    requires Names(r, index, ids)
    ensures NoDup(Ids(r)) && Elements(Ids(r)) == ids
    ensures forall id :: id in ids <==> exists i :: 0 <= i < |r| && r[i].id == id
  {
    forall id | id in ids ensures exists i :: 0 <= i < |r| && r[i].id == id {
      var i :| 0 <= i < |Ids(r)| && Ids(r)[i] == id;
    }
    forall i | 0 <= i < |r| ensures r[i].id in ids {
      assert Ids(r)[i] in Elements(Ids(r));
    }
  }

  /** What lists the roots lists the records of exactly those shards. */
  lemma RootsExact(r: seq<Shard>, index: Index, roots: set<ShardId>)
    requires Names(r, index, roots) && roots <= index.shards.Keys
    requires forall c :: c in index.shards ==> index.shards[c].id == c
    requires forall c :: c in index.shards ==> (c in roots <==> index.IsRoot(c))
    ensures forall c :: c in index.shards ==>
      (index.shards[c] in r <==> index.shards[c].parent.None? || index.shards[c].parent.value !in index.shards)
  {
    NamesOf(r, index, roots);
    forall c | c in index.shards ensures index.shards[c] in r <==> c in roots {
      if c in roots {
        var i :| 0 <= i < |r| && r[i].id == c;
        assert r[i] == index.shards[c];
      }
      if index.shards[c] in r {
        var i :| 0 <= i < |r| && r[i] == index.shards[c];
        assert r[i].id in roots;
      }
    }
  }

  lemma NextName(r: seq<Shard>, i: nat)
    requires NoDup(Ids(r)) && i < |r|
    ensures Elements(Ids(r)[..i + 1]) == Elements(Ids(r)[..i]) + {r[i].id} && r[i].id !in Elements(Ids(r)[..i])
  {
    assert Ids(r)[..i + 1] == Ids(r)[..i] + [r[i].id];
    assert Ids(r)[i] == r[i].id;
  }
}
