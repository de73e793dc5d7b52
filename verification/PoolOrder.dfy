/** The pool of unassigned shards is a queue: shards leave it in the order in which they came. */
module PoolOrder {
  import opened Finite
  import opened Lineage
  import opened WorkerRecord
  import opened ManagerModel
  import opened GuardsNeeded

  lemma PoolStep(cfg: Config, s: State, a: Action)
    requires Enabled(cfg, s, a) && !a.Takeover?
    ensures if a.Take? then s.pool != [] && Do(cfg, s, a).pool == s.pool[1..] else s.pool <= Do(cfg, s, a).pool
  {
    if a.Settle? {
      SettleEffect(s, a.index, a.kids);
      assert Detach(s.(closed := s.closed[1..]), s.closed[0]).pool == s.pool;
      hide AfterSettle;
    }
  }

  /** The shards that workers have taken from the pool, in order. */
  ghost function Handed(cfg: Config, s: State, acts: seq<Action>): seq<ShardId>
    requires CanRun(cfg, s, acts)
    decreases |acts|
  {
    if acts == [] then []
    else
      var front := acts[..|acts| - 1];
      var t := Run(cfg, s, front);
      Handed(cfg, s, front) + if acts[|acts| - 1].Take? && t.pool != [] then [t.pool[0]] else []
  }

  lemma HandedMore(cfg: Config, s: State, acts: seq<Action>)
    requires CanRun(cfg, s, acts) && acts != []
    ensures var front := acts[..|acts| - 1];
      var t := Run(cfg, s, front);
      Handed(cfg, s, acts)
      == if acts[|acts| - 1].Take? && t.pool != [] then Handed(cfg, s, front) + [t.pool[0]] else Handed(cfg, s, front)
  {
    hide Enabled, Do;
    assert Handed(cfg, s, acts[..|acts| - 1]) + [] == Handed(cfg, s, acts[..|acts| - 1]);
  }

  /** What one move more does to the equation. */
  lemma OneMore(before: seq<ShardId>, came: seq<ShardId>, handed: seq<ShardId>, t: State, u: State, take: bool)
    returns (all: seq<ShardId>)
    requires before + came == handed + t.pool
    requires if take then t.pool != [] && u.pool == t.pool[1..] else t.pool <= u.pool
    ensures before + all == (if take then handed + [t.pool[0]] else handed) + u.pool
  {
    if take {
      all := came;
      assert t.pool == [t.pool[0]] + u.pool;
    } else {
      var more := u.pool[|t.pool|..];
      assert u.pool == t.pool + more;
      all := came + more;
      assert before + all == handed + t.pool + more;
    }
  }

  /** First in, first out: what has been taken, followed by what is left, is what there was, followed by what has
      come. */
  lemma {:induction false} FirstInFirstOut(cfg: Config, s: State, acts: seq<Action>) returns (came: seq<ShardId>)
    requires CanRun(cfg, s, acts) && forall i :: 0 <= i < |acts| ==> !acts[i].Takeover?
    ensures s.pool + came == Handed(cfg, s, acts) + Run(cfg, s, acts).pool
    decreases |acts|
  {
    hide Enabled, Do, Handed;
    came := [];
    if acts == [] {
      NoneHanded(cfg, s);
    } else {
      var front := acts[..|acts| - 1];
      came := FirstInFirstOut(cfg, s, front);
      PoolStep(cfg, Run(cfg, s, front), acts[|acts| - 1]);
      HandedMore(cfg, s, acts);
      came := OneMore(s.pool, came, Handed(cfg, s, front), Run(cfg, s, front), Run(cfg, s, acts),
                      acts[|acts| - 1].Take?);
    }
  }

  lemma NoneHanded(cfg: Config, s: State)
    ensures CanRun(cfg, s, []) && Handed(cfg, s, []) == []
  {
  }

  /** So of two shards in the pool the one behind is not taken first. */
  lemma NoneOvertakes(cfg: Config, s: State, acts: seq<Action>, i: nat, j: nat)
    requires CanRun(cfg, s, acts) && forall k :: 0 <= k < |acts| ==> !acts[k].Takeover?
    requires i < j < |s.pool| && j < |Handed(cfg, s, acts)|
    ensures Handed(cfg, s, acts)[i] == s.pool[i] && Handed(cfg, s, acts)[j] == s.pool[j]
  {
    var came := FirstInFirstOut(cfg, s, acts);
    hide CanRun, Run, Handed;
    var all := s.pool + came;
    assert all[i] == s.pool[i] && all[j] == s.pool[j];
  }
}
