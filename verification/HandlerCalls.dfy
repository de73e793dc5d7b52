/** Handler calls compose: in every run of calls each call finds the manager as its handler needs it, and the state is
    that of an orderly run of moves. */
module HandlerCalls {
  import opened Finite
  import opened Lineage
  import opened WorkerRecord
  import opened ManagerModel
  import opened Conservation
  import opened ManagerRuns
  import opened Expiry
  import opened Frontier
  import opened LineageGrowth
  import opened OverwrittenCloses
  import opened AssignCalls
  import opened AssignResults

  /** Record: the second half of a checkpoint request, after its commit. */
  datatype Call =
    | Assign(worker: WorkerId, maxShards: int, at: int, w: WorkerInfo, turn: Turn)
    | Record(name: WorkerId, sh: ShardId, id: int, mark: Mark)
    | Lead(takeover: Action)
    | StandDown

  /** What the handler of the call is proved to do. */
  ghost predicate Effect(cfg: Config, index: Index, s: State, call: Call, t: State) {
    match call
    case Assign(id, maxShards, at, w, turn) => if s.inService
      then Answers(cfg, index, s, t, id, w, maxShards, at, turn) else t == s
    case Record(name, sh, id, mark) =>
      t == if OwnedUnder(s, name, sh, id) then AfterCheckpoint(s, s.workers[name], sh, mark) else s
    case Lead(a) => a.Takeover? && Enabled(cfg, s, a) && t == Do(cfg, s, a)
    case StandDown => t == s.(inService := false)
  }

  /** Hypotheses G1 to G4, call by call. */
  ghost predicate Guarded(cfg: Config, index: Index, s: State, call: Call) {
    match call
    case Assign(_, _, at, _, _) => ClosesRecent(cfg, s, at)
    case Record(name, sh, id, mark) =>
      OwnedUnder(s, name, sh, id) ==> Faithful(index, s, Checkpoint(s.workers[name], sh, id, mark))
    case Lead(a) => Faithful(index, s, a)
    case StandDown => true
  }

  /** states are those before and after each of calls, from a fresh manager on. */
  ghost predicate CallRun(cfg: Config, index: Index, calls: seq<Call>, states: seq<State>) {
    && |states| == |calls| + 1 && states[0] == Fresh()
    && forall i :: 0 <= i < |calls| ==>
         Effect(cfg, index, states[i], calls[i], states[i + 1]) && Guarded(cfg, index, states[i], calls[i])
  }

  /** Between calls: conservation, nothing set aside, and, once a leader, the frontier tracked. */
  ghost predicate Between(index: Index, s: State, loc: Places, visited: set<ShardId>) {
    && Sound(s, loc) && s.deferred == []
    && (s == Fresh() || (Followed(index, s, visited) && (s.workers == map[] || Calm(index, s, visited))))
  }

  /** The pending notifications are about known shards and recorded workers. */
  lemma BetweenReady(index: Index, s: State, loc: Places, visited: set<ShardId>)
    requires index.Complete() && Between(index, s, loc, visited)
    ensures NotesReady(index, s) && Named(s) && Beating(s)
  {
    assert s != Fresh() ==> Tracked(index, ViewOf(s), visited);
    forall n | n in s.closed ensures n.shard in index.shards && (n.worker.Some? ==> n.worker.value in s.info) {
      assert n.shard in ShardsIn(s.closed);
      assert n.worker.Some? ==> n.worker.value in RosterOf(s);
    }
  }

  lemma {:induction false} AlongFaithful(cfg: Config, index: Index, at: int, s: State, t: State, acts: seq<Action>)
    requires Part(cfg, index, at, s, t, acts)
    ensures CanRun(cfg, s, acts) && Along(cfg, s, acts, (u: State, a: Action) => Faithful(index, u, a))
    decreases |acts|
  {
    hide Enabled, Do, Faithful, CallMove, Orderly;
    if acts != [] {
      var u := PartLast(cfg, index, at, s, t, acts);
      AlongFaithful(cfg, index, at, s, u, acts[..|acts| - 1]);
      CallFaithful(index, at, u, acts[|acts| - 1]);
    }
  }

  lemma PartFollowed(cfg: Config, index: Index, at: int, s: State, loc: Places, visited: set<ShardId>, t: State,
                     acts: seq<Action>)
    returns (m: Places, reached: set<ShardId>)
    requires index.Complete() && Sound(s, loc) && Followed(index, s, visited) && Part(cfg, index, at, s, t, acts)
    ensures Sound(t, m) && Followed(index, t, reached)
  {
    AlongFaithful(cfg, index, at, s, t, acts);
    hide Sound, Followed, Index.Complete, Along, Faithful;
    m, reached := FollowedOn(cfg, index, s, loc, visited, acts);
    PartRuns(cfg, index, at, s, t, acts);
    hide Part;
  }

  /** An assign call leaves the worklist drained. */
  lemma AssignBetween(cfg: Config, index: Index, s: State, loc: Places, visited: set<ShardId>, t: State,
                      id: WorkerId, w: WorkerInfo, maxShards: int, at: int, turn: Turn)
    returns (m: Places, reached: set<ShardId>, acts: seq<Action>)
    requires index.Complete() && Between(index, s, loc, visited) && s.inService
    requires Answers(cfg, index, s, t, id, w, maxShards, at, turn)
    ensures Between(index, t, m, reached) && CanRun(cfg, s, acts) && t == Run(cfg, s, acts)
      && Along(cfg, s, acts, Orderly)
  {
    BetweenReady(index, s, loc, visited);
    assert s != Fresh() && turn.settled.closed == [];
    AnswerParts(cfg, index, s, t, id, w, maxShards, at, turn);
    hide Sound, Followed, Index.Complete, Answers, Part, Named, Beating, Calm, Resolves, ReleasePhase, SettlePhase,
         ServePhase;
    acts := PreparedPart(cfg, index, s, t, id, w, maxShards, at, turn);
    m, reached := PartFollowed(cfg, index, at, s, loc, visited, turn.settled, turn.expiries + turn.settlings);
    ResolvedFacts(Ended(turn.settled), turn.resolved, id, w, at);
    acts := AnswerRuns(cfg, index, s, t, id, w, maxShards, at, turn);
    FramedAdmitted(turn.resolved, t, w, at);
    SettledQuiet(index, turn.settled, m, reached, t);
    PartOf(cfg, index, at, s, t, acts);
    m, reached := PartFollowed(cfg, index, at, s, loc, visited, t, acts);
    QuietCalm(index, t, reached);
  }

  /** Under G1 and G3 a checkpoint is never recorded for a shard that is CLOSED already. */
  lemma NotYetClosed(index: Index, s: State, loc: Places, visited: set<ShardId>, w: WorkerInfo, sh: ShardId, id: int,
                     mark: Mark)
    requires Sound(s, loc) && Followed(index, s, visited) && s.Registered(w) && sh in s.info[w].assignments
    requires Faithful(index, s, Checkpoint(w, sh, id, mark))
    ensures sh in visited && sh !in ShutOf(s)
  {
    assert Holds(s, w, sh);
    HeldLive(s, loc, w, sh);
    LiveClosed(index, s, visited, sh);
    ShutClosed(s, sh);
    hide Followed, Sound;
  }

  /** A live shard that is CLOSED has a notification waiting that names its worker. */
  lemma LiveClosed(index: Index, s: State, visited: set<ShardId>, sh: ShardId)
    requires Followed(index, s, visited) && sh in s.live
    ensures sh in visited && (sh in ShutOf(s) ==> exists n :: n in s.closed && n.worker.Some? && n.shard == sh)
  {
    ViewParts(s);
    assert LiveOk(ViewOf(s), visited);
    assert sh in ShutOf(s) ==> sh in OwnedIn(s.closed);
  }

  lemma RecordBetween(cfg: Config, index: Index, s: State, loc: Places, visited: set<ShardId>, w: WorkerInfo,
                      sh: ShardId,
                      id: int, mark: Mark)
    returns (m: Places, reached: set<ShardId>)
    requires index.Complete() && Between(index, s, loc, visited) && s.workers != map[]
    requires Enabled(cfg, s, Checkpoint(w, sh, id, mark)) && Faithful(index, s, Checkpoint(w, sh, id, mark))
    ensures Between(index, AfterCheckpoint(s, w, sh, mark), m, reached)
  {
    var a := Checkpoint(w, sh, id, mark);
    assert s != Fresh();
    CheckpointParts(cfg, s, w, sh, id, mark);
    hide Sound, Followed, Index.Complete, Enabled, Faithful, Calm, AfterCheckpoint, State.Registered;
    NotYetClosed(index, s, loc, visited, w, sh, id, mark);
    FaithfulOrderly(index, s, a);
    MoveFollowed(cfg, index, s, loc, visited, a);
    MoveSoundAny(cfg, s, a, loc);
    m, reached := Moved(cfg, s, a, loc), Reached(index, s, a, visited);
    CheckpointCalm(index, s, visited, w, sh, mark);
  }

  lemma CheckpointParts(cfg: Config, s: State, w: WorkerInfo, sh: ShardId, id: int, mark: Mark)
    requires Enabled(cfg, s, Checkpoint(w, sh, id, mark))
    ensures s.Registered(w) && sh in s.info[w].assignments
    ensures var t := AfterCheckpoint(s, w, sh, mark);
      Do(cfg, s, Checkpoint(w, sh, id, mark)) == t && t.deferred == s.deferred && t.workers == s.workers
  {
  }

  lemma LeadBetween(cfg: Config, index: Index, s: State, loc: Places, a: Action)
    returns (m: Places, reached: set<ShardId>)
    requires index.Complete() && a.Takeover? && Enabled(cfg, s, a) && Faithful(index, s, a)
    ensures Between(index, Do(cfg, s, a), m, reached)
  {
    assert Do(cfg, s, a).deferred == [] && Do(cfg, s, a).workers == map[];
    hide Sound, Followed, Index.Complete, Enabled, Faithful, Do;
    FaithfulOrderly(index, s, a);
    MoveFollowed(cfg, index, s, loc, {}, a);
    MoveSoundAny(cfg, s, a, loc);
    m, reached := Moved(cfg, s, a, loc), Reached(index, s, a, {});
  }

  lemma StandDownBetween(index: Index, s: State, loc: Places, visited: set<ShardId>)
    requires Between(index, s, loc, visited)
    ensures Between(index, s.(inService := false), loc, visited)
  {
    var t := s.(inService := false);
    RetireSound(s, loc);
    assert ViewOf(t) == ViewOf(s) && ShutOf(t) == ShutOf(s);
    hide Sound, Tracked, ViewOf, Ready;
  }

  /** One guarded call. */
  lemma CallBetween(cfg: Config, index: Index, s: State, loc: Places, visited: set<ShardId>, call: Call, t: State)
    returns (m: Places, reached: set<ShardId>, acts: seq<Action>)
    requires index.Complete() && Between(index, s, loc, visited)
    requires Effect(cfg, index, s, call, t) && Guarded(cfg, index, s, call)
    ensures Between(index, t, m, reached) && CanRun(cfg, s, acts) && t == Run(cfg, s, acts)
      && Along(cfg, s, acts, Orderly)
  {
    hide Index.Complete, Between, Answers, Faithful, Enabled, Do, OwnedUnder, ClosesRecent;
    m, reached, acts := loc, visited, [];
    match call
    case Assign(id, maxShards, at, w, turn) =>
      if s.inService {
        m, reached, acts := AssignBetween(cfg, index, s, loc, visited, t, id, w, maxShards, at, turn);
      }
    case Record(name, sh, id, mark) =>
      if OwnedUnder(s, name, sh, id) {
        BetweenReady(index, s, loc, visited);
        OwnerFacts(s, name, sh, id);
        CheckpointEnabled(cfg, s, s.workers[name], sh, id, mark);
        m, reached := RecordBetween(cfg, index, s, loc, visited, s.workers[name], sh, id, mark);
        acts := OneMove(cfg, index, s, Checkpoint(s.workers[name], sh, id, mark));
      }
    case Lead(a) =>
      m, reached := LeadBetween(cfg, index, s, loc, a);
      acts := OneMove(cfg, index, s, a);
    case StandDown =>
      StandDownBetween(index, s, loc, visited);
      acts := Retired(cfg, s);
  }

  lemma OneMove(cfg: Config, index: Index, s: State, a: Action) returns (acts: seq<Action>)
    requires Enabled(cfg, s, a) && Faithful(index, s, a)
    ensures CanRun(cfg, s, acts) && Run(cfg, s, acts) == Do(cfg, s, a) && Along(cfg, s, acts, Orderly)
  {
    hide Enabled, Do, Faithful, Orderly;
    FaithfulOrderly(index, s, a);
    RunMore(cfg, s, [], a, Orderly);
    acts := [] + [a];
  }

  lemma Retired(cfg: Config, s: State) returns (acts: seq<Action>)
    ensures CanRun(cfg, s, acts) && Run(cfg, s, acts) == s.(inService := false) && Along(cfg, s, acts, Orderly)
  {
    assert Enabled(cfg, s, Retire) && Orderly(s, Retire) && Do(cfg, s, Retire) == s.(inService := false);
    hide Enabled, Do, Orderly;
    RunMore(cfg, s, [], Retire, Orderly);
    acts := [] + [Retire];
  }

  lemma {:induction false} CallsBetween(cfg: Config, index: Index, calls: seq<Call>, states: seq<State>, k: nat)
    returns (loc: Places, visited: set<ShardId>, acts: seq<Action>)
    requires index.Complete() && CallRun(cfg, index, calls, states) && k <= |calls|
    ensures Between(index, states[k], loc, visited)
    ensures CanRun(cfg, Fresh(), acts) && states[k] == Run(cfg, Fresh(), acts) && Along(cfg, Fresh(), acts, Orderly)
    decreases k
  {
    hide Index.Complete, Effect, Guarded, Sound, Followed, Calm, Enabled, Do, Orderly;
    if k == 0 {
      FreshSound();
      loc, visited, acts := map[], {}, [];
    } else {
      loc, visited, acts := CallsBetween(cfg, index, calls, states, k - 1);
      var more;
      loc, visited, more := CallBetween(cfg, index, states[k - 1], loc, visited, calls[k - 1], states[k]);
      RunJoin(cfg, Fresh(), acts, more);
      AlongJoin(cfg, Fresh(), acts, more, Orderly);
      acts := acts + more;
    }
  }

  /** Before every call of every run of calls under G1 to G4, what the handlers ask for holds, and the state is that
      of an orderly run of moves: so every result about those holds of it. */
  lemma CallsCompose(cfg: Config, index: Index, calls: seq<Call>, states: seq<State>, k: nat)
    returns (loc: Places, acts: seq<Action>)
    requires index.Complete() && CallRun(cfg, index, calls, states) && k <= |calls|
    ensures Sound(states[k], loc) && Named(states[k]) && states[k].deferred == [] && NotesReady(index, states[k])
    ensures k < |calls| && calls[k].Assign? ==> ClosesRecent(cfg, states[k], calls[k].at)
    ensures CanRun(cfg, Fresh(), acts) && states[k] == Run(cfg, Fresh(), acts) && Along(cfg, Fresh(), acts, Orderly)
  {
    var visited;
    loc, visited, acts := CallsBetween(cfg, index, calls, states, k);
    assert k < |calls| ==> Guarded(cfg, index, states[k], calls[k]);
    BetweenReady(index, states[k], loc, visited);
    hide CallRun, Sound, Named, NotesReady, ClosesRecent, CanRun, Run, Along;
  }

  lemma CallStates(cfg: Config, index: Index, calls: seq<Call>, states: seq<State>)
    requires CallRun(cfg, index, calls, states)
    ensures |states| == |calls| + 1
  {
  }

  /** One call of such a run. */
  lemma CallBegins(cfg: Config, index: Index, calls: seq<Call>, states: seq<State>, k: nat) returns (loc: Places)
    requires index.Complete() && CallRun(cfg, index, calls, states) && k < |calls|
    ensures |states| == |calls| + 1 && Effect(cfg, index, states[k], calls[k], states[k + 1])
    ensures Sound(states[k], loc) && Named(states[k]) && Beating(states[k])
  {
    hide Effect, Guarded, Sound, Named, Beating, CanRun, Run, Along, NotesReady, Index.Complete, ClosesRecent;
    var acts;
    loc, acts := CallsCompose(cfg, index, calls, states, k);
    SoundRegistry(states[k], loc);
  }
}
