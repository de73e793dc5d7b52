/** The manager's per-worker record and what it holds. */
module WorkerRecord {
  import opened Finite
  import opened Lineage

  type WorkerId = string

  /** A checkpoint text: missing or empty, "LATEST", "CLOSED", or a sequence number. */
  datatype Mark = Unset | Latest | Closed | At(number: nat)

  datatype Assignment = Assignment(id: int, requested: bool)

  /** Shards offered to a worker, grouped by the worker they are taken from. */
  datatype ReassignmentOffer = ReassignmentOffer(shards: map<WorkerInfo, seq<ShardId>>, createdAt: int)

  /** One registration of a worker. A worker that times out and returns gets a new object, while
      offers and close notifications keep referring to the old one. */
  class WorkerInfo {
    const workerId: WorkerId
    var lastHeartbeat: int
    var assignments: map<ShardId, Assignment>
    var offer: Option<ReassignmentOffer>
    var activeShardCount: int

    constructor (workerId: WorkerId)
      ensures this.workerId == workerId
      ensures assignments == map[] && offer == None && activeShardCount == 0
    {
      this.workerId := workerId;
      lastHeartbeat := 0;
      assignments := map[];
      offer := None;
      activeShardCount := 0;
    }
  }
}
