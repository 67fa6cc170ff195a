/** Checkpoint records and the in-memory store keyed by tenant and job (src/core/checkpoint_store.py). */
module Checkpoints {
  import opened Values
  import opened TaskGraphs

  datatype CheckpointStatus = PENDING | RUNNING | COMPLETED | FAILED | CANCELLED

  datatype CheckpointRecord = CheckpointRecord(
    nodeId: NodeId,
    status: CheckpointStatus,
    attempt: nat,
    reasonCode: string,
    payload: Payload)

  type JobKey = (string, string)

  const DEFAULT_TENANT := "default"

  type StoreState = map<JobKey, map<NodeId, CheckpointRecord>>

  /** One call of `save_checkpoint`. */
  datatype StoreWrite = StoreWrite(tenantId: string, jobId: string, record: CheckpointRecord)

  // ----- What a history of saves leaves in the store -----

  /** The records of one job; a job without any reads as an empty dictionary. */
  function RecordsOf(s: StoreState, key: JobKey): map<NodeId, CheckpointRecord> {
    if key in s then s[key] else map[]
  }

  function Saved(s: StoreState, save: StoreWrite): StoreState {
    var key := (save.tenantId, save.jobId);
    s[key := RecordsOf(s, key)[save.record.nodeId := save.record]]
  }

  function AfterSaves(s: StoreState, saves: seq<StoreWrite>): StoreState {
    if saves == [] then s else Saved(AfterSaves(s, saves[..|saves| - 1]), saves[|saves| - 1])
  }

  predicate Concerns(save: StoreWrite, key: JobKey, id: NodeId) {
    save.tenantId == key.0 && save.jobId == key.1 && save.record.nodeId == id
  }

  /** The i-th save is the last one of this node of this job. */
  ghost predicate IsLastSave(saves: seq<StoreWrite>, key: JobKey, id: NodeId, i: nat) {
    && i < |saves| && Concerns(saves[i], key, id)
    && forall j :: i < j < |saves| ==> !Concerns(saves[j], key, id)
  }

  /** Whatever was saved for whichever jobs and tenants, a job lists a record for a node exactly when one was
      saved for it, and then the one saved last. */
  lemma {:induction false} ListHoldsLastSaves(saves: seq<StoreWrite>, key: JobKey, id: NodeId)
    ensures var listed := RecordsOf(AfterSaves(map[], saves), key);
      && (id in listed <==> exists i: nat :: IsLastSave(saves, key, id, i))
      && forall i: nat :: IsLastSave(saves, key, id, i) ==> id in listed && listed[id] == saves[i].record
  {
    if saves != [] {
      var front, n := saves[..|saves| - 1], |saves| - 1;
      ListHoldsLastSaves(front, key, id);
      if Concerns(saves[n], key, id) {
        assert IsLastSave(saves, key, id, n);
      } else {
        forall i: nat ensures IsLastSave(saves, key, id, i) <==> IsLastSave(front, key, id, i) {
          assert i < n ==> saves[i] == front[i];
          if IsLastSave(front, key, id, i) {
            assert forall j :: i < j < n ==> saves[j] == front[j];
          }
          if IsLastSave(saves, key, id, i) {
            assert i != n;
          }
        }
      }
    }
  }

  // ----- The store -----

  class InMemoryCheckpointStore {
    var records: StoreState

    constructor ()
      ensures records == map[]
    {
      records := map[];
    }

    function JobRecords(jobId: string, tenantId: string): map<NodeId, CheckpointRecord>
      reads this
    {
      RecordsOf(records, (tenantId, jobId))
    }

    /** Writes one record of one job, and nothing else. */
    method SaveCheckpoint(jobId: string, checkpoint: CheckpointRecord, tenantId: string := DEFAULT_TENANT)
      modifies this
      ensures records == Saved(old(records), StoreWrite(tenantId, jobId, checkpoint))
      ensures JobRecords(jobId, tenantId) == old(JobRecords(jobId, tenantId))[checkpoint.nodeId := checkpoint]
      ensures forall t, j :: (t, j) != (tenantId, jobId) ==> JobRecords(j, t) == old(JobRecords(j, t))
    {
      if (tenantId, jobId) !in records {
        records := records[(tenantId, jobId) := map[]];
      }
      records := records[(tenantId, jobId) := records[(tenantId, jobId)][checkpoint.nodeId := checkpoint]];
    }

    method ListCheckpoints(jobId: string, tenantId: string := DEFAULT_TENANT)
      returns (listed: map<NodeId, CheckpointRecord>)
      ensures listed == JobRecords(jobId, tenantId)
    {
      listed := if (tenantId, jobId) in records then records[(tenantId, jobId)] else map[];
    }
  }
}
