// Pending approvals: the record, the operations as functions of a plain map,
// and the in-memory store.
module PendingStore {
  import opened Types
  import A = Approvals

  datatype PendingRecord = PendingRecord(taskId: TaskId, approval: A.Approval, summary: string, createdAt: Timestamp) {
    function Id(): ApprovalId { approval.id }

    predicate IsExpired(now: Timestamp) { approval.IsExpired(now) }
  }

  type Records = map<ApprovalId, PendingRecord>

  predicate WellKeyed(m: Records) {
    forall id :: id in m ==> m[id].Id() == id
  }

  // A new identifier needs room; replacing an existing record does not.
  function InsertInto(m: Records, capacity: nat, rec: PendingRecord): Result<Records, ActionError> {
    if rec.Id() !in m && !(|m| < capacity) then Err(PolicyDenied(Show(capacity)))
    else Ok(m[rec.Id() := rec])
  }

  function Find(m: Records, id: ApprovalId): Option<PendingRecord> {
    if id in m then Some(m[id]) else None
  }

  function Expired(m: Records, now: Timestamp): set<ApprovalId> {
    set id | id in m && m[id].IsExpired(now)
  }

  class InMemoryPendingStore {
    var inner: Records
    const capacity: nat

    ghost predicate Valid() reads this { WellKeyed(inner) }

    constructor WithCapacity(capacity: nat)
      ensures Valid() && inner == map[] && this.capacity == capacity
    {
      this.capacity := capacity;
      inner := map[];
    }

    method Insert(rec: PendingRecord) returns (r: Result<(), ActionError>)
      requires Valid()
      modifies this
      ensures Valid()
      ensures match InsertInto(old(inner), capacity, rec)
              case Ok(m) => r == Ok(()) && inner == m
              case Err(e) => r == Err(e) && inner == old(inner)
      ensures |old(inner)| <= capacity ==> |inner| <= capacity
    {
      var id := rec.Id();
      if id !in inner && !(|inner| < capacity) {
        return Err(PolicyDenied(Show(capacity)));
      }
      inner := inner[id := rec];
      r := Ok(());
      assert inner.Keys == old(inner).Keys + {id};
    }

    method Get(id: ApprovalId) returns (r: Option<PendingRecord>)
      ensures r == Find(inner, id)
    {
      r := if id in inner then Some(inner[id]) else None;
    }

    method Remove(id: ApprovalId) returns (r: Option<PendingRecord>)
      requires Valid()
      modifies this
      ensures Valid() && r == Find(old(inner), id) && inner == old(inner) - {id}
    {
      r := if id in inner then Some(inner[id]) else None;
      inner := inner - {id};
    }

    method List() returns (records: seq<PendingRecord>)
      requires Valid()
      ensures |records| == |inner|
      ensures forall i :: 0 <= i < |records| ==> records[i].Id() in inner && inner[records[i].Id()] == records[i]
      ensures forall i, j :: 0 <= i < j < |records| ==> records[i].Id() != records[j].Id()
    {
      records := [];
      var rest := inner.Keys;
      while rest != {}
        invariant rest <= inner.Keys && |records| + |rest| == |inner|
        invariant forall i :: 0 <= i < |records| ==>
          records[i].Id() in inner && records[i].Id() !in rest && inner[records[i].Id()] == records[i]
        invariant forall i, j :: 0 <= i < j < |records| ==> records[i].Id() != records[j].Id()
        decreases rest
      {
        var id :| id in rest;
        records := records + [inner[id]];
        rest := rest - {id};
      }
    }

    method EvictExpired(now: Timestamp) returns (evicted: nat)
      requires Valid()
      modifies this
      ensures Valid() && inner == old(inner) - Expired(old(inner), now) && evicted == |Expired(old(inner), now)|
    {
      var before := |inner|;
      inner := map id | id in inner && !inner[id].IsExpired(now) :: inner[id];
      Counting(old(inner), inner.Keys, Expired(old(inner), now));
      evicted := before - |inner|;
    }
  }

  lemma Counting(m: Records, kept: set<ApprovalId>, dropped: set<ApprovalId>)
    requires m.Keys == kept + dropped && kept !! dropped
    ensures |m| == |kept| + |dropped|
  {
    assert |m.Keys| == |m|;
  }
}
