// The runtime facade: each operation carried out one step at a time, and
// proved to be the protocol function of the same step.
module Facade {
  import opened Types
  import opened Tasks
  import opened Outbox
  import opened PendingStore
  import R = Runtime
  import A = Approvals
  import L = Limiter
  import AtMostOnce
  import JournalStore
  import JournalRuns

  class ActionRuntime {
    const config: R.Config

    // The three durable logs, as they would be read back.
    var outbox: seq<OutboxRow>
    var pending: Records
    var snapshots: seq<ActionTask>

    // Volatile state.
    var skills: map<SkillId, R.SkillSpec>
    var tasks: TaskMap
    var ledger: A.ApprovalMap
    var proofs: map<TaskId, bool>
    var hits: L.Hits

    // The source of fresh identifiers, and whether the process is alive.
    var nextId: nat
    var up: bool

    // What happened outside the process.
    ghost var effects: seq<R.Effect>
    ghost var lineage: map<TaskId, string>

    ghost function Model(): R.State
      reads this
    {
      R.State(R.Disk(outbox, pending, snapshots), R.World(effects, lineage, nextId),
              R.Memory(skills, tasks, ledger, proofs, hits), up)
    }

    // Opens the two journals and reads the snapshot file; any of them can fail,
    // and an unreadable snapshot line does.  Otherwise the queue is rebuilt and
    // the pending approvals are put back into the ledger.
    static method WithDurableStores(config: R.Config, outbox: seq<OutboxRow>, pending: Records, file: seq<Line>,
                                    opens: bool,
                                    nextId: nat, ghost before: R.State)
      returns (r: Result<ActionRuntime, ActionError>)
      requires PendingStore.WellKeyed(pending)
      requires before.disk == R.Disk(outbox, pending, Rows(file)) && before.world.nextId == nextId
      ensures r.Ok? <==> opens && Garbage !in file
      ensures r.Ok? ==> fresh(r.value) && r.value.config == config && r.value.Model() == R.Restarted(before)
      ensures r.Err? ==> r.error.Proof?
    {
      if !opens { return Err(Proof("open failed")); }
      var queue := new DurableTaskQueue(file);
      var reloaded := queue.Reload();
      if reloaded.Err? { return Err(reloaded.error); }
      var runtime := new ActionRuntime.Restored(config, R.Disk(outbox, pending, Rows(file)), reloaded.value, nextId,
                                                before);
      r := Ok(runtime);
    }

    // Reinstates every pending approval one by one, in whatever order the store
    // lists them.
    constructor Restored(config: R.Config, disk: R.Disk, queue: TaskMap, nextId: nat, ghost before: R.State)
      requires PendingStore.WellKeyed(disk.pending) && queue == Latest(disk.snapshots)
      requires before.disk == disk && before.world.nextId == nextId
      ensures Model() == R.Restarted(before) && this.config == config
    {
      this.config := config;
      outbox, pending, snapshots := disk.outbox, disk.pending, disk.snapshots;
      skills, proofs, hits := map[], map[], map[];
      tasks := queue;
      ledger := map[];
      this.nextId, up := nextId, true;
      effects, lineage := before.world.effects, before.world.lineage;
      new;
      var rest := pending.Keys;
      while rest != {}
        invariant rest <= pending.Keys
        invariant Model() == R.Restarted(before).(mem := R.Restarted(before).mem.(ledger := ledger))
        invariant this.config == config
        invariant ledger == map id | id in pending && id !in rest :: pending[id].approval
        decreases rest
      {
        var id :| id in rest;
        ledger := ledger[pending[id].approval.id := pending[id].approval];
        rest := rest - {id};
      }
    }

    method RegisterSkill(skill: SkillId, spec: R.SkillSpec) returns (r: Result<(), ActionError>)
      modifies this`skills
      ensures r.Ok? <==> skill != 0 && skill !in old(skills)
      ensures up ==> Model() == R.Step(config, old(Model()), R.Register(skill, spec))
      ensures r.Err? ==> Model() == old(Model())
    {
      if skill == 0 || skill in skills { return Err(ManifestValidation(Show(skill))); }
      skills := skills[skill := spec];
      r := Ok(());
    }

    // ----- single steps -----

    method AppendOutbox(row: OutboxRow, fault: Append) returns (ack: Reply<()>)
      modifies this`outbox, this`up
      ensures Model() == R.LogRow(old(Model()), row, fault) && ack == R.Acked(fault)
    {
      if fault.Lands() { outbox := outbox + [row]; }
      if fault.Died? { up := false; return Crash; }
      ack := if fault.Written? then Answer(Ok(())) else Answer(Err(IO_ERROR));
    }

    method RemovePending(id: ApprovalId, fault: Append) returns (ack: Reply<()>)
      modifies this`pending, this`up
      ensures Model() == R.Tombstone(old(Model()), id, fault) && ack == R.Acked(fault)
    {
      if fault.Lands() { pending := pending - {id}; }
      if fault.Died? { up := false; return Crash; }
      ack := if fault.Written? then Answer(Ok(())) else Answer(Err(IO_ERROR));
    }

    method SnapshotTaskIfDurable(t: TaskId, fault: Append) returns (ack: Reply<()>)
      modifies this`snapshots, this`up
      ensures (Model(), ack) == R.Snapshot(old(Model()), t, fault)
    {
      if t !in tasks { return Answer(Ok(())); }
      var valid := tasks[t].Validate();
      if valid.Err? { return Answer(valid); }
      if fault.Lands() { snapshots := snapshots + [tasks[t]]; }
      if fault.Died? { up := false; return Crash; }
      ack := if fault.Written? then Answer(Ok(())) else Answer(Err(IO_ERROR));
    }

    // ----- the pipeline -----

    // The guard and the approval only label the effect in the history.
    method ExecuteRunning(t: TaskId, ghost guard: Option<string>, ghost via: Option<ApprovalId>, now: Timestamp,
                          x: R.ExecOutcome)
      returns (r: Reply<TaskStatus>)
      modifies this`tasks, this`up, this`effects
      ensures (Model(), r) == R.Execute(old(Model()), R.Effect(t, guard, via), now, x)
    {
      if t !in tasks { return Answer(Err(NotFound(Show(t)))); }
      effects := if x.fired then effects + [R.Effect(t, guard, via)] else effects;
      match x {
        case Killed(_) =>
          up := false;
          return Crash;
        case Raised(_, message) => return Answer(Err(ExecutionFailed(message)));
        case Finished(_, succeeded, proofBuilt) =>
          if !proofBuilt { return Answer(Err(Proof(""))); }
          var status := if succeeded then Done else Failed;
          var moved := TransitionIn(tasks, t, status, now);
          if moved.Err? { return Answer(Err(moved.error)); }
          tasks := moved.value.0;
          r := Answer(Ok(status));
      }
    }

    method RunAfterApproval(rec: PendingRecord, ghost key: string, now: Timestamp, x: R.ExecOutcome)
      returns (r: Reply<TaskStatus>)
      modifies this`ledger, this`tasks, this`up, this`effects
      ensures (Model(), r) == R.RunApproved(config, old(Model()), rec, key, now, x)
    {
      if rec.taskId !in tasks { return Answer(Err(NotFound(Show(rec.taskId)))); }
      var checked := A.CheckConsume(ledger, rec.Id(), config.hash(tasks[rec.taskId].payload), now);
      if checked.Err? { return Answer(Err(checked.error)); }
      ledger := A.MarkConsumed(ledger, rec.Id());
      var moved := TransitionIn(tasks, rec.taskId, Running, now);
      if moved.Err? { return Answer(Err(moved.error)); }
      tasks := moved.value.0;
      r := ExecuteRunning(rec.taskId, Some(key), Some(rec.Id()), now, x);
    }

    // ----- submitting -----

    method FilePending(rec: PendingRecord, env: R.Env) returns (r: Reply<SubmitOutcome>)
      modifies this
      ensures (Model(), r) == R.Filed(config, old(Model()), rec, env)
    {
      ledger := ledger[rec.Id() := rec.approval];
      if rec.Id() !in pending && |pending| >= config.capacity {
        return Answer(Err(PolicyDenied(Show(config.capacity))));
      }
      if env.put.Lands() { pending := pending[rec.Id() := rec]; }
      if env.put.Died? { up := false; return Crash; }
      if env.put.Unacked? || env.put.Refused? { return Answer(Err(IO_ERROR)); }
      r := Conclude(SubmitOutcome(rec.taskId, NeedsApproval, Some(rec.Id())), env.snapshot);
    }

    method Conclude(o: SubmitOutcome, fault: Append) returns (r: Reply<SubmitOutcome>)
      modifies this`snapshots, this`up
      ensures (Model(), r) == R.Concluded(old(Model()), o, fault)
    {
      var ack := SnapshotTaskIfDurable(o.taskId, fault);
      if ack.Crash? { return Crash; }
      if ack.r.Err? { return Answer(Err(ack.r.error)); }
      r := Answer(Ok(o));
    }

    method RunUnapproved(t: TaskId, ghost key: Option<string>, now: Timestamp, env: R.Env)
      returns (r: Reply<SubmitOutcome>)
      modifies this
      ensures (Model(), r) == R.AutoRun(old(Model()), t, key, now, env)
    {
      var run := ExecuteRunning(t, key, None, now, env.exec);
      if run.Crash? { return Crash; }
      if run.r.Err? { return Answer(Err(run.r.error)); }
      proofs := proofs[t := run.r.value.Done?];
      r := Conclude(SubmitOutcome(t, run.r.value, None), env.snapshot);
    }

    // The key, if any, only labels the new task in the history.
    method SubmitTaskAs(ghost key: Option<string>, being: string, skill: SkillId, payload: Payload, now: Timestamp,
                        env: R.Env)
      returns (r: Reply<SubmitOutcome>)
      modifies this
      ensures (Model(), r) == R.Submitted(config, old(Model()), key, being, skill, payload, now, env)
    {
      if skill !in skills { return Answer(Err(UnknownSkill(Show(skill)))); }
      var t := nextId;
      nextId := nextId + 3;
      lineage := if key.Some? then lineage[t := key.value] else lineage;
      if skill == 0 { return Answer(Err(ManifestValidation("nil"))); }
      var needsHuman := skills[skill].NeedsHuman();
      tasks := tasks[t := ActionTask.New(t, skill, payload, now)
                            .(status := if needsHuman then NeedsApproval else Running)];
      if needsHuman {
        r := AwaitApproval(t, being, payload, now, env);
      } else {
        r := RunUnapproved(t, key, now, env);
      }
    }

    method AwaitApproval(t: TaskId, being: string, payload: Payload, now: Timestamp, env: R.Env)
      returns (r: Reply<SubmitOutcome>)
      modifies this
      ensures (Model(), r) == R.Parked(config, old(Model()), t, being, payload, now, env)
    {
      var admitted := L.Admits(config.limits, hits, being, now);
      hits := L.Recorded(config.limits, hits, being, now);
      if !admitted { return Answer(Err(PolicyDenied(being))); }
      var approval := A.Granted(t + 2, t + 1, config.hash(payload), now, config.ttl, config.range);
      r := FilePending(PendingRecord(t, approval, "", now), env);
    }

    method CommitOutcome(key: string, o: Result<SubmitOutcome, ActionError>, fault: Append)
      returns (r: Reply<SubmitOutcome>)
      modifies this`outbox, this`up
      ensures (Model(), r) == R.Commit(old(Model()), key, o, fault)
    {
      var ack := AppendOutbox(CommittedRow(key, DispatchedOutcome.FromResult(o)), fault);
      if ack.Crash? { return Crash; }
      if ack.r.Err? { return Answer(Err(ack.r.error)); }
      r := Answer(o);
    }

    method SubmitTaskIdempotent(key: string, being: string, skill: SkillId, payload: Payload, now: Timestamp,
                                env: R.Env)
      returns (r: Reply<SubmitOutcome>)
      modifies this
      ensures (Model(), r) == R.SubmittedOnce(config, old(Model()), key, being, skill, payload, now, env)
    {
      var seen := Lookup(outbox, key);
      if seen.Committed? { return Answer(seen.outcome.IntoResult()); }
      if seen.InProgress? { return Answer(Err(PolicyDenied(key))); }
      var ack := AppendOutbox(IntentRow(key), env.intent);
      if ack.Crash? { return Crash; }
      if ack.r.Err? { return Answer(Err(ack.r.error)); }
      r := SubmitTaskAs(Some(key), being, skill, payload, now, env);
      if r.Crash? { return; }
      r := CommitOutcome(key, r.r, env.commit);
    }

    // ----- approving -----

    method Approve(id: ApprovalId, now: Timestamp, env: R.Env) returns (r: Reply<SubmitOutcome>)
      modifies this
      ensures (Model(), r) == R.Approved(config, old(Model()), id, now, env)
    {
      if id !in pending { return Answer(Err(ApprovalMissing(Show(id)))); }
      var entry := pending[id];
      var key := R.ApprovalKey(id);
      var seen := Lookup(outbox, key);
      if seen.Committed? { return Answer(seen.outcome.IntoResult()); }
      if seen.InProgress? { return Answer(Err(PolicyDenied(Show(id)))); }
      if entry.taskId !in tasks { return Answer(Err(NotFound(Show(entry.taskId)))); }
      var skill := tasks[entry.taskId].skillId;
      if skill !in skills { return Answer(Err(UnknownSkill(Show(skill)))); }
      var ack := AppendOutbox(IntentRow(key), env.intent);
      if ack.Crash? { return Crash; }
      if ack.r.Err? { return Answer(Err(ack.r.error)); }
      r := Dispatch(entry, key, now, env);
    }

    method Dispatch(entry: PendingRecord, key: string, now: Timestamp, env: R.Env) returns (r: Reply<SubmitOutcome>)
      modifies this
      ensures (Model(), r) == R.Dispatched(config, old(Model()), entry, key, now, env)
    {
      var run := RunAfterApproval(entry, key, now, env.exec);
      if run.Crash? { return Crash; }
      if run.r.Err? {
        r := CommitOutcome(key, Err(run.r.error), env.commit);
        return;
      }
      var o := SubmitOutcome(entry.taskId, run.r.value, None);
      r := CommitOutcome(key, Ok(o), env.commit);
      if r.Crash? || r.r.Err? { return; }
      r := Settle(entry.Id(), o, env);
    }

    method Settle(id: ApprovalId, o: SubmitOutcome, env: R.Env) returns (r: Reply<SubmitOutcome>)
      modifies this
      ensures (Model(), r) == R.Settled(old(Model()), id, o, env)
    {
      var ack := RemovePending(id, env.tombstone);
      if ack.Crash? { return Crash; }
      if ack.r.Err? { return Answer(Err(ack.r.error)); }
      r := Conclude(o, env.snapshot);
      if r.Answer? && r.r.Ok? { proofs := proofs[o.taskId := o.status.Done?]; }
    }

    // ----- denying, aborting, evicting -----

    method RemoveAndCancel(id: ApprovalId, t: TaskId, now: Timestamp, env: R.Env) returns (r: Reply<()>)
      modifies this
      ensures (Model(), r) == R.DropAndCancel(old(Model()), id, t, now, env)
    {
      r := RemovePending(id, env.tombstone);
      if r.Crash? || r.r.Err? { return; }
      var moved := TransitionIn(tasks, t, Cancelled, now);
      if moved.Err? { return Answer(Err(moved.error)); }
      tasks := moved.value.0;
      r := SnapshotTaskIfDurable(t, env.snapshot);
    }

    method DenyPending(id: ApprovalId, now: Timestamp, env: R.Env) returns (r: Reply<()>)
      modifies this
      ensures (Model(), r) == R.Denied(old(Model()), id, now, env)
    {
      if id !in pending { return Answer(Err(ApprovalMissing(Show(id)))); }
      r := RemoveAndCancel(id, pending[id].taskId, now, env);
    }

    method Quarantine(key: string, reason: string, env: R.Env) returns (r: Reply<()>)
      modifies this`outbox, this`up
      ensures (Model(), r) == R.Quarantined(old(Model()), key, reason, env)
    {
      match Lookup(outbox, key) {
        case InProgress => r := Answer(Ok(()));
        case Committed(o) => r := if o.error == Some(reason) then Answer(Ok(())) else Answer(Err(PolicyDenied(key)));
        case NotStarted =>
          r := AppendOutbox(IntentRow(key), env.intent);
          if r.Crash? || r.r.Err? { return; }
          r := AppendOutbox(CommittedRow(key, DispatchedOutcome.FromError(reason)), env.commit);
      }
    }

    method AbortPendingAfterContinuationFailure(id: ApprovalId, now: Timestamp, env: R.Env) returns (r: Reply<()>)
      modifies this
      ensures (Model(), r) == R.Aborted(old(Model()), id, now, env)
    {
      AtMostOnce.QuarantinedFoot(Model(), R.ApprovalKey(id), R.QUARANTINE, env);
      var marked := Quarantine(R.ApprovalKey(id), R.QUARANTINE, env);
      if marked.Crash? { return Crash; }
      var dropped: Reply<()> := Answer(Ok(()));
      if id in pending {
        dropped := RemoveAndCancel(id, pending[id].taskId, now, env);
      }
      if dropped.Crash? { return Crash; }
      r := if marked.r.Ok? && dropped.r.Ok? then Answer(Ok(())) else Answer(Err(PolicyDenied("")));
    }

    method EvictExpiredApprovals(now: Timestamp, faults: ApprovalId -> Append)
      returns (r: Reply<nat>, ghost reached: set<ApprovalId>)
      modifies this`pending, this`up
      ensures reached <= Expired(old(pending), now)
      ensures Model() == R.Evicted(old(Model()), now, reached, r.Crash?)
      ensures r.Answer? && r.r.Ok? <==> forall id :: id in Expired(old(pending), now) ==> faults(id).Written?
      ensures r.Answer? && r.r.Ok? ==> r.r.value == |reached| && reached == Expired(old(pending), now)
    {
      hide R.Evicted, Expired;
      var expired := Expired(pending, now);
      ghost var before := Model();
      r, reached := BuryAll(expired, faults);
      EvictedIs(before, now, reached, r.Crash?);
    }

    // Tombstones go out one at a time, in whatever order the map lists the
    // expired records; the first one that fails ends the eviction.
    method BuryAll(expired: set<ApprovalId>, faults: ApprovalId -> Append)
      returns (r: Reply<nat>, ghost reached: set<ApprovalId>)
      modifies this`pending, this`up
      ensures reached <= expired && pending == old(pending) - reached && up == (old(up) && !r.Crash?)
      ensures r.Answer? && r.r.Ok? <==> forall id :: id in expired ==> faults(id).Written?
      ensures r.Answer? && r.r.Ok? ==> r.r.value == |reached| && reached == expired
    {
      var rest := expired;
      reached := {};
      while rest != {}
        invariant rest <= expired && reached == expired - rest
        invariant pending == old(pending) - reached && up == old(up)
        invariant forall id :: id in reached ==> faults(id).Written?
        decreases rest
      {
        var id :| id in rest;
        var ack := RemovePending(id, faults(id));
        if faults(id).Lands() {
          reached := reached + {id};
          assert pending == old(pending) - reached;
        }
        if ack.Crash? { return Crash, reached; }
        if ack.r.Err? { return Answer(Err(ack.r.error)), reached; }
        rest := rest - {id};
      }
      r := Answer(Ok(|expired|));
    }
  }

  // ----- the pending map is what the journalled store holds -----

  // The store's append and the runtime's step have the same fate, whatever
  // compaction does behind them.
  lemma TombstoneIsRemoval(c: JournalStore.Settings, j: JournalStore.Store, s: R.State, id: ApprovalId, f: Append,
                           k: JournalStore.Compaction)
    requires j.Live() == s.disk.pending && id in s.disk.pending
    ensures JournalStore.Removed(c, j, id, f, k).0.Live() == R.Tombstone(s, id, f).disk.pending
  {
    JournalRuns.LoggedLive(c, j, JournalStore.Delete(id), f, k, Find(j.Live(), id));
  }

  // An eviction buries, in the store, the same identifiers whose tombstones the
  // protocol's eviction is said to reach.
  lemma EvictionIsBurial(c: JournalStore.Settings, j: JournalStore.Store, s: R.State, now: Timestamp,
                         order: seq<ApprovalId>,
                         faults: ApprovalId -> Append, k: JournalStore.Compaction, dies: bool)
    requires j.Live() == s.disk.pending && JournalStore.Enumerates(order, Expired(s.disk.pending, now))
    ensures JournalStore.Evicted(c, j, now, order, faults, k).0.Live()
         == R.Evicted(s, now, JournalRuns.Reached(order, faults), dies).disk.pending
  {
    JournalRuns.EvictedLive(c, j, now, order, faults, k);
    ReachedAreListed(order, faults);
    EvictedIs(s, now, JournalRuns.Reached(order, faults), dies);
  }

  lemma {:induction false} ReachedAreListed(order: seq<ApprovalId>, faults: ApprovalId -> Append)
    ensures forall id :: id in JournalRuns.Reached(order, faults) ==> id in order
  {
    if order != [] { ReachedAreListed(order[1..], faults); }
  }

  lemma FilingIsInsertion(c: R.Config, factor: nat, j: JournalStore.Store, s: R.State, rec: PendingRecord, env: R.Env,
                          k: JournalStore.Compaction)
    requires j.Live() == s.disk.pending
    ensures JournalStore.Inserted(JournalStore.Settings(c.capacity, factor), j, rec, env.put, k).0.Live()
            == R.Filed(c, s, rec, env).0.disk.pending
  {
    hide JournalStore.Replay;
    JournalRuns.LoggedLive(JournalStore.Settings(c.capacity, factor), j, JournalStore.Put(rec), env.put, k, ());
    FiledPending(c, s, rec, env);
  }

  lemma FiledPending(c: R.Config, s: R.State, rec: PendingRecord, env: R.Env)
    ensures R.Filed(c, s, rec, env).0.disk.pending
         == match InsertInto(s.disk.pending, c.capacity, rec)
            case Ok(records) => if env.put.Lands() then records else s.disk.pending
            case Err(_) => s.disk.pending
  {
    var s1 := s.(mem := s.mem.(ledger := s.mem.ledger[rec.Id() := rec.approval]));
    var ins := InsertInto(s.disk.pending, c.capacity, rec);
    if ins.Ok? {
      AtMostOnce.ConcludedFoot(s1.(disk := s1.disk.(pending := ins.value)),
                               SubmitOutcome(rec.taskId, NeedsApproval, Some(rec.Id())), env.snapshot);
    }
  }

  lemma EvictedIs(s: R.State, now: Timestamp, reached: set<ApprovalId>, dies: bool)
    requires reached <= Expired(s.disk.pending, now)
    ensures R.Evicted(s, now, reached, dies)
            == s.(disk := s.disk.(pending := s.disk.pending - reached), up := s.up && !dies)
  {
    assert reached == set id | id in s.disk.pending && id in reached && s.disk.pending[id].IsExpired(now);
  }
}
