// A granted approval survives every crash and is still approvable, and what
// denial can and cannot promise.
module Continuity {
  import opened Types
  import opened Tasks
  import opened Outbox
  import opened PendingStore
  import opened Runtime
  import opened AtMostOnce
  import A = Approvals
  import L = Limiter

  // ----- frames: task u and its approval are left alone -----

  predicate SameAt<T(==)>(m: map<nat, T>, m': map<nat, T>, k: nat) {
    (k in m <==> k in m') && (k in m ==> m'[k] == m[k])
  }

  ghost predicate Frame(s: State, s': State, u: TaskId) {
    && SameAt(s.mem.tasks, s'.mem.tasks, u)
    && SameAt(Latest(s.disk.snapshots), Latest(s'.disk.snapshots), u)
    && SameAt(s.mem.ledger, s'.mem.ledger, u + 2)
    && SameAt(s.disk.pending, s'.disk.pending, u + 2)
  }

  predicate KeyedAt(m: TaskMap, t: TaskId) { t in m ==> m[t].id == t }

  lemma SnapshotFrame(s: State, t: TaskId, f: Append, u: TaskId)
    requires KeyedAt(s.mem.tasks, t) && u != t
    ensures Frame(s, Snapshot(s, t, f).0, u)
  {
    if t in s.mem.tasks { LatestAppend(s.disk.snapshots, s.mem.tasks[t]); }
  }

  lemma ConcludedFrame(s: State, o: SubmitOutcome, f: Append, u: TaskId)
    requires KeyedAt(s.mem.tasks, o.taskId) && u != o.taskId
    ensures Frame(s, Concluded(s, o, f).0, u)
  {
    SnapshotFrame(s, o.taskId, f, u);
  }

  // Only task t's entry of the queue may change.
  predicate MovesOnly(s: State, s': State, t: TaskId, u: TaskId) {
    && s'.disk == s.disk && s'.mem.ledger == s.mem.ledger
    && SameAt(s.mem.tasks, s'.mem.tasks, u) && KeyedAt(s'.mem.tasks, t)
  }

  lemma FinishMoves(s: State, t: TaskId, now: Timestamp, x: ExecOutcome, u: TaskId)
    requires KeyedAt(s.mem.tasks, t) && u != t
    ensures MovesOnly(s, Finish(s, t, now, x).0, t, u)
  {
  }

  lemma ExecuteMoves(s: State, e: Effect, now: Timestamp, x: ExecOutcome, u: TaskId)
    requires KeyedAt(s.mem.tasks, e.task) && u != e.task
    ensures MovesOnly(s, Execute(s, e, now, x).0, e.task, u)
  {
    FinishMoves(Fire(s, e, x.fired), e.task, now, x, u);
  }

  lemma FiledFrame(c: Config, s: State, rec: PendingRecord, env: Env, u: TaskId)
    requires KeyedAt(s.mem.tasks, rec.taskId) && u != rec.taskId && rec.Id() == rec.taskId + 2
    ensures Frame(s, Filed(c, s, rec, env).0, u)
  {
    hide Latest;
    var s1 := s.(mem := s.mem.(ledger := s.mem.ledger[rec.Id() := rec.approval]));
    var ins := InsertInto(s.disk.pending, c.capacity, rec);
    if ins.Ok? && env.put.Written? {
      ConcludedFrame(s1.(disk := s1.disk.(pending := ins.value)),
                     SubmitOutcome(rec.taskId, NeedsApproval, Some(rec.Id())), env.snapshot, u);
    }
  }

  lemma AutoRunFrame(s: State, t: TaskId, key: Option<string>, now: Timestamp, env: Env, u: TaskId)
    requires KeyedAt(s.mem.tasks, t) && u != t
    ensures Frame(s, AutoRun(s, t, key, now, env).0, u)
  {
    ExecuteMoves(s, Effect(t, key, None), now, env.exec, u);
    var (s1, run) := Execute(s, Effect(t, key, None), now, env.exec);
    if run.Answer? && run.r.Ok? {
      ConcludedFrame(WithProof(s1, t, run.r.value), SubmitOutcome(t, run.r.value, None), env.snapshot, u);
    }
  }

  lemma ParkedFrame(c: Config, s: State, t: TaskId, being: string, payload: Payload, now: Timestamp, env: Env,
                    u: TaskId)
    requires KeyedAt(s.mem.tasks, t) && u != t
    ensures Frame(s, Parked(c, s, t, being, payload, now, env).0, u)
  {
    FiledFrame(c, s.(mem := s.mem.(hits := L.Recorded(c.limits, s.mem.hits, being, now))),
               RecordFor(c, t, payload, now), env, u);
  }

  lemma EnqueuedFrame(s: State, key: Option<string>, skill: SkillId, payload: Payload, now: Timestamp,
                      status: TaskStatus, u: TaskId)
    requires u != s.world.nextId
    ensures var s' := Enqueued(Reserve(s, key), s.world.nextId, skill, payload, now, status);
            Frame(s, s', u) && KeyedAt(s'.mem.tasks, s.world.nextId)
  {
  }

  lemma SubmittedFrame(c: Config, s: State, key: Option<string>, being: string, skill: SkillId, payload: Payload,
                       now: Timestamp, env: Env, u: TaskId)
    requires u != s.world.nextId
    ensures Frame(s, Submitted(c, s, key, being, skill, payload, now, env).0, u)
  {
    hide Latest, Parked, AutoRun, Enqueued;
    var t := s.world.nextId;
    if skill in s.mem.skills && skill != 0 {
      if s.mem.skills[skill].NeedsHuman() {
        EnqueuedFrame(s, key, skill, payload, now, NeedsApproval, u);
        ParkedFrame(c, Enqueued(Reserve(s, key), t, skill, payload, now, NeedsApproval), t, being, payload, now, env,
                    u);
      } else {
        EnqueuedFrame(s, key, skill, payload, now, Running, u);
        AutoRunFrame(Enqueued(Reserve(s, key), t, skill, payload, now, Running), t, key, now, env, u);
      }
    }
  }

  lemma RunApprovedFrame(c: Config, s: State, rec: PendingRecord, key: string, now: Timestamp, x: ExecOutcome,
                         u: TaskId)
    requires KeyedAt(s.mem.tasks, rec.taskId) && u != rec.taskId && rec.Id() == rec.taskId + 2
    ensures var s' := RunApproved(c, s, rec, key, now, x).0; Frame(s, s', u) && KeyedAt(s'.mem.tasks, rec.taskId)
  {
    hide Latest, Execute;
    if rec.taskId in s.mem.tasks
      && A.CheckConsume(s.mem.ledger, rec.Id(), c.hash(s.mem.tasks[rec.taskId].payload), now).Ok? {
      var s1 := s.(mem := s.mem.(ledger := A.MarkConsumed(s.mem.ledger, rec.Id())));
      var moved := TransitionIn(s1.mem.tasks, rec.taskId, Running, now);
      if moved.Ok? {
        ExecuteMoves(WithTasks(s1, moved.value.0), Effect(rec.taskId, Some(key), Some(rec.Id())), now, x, u);
      }
    }
  }

  lemma SettledFrame(s: State, id: ApprovalId, o: SubmitOutcome, env: Env, u: TaskId)
    requires KeyedAt(s.mem.tasks, o.taskId) && u != o.taskId && id == o.taskId + 2
    ensures Frame(s, Settled(s, id, o, env).0, u)
  {
    hide Latest;
    ConcludedFrame(Tombstone(s, id, env.tombstone), o, env.snapshot, u);
  }

  lemma DispatchedFrame(c: Config, s: State, rec: PendingRecord, key: string, now: Timestamp, env: Env, u: TaskId)
    requires KeyedAt(s.mem.tasks, rec.taskId) && u != rec.taskId && rec.Id() == rec.taskId + 2
    ensures Frame(s, Dispatched(c, s, rec, key, now, env).0, u)
  {
    RunApprovedFrame(c, s, rec, key, now, env.exec, u);
    var (s1, run) := RunApproved(c, s, rec, key, now, env.exec);
    if run.Answer? && run.r.Ok? {
      var o := SubmitOutcome(rec.taskId, run.r.value, None);
      SettledFrame(Commit(s1, key, Ok(o), env.commit).0, rec.Id(), o, env, u);
    }
  }

  lemma DropAndCancelFrame(s: State, id: ApprovalId, t: TaskId, now: Timestamp, env: Env, u: TaskId)
    requires KeyedAt(s.mem.tasks, t) && u != t && id == t + 2
    ensures Frame(s, DropAndCancel(s, id, t, now, env).0, u)
  {
    hide Latest;
    var s1 := Tombstone(s, id, env.tombstone);
    var moved := TransitionIn(s1.mem.tasks, t, Cancelled, now);
    if moved.Ok? { SnapshotFrame(WithTasks(s1, moved.value.0), t, env.snapshot, u); }
  }

  // ----- which key an operation may write rows for -----

  function KeyOf(op: Op): Option<string> {
    match op
    case SubmitOnce(key, _, _, _, _, _) => Some(key)
    case Approve(id, _, _) => Some(ApprovalKey(id))
    case Abort(id, _, _) => Some(ApprovalKey(id))
    case _ => None
  }

  lemma RunOnceRows(c: Config, s: State, s1: State, key: string, being: string, skill: SkillId, payload: Payload,
                    now: Timestamp, env: Env)
    requires s1.disk.outbox == s.disk.outbox + [IntentRow(key)]
    ensures OnlyKey(s.disk, RunOnce(c, s1, key, being, skill, payload, now, env).0.disk, key)
  {
    SubmittedFoot(c, s1, Some(key), being, skill, payload, now, env);
    var (s2, run) := Submitted(c, s1, Some(key), being, skill, payload, now, env);
    if run.Answer? { CommitFoot(s2, key, run.r, env.commit); }
  }

  lemma ApprovedOnceRows(c: Config, s: State, rec: PendingRecord, key: string, now: Timestamp, env: Env)
    ensures OnlyKey(s.disk, ApprovedOnce(c, s, rec, key, now, env).0.disk, key)
  {
    hide Dispatched;
    var s1 := LogRow(s, IntentRow(key), env.intent);
    DispatchedFoot(c, s1, rec, key, now, env);
    var s2 := Dispatched(c, s1, rec, key, now, env).0;
    if env.intent.Written? {
      assert s2.disk.outbox[..|s.disk.outbox|] == s1.disk.outbox[..|s.disk.outbox|];
      assert s2.disk.outbox[|s.disk.outbox|] == s1.disk.outbox[|s.disk.outbox|];
    }
  }

  lemma StepRows(c: Config, s: State, op: Op, key: string)
    requires KeyOf(op) != Some(key)
    ensures Lookup(Step(c, s, op).disk.outbox, key) == Lookup(s.disk.outbox, key)
  {
    if !op.Restart? && s.up {
      match op
      case Register(_, _) =>
      case Evict(_, _, _) =>
      case Submit(being, skill, payload, now, env) => SubmittedFoot(c, s, None, being, skill, payload, now, env);
      case Deny(id, now, env) =>
        if id in s.disk.pending { DropAndCancelFoot(s, id, s.disk.pending[id].taskId, now, env); }
      case SubmitOnce(k, being, skill, payload, now, env) =>
        RunOnceRows(c, s, LogRow(s, IntentRow(k), Written), k, being, skill, payload, now, env);
        OtherKey(s.disk, SubmittedOnce(c, s, k, being, skill, payload, now, env).0.disk, k, key);
      case Approve(id, now, env) =>
        if id in s.disk.pending {
          ApprovedOnceRows(c, s, s.disk.pending[id], ApprovalKey(id), now, env);
          OtherKey(s.disk, Approved(c, s, id, now, env).0.disk, ApprovalKey(id), key);
        }
      case Abort(id, now, env) =>
        AbortedRows(s, id, now, env);
        OtherKey(s.disk, Aborted(s, id, now, env).0.disk, ApprovalKey(id), key);
    }
  }

  lemma AbortedRows(s: State, id: ApprovalId, now: Timestamp, env: Env)
    ensures OnlyKey(s.disk, Aborted(s, id, now, env).0.disk, ApprovalKey(id))
  {
    QuarantinedFoot(s, ApprovalKey(id), QUARANTINE, env);
    var s1 := Quarantined(s, ApprovalKey(id), QUARANTINE, env).0;
    if id in s.disk.pending { DropAndCancelFoot(s1, id, s.disk.pending[id].taskId, now, env); }
  }

  lemma OtherKey(d: Disk, d': Disk, written: string, key: string)
    requires OnlyKey(d, d', written) && written != key
    ensures Lookup(d'.outbox, key) == Lookup(d.outbox, key)
  {
    var more := d'.outbox[|d.outbox|..];
    assert d'.outbox == d.outbox + more;
    forall r | r in more ensures r.key != key {
      var i :| 0 <= i < |more| && more[i] == r;
      assert more[i] == d'.outbox[|d.outbox| + i];
    }
    OtherKeysRows(d.outbox, more, key);
  }

  // ----- an approvable approval -----

  ghost predicate MemInv(s: State) { Tasks.WellKeyed(s.mem.tasks) }

  // Everything a later approve needs, on disk and, while the process is up, in memory.
  ghost predicate Approvable(c: Config, s: State, id: ApprovalId) {
    && OnDisk(c, s.disk, id)
    && (s.up ==>
          var rec := s.disk.pending[id];
          && rec.taskId in s.mem.tasks && s.mem.tasks[rec.taskId] == Latest(s.disk.snapshots)[rec.taskId]
          && id in s.mem.ledger && s.mem.ledger[id] == rec.approval)
  }

  ghost predicate OnDisk(c: Config, d: Disk, id: ApprovalId) {
    && id in d.pending && !d.pending[id].approval.consumed
    && !Started(d, ApprovalKey(id))
    && var rec, saved := d.pending[id], Latest(d.snapshots);
       && rec.Id() == id && rec.taskId + 2 == id && rec.taskId in saved
       && saved[rec.taskId].status.NeedsApproval?
       && saved[rec.taskId].Validate().Ok?
       && c.hash(saved[rec.taskId].payload) == rec.approval.payloadHash
  }

  // The operations aimed at this very approval.
  predicate Aims(s: State, op: Op, id: ApprovalId) {
    match op
    case Approve(j, _, _) => j == id
    case Deny(j, _, _) => j == id
    case Abort(j, _, _) => j == id
    case SubmitOnce(key, _, _, _, _, _) => key == ApprovalKey(id)
    case Evict(now, reached, _) => id in reached && id in s.disk.pending && s.disk.pending[id].IsExpired(now)
    case _ => false
  }

  lemma SubmitOnceFrame(c: Config, s: State, key: string, being: string, skill: SkillId, payload: Payload,
                        now: Timestamp, env: Env, u: TaskId)
    requires u != s.world.nextId
    ensures Frame(s, SubmittedOnce(c, s, key, being, skill, payload, now, env).0, u)
  {
    hide Submitted, Latest;
    var s1 := LogRow(s, IntentRow(key), env.intent);
    if Lookup(s.disk.outbox, key).NotStarted? && env.intent.Written? {
      SubmittedFrame(c, s1, Some(key), being, skill, payload, now, env, u);
    }
  }

  lemma ApproveFrame(c: Config, s: State, id: ApprovalId, now: Timestamp, env: Env, u: TaskId)
    requires id in s.disk.pending ==>
      var rec := s.disk.pending[id]; KeyedAt(s.mem.tasks, rec.taskId) && u != rec.taskId && rec.Id() == rec.taskId + 2
    ensures Frame(s, Approved(c, s, id, now, env).0, u)
  {
    hide Dispatched, Latest, ApprovalKey;
    if id in s.disk.pending && env.intent.Written? {
      DispatchedFrame(c, LogRow(s, IntentRow(ApprovalKey(id)), env.intent), s.disk.pending[id], ApprovalKey(id), now,
                      env, u);
    }
  }

  lemma QuarantinedFrame(s: State, key: string, reason: string, env: Env, u: TaskId)
    ensures Frame(s, Quarantined(s, key, reason, env).0, u)
  {
  }

  lemma AbortFrame(s: State, id: ApprovalId, now: Timestamp, env: Env, u: TaskId)
    requires id in s.disk.pending ==>
      var t := s.disk.pending[id].taskId; KeyedAt(s.mem.tasks, t) && u != t && id == t + 2
    ensures Frame(s, Aborted(s, id, now, env).0, u)
  {
    QuarantinedFoot(s, ApprovalKey(id), QUARANTINE, env);
    QuarantinedFrame(s, ApprovalKey(id), QUARANTINE, env, u);
    if id in s.disk.pending {
      DropAndCancelFrame(Quarantined(s, ApprovalKey(id), QUARANTINE, env).0, id, s.disk.pending[id].taskId, now, env,
                         u);
    }
  }

  // Operations not aimed at an approval leave its task, its snapshot, its
  // ledger entry and its record alone.
  lemma StepFrame(c: Config, s: State, op: Op, id: ApprovalId)
    requires PendingInv(s) && MemInv(s) && s.up && !op.Restart?
    requires id in s.disk.pending && !Aims(s, op, id)
    ensures Frame(s, Step(c, s, op), s.disk.pending[id].taskId)
  {
    var u := s.disk.pending[id].taskId;
    match op
    case Register(_, _) =>
    case Evict(_, _, _) =>
    case Submit(being, skill, payload, now, env) => SubmittedFrame(c, s, None, being, skill, payload, now, env, u);
    case Deny(j, now, env) =>
      if j in s.disk.pending { DropAndCancelFrame(s, j, s.disk.pending[j].taskId, now, env, u); }
    case SubmitOnce(key, being, skill, payload, now, env) =>
      SubmitOnceFrame(c, s, key, being, skill, payload, now, env, u);
    case Approve(j, now, env) => ApproveFrame(c, s, j, now, env, u);
    case Abort(j, now, env) => AbortFrame(s, j, now, env, u);
  }

  // ----- the queue stays keyed by task -----

  lemma ConcludedMem(s: State, o: SubmitOutcome, f: Append)
    ensures Concluded(s, o, f).0.mem == s.mem
  {
  }

  lemma ExecuteMem(s: State, e: Effect, now: Timestamp, x: ExecOutcome)
    requires MemInv(s)
    ensures MemInv(Execute(s, e, now, x).0)
  {
  }

  lemma FiledMem(c: Config, s: State, rec: PendingRecord, env: Env)
    ensures Filed(c, s, rec, env).0.mem.tasks == s.mem.tasks
  {
    var s1 := s.(mem := s.mem.(ledger := s.mem.ledger[rec.Id() := rec.approval]));
    var ins := InsertInto(s.disk.pending, c.capacity, rec);
    if ins.Ok? && env.put.Written? {
      ConcludedMem(s1.(disk := s1.disk.(pending := ins.value)),
                   SubmitOutcome(rec.taskId, NeedsApproval, Some(rec.Id())), env.snapshot);
    }
  }

  lemma AutoRunMem(s: State, t: TaskId, key: Option<string>, now: Timestamp, env: Env)
    requires MemInv(s)
    ensures MemInv(AutoRun(s, t, key, now, env).0)
  {
    ExecuteMem(s, Effect(t, key, None), now, env.exec);
    var (s1, run) := Execute(s, Effect(t, key, None), now, env.exec);
    if run.Answer? && run.r.Ok? {
      ConcludedMem(WithProof(s1, t, run.r.value), SubmitOutcome(t, run.r.value, None), env.snapshot);
    }
  }

  lemma EnqueuedMem(s: State, key: Option<string>, skill: SkillId, payload: Payload, now: Timestamp, status: TaskStatus)
    requires MemInv(s)
    ensures MemInv(Enqueued(Reserve(s, key), s.world.nextId, skill, payload, now, status))
  {
  }

  lemma ParkedMem(c: Config, s: State, t: TaskId, being: string, payload: Payload, now: Timestamp, env: Env)
    ensures Parked(c, s, t, being, payload, now, env).0.mem.tasks == s.mem.tasks
  {
    hide Filed;
    FiledMem(c, s.(mem := s.mem.(hits := L.Recorded(c.limits, s.mem.hits, being, now))), RecordFor(c, t, payload, now),
             env);
  }

  lemma SubmittedMem(c: Config, s: State, key: Option<string>, being: string, skill: SkillId, payload: Payload,
                     now: Timestamp, env: Env)
    requires MemInv(s)
    ensures MemInv(Submitted(c, s, key, being, skill, payload, now, env).0)
  {
    hide Parked, AutoRun, Enqueued;
    var t := s.world.nextId;
    if skill in s.mem.skills && skill != 0 {
      if s.mem.skills[skill].NeedsHuman() {
        EnqueuedMem(s, key, skill, payload, now, NeedsApproval);
        ParkedMem(c, Enqueued(Reserve(s, key), t, skill, payload, now, NeedsApproval), t, being, payload, now, env);
      } else {
        EnqueuedMem(s, key, skill, payload, now, Running);
        AutoRunMem(Enqueued(Reserve(s, key), t, skill, payload, now, Running), t, key, now, env);
      }
    }
  }

  lemma RunApprovedMem(c: Config, s: State, rec: PendingRecord, key: string, now: Timestamp, x: ExecOutcome)
    requires MemInv(s)
    ensures MemInv(RunApproved(c, s, rec, key, now, x).0)
  {
    if rec.taskId in s.mem.tasks
      && A.CheckConsume(s.mem.ledger, rec.Id(), c.hash(s.mem.tasks[rec.taskId].payload), now).Ok? {
      var s1 := s.(mem := s.mem.(ledger := A.MarkConsumed(s.mem.ledger, rec.Id())));
      var moved := TransitionIn(s1.mem.tasks, rec.taskId, Running, now);
      if moved.Ok? {
        ExecuteMem(WithTasks(s1, moved.value.0), Effect(rec.taskId, Some(key), Some(rec.Id())), now, x);
      }
    }
  }

  lemma SettledMem(s: State, id: ApprovalId, o: SubmitOutcome, env: Env)
    ensures Settled(s, id, o, env).0.mem.tasks == s.mem.tasks
  {
    ConcludedMem(Tombstone(s, id, env.tombstone), o, env.snapshot);
  }

  lemma DispatchedMem(c: Config, s: State, rec: PendingRecord, key: string, now: Timestamp, env: Env)
    requires MemInv(s)
    ensures MemInv(Dispatched(c, s, rec, key, now, env).0)
  {
    RunApprovedMem(c, s, rec, key, now, env.exec);
    var (s1, run) := RunApproved(c, s, rec, key, now, env.exec);
    if run.Answer? && run.r.Ok? {
      var o := SubmitOutcome(rec.taskId, run.r.value, None);
      SettledMem(Commit(s1, key, Ok(o), env.commit).0, rec.Id(), o, env);
    }
  }

  lemma DropAndCancelMem(s: State, id: ApprovalId, t: TaskId, now: Timestamp, env: Env)
    requires MemInv(s)
    ensures MemInv(DropAndCancel(s, id, t, now, env).0)
  {
  }

  lemma StepKeepsMemInv(c: Config, s: State, op: Op)
    requires MemInv(s)
    ensures MemInv(Step(c, s, op))
  {
    if op.Restart? {
      LatestIsLastSnapshot(s.disk.snapshots, 0);
    } else if s.up {
      match op
      case Register(_, _) =>
      case Evict(_, _, _) =>
      case Submit(being, skill, payload, now, env) => SubmittedMem(c, s, None, being, skill, payload, now, env);
      case Deny(j, now, env) =>
        if j in s.disk.pending { DropAndCancelMem(s, j, s.disk.pending[j].taskId, now, env); }
      case SubmitOnce(key, being, skill, payload, now, env) =>
        SubmittedMem(c, LogRow(s, IntentRow(key), env.intent), Some(key), being, skill, payload, now, env);
      case Approve(j, now, env) =>
        if j in s.disk.pending {
          DispatchedMem(c, LogRow(s, IntentRow(ApprovalKey(j)), env.intent), s.disk.pending[j], ApprovalKey(j), now,
                        env);
        }
      case Abort(j, now, env) =>
        QuarantinedFoot(s, ApprovalKey(j), QUARANTINE, env);
        if j in s.disk.pending {
          DropAndCancelMem(Quarantined(s, ApprovalKey(j), QUARANTINE, env).0, j, s.disk.pending[j].taskId, now, env);
        }
    }
  }

  // ----- readiness survives -----

  // The record and the task's latest snapshot are what they were.
  ghost predicate Kept(d: Disk, d': Disk, id: ApprovalId)
    requires id in d.pending && d.pending[id].taskId in Latest(d.snapshots)
  {
    var t := d.pending[id].taskId;
    && id in d'.pending && d'.pending[id] == d.pending[id]
    && t in Latest(d'.snapshots) && Latest(d'.snapshots)[t] == Latest(d.snapshots)[t]
  }

  lemma StepKeepsApprovable(c: Config, s: State, op: Op, id: ApprovalId)
    requires PendingInv(s) && MemInv(s) && Approvable(c, s, id) && !Aims(s, op, id)
    ensures Approvable(c, Step(c, s, op), id) && Kept(s.disk, Step(c, s, op).disk, id)
  {
    if !op.Restart? && s.up {
      StepFrame(c, s, op, id);
      KeyNotAimed(s, op, id);
      StepRows(c, s, op, ApprovalKey(id));
      FrameKeepsApprovable(c, s, Step(c, s, op), id);
    }
  }

  lemma KeyNotAimed(s: State, op: Op, id: ApprovalId)
    requires !Aims(s, op, id)
    ensures KeyOf(op) != Some(ApprovalKey(id))
  {
    if KeyOf(op) == Some(ApprovalKey(id)) && (op.Approve? || op.Abort?) {
      ApprovalKeyInjective(op.id, id);
    }
  }

  lemma FrameKeepsApprovable(c: Config, s: State, s': State, id: ApprovalId)
    requires Approvable(c, s, id) && s.up
    requires Frame(s, s', s.disk.pending[id].taskId)
    requires Lookup(s'.disk.outbox, ApprovalKey(id)) == Lookup(s.disk.outbox, ApprovalKey(id))
    ensures Approvable(c, s', id) && Kept(s.disk, s'.disk, id)
  {
  }

  predicate NeverAimed(c: Config, s: State, ops: seq<Op>, id: ApprovalId)
    decreases |ops|
  {
    ops == [] || (!Aims(s, ops[0], id) && NeverAimed(c, Step(c, s, ops[0]), ops[1..], id))
  }

  // Whatever else happens -- other submissions, approvals, denials, append
  // failures, crashes, restarts -- a granted approval stays approvable until an
  // operation is aimed at it.
  lemma {:induction false} ApprovalSurvives(c: Config, s: State, ops: seq<Op>, id: ApprovalId)
    requires PendingInv(s) && MemInv(s) && Approvable(c, s, id) && NeverAimed(c, s, ops, id)
    ensures var s' := Run(c, s, ops); PendingInv(s') && MemInv(s') && Approvable(c, s', id) && Kept(s.disk, s'.disk, id)
    decreases |ops|
  {
    if ops != [] {
      StepIsLegal(c, s, ops[0]);
      StepKeepsMemInv(c, s, ops[0]);
      StepKeepsApprovable(c, s, ops[0], id);
      ApprovalSurvives(c, Step(c, s, ops[0]), ops[1..], id);
    }
  }
}
