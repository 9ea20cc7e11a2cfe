// Exactly which submissions leave an approval that a restart can still approve,
// and what becomes of the others.
module Stranding {
  import opened Types
  import opened Tasks
  import opened Outbox
  import opened PendingStore
  import opened Runtime
  import opened AtMostOnce
  import opened Continuity
  import A = Approvals
  import L = Limiter

  // ----- tasks nobody has heard of -----

  // Neither the queue nor the snapshots know the task.
  predicate Unknown(s: State, u: TaskId) { u !in s.mem.tasks && u !in Latest(s.disk.snapshots) }

  lemma SubmittedTakesIds(c: Config, s: State, key: Option<string>, being: string, skill: SkillId, payload: Payload,
                          now: Timestamp, env: Env)
    ensures var s' := Submitted(c, s, key, being, skill, payload, now, env).0;
            if skill in s.mem.skills then s'.world.nextId == s.world.nextId + 3 else s' == s
  {
    hide Filed, AutoRun, L.Recorded, L.Admits;
    var t := s.world.nextId;
    if skill in s.mem.skills && skill != 0 {
      if s.mem.skills[skill].NeedsHuman() {
        var s1 := Enqueued(Reserve(s, key), t, skill, payload, now, NeedsApproval);
        FiledFoot(c, s1.(mem := s1.mem.(hits := L.Recorded(c.limits, s1.mem.hits, being, now))),
                  RecordFor(c, t, payload, now), env);
      } else {
        AutoRunFoot(Enqueued(Reserve(s, key), t, skill, payload, now, Running), t, key, now, env);
      }
    }
  }

  // A submission makes its own task known and no other.
  lemma SubmittedKeepsUnknown(c: Config, s: State, key: Option<string>, being: string, skill: SkillId, payload: Payload,
                              now: Timestamp, env: Env, u: TaskId)
    requires Unknown(s, u)
    ensures var s' := Submitted(c, s, key, being, skill, payload, now, env).0;
            u != s.world.nextId || s'.world.nextId == s.world.nextId ==> Unknown(s', u)
  {
    hide Submitted, Latest;
    if u != s.world.nextId {
      SubmittedFrame(c, s, key, being, skill, payload, now, env, u);
    } else {
      SubmittedTakesIds(c, s, key, being, skill, payload, now, env);
    }
  }

  lemma SubmittedOnceKeepsUnknown(c: Config, s: State, key: string, being: string, skill: SkillId, payload: Payload,
                                  now: Timestamp, env: Env, u: TaskId)
    requires Unknown(s, u)
    ensures var s' := SubmittedOnce(c, s, key, being, skill, payload, now, env).0;
            u != s.world.nextId || s'.world.nextId == s.world.nextId ==> Unknown(s', u)
  {
    hide Submitted, Latest;
    SubmittedKeepsUnknown(c, LogRow(s, IntentRow(key), env.intent), Some(key), being, skill, payload, now, env, u);
  }

  lemma DropKeepsUnknown(s: State, id: ApprovalId, t: TaskId, now: Timestamp, env: Env, u: TaskId)
    requires Unknown(s, u) && KeyedAt(s.mem.tasks, t) && id == t + 2
    ensures Unknown(DropAndCancel(s, id, t, now, env).0, u)
  {
    hide Latest;
    if u != t { DropAndCancelFrame(s, id, t, now, env, u); }
  }

  lemma ApprovedKeepsUnknown(c: Config, s: State, id: ApprovalId, now: Timestamp, env: Env, u: TaskId)
    requires Unknown(s, u) && PendingInv(s) && MemInv(s)
    ensures Unknown(Approved(c, s, id, now, env).0, u)
    ensures id == u + 2 ==> Approved(c, s, id, now, env).0 == s
  {
    hide Latest, Dispatched, ApprovalKey, Lookup;
    if id in s.disk.pending && s.disk.pending[id].taskId != u { ApproveFrame(c, s, id, now, env, u); }
  }

  lemma AbortedKeepsUnknown(s: State, id: ApprovalId, now: Timestamp, env: Env, u: TaskId)
    requires Unknown(s, u) && PendingInv(s) && MemInv(s)
    ensures Unknown(Aborted(s, id, now, env).0, u)
  {
    hide Latest, DropAndCancel, Quarantined, ApprovalKey;
    QuarantinedFoot(s, ApprovalKey(id), QUARANTINE, env);
    QuarantinedFrame(s, ApprovalKey(id), QUARANTINE, env, u);
    if id in s.disk.pending {
      DropKeepsUnknown(Quarantined(s, ApprovalKey(id), QUARANTINE, env).0, id, s.disk.pending[id].taskId, now, env, u);
    }
  }

  // Only a submission that takes the identifier makes a task known.
  lemma StepKeepsUnknown(c: Config, s: State, op: Op, u: TaskId)
    requires PendingInv(s) && MemInv(s) && Unknown(s, u)
    requires u < s.world.nextId || u >= Step(c, s, op).world.nextId
    ensures Unknown(Step(c, s, op), u)
  {
    hide Latest, Submitted, SubmittedOnce, Approved, DropAndCancel, Aborted;
    StepIsLegal(c, s, op);
    if !op.Restart? && s.up {
      match op
      case Register(_, _) =>
      case Evict(_, _, _) =>
      case Submit(being, skill, payload, now, env) =>
        SubmittedKeepsUnknown(c, s, None, being, skill, payload, now, env, u);
      case SubmitOnce(key, being, skill, payload, now, env) =>
        SubmittedOnceKeepsUnknown(c, s, key, being, skill, payload, now, env, u);
      case Approve(id, now, env) => ApprovedKeepsUnknown(c, s, id, now, env, u);
      case Deny(id, now, env) =>
        if id in s.disk.pending { DropKeepsUnknown(s, id, s.disk.pending[id].taskId, now, env, u); }
      case Abort(id, now, env) => AbortedKeepsUnknown(s, id, now, env, u);
    }
  }

  // No identifier is known before it is handed out.
  predicate FreshAt(s: State, u: TaskId) { u >= s.world.nextId ==> Unknown(s, u) }

  lemma {:induction false} RunKeepsFresh(c: Config, s: State, ops: seq<Op>, u: TaskId)
    requires PendingInv(s) && MemInv(s) && FreshAt(s, u)
    ensures PendingInv(Run(c, s, ops)) && MemInv(Run(c, s, ops)) && FreshAt(Run(c, s, ops), u)
    decreases |ops|
  {
    if ops != [] {
      var s' := Step(c, s, ops[0]);
      StepIsLegal(c, s, ops[0]);
      StepKeepsMemInv(c, s, ops[0]);
      if u >= s'.world.nextId { StepKeepsUnknown(c, s, ops[0], u); }
      RunKeepsFresh(c, s', ops[1..], u);
    }
  }

  // In every reachable state the next task is unknown and its approval unused.
  lemma NextIsFresh(c: Config, ops: seq<Op>)
    ensures var s := Run(c, BLANK, ops);
            PendingInv(s) && MemInv(s) && Unknown(s, s.world.nextId) && s.world.nextId + 2 !in s.disk.pending
  {
    RunKeepsFresh(c, BLANK, ops, Run(c, BLANK, ops).world.nextId);
  }

  // ----- what a restart can still approve -----

  lemma RestartApprovable(c: Config, s: State, id: ApprovalId)
    ensures Approvable(c, Restarted(s), id) <==> OnDisk(c, s.disk, id)
  {
    hide Latest, Lookup;
  }

  // The task whose approval is filed, and nothing of it on disk yet.
  ghost predicate Fileable(c: Config, s: State, rec: PendingRecord) {
    && s.up && rec.Id() == rec.taskId + 2 && !rec.approval.consumed && !Started(s.disk, ApprovalKey(rec.Id()))
    && rec.taskId in s.mem.tasks && rec.taskId !in Latest(s.disk.snapshots) && rec.Id() !in s.disk.pending
    && var task := s.mem.tasks[rec.taskId];
       task.id == rec.taskId && task.status.NeedsApproval? && task.Validate().Ok?
         && c.hash(task.payload) == rec.approval.payloadHash
  }

  lemma FiledSurvivesExactly(c: Config, s: State, rec: PendingRecord, env: Env)
    requires Fileable(c, s, rec)
    ensures var s', room := Filed(c, s, rec, env).0, |s.disk.pending| < c.capacity;
            && (rec.Id() in s'.disk.pending <==> room && env.put.Lands())
            && (OnDisk(c, s'.disk, rec.Id()) <==> room && env.put.Written? && env.snapshot.Lands())
            && (rec.Id() in s'.disk.pending && !OnDisk(c, s'.disk, rec.Id()) ==>
                  s'.disk.pending[rec.Id()].taskId == rec.taskId && rec.taskId !in Latest(s'.disk.snapshots))
            && s'.disk.outbox == s.disk.outbox
  {
    hide Lookup, ApprovalKey, Latest;
    LatestAppend(s.disk.snapshots, s.mem.tasks[rec.taskId]);
  }

  // What a caller can check before submitting: a known skill that needs a human,
  // room in the being's window, room in the store.
  predicate Accepts(c: Config, s: State, being: string, skill: SkillId, at: Timestamp) {
    && skill in s.mem.skills && skill != 0 && s.mem.skills[skill].NeedsHuman()
    && L.Admits(c.limits, s.mem.hits, being, at) && |s.disk.pending| < c.capacity
  }

  // The next identifiers have never been used.
  ghost predicate NextUnused(s: State) {
    && s.up && s.world.nextId >= 1 && Unknown(s, s.world.nextId) && s.world.nextId + 2 !in s.disk.pending
    && !Started(s.disk, ApprovalKey(s.world.nextId + 2))
  }

  // Filed on disk, but its task is not: nothing can approve it after a restart.
  predicate Stranded(d: Disk, id: ApprovalId) {
    id in d.pending && d.pending[id].taskId !in Latest(d.snapshots)
  }

  // A submission under fresh identifiers: its approval is listed afterwards
  // exactly when it is accepted and its record lands; and it is approvable from
  // disk exactly when, besides, the record's append is acknowledged and the
  // snapshot lands.
  ghost predicate SurvivesExactly(c: Config, d: Disk, id: ApprovalId, accepted: bool, env: Env) {
    && (id in d.pending <==> accepted && env.put.Lands())
    && (OnDisk(c, d, id) <==> accepted && env.put.Written? && env.snapshot.Lands())
    && (id in d.pending && !OnDisk(c, d, id) ==> Stranded(d, id))
  }

  lemma ParkedSurvivesExactly(c: Config, s: State, t: TaskId, being: string, payload: Payload, at: Timestamp, env: Env)
    requires Fileable(c, s, RecordFor(c, t, payload, at))
    ensures var s' := Parked(c, s, t, being, payload, at, env).0;
            && SurvivesExactly(c, s'.disk, t + 2,
                               L.Admits(c.limits, s.mem.hits, being, at) && |s.disk.pending| < c.capacity, env)
            && s'.disk.outbox == s.disk.outbox
  {
    hide Filed, Latest, Lookup, ApprovalKey, L.Admits;
    FiledSurvivesExactly(c, s.(mem := s.mem.(hits := L.Recorded(c.limits, s.mem.hits, being, at))),
                         RecordFor(c, t, payload, at), env);
  }

  lemma EnqueuedIsFileable(c: Config, s: State, key: Option<string>, skill: SkillId, payload: Payload, at: Timestamp)
    requires NextUnused(s) && skill != 0
    ensures Fileable(c, Enqueued(Reserve(s, key), s.world.nextId, skill, payload, at, NeedsApproval),
                     RecordFor(c, s.world.nextId, payload, at))
  {
    hide Latest, Lookup, ApprovalKey;
  }

  lemma SubmittedSurvivesExactly(c: Config, s: State, key: Option<string>, being: string, skill: SkillId,
                                 payload: Payload, at: Timestamp, env: Env)
    requires NextUnused(s)
    ensures var s' := Submitted(c, s, key, being, skill, payload, at, env).0;
            SurvivesExactly(c, s'.disk, s.world.nextId + 2, Accepts(c, s, being, skill, at), env)
              && s'.disk.outbox == s.disk.outbox
  {
    hide Parked, AutoRun, Latest, Lookup, ApprovalKey, Enqueued, L.Admits;
    var t := s.world.nextId;
    SubmittedFoot(c, s, key, being, skill, payload, at, env);
    if skill in s.mem.skills && skill != 0 {
      if s.mem.skills[skill].NeedsHuman() {
        EnqueuedIsFileable(c, s, key, skill, payload, at);
        EnqueuedRest(s, key, skill, payload, at, NeedsApproval);
        ParkedSurvivesExactly(c, Enqueued(Reserve(s, key), t, skill, payload, at, NeedsApproval), t, being, payload, at,
                              env);
      } else {
        EnqueuedRest(s, key, skill, payload, at, Running);
        AutoRunFoot(Enqueued(Reserve(s, key), t, skill, payload, at, Running), t, key, at, env);
      }
    }
  }

  lemma EnqueuedRest(s: State, key: Option<string>, skill: SkillId, payload: Payload, at: Timestamp, status: TaskStatus)
    ensures var s' := Enqueued(Reserve(s, key), s.world.nextId, skill, payload, at, status);
            s'.disk == s.disk && s'.mem.hits == s.mem.hits
  {
  }

  lemma RowsOfOtherKey(c: Config, d: Disk, row: OutboxRow, id: ApprovalId)
    requires row.key != ApprovalKey(id)
    ensures OnDisk(c, d.(outbox := d.outbox + [row]), id) <==> OnDisk(c, d, id)
    ensures Started(d.(outbox := d.outbox + [row]), ApprovalKey(id)) <==> Started(d, ApprovalKey(id))
  {
    hide ApprovalKey, Latest, ReplayKey;
    ReplayKeyAppend(d.outbox, row, ApprovalKey(id));
  }

  // The same for a keyed submission, whose key must not have been used and
  // whose intent must be acknowledged first.
  lemma SubmittedOnceSurvivesExactly(c: Config, s: State, key: string, being: string, skill: SkillId, payload: Payload,
                                     at: Timestamp, env: Env)
    requires NextUnused(s) && key != ApprovalKey(s.world.nextId + 2)
    ensures var accepted := !Started(s.disk, key) && env.intent.Written? && Accepts(c, s, being, skill, at);
            SurvivesExactly(c, SubmittedOnce(c, s, key, being, skill, payload, at, env).0.disk, s.world.nextId + 2,
                            accepted, env)
  {
    hide Submitted, Latest, ReplayKey, ApprovalKey, Accepts;
    var id := s.world.nextId + 2;
    var s1 := LogRow(s, IntentRow(key), env.intent);
    RowsOfOtherKey(c, s.disk, IntentRow(key), id);
    if !Started(s.disk, key) && env.intent.Written? {
      AcceptsSame(c, s, s1, being, skill, at);
      SubmittedSurvivesExactly(c, s1, Some(key), being, skill, payload, at, env);
      var (s2, run) := Submitted(c, s1, Some(key), being, skill, payload, at, env);
      if run.Answer? { RowsOfOtherKey(c, s2.disk, CommittedRow(key, DispatchedOutcome.FromResult(run.r)), id); }
    }
  }

  lemma AcceptsSame(c: Config, s: State, s1: State, being: string, skill: SkillId, at: Timestamp)
    requires s1.mem == s.mem && s1.disk.pending == s.disk.pending
    ensures Accepts(c, s1, being, skill, at) == Accepts(c, s, being, skill, at)
  {
  }

  // From every reachable state: after a submission and a restart the new
  // approval is approvable if and only if the submission was accepted, the
  // intent and the record were acknowledged, and the snapshot landed.  If its
  // record is listed all the same, approving it answers NotFound.
  lemma ApprovableAfterRestartExactly(c: Config, before: seq<Op>, key: string, being: string, skill: SkillId,
                                      payload: Payload, at: Timestamp, env: Env,
                                      now: Timestamp, env': Env)
    requires var s := Run(c, BLANK, before);
             s.up && !Started(s.disk, ApprovalKey(s.world.nextId + 2)) && key != ApprovalKey(s.world.nextId + 2)
    ensures var s := Run(c, BLANK, before);
            var id := s.world.nextId + 2;
            var s1 := Restarted(SubmittedOnce(c, s, key, being, skill, payload, at, env).0);
            var accepted := !Started(s.disk, key) && env.intent.Written? && Accepts(c, s, being, skill, at);
            && (Approvable(c, s1, id) <==> accepted && env.put.Written? && env.snapshot.Lands())
            && (id in s1.disk.pending <==> accepted && env.put.Lands())
            && (id in s1.disk.pending ==>
                  (Approvable(c, s1, id)
                   <==> Approved(c, s1, id, now, env')
                        != (s1, Answer(Err(NotFound(Show(s1.disk.pending[id].taskId)))))))
  {
    hide SubmittedOnce, Accepts, Approved, OnDisk, Stranded;
    var s := Run(c, BLANK, before);
    var s' := SubmittedOnce(c, s, key, being, skill, payload, at, env).0;
    var id := s.world.nextId + 2;
    NextIsFresh(c, before);
    SubmittedOnceSurvivesExactly(c, s, key, being, skill, payload, at, env);
    RestartApprovable(c, s', id);
    StepIsLegal(c, s, SubmitOnce(key, being, skill, payload, at, env));
    SubmittedOnceOtherKey(c, s, key, being, skill, payload, at, env, id);
    if id in s'.disk.pending { StrandedAnswer(c, s', id, now, env'); }
  }

  lemma SubmittedOnceOtherKey(c: Config, s: State, key: string, being: string, skill: SkillId, payload: Payload,
                              at: Timestamp, env: Env, id: ApprovalId)
    requires s.up && key != ApprovalKey(id)
    ensures Started(SubmittedOnce(c, s, key, being, skill, payload, at, env).0.disk, ApprovalKey(id))
            <==> Started(s.disk, ApprovalKey(id))
  {
    hide SubmittedOnce, ApprovalKey, ReplayKey;
    StepRows(c, s, SubmitOnce(key, being, skill, payload, at, env), ApprovalKey(id));
  }

  // After a restart a stranded approval answers NotFound; an approvable one gets
  // past its task, to skills that must be registered again.
  lemma StrandedAnswer(c: Config, s: State, id: ApprovalId, now: Timestamp, env: Env)
    requires PendingInv(s) && id in s.disk.pending && !Started(s.disk, ApprovalKey(id))
    ensures var s1 := Restarted(s);
            var refused := (s1, Answer(Err(NotFound(Show(s.disk.pending[id].taskId)))));
            && (Stranded(s.disk, id) ==> Approved(c, s1, id, now, env) == refused)
            && (OnDisk(c, s.disk, id) ==> Approved(c, s1, id, now, env) != refused)
  {
    hide Latest, ApprovalKey, Lookup;
  }

  // Nothing later helps: in every run the stranded task stays unknown, and
  // approving its approval changes nothing and fires nothing.
  lemma {:induction false} StrandedForever(c: Config, s: State, ops: seq<Op>, id: ApprovalId, now: Timestamp, env: Env)
    requires PendingInv(s) && MemInv(s) && 2 <= id < s.world.nextId && Unknown(s, id - 2)
    ensures Approved(c, Run(c, s, ops), id, now, env).0 == Run(c, s, ops)
    decreases |ops|
  {
    hide Approved, Step, Latest;
    if ops == [] {
      ApprovedKeepsUnknown(c, s, id, now, env, id - 2);
    } else {
      StepIsLegal(c, s, ops[0]);
      StepKeepsMemInv(c, s, ops[0]);
      StepKeepsUnknown(c, s, ops[0], id - 2);
      StrandedForever(c, Step(c, s, ops[0]), ops[1..], id, now, env);
    }
  }

  // Three ways to strand an accepted approval: a death between the record and
  // the snapshot, a record that lands without acknowledgement, and a snapshot
  // that is simply refused.  After the restart it is listed and in the ledger,
  // but approving it answers NotFound before any intent row is written.
  lemma ApprovalCanBeStranded(c: Config, s: State, being: string, skill: SkillId, payload: Payload, at: Timestamp,
                              env: Env, now: Timestamp, env': Env)
    requires PendingInv(s) && NextUnused(s) && Accepts(c, s, being, skill, at)
    requires env.put.Unacked? || (env.put.Written? && (env.snapshot.Died? || env.snapshot.Refused?))
    ensures var s1 := Restarted(Submitted(c, s, None, being, skill, payload, at, env).0);
            var id := s.world.nextId + 2;
            && id in s1.disk.pending && id in s1.mem.ledger && !Approvable(c, s1, id)
            && Approved(c, s1, id, now, env') == (s1, Answer(Err(NotFound(Show(s.world.nextId)))))
  {
    hide Submitted, Accepts, OnDisk, Stranded, Approved;
    var s' := Submitted(c, s, None, being, skill, payload, at, env).0;
    SubmittedSurvivesExactly(c, s, None, being, skill, payload, at, env);
    RestartApprovable(c, s', s.world.nextId + 2);
    StepIsLegal(c, s, Submit(being, skill, payload, at, env));
    StrandedAnswer(c, s', s.world.nextId + 2, now, env');
  }
}
