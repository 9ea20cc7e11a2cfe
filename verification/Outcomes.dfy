// What each operation of the runtime answers and leaves behind: outright, for
// every executor outcome and every fault at every append.
module Outcomes {
  import opened Types
  import opened Tasks
  import opened Outbox
  import opened PendingStore
  import opened Runtime
  import opened AtMostOnce
  import opened Continuity
  import Gating
  import A = Approvals
  import L = Limiter
  import P = Policy

  // A result that is given once an append is acknowledged.
  function After<T>(f: Append, result: Result<T, ActionError>): Reply<T> {
    match f
    case Written => Answer(result)
    case Unacked => Answer(Err(Proof("io")))
    case Refused => Answer(Err(Proof("io")))
    case Died => Crash
  }

  predicate Succeeds<T>(r: Reply<T>) { r.Answer? && r.r.Ok? }

  // What a log holds after one more append.
  function Grown<T>(log: seq<T>, row: T, f: Append): seq<T> {
    if f.Written? || f.Unacked? then log + [row] else log
  }

  // The row is on disk, whether the caller is told so or not.
  predicate Landed(f: Append) { f.Written? || f.Unacked? }

  // How the outbox keeps a result.
  function Stored(r: Result<SubmitOutcome, ActionError>): DispatchedOutcome {
    match r
    case Ok(o) => DispatchedOutcome(o.taskId, o.status, o.pendingApproval, None)
    case Err(ExecutionFailed(m)) => DispatchedOutcome(0, Failed, None, Some("execution failed: " + m))
    case Err(Proof(m)) => DispatchedOutcome(0, Failed, None, Some("proof error: " + m))
    case Err(ApprovalExpired(m)) => DispatchedOutcome(0, Failed, None, Some("approval expired: " + m))
    case Err(PolicyDenied(m)) => DispatchedOutcome(0, Failed, None, Some("policy denied: " + m))
    case Err(e) => DispatchedOutcome(0, Failed, None, Some(e.Display()))
  }

  // The phase of a key whose intent row is on disk, after the append of its
  // committed row.
  function Phase(r: Result<SubmitOutcome, ActionError>, f: Append): DispatchLookup {
    if Landed(f) then Committed(Stored(r)) else InProgress
  }

  lemma StoredIs(r: Result<SubmitOutcome, ActionError>)
    ensures DispatchedOutcome.FromResult(r) == Stored(r)
  {
  }

  lemma IntentPhase(rows: seq<OutboxRow>, key: string)
    requires Lookup(rows, key).NotStarted?
    ensures Lookup(rows + [IntentRow(key)], key).InProgress?
  {
    ReplayKeyAppend(rows, IntentRow(key), key);
  }

  // Committing: the phase left behind and the answer given.
  lemma CommitOutcome(s: State, key: string, r: Result<SubmitOutcome, ActionError>, f: Append)
    requires Lookup(s.disk.outbox, key).InProgress?
    ensures var (s', answer) := Commit(s, key, r, f);
            && Lookup(s'.disk.outbox, key) == Phase(r, f) && answer == After(f, r)
            && s' == s.(disk := s.disk.(outbox := s'.disk.outbox), up := s.up && !f.Died?)
  {
    StoredIs(r);
    ReplayKeyAppend(s.disk.outbox, CommittedRow(key, DispatchedOutcome.FromResult(r)), key);
  }

  // The skills that run without a human: reads, unless the policy always asks,
  // and local writes under the middle policy.
  predicate RunsUnapproved(spec: SkillSpec) {
    || (spec.risk == P.ReadOnly && spec.policy != P.AlwaysRequireApproval)
    || (spec.risk == P.WriteLocal && spec.policy == P.RequireApproval)
  }

  lemma RunsUnapprovedExactly(spec: SkillSpec)
    ensures spec.NeedsHuman() <==> !RunsUnapproved(spec)
  {
    P.AutoRunExactly(spec.risk, spec.policy);
  }

  // ----- submitting: a skill that needs no human -----

  // The answer of a run, whose last step is the snapshot of the ended task.
  function RunAnswer(t: TaskId, x: ExecOutcome, snapshot: Append): Reply<SubmitOutcome> {
    match x
    case Killed(_) => Crash
    case Raised(_, message) => Answer(Err(ExecutionFailed(message)))
    case Finished(_, succeeded, proofBuilt) =>
      if !proofBuilt then Answer(Err(Proof("")))
      else After(snapshot, Ok(SubmitOutcome(t, if succeeded then Done else Failed, None)))
  }

  // What running task t at once leaves behind.  The effect is in the history
  // exactly if the executor fired it; a failed run leaves no snapshot.
  predicate RanAtOnce(s: State, s': State, key: Option<string>, skill: SkillId, payload: Payload, now: Timestamp,
                      x: ExecOutcome, snapshot: Append)
  {
    var t := s.world.nextId;
    && s'.world.effects == s.world.effects + (if x.fired then [Effect(t, key, None)] else [])
    && s'.world.nextId == t + 3
    && s'.world.lineage == (if key.Some? then s.world.lineage[t := key.value] else s.world.lineage)
    && s'.disk.pending == s.disk.pending && s'.mem.ledger == s.mem.ledger && s'.mem.hits == s.mem.hits
    && if x.Finished? && x.proofBuilt then
         var status := if x.succeeded then Done else Failed;
         var ended := ActionTask(t, skill, status, payload, 0, None, None, None, now, now);
         && s'.disk.snapshots == Grown(s.disk.snapshots, ended, snapshot)
         && s'.mem.tasks == s.mem.tasks[t := ended]
         && s'.mem.proofs == s.mem.proofs[t := x.succeeded]
       else
         && s'.disk.snapshots == s.disk.snapshots && s'.mem.proofs == s.mem.proofs
         && s'.mem.tasks
            == s.mem.tasks[t := ActionTask(t, skill, Running, payload, 0, None, None, None, now, now)]
  }

  // The history with one more effect, if the executor fired it.
  function Fired(s: State, e: Effect, fired: bool): State {
    s.(world := s.world.(effects := s.world.effects + (if fired then [e] else [])))
  }

  function Ended(task: ActionTask, succeeded: bool, now: Timestamp): ActionTask {
    task.(status := if succeeded then Done else Failed, updatedAt := now)
  }

  lemma ExecuteOutcome(s: State, e: Effect, now: Timestamp, x: ExecOutcome)
    requires e.task in s.mem.tasks && s.mem.tasks[e.task].status.Running?
    ensures var s1 := Fired(s, e, x.fired);
            Execute(s, e, now, x) ==
              match x
              case Killed(_) => (s1.(up := false), Crash)
              case Raised(_, message) => (s1, Answer(Err(ExecutionFailed(message))))
              case Finished(_, succeeded, proofBuilt) =>
                if !proofBuilt then (s1, Answer(Err(Proof(""))))
                else
                  (WithTasks(s1, s1.mem.tasks[e.task := Ended(s1.mem.tasks[e.task], succeeded, now)]),
                   Answer(Ok(if succeeded then Done else Failed)))
  {
    assert s.world.effects + [] == s.world.effects;
  }

  lemma ConcludedOutcome(s: State, o: SubmitOutcome, f: Append)
    requires o.taskId in s.mem.tasks && s.mem.tasks[o.taskId].Validate().Ok?
    ensures Concluded(s, o, f)
         == (s.(disk := s.disk.(snapshots := Grown(s.disk.snapshots, s.mem.tasks[o.taskId], f)),
                up := s.up && !f.Died?),
             After(f, Ok(o)))
  {
  }

  lemma AutoRunOutcome(s: State, t: TaskId, key: Option<string>, now: Timestamp, env: Env)
    requires s.up && t != 0 && t in s.mem.tasks && s.mem.tasks[t].status.Running?
    requires s.mem.tasks[t].(status := Done, updatedAt := now).Validate().Ok?
    ensures var (s', r) := AutoRun(s, t, key, now, env);
            var ended := Ended(s.mem.tasks[t], env.exec.Finished? && env.exec.succeeded, now);
            && r == RunAnswer(t, env.exec, env.snapshot) && (s'.up <==> r.Answer?)
            && s'.world == Fired(s, Effect(t, key, None), env.exec.fired).world
            && s'.disk.outbox == s.disk.outbox && s'.disk.pending == s.disk.pending
            && s'.mem.ledger == s.mem.ledger && s'.mem.hits == s.mem.hits
            && if env.exec.Finished? && env.exec.proofBuilt then
                 && s'.disk.snapshots == Grown(s.disk.snapshots, ended, env.snapshot)
                 && s'.mem.tasks == s.mem.tasks[t := ended] && s'.mem.proofs == s.mem.proofs[t := env.exec.succeeded]
               else
                 s'.disk.snapshots == s.disk.snapshots && s'.mem == s.mem
  {
    hide Execute, Concluded;
    ExecuteOutcome(s, Effect(t, key, None), now, env.exec);
    var (s1, run) := Execute(s, Effect(t, key, None), now, env.exec);
    if run.Answer? && run.r.Ok? {
      ConcludedOutcome(WithProof(s1, t, run.r.value), SubmitOutcome(t, run.r.value, None), env.snapshot);
    }
  }

  // A submission that needs no human, on a live process: it runs at once.
  lemma SubmitRuns(c: Config, s: State, key: Option<string>, being: string, skill: SkillId, payload: Payload,
                   now: Timestamp, env: Env)
    requires s.up && s.world.nextId >= 1
    requires skill != 0 && skill in s.mem.skills && RunsUnapproved(s.mem.skills[skill])
    ensures var (s', r) := Submitted(c, s, key, being, skill, payload, now, env);
            && RanAtOnce(s, s', key, skill, payload, now, env.exec, env.snapshot)
            && r == RunAnswer(s.world.nextId, env.exec, env.snapshot)
            && s'.disk.outbox == s.disk.outbox && (s'.up <==> r.Answer?)
  {
    hide AutoRun, RunAnswer;
    RunsUnapprovedExactly(s.mem.skills[skill]);
    AutoRunOutcome(Enqueued(Reserve(s, key), s.world.nextId, skill, payload, now, Running), s.world.nextId, key, now,
                   env);
  }

  // The same under an unused key: besides, the intent is logged first, and
  // without its acknowledgement nothing runs; the result is committed last, and
  // what the caller gets is what the outbox keeps.
  lemma SubmitOnceRuns(c: Config, s: State, key: string, being: string, skill: SkillId, payload: Payload,
                       now: Timestamp, env: Env)
    requires s.up && s.world.nextId >= 1 && Lookup(s.disk.outbox, key).NotStarted?
    requires skill != 0 && skill in s.mem.skills && RunsUnapproved(s.mem.skills[skill])
    ensures var (s', r) := SubmittedOnce(c, s, key, being, skill, payload, now, env);
            var run := RunAnswer(s.world.nextId, env.exec, env.snapshot);
            && (s'.up <==> r.Answer?)
            && if !env.intent.Written? then
                 && r == After(env.intent, Err(Proof("io"))) && s'.world == s.world && s'.mem == s.mem
                 && s'.disk.pending == s.disk.pending && s'.disk.snapshots == s.disk.snapshots
                 && (Lookup(s'.disk.outbox, key).InProgress? <==> env.intent.Unacked?)
               else
                 && RanAtOnce(s, s', Some(key), skill, payload, now, env.exec, env.snapshot)
                 && r == (if run.Crash? then Crash else After(env.commit, run.r))
                 && Lookup(s'.disk.outbox, key) == if run.Crash? then InProgress else Phase(run.r, env.commit)
  {
    hide Submitted, Lookup, Commit, RunAnswer, RanAtOnce;
    IntentPhase(s.disk.outbox, key);
    if env.intent.Written? {
      var s1 := LogRow(s, IntentRow(key), Written);
      SubmitRuns(c, s1, Some(key), being, skill, payload, now, env);
      var (s2, run) := Submitted(c, s1, Some(key), being, skill, payload, now, env);
      if run.Answer? { CommitOutcome(s2, key, run.r, env.commit); }
      SameRun(s, s1, s2, SubmittedOnce(c, s, key, being, skill, payload, now, env).0, Some(key), skill, payload, now,
              env.exec, env.snapshot);
    }
  }

  // Rows of the outbox do not matter to what a run leaves behind.
  lemma SameRun(s: State, s1: State, s2: State, s3: State, key: Option<string>, skill: SkillId, payload: Payload,
                now: Timestamp, x: ExecOutcome, snapshot: Append)
    requires RanAtOnce(s1, s2, key, skill, payload, now, x, snapshot)
    requires s1 == s.(disk := s.disk.(outbox := s1.disk.outbox))
    requires s3 == s2.(disk := s2.disk.(outbox := s3.disk.outbox), up := s3.up)
    ensures RanAtOnce(s, s3, key, skill, payload, now, x, snapshot)
  {
  }

  // ----- submitting: a skill that needs a human -----

  // What a caller can check beforehand: room in the being's window, room in the
  // pending store.
  predicate Room(c: Config, s: State, being: string, now: Timestamp) {
    L.Admits(c.limits, s.mem.hits, being, now) && |s.disk.pending| < c.capacity
  }

  function FreshApproval(c: Config, t: TaskId, payload: Payload, now: Timestamp): A.Approval {
    A.Approval(t + 2, t + 1, c.hash(payload), now, A.SaturatingExpiry(now, c.ttl, c.range), false)
  }

  // What parking task t leaves behind: the record on disk if it is accepted and
  // its append lands, the snapshot only behind an acknowledged record, and no
  // effect.
  predicate WasParked(c: Config, s: State, s': State, being: string, skill: SkillId, payload: Payload, now: Timestamp,
                      env: Env)
  {
    var t := s.world.nextId;
    var task := ActionTask(t, skill, NeedsApproval, payload, 0, None, None, None, now, now);
    var room := Room(c, s, being, now);
    && s'.world.effects == s.world.effects && s'.world.nextId == t + 3
    && s'.mem.tasks == s.mem.tasks[t := task] && s'.mem.proofs == s.mem.proofs
    && s'.mem.hits == L.Recorded(c.limits, s.mem.hits, being, now)
    && s'.mem.ledger == (if L.Admits(c.limits, s.mem.hits, being, now)
                         then s.mem.ledger[t + 2 := FreshApproval(c, t, payload, now)] else s.mem.ledger)
    && s'.disk.pending == (if room && Landed(env.put)
                           then s.disk.pending[t + 2 := PendingRecord(t, FreshApproval(c, t, payload, now), "", now)]
                           else s.disk.pending)
    && s'.disk.snapshots == (if room && env.put.Written? then Grown(s.disk.snapshots, task, env.snapshot)
                             else s.disk.snapshots)
  }

  function ParkAnswer(c: Config, s: State, being: string, now: Timestamp, env: Env): Reply<SubmitOutcome> {
    var t := s.world.nextId;
    if !L.Admits(c.limits, s.mem.hits, being, now) then Answer(Err(PolicyDenied(being)))
    else if !Room(c, s, being, now) then Answer(Err(PolicyDenied(Show(c.capacity))))
    else if !env.put.Written? then After(env.put, Err(Proof("io")))
    else After(env.snapshot, Ok(SubmitOutcome(t, NeedsApproval, Some(t + 2))))
  }

  // Filing a record that is not there yet.
  lemma FiledOutcome(c: Config, s: State, rec: PendingRecord, env: Env)
    requires s.up && rec.Id() !in s.disk.pending
    requires rec.taskId in s.mem.tasks && s.mem.tasks[rec.taskId].Validate().Ok?
    ensures var (s', r) := Filed(c, s, rec, env);
            var room := |s.disk.pending| < c.capacity;
            && r == (if !room then Answer(Err(PolicyDenied(Show(c.capacity))))
                     else if !env.put.Written? then After(env.put, Err(Proof("io")))
                     else After(env.snapshot, Ok(SubmitOutcome(rec.taskId, NeedsApproval, Some(rec.Id())))))
            && s' == s.(mem := s.mem.(ledger := s.mem.ledger[rec.Id() := rec.approval]),
                        disk := s'.disk, up := r.Answer?)
            && s'.disk.outbox == s.disk.outbox
            && s'.disk.pending == (if room && Landed(env.put) then s.disk.pending[rec.Id() := rec] else s.disk.pending)
            && s'.disk.snapshots == (if room && env.put.Written?
                                     then Grown(s.disk.snapshots, s.mem.tasks[rec.taskId], env.snapshot)
                                     else s.disk.snapshots)
  {
    hide Concluded;
    var s1 := s.(mem := s.mem.(ledger := s.mem.ledger[rec.Id() := rec.approval]));
    ConcludedOutcome(s1.(disk := s1.disk.(pending := s.disk.pending[rec.Id() := rec])),
                     SubmitOutcome(rec.taskId, NeedsApproval, Some(rec.Id())), env.snapshot);
  }

  // A submission that needs a human, on a live process: it is filed exactly
  // when there is room, and refused without a trace on disk otherwise.
  lemma SubmitParks(c: Config, s: State, key: Option<string>, being: string, skill: SkillId, payload: Payload,
                    now: Timestamp, env: Env)
    requires s.up && PendingInv(s)
    requires skill != 0 && skill in s.mem.skills && !RunsUnapproved(s.mem.skills[skill])
    ensures var (s', r) := Submitted(c, s, key, being, skill, payload, now, env);
            && WasParked(c, s, s', being, skill, payload, now, env) && r == ParkAnswer(c, s, being, now, env)
            && s'.disk.outbox == s.disk.outbox && (s'.up <==> r.Answer?)
  {
    hide L.Admits, L.Recorded, Filed, A.SaturatingExpiry;
    RunsUnapprovedExactly(s.mem.skills[skill]);
    var t := s.world.nextId;
    var s1 := Enqueued(Reserve(s, key), t, skill, payload, now, NeedsApproval);
    FiledOutcome(c, s1.(mem := s1.mem.(hits := L.Recorded(c.limits, s.mem.hits, being, now))),
                 RecordFor(c, t, payload, now), env);
  }

  // The same under an unused key.
  lemma SubmitOnceParks(c: Config, s: State, key: string, being: string, skill: SkillId, payload: Payload,
                        now: Timestamp, env: Env)
    requires s.up && PendingInv(s) && Lookup(s.disk.outbox, key).NotStarted? && env.intent.Written?
    requires skill != 0 && skill in s.mem.skills && !RunsUnapproved(s.mem.skills[skill])
    ensures var (s', r) := SubmittedOnce(c, s, key, being, skill, payload, now, env);
            var parked := ParkAnswer(c, s, being, now, env);
            && WasParked(c, s, s', being, skill, payload, now, env) && (s'.up <==> r.Answer?)
            && r == (if parked.Crash? then Crash else After(env.commit, parked.r))
            && Lookup(s'.disk.outbox, key) == if parked.Crash? then InProgress else Phase(parked.r, env.commit)
  {
    hide Submitted, Lookup, Commit, ParkAnswer, WasParked;
    IntentPhase(s.disk.outbox, key);
    var s1 := LogRow(s, IntentRow(key), Written);
    SubmitParks(c, s1, Some(key), being, skill, payload, now, env);
    var (s2, parked) := Submitted(c, s1, Some(key), being, skill, payload, now, env);
    if parked.Answer? { CommitOutcome(s2, key, parked.r, env.commit); }
    SameParking(c, s, s1, s2, SubmittedOnce(c, s, key, being, skill, payload, now, env).0, being, skill, payload, now,
                env);
  }

  lemma SameParking(c: Config, s: State, s1: State, s2: State, s3: State, being: string, skill: SkillId,
                    payload: Payload, now: Timestamp, env: Env)
    requires WasParked(c, s1, s2, being, skill, payload, now, env)
    requires s1 == s.(disk := s.disk.(outbox := s1.disk.outbox))
    requires s3 == s2.(disk := s2.disk.(outbox := s3.disk.outbox), up := s3.up)
    ensures WasParked(c, s, s3, being, skill, payload, now, env)
    ensures ParkAnswer(c, s1, being, now, env) == ParkAnswer(c, s, being, now, env)
  {
    hide L.Admits, L.Recorded, A.SaturatingExpiry;
  }

  // An unknown or nil skill is refused without a trace on disk.
  lemma SubmitRefused(c: Config, s: State, key: Option<string>, being: string, skill: SkillId, payload: Payload,
                      now: Timestamp, env: Env)
    requires skill == 0 || skill !in s.mem.skills
    ensures var (s', r) := Submitted(c, s, key, being, skill, payload, now, env);
            && s'.disk == s.disk && s'.mem == s.mem && s'.up == s.up && s'.world.effects == s.world.effects
            && r.Answer? && r.r.Err?
            && (r.r.error.UnknownSkill? <==> skill !in s.mem.skills)
  {
  }

  // ----- approving -----

  // Everything the executor needs: a pending record never dispatched, a known
  // task and skill, an acknowledged intent, and a ledger entry that is there,
  // in time, unused and bound to the payload of a task that may start running.
  ghost predicate Fires(c: Config, s: State, id: ApprovalId, now: Timestamp, intent: Append) {
    && id in s.disk.pending && Lookup(s.disk.outbox, ApprovalKey(id)).NotStarted? && intent.Written?
    && var t := s.disk.pending[id].taskId;
       && t in s.mem.tasks && s.mem.tasks[t].skillId in s.mem.skills
       && (s.mem.tasks[t].status == NeedsApproval || s.mem.tasks[t].status == Ready)
       && LedgerAllows(c, s.mem, id, s.mem.tasks[t].payload, now)
  }

  predicate LedgerAllows(c: Config, mem: Memory, id: ApprovalId, payload: Payload, now: Timestamp) {
    && id in mem.ledger && now <= mem.ledger[id].expiresAt && !mem.ledger[id].consumed
    && mem.ledger[id].payloadHash == c.hash(payload)
  }

  lemma RunApprovedWorld(c: Config, s: State, rec: PendingRecord, key: string, now: Timestamp, x: ExecOutcome)
    ensures var s', t := RunApproved(c, s, rec, key, now, x).0, rec.taskId;
            s'.world ==
              if t in s.mem.tasks && (s.mem.tasks[t].status == NeedsApproval || s.mem.tasks[t].status == Ready)
                 && LedgerAllows(c, s.mem, rec.Id(), s.mem.tasks[t].payload, now) && x.fired
              then s.world.(effects := s.world.effects + [Effect(t, Some(key), Some(rec.Id()))])
              else s.world
  {
    hide Execute;
    if rec.taskId in s.mem.tasks && LedgerAllows(c, s.mem, rec.Id(), s.mem.tasks[rec.taskId].payload, now) {
      var s1 := s.(mem := s.mem.(ledger := A.MarkConsumed(s.mem.ledger, rec.Id())));
      var moved := TransitionIn(s1.mem.tasks, rec.taskId, Running, now);
      if moved.Ok? {
        ExecuteOutcome(WithTasks(s1, moved.value.0), Effect(rec.taskId, Some(key), Some(rec.Id())), now, x);
      }
    }
  }

  // Approving reaches the executor exactly then; what reaches the history is
  // what the executor fires.
  lemma ApproveFiresExactly(c: Config, s: State, id: ApprovalId, now: Timestamp, env: Env)
    requires PendingInv(s)
    ensures var s' := Approved(c, s, id, now, env).0;
            s'.world == if Fires(c, s, id, now, env.intent) && env.exec.fired then
                          var t := s.disk.pending[id].taskId;
                          s.world.(effects := s.world.effects + [Effect(t, Some("approval-" + Show(id)), Some(id))])
                        else s.world
  {
    hide Lookup, Dispatched, RunApproved, LedgerAllows;
    assert ApprovalKey(id) == "approval-" + Show(id);
    if id in s.disk.pending && Lookup(s.disk.outbox, ApprovalKey(id)).NotStarted? && env.intent.Written? {
      var rec := s.disk.pending[id];
      var s1 := LogRow(s, IntentRow(ApprovalKey(id)), Written);
      Gating.DispatchedGated(c, s1, rec, ApprovalKey(id), now, env);
      RunApprovedWorld(c, s1, rec, ApprovalKey(id), now, env.exec);
    }
  }

  // An approval that is not dispatched: what it answers instead.  A started key
  // answers what the outbox keeps; without an acknowledged intent nothing runs.
  lemma ApproveUndispatched(c: Config, s: State, id: ApprovalId, now: Timestamp, env: Env)
    requires s.up
    ensures var (s', r) := Approved(c, s, id, now, env);
            if id !in s.disk.pending then s' == s && r == Answer(Err(ApprovalMissing(Show(id))))
            else
              var t := s.disk.pending[id].taskId;
              match Lookup(s.disk.outbox, ApprovalKey(id))
              case Committed(o) =>
                s' == s && r == Answer(if o.error.Some? then Err(ExecutionFailed(o.error.value))
                                       else Ok(SubmitOutcome(o.taskId, o.status, o.pendingApproval)))
              case InProgress => s' == s && r == Answer(Err(PolicyDenied(Show(id))))
              case NotStarted =>
                if t !in s.mem.tasks then s' == s && r == Answer(Err(NotFound(Show(t))))
                else if s.mem.tasks[t].skillId !in s.mem.skills then
                  s' == s && r == Answer(Err(UnknownSkill(Show(s.mem.tasks[t].skillId))))
                else
                  !env.intent.Written? ==>
                    && r == After(env.intent, Err(Proof("io"))) && s'.world == s.world && s'.mem == s.mem
                    && s'.disk.pending == s.disk.pending && s'.disk.snapshots == s.disk.snapshots
  {
    hide Dispatched, Lookup;
  }

  // How an executor fails.
  predicate Fails(x: ExecOutcome) { x.Raised? || (x.Finished? && !x.proofBuilt) }

  function Failure(x: ExecOutcome): ActionError
    requires Fails(x)
  {
    if x.Raised? then ExecutionFailed(x.message) else Proof("")
  }

  // A dispatched approval uses up its ledger entry.  If the executor fails, the
  // error is committed and answered, and the record and the snapshots stay as
  // they were; if it finishes, the success is committed, then the record is
  // dropped, then the ended task is snapshotted, each only behind the
  // acknowledgement of the step before.
  ghost predicate WasDispatched(s: State, s': State, r: Reply<SubmitOutcome>, id: ApprovalId, now: Timestamp, env: Env)
    requires id in s.disk.pending && s.disk.pending[id].taskId in s.mem.tasks && id in s.mem.ledger
  {
    var t, x := s.disk.pending[id].taskId, env.exec;
    var task, phase := s.mem.tasks[t], Lookup(s'.disk.outbox, ApprovalKey(id));
    && (s'.up <==> r.Answer?)
    && s'.mem.ledger == s.mem.ledger[id := s.mem.ledger[id].(consumed := true)]
    && s'.mem.hits == s.mem.hits && s'.mem.skills == s.mem.skills
    && if x.Finished? && x.proofBuilt then
         var ended := task.(status := if x.succeeded then Done else Failed, updatedAt := now);
         var o := SubmitOutcome(t, ended.status, None);
         && s'.mem.tasks == s.mem.tasks[t := ended]
         && phase == Phase(Ok(o), env.commit)
         && s'.disk.pending == (if env.commit.Written? && Landed(env.tombstone) then s.disk.pending - {id}
                                else s.disk.pending)
         && s'.disk.snapshots == (if env.commit.Written? && env.tombstone.Written? && Storable(ended)
                                  then Grown(s.disk.snapshots, ended, env.snapshot) else s.disk.snapshots)
         && (if !env.commit.Written? then r == After(env.commit, Err(Proof("io")))
             else if !env.tombstone.Written? then r == After(env.tombstone, Err(Proof("io")))
             else if !Storable(ended) then r.Answer? && r.r.Err? && r.r.error.ManifestValidation?
             else r == After(env.snapshot, Ok(o)))
         && s'.mem.proofs == (if r == Answer(Ok(o)) then s.mem.proofs[t := x.succeeded] else s.mem.proofs)
       else
         && s'.mem.tasks == s.mem.tasks[t := task.(status := Running, updatedAt := now)]
         && s'.disk.pending == s.disk.pending && s'.disk.snapshots == s.disk.snapshots
         && s'.mem.proofs == s.mem.proofs
         && if x.Killed? then r.Crash? && phase.InProgress?
            else r == After(env.commit, Err(Failure(x))) && phase == Phase(Err(Failure(x)), env.commit)
  }

  lemma ApproveDispatches(c: Config, s: State, id: ApprovalId, now: Timestamp, env: Env)
    requires s.up && PendingInv(s) && MemInv(s) && Fires(c, s, id, now, env.intent)
    ensures var (s', r) := Approved(c, s, id, now, env); WasDispatched(s, s', r, id, now, env)
  {
    hide Lookup, ApprovalKey, RunApproved, Settled;
    var rec, key := s.disk.pending[id], ApprovalKey(id);
    var s1 := LogRow(s, IntentRow(key), Written);
    IntentPhase(s.disk.outbox, key);
    RunOutcomeIs(c, s1, rec, key, now, env.exec);
    var (s2, run) := RunApproved(c, s1, rec, key, now, env.exec);
    if run.Answer? {
      CommitOutcome(s2, key, RunOutcome(rec.taskId, run.r), env.commit);
      if run.r.Ok? && env.commit.Written? {
        var o := SubmitOutcome(rec.taskId, run.r.value, None);
        SettledOutcome(Commit(s2, key, Ok(o), Written).0, id, o, env);
      }
    }
  }

  // The run alone.
  lemma RunOutcomeIs(c: Config, s: State, rec: PendingRecord, key: string, now: Timestamp, x: ExecOutcome)
    requires rec.taskId in s.mem.tasks && LedgerAllows(c, s.mem, rec.Id(), s.mem.tasks[rec.taskId].payload, now)
    requires s.mem.tasks[rec.taskId].status == NeedsApproval || s.mem.tasks[rec.taskId].status == Ready
    ensures var (s', r) := RunApproved(c, s, rec, key, now, x);
            var task := s.mem.tasks[rec.taskId];
            && s'.disk == s.disk && (s'.up <==> s.up && !x.Killed?)
            && s'.mem == s.mem.(ledger := s.mem.ledger[rec.Id() := s.mem.ledger[rec.Id()].(consumed := true)],
                                tasks := s'.mem.tasks)
            && if x.Finished? && x.proofBuilt then
                 && r == Answer(Ok(Ended(task, x.succeeded, now).status))
                 && s'.mem.tasks == s.mem.tasks[rec.taskId := Ended(task, x.succeeded, now)]
               else
                 && s'.mem.tasks == s.mem.tasks[rec.taskId := task.(status := Running, updatedAt := now)]
                 && r == if Fails(x) then Answer(Err(Failure(x))) else Crash
  {
    hide Execute;
    var s1 := s.(mem := s.mem.(ledger := A.MarkConsumed(s.mem.ledger, rec.Id())));
    var m := s.mem.tasks[rec.taskId := s.mem.tasks[rec.taskId].(status := Running, updatedAt := now)];
    assert TransitionIn(s1.mem.tasks, rec.taskId, Running, now).value.0 == m;
    ExecuteOutcome(WithTasks(s1, m), Effect(rec.taskId, Some(key), Some(rec.Id())), now, x);
  }

  lemma ConcludedInvalid(s: State, o: SubmitOutcome, f: Append)
    requires o.taskId in s.mem.tasks && !Storable(s.mem.tasks[o.taskId])
    ensures var (s', r) := Concluded(s, o, f); s' == s && r.Answer? && r.r.Err? && r.r.error.ManifestValidation?
  {
  }

  lemma SettledOutcome(s: State, id: ApprovalId, o: SubmitOutcome, env: Env)
    requires s.up && o.taskId in s.mem.tasks && s.mem.tasks[o.taskId].id == o.taskId
    ensures var (s', r) := Settled(s, id, o, env);
            var ended := s.mem.tasks[o.taskId];
            && (s'.up <==> r.Answer?) && s'.disk.outbox == s.disk.outbox
            && s'.mem == s.mem.(proofs := if r == Answer(Ok(o)) then s.mem.proofs[o.taskId := o.status.Done?]
                                          else s.mem.proofs)
            && s'.disk.pending == (if Landed(env.tombstone) then s.disk.pending - {id} else s.disk.pending)
            && s'.disk.snapshots == (if env.tombstone.Written? && Storable(ended)
                                     then Grown(s.disk.snapshots, ended, env.snapshot) else s.disk.snapshots)
            && (if !env.tombstone.Written? then r == After(env.tombstone, Err(Proof("io")))
                else if !Storable(ended) then r.Answer? && r.r.Err? && r.r.error.ManifestValidation?
                else r == After(env.snapshot, Ok(o)))
  {
    hide Concluded;
    var s1 := Tombstone(s, id, env.tombstone);
    var ended := s.mem.tasks[o.taskId];
    if Storable(ended) {
      ConcludedOutcome(s1, o, env.snapshot);
    } else {
      ConcludedInvalid(s1, o, env.snapshot);
    }
  }

  // An approval the ledger refuses: which error, in which order.
  function LedgerRefusal(mem: Memory, id: ApprovalId, now: Timestamp): ActionError {
    if id !in mem.ledger then ApprovalMissing(Show(id))
    else if mem.ledger[id].expiresAt < now then ApprovalExpired(Show(id))
    else if mem.ledger[id].consumed then ApprovalReused(Show(id))
    else ApprovalPayloadMismatch(Show(id))
  }

  // It is refused after its intent is logged: the refusal is committed as the
  // approval's outcome, and the record and everything in memory stay.
  lemma ApproveRefused(c: Config, s: State, id: ApprovalId, now: Timestamp, env: Env)
    requires s.up && PendingInv(s) && id in s.disk.pending && env.intent.Written?
    requires Lookup(s.disk.outbox, ApprovalKey(id)).NotStarted?
    requires var t := s.disk.pending[id].taskId;
             && t in s.mem.tasks && s.mem.tasks[t].skillId in s.mem.skills
             && !LedgerAllows(c, s.mem, id, s.mem.tasks[t].payload, now)
    ensures var (s', r) := Approved(c, s, id, now, env);
            var refusal := Err(LedgerRefusal(s.mem, id, now));
            && r == After(env.commit, refusal) && (s'.up <==> r.Answer?)
            && Lookup(s'.disk.outbox, ApprovalKey(id)) == Phase(refusal, env.commit)
            && s'.world == s.world && s'.mem == s.mem
            && s'.disk.pending == s.disk.pending && s'.disk.snapshots == s.disk.snapshots
  {
    hide Lookup, ApprovalKey, Settled, Execute;
    var key := ApprovalKey(id);
    IntentPhase(s.disk.outbox, key);
    CommitOutcome(LogRow(s, IntentRow(key), Written), key, Err(LedgerRefusal(s.mem, id, now)), env.commit);
  }

  // A granted approval whose task cannot start running is used up all the same.
  lemma ApproveOutOfTurn(c: Config, s: State, id: ApprovalId, now: Timestamp, env: Env)
    requires s.up && PendingInv(s) && id in s.disk.pending && env.intent.Written?
    requires Lookup(s.disk.outbox, ApprovalKey(id)).NotStarted?
    requires var t := s.disk.pending[id].taskId;
             && t in s.mem.tasks && s.mem.tasks[t].skillId in s.mem.skills
             && LedgerAllows(c, s.mem, id, s.mem.tasks[t].payload, now)
             && s.mem.tasks[t].status != NeedsApproval && s.mem.tasks[t].status != Ready
    ensures var (s', r) := Approved(c, s, id, now, env);
            var refusal := Err(IllegalTransition(Show(s.disk.pending[id].taskId)));
            && r == After(env.commit, refusal) && (s'.up <==> r.Answer?)
            && Lookup(s'.disk.outbox, ApprovalKey(id)) == Phase(refusal, env.commit)
            && s'.world == s.world && s'.mem.tasks == s.mem.tasks
            && s'.mem.ledger == s.mem.ledger[id := s.mem.ledger[id].(consumed := true)]
            && s'.disk.pending == s.disk.pending && s'.disk.snapshots == s.disk.snapshots
  {
    hide Lookup, ApprovalKey, Settled, Execute;
    var key := ApprovalKey(id);
    var s1 := LogRow(s, IntentRow(key), Written);
    IntentPhase(s.disk.outbox, key);
    CommitOutcome(s1.(mem := s.mem.(ledger := A.MarkConsumed(s.mem.ledger, id))), key,
                  Err(IllegalTransition(Show(s.disk.pending[id].taskId))), env.commit);
  }

  // ----- denying and aborting -----

  // The task as it is once cancelled.
  function AsCancelled(task: ActionTask, now: Timestamp): ActionTask { task.(status := Cancelled, updatedAt := now) }

  // A known task that has not ended.
  predicate Open(tasks: TaskMap, t: TaskId) {
    t in tasks && tasks[t].status != Done && tasks[t].status != Failed && tasks[t].status != Cancelled
  }

  // Dropping an approval and cancelling its task: the tombstone first; behind
  // its acknowledgement an open task becomes Cancelled in memory; and behind
  // that, if it is valid, on disk.
  predicate WasDropped(s: State, s': State, id: ApprovalId, t: TaskId, now: Timestamp, env: Env) {
    var told := env.tombstone.Written? && Open(s.mem.tasks, t);
    && s'.world == s.world
    && s'.disk.pending == (if Landed(env.tombstone) then s.disk.pending - {id} else s.disk.pending)
    && s'.mem == s.mem.(tasks := if told then s.mem.tasks[t := AsCancelled(s.mem.tasks[t], now)] else s.mem.tasks)
    && s'.disk.snapshots == (if told && Storable(AsCancelled(s.mem.tasks[t], now))
                             then Grown(s.disk.snapshots, AsCancelled(s.mem.tasks[t], now), env.snapshot)
                             else s.disk.snapshots)
  }

  // Ok means all of it.
  predicate DropsCleanly(s: State, t: TaskId, now: Timestamp, env: Env) {
    && env.tombstone.Written? && env.snapshot.Written?
    && Open(s.mem.tasks, t) && Storable(AsCancelled(s.mem.tasks[t], now))
  }

  predicate DiesDropping(s: State, t: TaskId, now: Timestamp, env: Env) {
    env.tombstone.Died?
    || (env.snapshot.Died? && env.tombstone.Written? && Open(s.mem.tasks, t)
        && Storable(AsCancelled(s.mem.tasks[t], now)))
  }

  lemma DropOutcome(s: State, id: ApprovalId, t: TaskId, now: Timestamp, env: Env)
    requires s.up
    ensures var (s', r) := DropAndCancel(s, id, t, now, env);
            && WasDropped(s, s', id, t, now, env) && s'.disk.outbox == s.disk.outbox && (s'.up <==> r.Answer?)
            && (Succeeds(r) <==> DropsCleanly(s, t, now, env))
            && (r.Crash? <==> DiesDropping(s, t, now, env))
  {
    hide Snapshot;
    if env.tombstone.Written? && Open(s.mem.tasks, t) {
      var m := s.mem.tasks[t := AsCancelled(s.mem.tasks[t], now)];
      var s1 := Tombstone(s, id, env.tombstone);
      assert TransitionIn(s1.mem.tasks, t, Cancelled, now).value.0 == m;
      SnapshotOutcome(WithTasks(s1, m), t, env.snapshot);
    }
  }

  lemma SnapshotOutcome(s: State, t: TaskId, f: Append)
    requires s.up && t in s.mem.tasks
    ensures var (s', r) := Snapshot(s, t, f);
            var valid := Storable(s.mem.tasks[t]);
            && s' == s.(disk := s.disk.(snapshots := if valid then Grown(s.disk.snapshots, s.mem.tasks[t], f)
                                                     else s.disk.snapshots), up := !valid || !f.Died?)
            && if valid then r == After(f, Ok(())) else r.Answer? && r.r.Err? && r.r.error.ManifestValidation?
  {
  }

  // The task has this status in memory, on disk, and in the queue a restart
  // rebuilds.
  predicate StandsAs(s: State, t: TaskId, status: TaskStatus) {
    && t in s.mem.tasks && s.mem.tasks[t].status == status
    && t in Latest(s.disk.snapshots) && Latest(s.disk.snapshots)[t] == s.mem.tasks[t]
    && t in Restarted(s).mem.tasks && Restarted(s).mem.tasks[t].status == status
  }

  lemma CleanDropCancels(s: State, s': State, id: ApprovalId, t: TaskId, now: Timestamp, env: Env)
    requires Tasks.WellKeyed(s.mem.tasks) && WasDropped(s, s', id, t, now, env) && DropsCleanly(s, t, now, env)
    ensures StandsAs(s', t, Cancelled)
  {
    hide Latest, Storable;
    LatestAppend(s.disk.snapshots, AsCancelled(s.mem.tasks[t], now));
  }

  // Denial: it answers Ok exactly if tombstone and snapshot are acknowledged and
  // the task is known, open and valid once cancelled; and then the task is
  // cancelled in memory and on disk.
  lemma DenyOutcome(s: State, id: ApprovalId, now: Timestamp, env: Env)
    requires s.up && MemInv(s)
    ensures var (s', r) := Denied(s, id, now, env);
            if id !in s.disk.pending then s' == s && r == Answer(Err(ApprovalMissing(Show(id))))
            else
              var t := s.disk.pending[id].taskId;
              && WasDropped(s, s', id, t, now, env) && s'.disk.outbox == s.disk.outbox && (s'.up <==> r.Answer?)
              && (Succeeds(r) <==> DropsCleanly(s, t, now, env))
              && (r.Crash? <==> DiesDropping(s, t, now, env))
              && (Succeeds(r) ==> StandsAs(s', t, Cancelled))
  {
    hide DropAndCancel, WasDropped, DropsCleanly, DiesDropping, StandsAs;
    if id in s.disk.pending {
      var t := s.disk.pending[id].taskId;
      DropOutcome(s, id, t, now, env);
      if DropsCleanly(s, t, now, env) { CleanDropCancels(s, Denied(s, id, now, env).0, id, t, now, env); }
    }
  }

  // Why a denial that found its record and lived answers an error.
  lemma DenyError(s: State, id: ApprovalId, now: Timestamp, env: Env)
    requires id in s.disk.pending && Denied(s, id, now, env).1.Answer? && Denied(s, id, now, env).1.r.Err?
    ensures var e, t := Denied(s, id, now, env).1.r.error, s.disk.pending[id].taskId;
            if !env.tombstone.Written? then e == Proof("io")
            else if t !in s.mem.tasks then e == NotFound(Show(t))
            else if !Open(s.mem.tasks, t) then e == IllegalTransition(Show(t))
            else if !Storable(AsCancelled(s.mem.tasks[t], now)) then e.ManifestValidation?
            else e == Proof("io")
  {
  }

  // The marker in front of an approval's key: what blocks the executor.
  predicate MarkedBlocked(l: DispatchLookup, env: Env) {
    match l
    case NotStarted => env.intent.Written? && env.commit.Written?
    case InProgress => true
    case Committed(o) =>
      o.error == Some("approval blocked: matching continuation was not persisted durably")
  }

  // The phase the marker leaves behind; a started key keeps its own.
  function PhaseAfterMarking(l: DispatchLookup, env: Env): DispatchLookup {
    if !l.NotStarted? || !Landed(env.intent) then l
    else if env.intent.Written? && Landed(env.commit) then
      Committed(DispatchedOutcome(0, Failed, None,
                                  Some("approval blocked: matching continuation was not persisted durably")))
    else InProgress
  }

  predicate DiesMarking(l: DispatchLookup, env: Env) {
    l.NotStarted? && (env.intent.Died? || (env.intent.Written? && env.commit.Died?))
  }

  lemma MarkingOutcome(s: State, key: string, env: Env)
    requires s.up
    ensures var (s', r) := Quarantined(s, key, QUARANTINE, env);
            var l := Lookup(s.disk.outbox, key);
            && s' == s.(disk := s.disk.(outbox := s'.disk.outbox), up := r.Answer?)
            && Lookup(s'.disk.outbox, key) == PhaseAfterMarking(l, env)
            && (r.Crash? <==> DiesMarking(l, env)) && (Succeeds(r) <==> MarkedBlocked(l, env))
            && (!l.NotStarted? ==> s' == s)
  {
    hide ReplayKey;
    ReplayKeyAppend(s.disk.outbox, IntentRow(key), key);
    ReplayKeyAppend(s.disk.outbox + [IntentRow(key)],
                    CommittedRow(key, DispatchedOutcome.FromError(QUARANTINE)), key);
  }

  // Abortion: marker and removal are both attempted, unless the process dies at
  // the first, and it answers Ok exactly if the marker blocks and the removal,
  // if there is a record, is clean.  So on a committed key it answers Ok only if
  // what is committed is the marker itself.
  lemma AbortOutcome(s: State, id: ApprovalId, now: Timestamp, env: Env)
    requires s.up && MemInv(s)
    ensures var (s', r) := Aborted(s, id, now, env);
            var l := Lookup(s.disk.outbox, ApprovalKey(id));
            && Lookup(s'.disk.outbox, ApprovalKey(id)) == PhaseAfterMarking(l, env)
            && (!l.NotStarted? ==> s'.disk.outbox == s.disk.outbox)
            && s'.world == s.world && (s'.up <==> r.Answer?)
            && (Succeeds(r) || r.Crash? || (r.r.Err? && r.r.error.PolicyDenied?))
            && if DiesMarking(l, env) || id !in s.disk.pending then
                 && s'.mem == s.mem && s'.disk.pending == s.disk.pending && s'.disk.snapshots == s.disk.snapshots
                 && (r.Crash? <==> DiesMarking(l, env)) && (Succeeds(r) <==> MarkedBlocked(l, env))
               else
                 var t := s.disk.pending[id].taskId;
                 && WasDropped(s, s', id, t, now, env) && (r.Crash? <==> DiesDropping(s, t, now, env))
                 && (Succeeds(r) <==> MarkedBlocked(l, env) && DropsCleanly(s, t, now, env))
                 && (Succeeds(r) ==> StandsAs(s', t, Cancelled))
  {
    hide Lookup, ApprovalKey, Quarantined, DropAndCancel, StandsAs, PhaseAfterMarking, Storable;
    var key := ApprovalKey(id);
    MarkingOutcome(s, key, env);
    var (s1, marked) := Quarantined(s, key, QUARANTINE, env);
    if marked.Answer? && id in s.disk.pending {
      var t := s.disk.pending[id].taskId;
      DropOutcome(s1, id, t, now, env);
      var (s2, dropped) := DropAndCancel(s1, id, t, now, env);
      assert Aborted(s, id, now, env) == (s2, Combined(marked, dropped));
      assert dropped.Answer? || dropped.Crash?;
      if DropsCleanly(s, t, now, env) { CleanDropCancels(s, s2, id, t, now, env); }
    }
  }

  // ----- restarting and evicting -----

  // A restart keeps the disk and the history; the queue holds the last snapshot
  // of each task, the ledger the approvals of the pending records, and nothing
  // else is remembered: no skill, no proof, no rate-limit hit.
  lemma RestartOutcome(s: State, t: TaskId, id: ApprovalId)
    ensures var s' := Restarted(s);
            && s'.up && s'.disk == s.disk && s'.world == s.world
            && (t in s'.mem.tasks <==> exists i: nat :: IsLastOf(s.disk.snapshots, i, t))
            && (forall i: nat :: IsLastOf(s.disk.snapshots, i, t) ==> s'.mem.tasks[t] == s.disk.snapshots[i])
            && (id in s'.mem.ledger <==> id in s.disk.pending)
            && (id in s.disk.pending ==> s'.mem.ledger[id] == s.disk.pending[id].approval)
            && s'.mem.skills == map[] && s'.mem.proofs == map[] && s'.mem.hits == map[]
  {
    hide IsLastOf;
    LatestIsLastSnapshot(s.disk.snapshots, t);
  }

  // Eviction drops what it reached among the records past their time, the ones
  // approving would refuse as expired, and nothing else.
  lemma EvictOutcome(s: State, now: Timestamp, reached: set<ApprovalId>, dies: bool, id: ApprovalId)
    ensures var s' := Evicted(s, now, reached, dies);
            && (id in s'.disk.pending <==>
                  id in s.disk.pending && !(id in reached && s.disk.pending[id].approval.expiresAt < now))
            && (id in s'.disk.pending ==> s'.disk.pending[id] == s.disk.pending[id])
            && s'.disk.outbox == s.disk.outbox && s'.disk.snapshots == s.disk.snapshots
            && s'.world == s.world && s'.mem == s.mem && (s'.up <==> s.up && !dies)
  {
  }
}
