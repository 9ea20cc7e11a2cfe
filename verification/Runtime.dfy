// The crash-safe dispatch protocol.
module Runtime {
  import opened Types
  import opened Tasks
  import opened Outbox
  import opened PendingStore
  import A = Approvals
  import L = Limiter
  import P = Policy

  // ----- configuration and environment -----

  datatype Config = Config(
    hash: A.HashFn,
    range: A.ClockRange,
    ttl: int,
    capacity: nat,
    limits: L.Limits)

  datatype SkillSpec = SkillSpec(risk: P.ActionRisk, policy: P.ApprovalPolicy) {
    predicate NeedsHuman() { P.RequiresApproval(risk, policy) }
  }

  // What one call of an executor does to the outside world and to its caller.
  datatype ExecOutcome =
    | Killed(fired: bool)                    // the process dies during the call
    | Raised(fired: bool, message: string)   // the executor reports an error
    | Finished(fired: bool, succeeded: bool, proofBuilt: bool)

  // What the environment does at each fallible step of one operation.  A crash
  // between two steps is a death at the later one: what lies between them is
  // volatile.
  datatype Env = Env(exec: ExecOutcome, intent: Append, commit: Append, put: Append, tombstone: Append,
                     snapshot: Append)

  // One firing of an external effect: for which task, guarded by which outbox
  // key, and under which approval.
  datatype Effect = Effect(task: TaskId, guard: Option<string>, via: Option<ApprovalId>)

  // What survives a crash: the three logs.
  datatype Disk = Disk(outbox: seq<OutboxRow>, pending: Records, snapshots: seq<ActionTask>)

  // History kept by the model alone: the effects fired, the caller key each
  // task was created under, and the source of fresh identifiers.
  datatype World = World(effects: seq<Effect>, lineage: map<TaskId, string>, nextId: nat)

  // What a crash wipes out.
  datatype Memory = Memory(
    skills: map<SkillId, SkillSpec>,
    tasks: TaskMap,
    ledger: A.ApprovalMap,
    proofs: map<TaskId, bool>,
    hits: L.Hits)

  datatype State = State(disk: Disk, world: World, mem: Memory, up: bool)

  // First identifiers are positive: 0 is nil.
  const BLANK: State :=
    State(Disk([], map[], []), World([], map[], 1), Memory(map[], map[], map[], map[], map[]), false)

  function ApprovalKey(id: ApprovalId): string { "approval-" + Show(id) }

  lemma ApprovalKeyInjective(a: ApprovalId, b: ApprovalId)
    requires ApprovalKey(a) == ApprovalKey(b)
    ensures a == b
  {
    assert ApprovalKey(a)[|"approval-"|..] == Show(a);
    assert ApprovalKey(b)[|"approval-"|..] == Show(b);
    ShowInjective(a, b);
  }

  // ----- single steps -----

  function Acked(f: Append): Reply<()> {
    if f.Died? then Crash else if f.Written? then Answer(Ok(())) else Answer(Err(IO_ERROR))
  }

  function LogRow(s: State, row: OutboxRow, f: Append): State {
    if f.Lands() then s.(disk := s.disk.(outbox := s.disk.outbox + [row]))
    else s.(up := s.up && !f.Died?)
  }

  function Tombstone(s: State, id: ApprovalId, f: Append): State {
    if f.Lands() then s.(disk := s.disk.(pending := s.disk.pending - {id}))
    else s.(up := s.up && !f.Died?)
  }

  // Snapshotting a task that is not in the queue is a no-op.
  function Snapshot(s: State, t: TaskId, f: Append): (State, Reply<()>) {
    if t !in s.mem.tasks then (s, Answer(Ok(())))
    else
      var invalid := s.mem.tasks[t].Validate();
      if invalid.Err? then (s, Answer(invalid))
      else if f.Lands() then (s.(disk := s.disk.(snapshots := s.disk.snapshots + [s.mem.tasks[t]])), Acked(f))
      else (s.(up := s.up && !f.Died?), Acked(f))
  }

  function Fire(s: State, e: Effect, fired: bool): State {
    if fired then s.(world := s.world.(effects := s.world.effects + [e])) else s
  }

  function WithTasks(s: State, tasks: TaskMap): State { s.(mem := s.mem.(tasks := tasks)) }

  // Run the executor on a running task and settle the task's status.
  function Execute(s: State, e: Effect, now: Timestamp, x: ExecOutcome): (State, Reply<TaskStatus>) {
    if e.task !in s.mem.tasks then (s, Answer(Err(NotFound(Show(e.task)))))
    else Finish(Fire(s, e, x.fired), e.task, now, x)
  }

  function Finish(s: State, t: TaskId, now: Timestamp, x: ExecOutcome): (State, Reply<TaskStatus>) {
    match x
    case Killed(_) => (s.(up := false), Crash)
    case Raised(_, message) => (s, Answer(Err(ExecutionFailed(message))))
    case Finished(_, succeeded, proofBuilt) =>
      if !proofBuilt then (s, Answer(Err(Proof(""))))
      else
        var status := if succeeded then Done else Failed;
        match TransitionIn(s.mem.tasks, t, status, now)
        case Err(e) => (s, Answer(Err(e)))
        case Ok((m, _)) => (WithTasks(s, m), Answer(Ok(status)))
  }

  // ----- submitting -----

  // A submission reserves the identifiers of its task, action and approval together.
  function Reserve(s: State, key: Option<string>): State {
    var w := s.world;
    s.(world := World(w.effects, if key.Some? then w.lineage[w.nextId := key.value] else w.lineage, w.nextId + 3))
  }

  function Enqueued(s: State, t: TaskId, skill: SkillId, payload: Payload, now: Timestamp, status: TaskStatus): State {
    WithTasks(s, s.mem.tasks[t := ActionTask.New(t, skill, payload, now).(status := status)])
  }

  function Submitted(c: Config, s: State, key: Option<string>, being: string, skill: SkillId, payload: Payload,
                     now: Timestamp, env: Env): (State, Reply<SubmitOutcome>)
  {
    if skill !in s.mem.skills then (s, Answer(Err(UnknownSkill(Show(skill)))))
    else if skill == 0 then (Reserve(s, key), Answer(Err(ManifestValidation("nil"))))
    else
      var t := s.world.nextId;
      if s.mem.skills[skill].NeedsHuman() then
        Parked(c, Enqueued(Reserve(s, key), t, skill, payload, now, NeedsApproval), t, being, payload, now, env)
      else
        AutoRun(Enqueued(Reserve(s, key), t, skill, payload, now, Running), t, key, now, env)
  }

  function RecordFor(c: Config, t: TaskId, payload: Payload, now: Timestamp): PendingRecord {
    PendingRecord(t, A.Granted(t + 2, t + 1, c.hash(payload), now, c.ttl, c.range), "", now)
  }

  // The task waits for a human: rate limit, grant, pending record, snapshot.
  function Parked(c: Config, s: State, t: TaskId, being: string, payload: Payload, now: Timestamp,
                  env: Env): (State, Reply<SubmitOutcome>) {
    var s1 := s.(mem := s.mem.(hits := L.Recorded(c.limits, s.mem.hits, being, now)));
    if !L.Admits(c.limits, s.mem.hits, being, now) then (s1, Answer(Err(PolicyDenied(being))))
    else Filed(c, s1, RecordFor(c, t, payload, now), env)
  }

  function Filed(c: Config, s: State, rec: PendingRecord, env: Env): (State, Reply<SubmitOutcome>) {
    var s1 := s.(mem := s.mem.(ledger := s.mem.ledger[rec.Id() := rec.approval]));
    match InsertInto(s.disk.pending, c.capacity, rec)
    case Err(e) => (s1, Answer(Err(e)))
    case Ok(records) =>
      var s2 := if env.put.Lands() then s1.(disk := s1.disk.(pending := records))
                else s1.(up := s1.up && !env.put.Died?);
      match Acked(env.put)
      case Crash => (s2, Crash)
      case Answer(Err(e)) => (s2, Answer(Err(e)))
      case Answer(Ok(_)) => Concluded(s2, SubmitOutcome(rec.taskId, NeedsApproval, Some(rec.Id())), env.snapshot)
  }

  // Snapshot the task, then report the outcome.
  function Concluded(s: State, o: SubmitOutcome, f: Append): (State, Reply<SubmitOutcome>) {
    var (s1, ack) := Snapshot(s, o.taskId, f);
    match ack
    case Crash => (s1, Crash)
    case Answer(Err(e)) => (s1, Answer(Err(e)))
    case Answer(Ok(_)) => (s1, Answer(Ok(o)))
  }

  function WithProof(s: State, t: TaskId, status: TaskStatus): State {
    s.(mem := s.mem.(proofs := s.mem.proofs[t := status.Done?]))
  }

  function AutoRun(s: State, t: TaskId, key: Option<string>, now: Timestamp, env: Env): (State, Reply<SubmitOutcome>) {
    var (s1, run) := Execute(s, Effect(t, key, None), now, env.exec);
    match run
    case Crash => (s1, Crash)
    case Answer(Err(e)) => (s1, Answer(Err(e)))
    case Answer(Ok(status)) => Concluded(WithProof(s1, t, status), SubmitOutcome(t, status, None), env.snapshot)
  }

  // Append the committed row for a finished dispatch, then give its result.
  function Commit(s: State, key: string, r: Result<SubmitOutcome, ActionError>,
                  f: Append): (State, Reply<SubmitOutcome>) {
    (LogRow(s, CommittedRow(key, DispatchedOutcome.FromResult(r)), f),
     match Acked(f)
     case Crash => Crash
     case Answer(Err(e)) => Answer(Err(e))
     case Answer(Ok(_)) => Answer(r))
  }

  function SubmittedOnce(c: Config, s: State, key: string, being: string, skill: SkillId, payload: Payload,
                         now: Timestamp, env: Env): (State, Reply<SubmitOutcome>)
  {
    match Lookup(s.disk.outbox, key)
    case Committed(o) => (s, Answer(o.IntoResult()))
    case InProgress => (s, Answer(Err(PolicyDenied(key))))
    case NotStarted =>
      var s1 := LogRow(s, IntentRow(key), env.intent);
      match Acked(env.intent)
      case Crash => (s1, Crash)
      case Answer(Err(e)) => (s1, Answer(Err(e)))
      case Answer(Ok(_)) => RunOnce(c, s1, key, being, skill, payload, now, env)
  }

  // The key's intent is on disk: submit, then commit whatever came of it.
  function RunOnce(c: Config, s: State, key: string, being: string, skill: SkillId, payload: Payload,
                   now: Timestamp, env: Env): (State, Reply<SubmitOutcome>)
  {
    var (s1, run) := Submitted(c, s, Some(key), being, skill, payload, now, env);
    match run
    case Crash => (s1, Crash)
    case Answer(r) => Commit(s1, key, r, env.commit)
  }

  // ----- approving -----

  // Consume the approval against the stored payload, then execute.
  function RunApproved(c: Config, s: State, rec: PendingRecord, key: string, now: Timestamp,
                       x: ExecOutcome): (State, Reply<TaskStatus>) {
    if rec.taskId !in s.mem.tasks then (s, Answer(Err(NotFound(Show(rec.taskId)))))
    else
      match A.CheckConsume(s.mem.ledger, rec.Id(), c.hash(s.mem.tasks[rec.taskId].payload), now)
      case Err(e) => (s, Answer(Err(e)))
      case Ok(_) =>
        var s1 := s.(mem := s.mem.(ledger := A.MarkConsumed(s.mem.ledger, rec.Id())));
        match TransitionIn(s1.mem.tasks, rec.taskId, Running, now)
        case Err(e) => (s1, Answer(Err(e)))
        case Ok((m, _)) => Execute(WithTasks(s1, m), Effect(rec.taskId, Some(key), Some(rec.Id())), now, x)
  }

  function Approved(c: Config, s: State, id: ApprovalId, now: Timestamp, env: Env): (State, Reply<SubmitOutcome>) {
    if id !in s.disk.pending then (s, Answer(Err(ApprovalMissing(Show(id)))))
    else
      match Lookup(s.disk.outbox, ApprovalKey(id))
      case Committed(o) => (s, Answer(o.IntoResult()))
      case InProgress => (s, Answer(Err(PolicyDenied(Show(id)))))
      case NotStarted => ApprovedOnce(c, s, s.disk.pending[id], ApprovalKey(id), now, env)
  }

  function ApprovedOnce(c: Config, s: State, rec: PendingRecord, key: string, now: Timestamp,
                        env: Env): (State, Reply<SubmitOutcome>) {
    if rec.taskId !in s.mem.tasks then (s, Answer(Err(NotFound(Show(rec.taskId)))))
    else
      var skill := s.mem.tasks[rec.taskId].skillId;
      if skill !in s.mem.skills then (s, Answer(Err(UnknownSkill(Show(skill)))))
      else
        var s1 := LogRow(s, IntentRow(key), env.intent);
        match Acked(env.intent)
        case Crash => (s1, Crash)
        case Answer(Err(e)) => (s1, Answer(Err(e)))
        case Answer(Ok(_)) => Dispatched(c, s1, rec, key, now, env)
  }

  // The approval's intent is on disk: run, commit success or error, and only
  // after a committed success drop the pending record.
  function Dispatched(c: Config, s: State, rec: PendingRecord, key: string, now: Timestamp,
                      env: Env): (State, Reply<SubmitOutcome>) {
    var (s1, run) := RunApproved(c, s, rec, key, now, env.exec);
    match run
    case Crash => (s1, Crash)
    case Answer(Err(e)) => Commit(s1, key, Err(e), env.commit)
    case Answer(Ok(status)) =>
      var o := SubmitOutcome(rec.taskId, status, None);
      var (s2, ack) := Commit(s1, key, Ok(o), env.commit);
      if !env.commit.Written? then (s2, ack) else Settled(s2, rec.Id(), o, env)
  }

  // After the commit: drop the pending record, snapshot, keep the proof.
  function Settled(s: State, id: ApprovalId, o: SubmitOutcome, env: Env): (State, Reply<SubmitOutcome>) {
    var s1 := Tombstone(s, id, env.tombstone);
    match Acked(env.tombstone)
    case Crash => (s1, Crash)
    case Answer(Err(e)) => (s1, Answer(Err(e)))
    case Answer(Ok(_)) =>
      var (s2, done) := Concluded(s1, o, env.snapshot);
      if done.Answer? && done.r.Ok? then (WithProof(s2, o.taskId, o.status), done) else (s2, done)
  }

  // ----- denying and aborting -----

  // Cancel a task and snapshot it.
  function CancelledTask(s: State, t: TaskId, now: Timestamp, f: Append): (State, Reply<()>) {
    match TransitionIn(s.mem.tasks, t, Cancelled, now)
    case Err(e) => (s, Answer(Err(e)))
    case Ok((m, _)) => Snapshot(WithTasks(s, m), t, f)
  }

  // Drop the pending record, then cancel its task.
  function DropAndCancel(s: State, id: ApprovalId, t: TaskId, now: Timestamp, env: Env): (State, Reply<()>) {
    var s1 := Tombstone(s, id, env.tombstone);
    match Acked(env.tombstone)
    case Crash => (s1, Crash)
    case Answer(Err(e)) => (s1, Answer(Err(e)))
    case Answer(Ok(_)) => CancelledTask(s1, t, now, env.snapshot)
  }

  // Denial reads only the pending store, never the outbox.
  function Denied(s: State, id: ApprovalId, now: Timestamp, env: Env): (State, Reply<()>) {
    if id !in s.disk.pending then (s, Answer(Err(ApprovalMissing(Show(id)))))
    else DropAndCancel(s, id, s.disk.pending[id].taskId, now, env)
  }

  const QUARANTINE: string := "approval blocked: matching continuation was not persisted durably"

  // The quarantine marker of an aborted approval.
  function Quarantined(s: State, key: string, reason: string, env: Env): (State, Reply<()>) {
    match Lookup(s.disk.outbox, key)
    case InProgress => (s, Answer(Ok(())))
    case Committed(o) => (s, if o.error == Some(reason) then Answer(Ok(())) else Answer(Err(PolicyDenied(key))))
    case NotStarted =>
      var s1 := LogRow(s, IntentRow(key), env.intent);
      if !env.intent.Written? then (s1, Acked(env.intent))
      else (LogRow(s1, CommittedRow(key, DispatchedOutcome.FromError(reason)), env.commit), Acked(env.commit))
  }

  // Both halves are attempted whatever the first one answers; any error is reported.
  function Aborted(s: State, id: ApprovalId, now: Timestamp, env: Env): (State, Reply<()>) {
    var (s1, marked) := Quarantined(s, ApprovalKey(id), QUARANTINE, env);
    if marked.Crash? then (s1, Crash)
    else if id !in s.disk.pending then (s1, Combined(marked, Answer(Ok(()))))
    else
      var (s2, dropped) := DropAndCancel(s1, id, s.disk.pending[id].taskId, now, env);
      (s2, Combined(marked, dropped))
  }

  function Combined(a: Reply<()>, b: Reply<()>): Reply<()> {
    if a.Crash? || b.Crash? then Crash
    else if a.r.Ok? && b.r.Ok? then Answer(Ok(()))
    else Answer(Err(PolicyDenied("")))
  }

  // ----- eviction and restart -----

  // The tombstones that reached the disk before an error or a crash cut the
  // eviction short; map order makes them an arbitrary subset.
  function Evicted(s: State, now: Timestamp, reached: set<ApprovalId>, dies: bool): State {
    var expired := set id | id in s.disk.pending && id in reached && s.disk.pending[id].IsExpired(now);
    s.(disk := s.disk.(pending := s.disk.pending - expired), up := s.up && !dies)
  }

  // Reopen the three logs: the queue is rebuilt from the snapshots and every
  // pending approval is put back into the ledger as it was granted.
  function Restarted(s: State): State {
    State(s.disk, s.world,
          Memory(map[], Latest(s.disk.snapshots), map id | id in s.disk.pending :: s.disk.pending[id].approval, map[],
                 map[]),
          true)
  }

  // ----- runs -----

  datatype Op =
    | Register(skill: SkillId, spec: SkillSpec)
    | Submit(being: string, skill: SkillId, payload: Payload, now: Timestamp, env: Env)
    | SubmitOnce(key: string, being: string, skill: SkillId, payload: Payload, now: Timestamp, env: Env)
    | Approve(id: ApprovalId, now: Timestamp, env: Env)
    | Deny(id: ApprovalId, now: Timestamp, env: Env)
    | Abort(id: ApprovalId, now: Timestamp, env: Env)
    | Evict(now: Timestamp, reached: set<ApprovalId>, dies: bool)
    | Restart(opens: bool)

  // A dead process answers nothing until it is restarted; a restart that cannot
  // open its logs leaves it dead.
  function Step(c: Config, s: State, op: Op): State {
    if op.Restart? then (if op.opens then Restarted(s) else s.(up := false))
    else if !s.up then s
    else
      match op
      case Register(skill, spec) =>
        if skill == 0 || skill in s.mem.skills then s else s.(mem := s.mem.(skills := s.mem.skills[skill := spec]))
      case Submit(being, skill, payload, now, env) => Submitted(c, s, None, being, skill, payload, now, env).0
      case SubmitOnce(key, being, skill, payload, now, env) =>
        SubmittedOnce(c, s, key, being, skill, payload, now, env).0
      case Approve(id, now, env) => Approved(c, s, id, now, env).0
      case Deny(id, now, env) => Denied(s, id, now, env).0
      case Abort(id, now, env) => Aborted(s, id, now, env).0
      case Evict(now, reached, dies) => Evicted(s, now, reached, dies)
  }

  function Run(c: Config, s: State, ops: seq<Op>): State
    decreases |ops|
  {
    if ops == [] then s else Run(c, Step(c, s, ops[0]), ops[1..])
  }
}
