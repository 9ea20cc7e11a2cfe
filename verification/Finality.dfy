// What an acknowledged answer means for ever: a task denied, aborted or brought
// to its end stays so through every run, crash and restart.
module Finality {
  import opened Types
  import opened Tasks
  import opened Outbox
  import opened PendingStore
  import opened Runtime
  import opened AtMostOnce
  import opened Continuity
  import opened Outcomes
  import Promises

  // A step leaves a task alone whose approval is gone, or that never had one.
  lemma StepKeepsSettled(c: Config, s: State, op: Op, u: TaskId)
    requires PendingInv(s) && MemInv(s) && s.up && !op.Restart?
    requires u < s.world.nextId && u + 2 !in s.disk.pending
    ensures Frame(s, Step(c, s, op), u)
  {
    hide Latest, Submitted, SubmittedOnce, Approved, Denied, Aborted;
    match op
    case Register(_, _) =>
    case Evict(_, _, _) =>
    case Submit(being, skill, payload, now, env) => SubmittedFrame(c, s, None, being, skill, payload, now, env, u);
    case SubmitOnce(key, being, skill, payload, now, env) =>
      SubmitOnceFrame(c, s, key, being, skill, payload, now, env, u);
    case Approve(j, now, env) => ApproveFrame(c, s, j, now, env, u);
    case Deny(j, now, env) => DenyFrame(s, j, now, env, u);
    case Abort(j, now, env) => AbortFrame(s, j, now, env, u);
  }

  lemma DenyFrame(s: State, j: ApprovalId, now: Timestamp, env: Env, u: TaskId)
    requires PendingInv(s) && MemInv(s) && u + 2 !in s.disk.pending
    ensures Frame(s, Denied(s, j, now, env).0, u)
  {
    hide DropAndCancel, Latest;
    if j in s.disk.pending { DropAndCancelFrame(s, j, s.disk.pending[j].taskId, now, env, u); }
  }

  // A task whose approval is gone, and which the queue holds as the log does.
  ghost predicate IsSettled(s: State, u: TaskId) {
    && u < s.world.nextId && u + 2 !in s.disk.pending
    && SameAt(Latest(s.disk.snapshots), s.mem.tasks, u)
  }

  // It stays as it is through every run of operations, crashes and restarts.
  lemma {:induction false} SettledForever(c: Config, s: State, ops: seq<Op>, u: TaskId)
    requires PendingInv(s) && MemInv(s) && IsSettled(s, u)
    ensures var s' := Run(c, s, ops); IsSettled(s', u) && SameAt(s.mem.tasks, s'.mem.tasks, u)
    decreases |ops|
  {
    hide Latest, Step;
    if ops != [] {
      StepIsLegal(c, s, ops[0]);
      StepKeepsMemInv(c, s, ops[0]);
      StepStaysSettled(c, s, ops[0], u);
      SettledForever(c, Step(c, s, ops[0]), ops[1..], u);
    }
  }

  lemma StepStaysSettled(c: Config, s: State, op: Op, u: TaskId)
    requires PendingInv(s) && MemInv(s) && IsSettled(s, u) && Legal(s, Step(c, s, op))
    ensures IsSettled(Step(c, s, op), u) && SameAt(s.mem.tasks, Step(c, s, op).mem.tasks, u)
  {
    hide Latest, Submitted, SubmittedOnce, Approved, Denied, Aborted;
    if s.up && !op.Restart? { StepKeepsSettled(c, s, op, u); }
  }

  lemma StandsForever(c: Config, s: State, ops: seq<Op>, t: TaskId, status: TaskStatus)
    requires PendingInv(s) && MemInv(s) && StandsAs(s, t, status) && t < s.world.nextId && t + 2 !in s.disk.pending
    ensures StandsAs(Run(c, s, ops), t, status)
  {
    hide Latest, Run;
    SettledForever(c, s, ops, t);
  }

  // An acknowledged denial is final: at the end of every run the task is still
  // cancelled, in the queue and on disk, and has fired as often as before.
  lemma DenialIsFinal(c: Config, s: State, id: ApprovalId, now: Timestamp, env: Env, ops: seq<Op>)
    requires s.up && PendingInv(s) && MemInv(s) && id in s.disk.pending && Succeeds(Denied(s, id, now, env).1)
    ensures var s', t := Run(c, Denied(s, id, now, env).0, ops), s.disk.pending[id].taskId;
            StandsAs(s', t, Cancelled) && Count(s'.world.effects, ByTask(t)) == Count(s.world.effects, ByTask(t))
  {
    hide Latest, Denied, Run, Storable, StandsAs;
    var s1, t := Denied(s, id, now, env).0, s.disk.pending[id].taskId;
    DenyOutcome(s, id, now, env);
    assert s1 == Step(c, s, Deny(id, now, env));
    StepIsLegal(c, s, Deny(id, now, env));
    StepKeepsMemInv(c, s, Deny(id, now, env));
    StandsForever(c, s1, ops, t, Cancelled);
    Promises.DenialFreezesFirings(c, s, id, now, env, ops);
  }

  // So is an acknowledged abortion that found a record.
  lemma AbortionIsFinal(c: Config, s: State, id: ApprovalId, now: Timestamp, env: Env, ops: seq<Op>)
    requires s.up && PendingInv(s) && MemInv(s) && id in s.disk.pending && Succeeds(Aborted(s, id, now, env).1)
    ensures var s', t := Run(c, Aborted(s, id, now, env).0, ops), s.disk.pending[id].taskId;
            StandsAs(s', t, Cancelled) && Count(s'.world.effects, ByTask(t)) == Count(s.world.effects, ByTask(t))
  {
    hide Latest, Aborted, Run, Storable, StandsAs, Lookup, MarkedBlocked, PhaseAfterMarking, DiesMarking;
    var s1, t := Aborted(s, id, now, env).0, s.disk.pending[id].taskId;
    AbortOutcome(s, id, now, env);
    assert s1 == Step(c, s, Abort(id, now, env));
    StepIsLegal(c, s, Abort(id, now, env));
    StepKeepsMemInv(c, s, Abort(id, now, env));
    StandsForever(c, s1, ops, t, Cancelled);
    BlockedForever(c, s1, ops, id);
  }

  // And so is an approval that answered Ok: the task has ended as it answered,
  // and never fires again.
  lemma CompletionIsFinal(c: Config, s: State, id: ApprovalId, now: Timestamp, env: Env, ops: seq<Op>)
    requires s.up && PendingInv(s) && MemInv(s) && Fires(c, s, id, now, env.intent)
    requires Succeeds(Approved(c, s, id, now, env).1)
    ensures var (s1, r) := Approved(c, s, id, now, env);
            var s', t := Run(c, s1, ops), s.disk.pending[id].taskId;
            && r.r.value.taskId == t && StandsAs(s', t, r.r.value.status)
            && Count(s'.world.effects, ByTask(t)) == Count(s1.world.effects, ByTask(t))
  {
    hide Latest, Approved, Run, Storable, Lookup, ApprovalKey;
    var (s1, r) := Approved(c, s, id, now, env);
    var t := s.disk.pending[id].taskId;
    ApproveDispatches(c, s, id, now, env);
    LatestAppend(s.disk.snapshots, s1.mem.tasks[t]);
    assert s1 == Step(c, s, Approve(id, now, env));
    StepIsLegal(c, s, Approve(id, now, env));
    StepKeepsMemInv(c, s, Approve(id, now, env));
    StandsForever(c, s1, ops, t, r.r.value.status);
    BlockedForever(c, s1, ops, id);
  }

  // And a submission that ran at once and answered Ok.
  lemma RunIsFinal(c: Config, s: State, being: string, skill: SkillId, payload: Payload, now: Timestamp, env: Env,
                   ops: seq<Op>)
    requires s.up && PendingInv(s) && MemInv(s)
    requires skill != 0 && skill in s.mem.skills && RunsUnapproved(s.mem.skills[skill])
    requires Succeeds(Submitted(c, s, None, being, skill, payload, now, env).1)
    ensures var (s1, r) := Submitted(c, s, None, being, skill, payload, now, env);
            var s', t := Run(c, s1, ops), s.world.nextId;
            && r.r.value.taskId == t && StandsAs(s', t, r.r.value.status)
            && Count(s'.world.effects, ByTask(t)) == Count(s1.world.effects, ByTask(t))
  {
    hide Latest, Submitted, Run, Lookup, ApprovalKey;
    var op := Submit(being, skill, payload, now, env);
    var (s1, r) := Submitted(c, s, None, being, skill, payload, now, env);
    var t := s.world.nextId;
    SubmitRuns(c, s, None, being, skill, payload, now, env);
    LatestAppend(s.disk.snapshots, s1.mem.tasks[t]);
    assert s1 == Step(c, s, op);
    StepIsLegal(c, s, op);
    StepKeepsMemInv(c, s, op);
    StandsForever(c, s1, ops, t, r.r.value.status);
    BlockedForever(c, s1, ops, t + 2);
  }
}
