// No effect without permission: what may fire unapproved, and what an approval
// must be worth when it fires.
module Gating {
  import opened Types
  import opened Tasks
  import opened Outbox
  import opened PendingStore
  import opened Runtime
  import opened AtMostOnce
  import opened Continuity
  import A = Approvals
  import L = Limiter
  import M = Manifest
  import P = Policy

  // ----- one operation -----

  // An unapproved effect comes from submitting a registered skill that needs no
  // human.  An approved one comes from approving a pending record whose ledger
  // entry is, at that instant, known, unexpired, unconsumed and bound to the
  // payload of the very task that fires.
  predicate Permitted(c: Config, s: State, op: Op, e: Effect) {
    match e.via
    case None =>
      (op.Submit? || op.SubmitOnce?) && op.skill in s.mem.skills && !s.mem.skills[op.skill].NeedsHuman()
    case Some(id) =>
      && op.Approve? && op.id == id && id in s.disk.pending && s.disk.pending[id].taskId == e.task
      && e.task in s.mem.tasks
      && A.CheckConsume(s.mem.ledger, id, c.hash(s.mem.tasks[e.task].payload), op.now).Ok?
  }

  // The effects it adds, at most one, are permitted.
  predicate Gated(c: Config, s: State, op: Op) {
    var es, es' := s.world.effects, Step(c, s, op).world.effects;
    es' == es || (|es'| == |es| + 1 && es' == es + [es'[|es|]] && Permitted(c, s, op, es'[|es|]))
  }

  lemma SubmittedGated(c: Config, s: State, key: Option<string>, being: string, skill: SkillId, payload: Payload,
                       now: Timestamp, env: Env)
    ensures var s' := Submitted(c, s, key, being, skill, payload, now, env).0;
            || s'.world.effects == s.world.effects
            || (&& s'.world.effects == s.world.effects + [Effect(s.world.nextId, key, None)]
                && skill in s.mem.skills && !s.mem.skills[skill].NeedsHuman())
  {
    hide Filed, AutoRun, L.Recorded, L.Admits;
    var t := s.world.nextId;
    if skill in s.mem.skills && skill != 0 {
      if s.mem.skills[skill].NeedsHuman() {
        var s1 := Enqueued(Reserve(s, key), t, skill, payload, now, NeedsApproval);
        FiledFoot(c, s1.(mem := s1.mem.(hits := L.Recorded(c.limits, s1.mem.hits, being, now))),
                  RecordFor(c, t, payload, now), env);
      } else {
        AutoRunFoot(Enqueued(Reserve(s, key), t, skill, payload, now, Running), t, key, now, env);
      }
    }
  }

  lemma RunApprovedGated(c: Config, s: State, rec: PendingRecord, key: string, now: Timestamp, x: ExecOutcome)
    ensures var s' := RunApproved(c, s, rec, key, now, x).0;
            || s'.world.effects == s.world.effects
            || (&& s'.world.effects == s.world.effects + [Effect(rec.taskId, Some(key), Some(rec.Id()))]
                && rec.taskId in s.mem.tasks
                && A.CheckConsume(s.mem.ledger, rec.Id(), c.hash(s.mem.tasks[rec.taskId].payload), now).Ok?)
  {
    hide Execute;
    RunApprovedFoot(c, s, rec, key, now, x);
  }

  lemma DispatchedGated(c: Config, s: State, rec: PendingRecord, key: string, now: Timestamp, env: Env)
    ensures Dispatched(c, s, rec, key, now, env).0.world == RunApproved(c, s, rec, key, now, env.exec).0.world
  {
    hide RunApproved, Settled;
    var (s1, run) := RunApproved(c, s, rec, key, now, env.exec);
    if run.Answer? && run.r.Ok? {
      var o := SubmitOutcome(rec.taskId, run.r.value, None);
      SettledFoot(Commit(s1, key, Ok(o), env.commit).0, rec.Id(), o, env);
    }
  }

  lemma ApprovedGated(c: Config, s: State, id: ApprovalId, now: Timestamp, env: Env)
    requires PendingInv(s) && s.up
    ensures Gated(c, s, Approve(id, now, env))
  {
    hide RunApproved, Dispatched, ApprovalKey, Lookup;
    if id in s.disk.pending {
      var rec, key := s.disk.pending[id], ApprovalKey(id);
      var s1 := LogRow(s, IntentRow(key), env.intent);
      DispatchedGated(c, s1, rec, key, now, env);
      RunApprovedGated(c, s1, rec, key, now, env.exec);
    }
  }

  lemma StepIsGated(c: Config, s: State, op: Op)
    requires PendingInv(s)
    ensures Gated(c, s, op)
  {
    hide Submitted, Approved, DropAndCancel, Aborted, Permitted;
    if !op.Restart? && s.up {
      match op
      case Register(_, _) =>
      case Evict(_, _, _) =>
      case Submit(being, skill, payload, now, env) => SubmitIsGated(c, s, op);
      case SubmitOnce(key, being, skill, payload, now, env) => SubmitIsGated(c, s, op);
      case Approve(id, now, env) => ApprovedGated(c, s, id, now, env);
      case Deny(id, now, env) =>
        if id in s.disk.pending { DropAndCancelFoot(s, id, s.disk.pending[id].taskId, now, env); }
      case Abort(id, now, env) => AbortedFoot(s, id, now, env);
    }
  }

  lemma SubmitIsGated(c: Config, s: State, op: Op)
    requires s.up && (op.Submit? || op.SubmitOnce?)
    ensures Gated(c, s, op)
  {
    hide Submitted, Lookup;
    match op
    case Submit(being, skill, payload, now, env) => SubmittedGated(c, s, None, being, skill, payload, now, env);
    case SubmitOnce(key, being, skill, payload, now, env) =>
      SubmittedGated(c, LogRow(s, IntentRow(key), env.intent), Some(key), being, skill, payload, now, env);
  }

  // ----- whole runs -----

  predicate AlwaysGated(c: Config, s: State, ops: seq<Op>)
    decreases |ops|
  {
    ops == [] || (Gated(c, s, ops[0]) && AlwaysGated(c, Step(c, s, ops[0]), ops[1..]))
  }

  // Every effect of every run is permitted at the moment it fires.
  lemma {:induction false} RunIsGated(c: Config, s: State, ops: seq<Op>)
    requires PendingInv(s)
    ensures AlwaysGated(c, s, ops)
    decreases |ops|
  {
    hide Gated, Step;
    if ops != [] {
      StepIsGated(c, s, ops[0]);
      StepIsLegal(c, s, ops[0]);
      RunIsGated(c, Step(c, s, ops[0]), ops[1..]);
    }
  }

  // ----- skills that spend money or write externally -----

  function SpecOf(m: M.SkillManifest): SkillSpec { SkillSpec(m.risk, m.approvalPolicy) }

  predicate SpendsOrWrites(m: M.SkillManifest) { P.SpendMoney in m.permissions || P.WriteExternal in m.permissions }

  // Registered from a valid manifest that lets the skill spend money or write
  // externally.
  ghost predicate HighRisk(spec: SkillSpec, checks: M.Checks) {
    exists m :: M.Validate(m, checks).Ok? && SpendsOrWrites(m) && spec == SpecOf(m)
  }

  lemma HighRiskNeedsHuman(spec: SkillSpec, checks: M.Checks)
    requires HighRisk(spec, checks)
    ensures spec.NeedsHuman()
  {
    hide M.Validate;
    var m :| M.Validate(m, checks).Ok? && SpendsOrWrites(m) && spec == SpecOf(m);
    M.HighRiskNeedsApproval(m, checks);
  }

  // Submitting a skill that stands registered as high risk fires nothing.
  ghost predicate HumansDecide(c: Config, s: State, op: Op, checks: M.Checks) {
    (op.Submit? || op.SubmitOnce?) && op.skill in s.mem.skills && HighRisk(s.mem.skills[op.skill], checks) ==>
      Step(c, s, op).world.effects == s.world.effects
  }

  lemma StepLetsHumansDecide(c: Config, s: State, op: Op, checks: M.Checks)
    requires PendingInv(s)
    ensures HumansDecide(c, s, op, checks)
  {
    hide HighRisk, Submitted, SubmittedOnce;
    if (op.Submit? || op.SubmitOnce?) && op.skill in s.mem.skills && HighRisk(s.mem.skills[op.skill], checks) {
      HighRiskNeedsHuman(s.mem.skills[op.skill], checks);
      StepIsGated(c, s, op);
    }
  }

  ghost predicate HumansAlwaysDecide(c: Config, s: State, ops: seq<Op>, checks: M.Checks)
    decreases |ops|
  {
    ops == [] || (HumansDecide(c, s, ops[0], checks) && HumansAlwaysDecide(c, Step(c, s, ops[0]), ops[1..], checks))
  }

  // In every run, whatever is registered, restarted and registered again under
  // the same identifier: a submission never fires for a skill whose current
  // registration comes from a valid manifest that may spend money or write
  // externally.  Such effects fire only through an approval.
  lemma {:induction false} HighRiskIsAlwaysApproved(c: Config, s: State, ops: seq<Op>, checks: M.Checks)
    requires PendingInv(s)
    ensures HumansAlwaysDecide(c, s, ops, checks)
    decreases |ops|
  {
    hide HumansDecide, Step;
    if ops != [] {
      StepLetsHumansDecide(c, s, ops[0], checks);
      StepIsLegal(c, s, ops[0]);
      HighRiskIsAlwaysApproved(c, Step(c, s, ops[0]), ops[1..], checks);
    }
  }
}
