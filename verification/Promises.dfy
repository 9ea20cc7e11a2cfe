// What a granted approval achieves, and what denial, cancellation and the
// outbox can and cannot promise.
module Promises {
  import opened Types
  import opened Tasks
  import opened Outbox
  import opened PendingStore
  import opened Runtime
  import opened AtMostOnce
  import opened Continuity
  import A = Approvals
  import L = Limiter

  // ----- from submission to approvability -----

  lemma FiledIsApprovable(c: Config, s: State, rec: PendingRecord, env: Env)
    requires s.up && rec.Id() == rec.taskId + 2 && !rec.approval.consumed
    requires rec.taskId in s.mem.tasks && s.mem.tasks[rec.taskId].id == rec.taskId
             && s.mem.tasks[rec.taskId].status.NeedsApproval?
    requires c.hash(s.mem.tasks[rec.taskId].payload) == rec.approval.payloadHash
    requires !Started(s.disk, ApprovalKey(rec.Id()))
    ensures var (s', r) := Filed(c, s, rec, env);
            r.Answer? && r.r.Ok? ==>
              && r.r.value == SubmitOutcome(rec.taskId, NeedsApproval, Some(rec.Id()))
              && Approvable(c, s', rec.Id()) && s'.disk.pending[rec.Id()] == rec
              && Latest(s'.disk.snapshots)[rec.taskId] == s.mem.tasks[rec.taskId]
  {
    LatestAppend(s.disk.snapshots, s.mem.tasks[rec.taskId]);
  }

  // The task and the record of an approval-requiring submission.
  predicate Waiting(c: Config, d: Disk, t: TaskId, skill: SkillId, payload: Payload, now: Timestamp) {
    && t + 2 in d.pending && d.pending[t + 2] == RecordFor(c, t, payload, now)
    && t in Latest(d.snapshots)
    && Latest(d.snapshots)[t] == ActionTask.New(t, skill, payload, now).(status := NeedsApproval)
  }

  // A submission that answers with a pending approval has made it approvable,
  // in memory and on disk, under the identifier it answers with.
  lemma SubmittedIsApprovable(c: Config, s: State, key: Option<string>, being: string, skill: SkillId, payload: Payload,
                              now: Timestamp, env: Env)
    requires s.up && !Started(s.disk, ApprovalKey(s.world.nextId + 2))
    ensures var (s', r) := Submitted(c, s, key, being, skill, payload, now, env);
            var t := s.world.nextId;
            r.Answer? && r.r.Ok? && r.r.value.pendingApproval.Some? ==>
              && r.r.value == SubmitOutcome(t, NeedsApproval, Some(t + 2))
              && Approvable(c, s', t + 2) && Waiting(c, s'.disk, t, skill, payload, now)
  {
    var t := s.world.nextId;
    if skill in s.mem.skills && skill != 0 && s.mem.skills[skill].NeedsHuman() {
      var s1 := Enqueued(Reserve(s, key), t, skill, payload, now, NeedsApproval);
      FiledIsApprovable(c, s1.(mem := s1.mem.(hits := L.Recorded(c.limits, s1.mem.hits, being, now))),
                        RecordFor(c, t, payload, now), env);
    }
  }

  lemma SubmittedOnceIsApprovable(c: Config, s: State, key: string, being: string, skill: SkillId, payload: Payload,
                                  now: Timestamp, env: Env)
    requires s.up && !Started(s.disk, key) && !Started(s.disk, ApprovalKey(s.world.nextId + 2))
             && key != ApprovalKey(s.world.nextId + 2)
    ensures var (s', r) := SubmittedOnce(c, s, key, being, skill, payload, now, env);
            var t := s.world.nextId;
            r.Answer? && r.r.Ok? && r.r.value.pendingApproval.Some? ==>
              && r.r.value == SubmitOutcome(t, NeedsApproval, Some(t + 2))
              && Approvable(c, s', t + 2) && Waiting(c, s'.disk, t, skill, payload, now)
  {
    if env.intent.Written? {
      var s1 := LogRow(s, IntentRow(key), env.intent);
      ReplayKeyAppend(s.disk.outbox, IntentRow(key), ApprovalKey(s.world.nextId + 2));
      SubmittedIsApprovable(c, s1, Some(key), being, skill, payload, now, env);
      var (s2, run) := Submitted(c, s1, Some(key), being, skill, payload, now, env);
      if run.Answer? {
        ReplayKeyAppend(s2.disk.outbox, CommittedRow(key, DispatchedOutcome.FromResult(run.r)),
                        ApprovalKey(s.world.nextId + 2));
      }
    }
  }

  // ----- what approving a ready approval does -----

  function Ending(succeeded: bool): TaskStatus { if succeeded then Done else Failed }

  lemma RunReady(c: Config, s: State, rec: PendingRecord, key: string, now: Timestamp, succeeded: bool)
    requires rec.taskId in s.mem.tasks && s.mem.tasks[rec.taskId].status.NeedsApproval?
    requires rec.Id() in s.mem.ledger && s.mem.ledger[rec.Id()] == rec.approval && !rec.approval.consumed
    requires c.hash(s.mem.tasks[rec.taskId].payload) == rec.approval.payloadHash
    ensures var (s', r) := RunApproved(c, s, rec, key, now, Finished(true, succeeded, true));
            if now <= rec.approval.expiresAt then
              && r == Answer(Ok(Ending(succeeded))) && s'.disk == s.disk && s'.up == s.up
              && s'.world.effects == s.world.effects + [Effect(rec.taskId, Some(key), Some(rec.Id()))]
              && s'.mem.tasks
                 == s.mem.tasks[rec.taskId := s.mem.tasks[rec.taskId].(status := Ending(succeeded), updatedAt := now)]
            else
              s' == s && r == Answer(Err(ApprovalExpired(Show(rec.Id()))))
  {
    var task := s.mem.tasks[rec.taskId];
    if now <= rec.approval.expiresAt {
      var s1 := s.(mem := s.mem.(ledger := A.MarkConsumed(s.mem.ledger, rec.Id())));
      var m := s.mem.tasks[rec.taskId := task.(status := Running, updatedAt := now)];
      assert TransitionIn(s1.mem.tasks, rec.taskId, Running, now).value.0 == m;
      FinishRunning(Fire(WithTasks(s1, m), Effect(rec.taskId, Some(key), Some(rec.Id())), true), rec.taskId, now,
                    succeeded);
    }
  }

  lemma FinishRunning(s: State, t: TaskId, now: Timestamp, succeeded: bool)
    requires t in s.mem.tasks && s.mem.tasks[t].status.Running?
    ensures Finish(s, t, now, Finished(true, succeeded, true))
         == (WithTasks(s, s.mem.tasks[t := s.mem.tasks[t].(status := Ending(succeeded), updatedAt := now)]),
             Answer(Ok(Ending(succeeded))))
  {
  }

  function Smooth(succeeded: bool): Env {
    Env(Finished(true, succeeded, true), Written, Written, Written, Written, Written)
  }

  lemma SettledSmoothly(s: State, id: ApprovalId, o: SubmitOutcome, succeeded: bool)
    requires o.taskId in s.mem.tasks && s.mem.tasks[o.taskId].id == o.taskId
    ensures var (s', r) := Settled(s, id, o, Smooth(succeeded));
            && s'.world == s.world && s'.disk.outbox == s.disk.outbox && s'.disk.pending == s.disk.pending - {id}
            && if s.mem.tasks[o.taskId].Validate().Ok? then
                 r == Answer(Ok(o))
                   && Latest(s'.disk.snapshots) == Latest(s.disk.snapshots)[o.taskId := s.mem.tasks[o.taskId]]
               else r.Answer? && r.r.Err?
  {
    hide Latest;
    LatestAppend(s.disk.snapshots, s.mem.tasks[o.taskId]);
  }

  // The dispatch of an approval on a live process, when nothing fails below it.
  lemma DispatchedSmoothly(c: Config, s: State, rec: PendingRecord, key: string, now: Timestamp, succeeded: bool)
    requires rec.taskId in s.mem.tasks && s.mem.tasks[rec.taskId].status.NeedsApproval?
             && s.mem.tasks[rec.taskId].id == rec.taskId
    requires rec.Id() in s.mem.ledger && s.mem.ledger[rec.Id()] == rec.approval && !rec.approval.consumed
    requires c.hash(s.mem.tasks[rec.taskId].payload) == rec.approval.payloadHash
    ensures var (s', r) := Dispatched(c, s, rec, key, now, Smooth(succeeded));
            var o := SubmitOutcome(rec.taskId, Ending(succeeded), None);
            var ended := s.mem.tasks[rec.taskId].(status := Ending(succeeded), updatedAt := now);
            if now <= rec.approval.expiresAt then
              && s'.world.effects == s.world.effects + [Effect(rec.taskId, Some(key), Some(rec.Id()))]
              && s'.disk.outbox == s.disk.outbox + [CommittedRow(key, DispatchedOutcome.FromSubmit(o))]
              && s'.disk.pending == s.disk.pending - {rec.Id()}
              && (ended.Validate().Ok? ==>
                  r == Answer(Ok(o)) && Latest(s'.disk.snapshots) == Latest(s.disk.snapshots)[rec.taskId := ended])
              && (ended.Validate().Err? ==> r.Answer? && r.r.Err?)
            else
              s'.world == s.world && s'.disk.pending == s.disk.pending
                && r == Answer(Err(ApprovalExpired(Show(rec.Id()))))
  {
    hide Latest, RunApproved, Settled;
    RunReady(c, s, rec, key, now, succeeded);
    if now <= rec.approval.expiresAt {
      var s1 := RunApproved(c, s, rec, key, now, Finished(true, succeeded, true)).0;
      var o := SubmitOutcome(rec.taskId, Ending(succeeded), None);
      SettledSmoothly(Commit(s1, key, Ok(o), Written).0, rec.Id(), o, succeeded);
    }
  }

  // Approving an approvable approval in time fires its effect, exactly once
  // more, and leaves it committed, dropped and ended; too late, it fires
  // nothing and keeps the record.  The answer is Ok exactly when the clock
  // lies between the task's creation and the approval's expiry.
  lemma ApproveInTime(c: Config, s: State, id: ApprovalId, now: Timestamp, succeeded: bool)
    requires s.up && PendingInv(s) && MemInv(s) && Approvable(c, s, id)
    requires s.mem.tasks[s.disk.pending[id].taskId].skillId in s.mem.skills
    ensures var (s', r) := Approved(c, s, id, now, Smooth(succeeded));
            var rec := s.disk.pending[id];
            var o := SubmitOutcome(rec.taskId, Ending(succeeded), None);
            && (r == Answer(Ok(o)) <==> s.mem.tasks[rec.taskId].createdAt <= now <= rec.approval.expiresAt)
            && (r.Answer? && r.r.Ok? ==> r == Answer(Ok(o)))
            && s'.world.effects
               == s.world.effects
                 + (if now <= rec.approval.expiresAt then [Effect(rec.taskId, Some(ApprovalKey(id)), Some(id))] else [])
            && (id in s'.disk.pending <==> now > rec.approval.expiresAt)
            && (now <= rec.approval.expiresAt ==>
                Lookup(s'.disk.outbox, ApprovalKey(id)) == Committed(DispatchedOutcome.FromSubmit(o)))
            && (r == Answer(Ok(o)) ==>
                rec.taskId in Latest(s'.disk.snapshots)
                  && Latest(s'.disk.snapshots)[rec.taskId].status == Ending(succeeded))
  {
    hide Latest, Dispatched, ApprovalKey;
    var rec := s.disk.pending[id];
    var key := ApprovalKey(id);
    var s1 := LogRow(s, IntentRow(key), Written);
    DispatchedSmoothly(c, s1, rec, key, now, succeeded);
    var o := SubmitOutcome(rec.taskId, Ending(succeeded), None);
    ReplayKeyAppend(s1.disk.outbox, CommittedRow(key, DispatchedOutcome.FromSubmit(o)), key);
  }

  // End to end.  A keyed submission answers that it awaits approval t + 2.
  // Then come any other submissions, approvals, denials, evictions, append
  // failures, crashes and restarts, none of them aimed at t + 2; and then, on a
  // live process that knows the skill, the approval within its time to live.
  // It succeeds, and the effect of task t has fired exactly once.
  lemma ApprovalOutlivesCrashes(c: Config, before: seq<Op>, key: string, being: string, skill: SkillId,
                                payload: Payload, at: Timestamp, env: Env,
                                after: seq<Op>, now: Timestamp, succeeded: bool)
    requires var s0 := Run(c, BLANK, before);
             s0.up && !Started(s0.disk, key) && !Started(s0.disk, ApprovalKey(s0.world.nextId + 2))
               && key != ApprovalKey(s0.world.nextId + 2)
    requires var s0 := Run(c, BLANK, before);
             var (s1, r) := SubmittedOnce(c, s0, key, being, skill, payload, at, env);
             && r == Answer(Ok(SubmitOutcome(s0.world.nextId, NeedsApproval, Some(s0.world.nextId + 2))))
             && NeverAimed(c, s1, after, s0.world.nextId + 2)
             && Run(c, s1, after).up && skill in Run(c, s1, after).mem.skills
    requires at <= now <= A.SaturatingExpiry(at, c.ttl, c.range)
    ensures var s0 := Run(c, BLANK, before);
            var t := s0.world.nextId;
            var s2 := Run(c, SubmittedOnce(c, s0, key, being, skill, payload, at, env).0, after);
            var (s3, r) := Approved(c, s2, t + 2, now, Smooth(succeeded));
            && r == Answer(Ok(SubmitOutcome(t, Ending(succeeded), None)))
            && Count(s2.world.effects, ByTask(t)) == 0 && Count(s3.world.effects, ByTask(t)) == 1
  {
    hide Approvable, Waiting, SubmittedOnce, Approved, Latest;
    var s0 := Run(c, BLANK, before);
    var t := s0.world.nextId;
    var s1 := SubmittedOnce(c, s0, key, being, skill, payload, at, env).0;
    RunKeepsMemInv(c, BLANK, before);
    RunKeepsInvariants(c, BLANK, before, "", t, t);
    SubmittedOnceIsApprovable(c, s0, key, being, skill, payload, at, env);
    var op := SubmitOnce(key, being, skill, payload, at, env);
    StepIsLegal(c, s0, op);
    StepKeepsMemInv(c, s0, op);
    LegalKeepsTask(s0, s1, t);
    ApprovalSurvives(c, s1, after, t + 2);
    LegalRunKeepsTask(c, s1, after, t);
    FiresOnce(c, Run(c, s1, after), t, skill, payload, at, now, succeeded);
  }

  lemma {:induction false} RunKeepsMemInv(c: Config, s: State, ops: seq<Op>)
    requires MemInv(s)
    ensures MemInv(Run(c, s, ops))
    decreases |ops|
  {
    if ops != [] {
      StepKeepsMemInv(c, s, ops[0]);
      RunKeepsMemInv(c, Step(c, s, ops[0]), ops[1..]);
    }
  }

  lemma {:induction false} LegalRunKeepsTask(c: Config, s: State, ops: seq<Op>, t: TaskId)
    requires PendingInv(s) && TaskInv(s, t)
    ensures PendingInv(Run(c, s, ops)) && TaskInv(Run(c, s, ops), t)
    decreases |ops|
  {
    if ops != [] {
      StepIsLegal(c, s, ops[0]);
      LegalKeepsTask(s, Step(c, s, ops[0]), t);
      LegalRunKeepsTask(c, Step(c, s, ops[0]), ops[1..], t);
    }
  }

  lemma FiresOnce(c: Config, s: State, t: TaskId, skill: SkillId, payload: Payload, at: Timestamp, now: Timestamp,
                  succeeded: bool)
    requires s.up && PendingInv(s) && MemInv(s) && TaskInv(s, t) && Approvable(c, s, t + 2)
             && Waiting(c, s.disk, t, skill, payload, at)
    requires skill in s.mem.skills && at <= now <= A.SaturatingExpiry(at, c.ttl, c.range)
    ensures var (s', r) := Approved(c, s, t + 2, now, Smooth(succeeded));
            && r == Answer(Ok(SubmitOutcome(t, Ending(succeeded), None)))
            && Count(s.world.effects, ByTask(t)) == 0 && Count(s'.world.effects, ByTask(t)) == 1
  {
    ApproveInTime(c, s, t + 2, now, succeeded);
    CountSnoc(s.world.effects, Effect(t, Some(ApprovalKey(t + 2)), Some(t + 2)), ByTask(t));
  }

  // ----- denial after a crash -----

  // If the process dies between the commit and the tombstone, the restarted
  // runtime still offers the approval, and denying it reports success and
  // cancels a task whose effect has already fired.
  lemma DenialCanCancelAFiredTask(c: Config, s: State, id: ApprovalId, now: Timestamp, later: Timestamp)
    requires s.up && PendingInv(s) && MemInv(s) && Approvable(c, s, id)
    requires s.mem.tasks[s.disk.pending[id].taskId].skillId in s.mem.skills
    requires s.mem.tasks[s.disk.pending[id].taskId].createdAt <= now <= s.disk.pending[id].approval.expiresAt
             && now <= later
    ensures var t := s.disk.pending[id].taskId;
            var s1 := Restarted(Approved(c, s, id, now, Smooth(true).(tombstone := Died)).0);
            var (s2, r) := Denied(s1, id, later, Smooth(true));
            && r == Answer(Ok(())) && t in s2.mem.tasks && s2.mem.tasks[t].status.Cancelled?
            && s2.world.effects == s.world.effects + [Effect(t, Some(ApprovalKey(id)), Some(id))]
  {
    var rec, key := s.disk.pending[id], ApprovalKey(id);
    var s1 := LogRow(s, IntentRow(key), Written);
    RunReady(c, s1, rec, key, now, true);
    var s2 := Restarted(Approved(c, s, id, now, Smooth(true).(tombstone := Died)).0);
    assert s2.disk.pending == s.disk.pending && s2.disk.snapshots == s.disk.snapshots;
    CancelWaiting(s2, id, rec.taskId, later);
  }

  lemma CancelWaiting(s: State, id: ApprovalId, t: TaskId, now: Timestamp)
    requires t in s.mem.tasks && s.mem.tasks[t].status.NeedsApproval? && s.mem.tasks[t].Validate().Ok?
             && s.mem.tasks[t].createdAt <= now
    ensures var (s', r) := DropAndCancel(s, id, t, now, Smooth(true));
            r == Answer(Ok(())) && s'.world == s.world && t in s'.mem.tasks && s'.mem.tasks[t].status.Cancelled?
  {
  }

  // A denial whose tombstone lands ends the matter: at the end of every run the
  // task has fired as often as it had when it was denied.  So a cancelled task
  // has never fired exactly if it had not fired before.
  lemma DenialFreezesFirings(c: Config, s: State, id: ApprovalId, now: Timestamp, env: Env, ops: seq<Op>)
    requires PendingInv(s) && id in s.disk.pending && env.tombstone.Lands()
    ensures Count(Run(c, Denied(s, id, now, env).0, ops).world.effects, ByTask(id - 2))
         == Count(s.world.effects, ByTask(id - 2))
  {
    DenyBlocks(s, id, now, env);
    var s1 := Denied(s, id, now, env).0;
    DropAndCancelFoot(s, id, s.disk.pending[id].taskId, now, env);
    QuietIsLegal(s, s1, id);
    BlockedForever(c, s1, ops, id);
  }

  // What a caller can check first: if the outbox has no row for the approval,
  // the cancelled task has not fired and never will.
  lemma DenialBeforeIntentIsFinal(c: Config, s: State, id: ApprovalId, now: Timestamp, env: Env, ops: seq<Op>)
    requires PendingInv(s) && id in s.disk.pending && TaskInv(s, id - 2)
    requires !Started(s.disk, ApprovalKey(id)) && env.tombstone.Lands()
    ensures Count(Run(c, Denied(s, id, now, env).0, ops).world.effects, ByTask(id - 2)) == 0
  {
    DenialFreezesFirings(c, s, id, now, env, ops);
  }

  // ----- with a row in the outbox, nothing the runtime keeps can tell -----

  // All that the runtime itself can look at: disk, memory, whether it is alive.
  predicate LooksLike(s: State, s': State) { s.disk == s'.disk && s.mem == s'.mem && s.up == s'.up }

  // The same executor outcome, with and without the effect.
  function WithFired(x: ExecOutcome, fired: bool): ExecOutcome {
    match x
    case Killed(_) => Killed(fired)
    case Raised(_, message) => Raised(fired, message)
    case Finished(_, succeeded, proofBuilt) => Finished(fired, succeeded, proofBuilt)
  }

  lemma FinishBlind(s: State, s': State, t: TaskId, now: Timestamp, x: ExecOutcome, x': ExecOutcome)
    requires LooksLike(s, s') && x' == WithFired(x, x'.fired)
    ensures var (a, r), (a', r') := Finish(s, t, now, x), Finish(s', t, now, x'); LooksLike(a, a') && r == r'
  {
  }

  lemma ExecuteBlind(s: State, e: Effect, now: Timestamp, x: ExecOutcome, x': ExecOutcome)
    requires x' == WithFired(x, x'.fired)
    ensures var (a, r), (a', r') := Execute(s, e, now, x), Execute(s, e, now, x'); LooksLike(a, a') && r == r'
  {
    hide Finish;
    FinishBlind(Fire(s, e, x.fired), Fire(s, e, x'.fired), e.task, now, x, x');
  }

  lemma RunApprovedBlind(c: Config, s: State, rec: PendingRecord, key: string, now: Timestamp,
                         x: ExecOutcome, x': ExecOutcome)
    requires x' == WithFired(x, x'.fired)
    ensures var (a, r), (a', r') := RunApproved(c, s, rec, key, now, x), RunApproved(c, s, rec, key, now, x');
            LooksLike(a, a') && r == r'
  {
    hide Execute;
    if rec.taskId in s.mem.tasks
      && A.CheckConsume(s.mem.ledger, rec.Id(), c.hash(s.mem.tasks[rec.taskId].payload), now).Ok?
    {
      var s1 := s.(mem := s.mem.(ledger := A.MarkConsumed(s.mem.ledger, rec.Id())));
      var moved := TransitionIn(s1.mem.tasks, rec.taskId, Running, now);
      if moved.Ok? {
        ExecuteBlind(WithTasks(s1, moved.value.0), Effect(rec.taskId, Some(key), Some(rec.Id())), now, x, x');
      }
    }
  }

  lemma ConcludedBlind(s: State, s': State, o: SubmitOutcome, f: Append)
    requires LooksLike(s, s')
    ensures var (a, r), (a', r') := Concluded(s, o, f), Concluded(s', o, f); LooksLike(a, a') && r == r'
  {
  }

  lemma SettledBlind(s: State, s': State, id: ApprovalId, o: SubmitOutcome, env: Env)
    requires LooksLike(s, s')
    ensures var (a, r), (a', r') := Settled(s, id, o, env), Settled(s', id, o, env); LooksLike(a, a') && r == r'
  {
    hide Concluded;
    ConcludedBlind(Tombstone(s, id, env.tombstone), Tombstone(s', id, env.tombstone), o, env.snapshot);
  }

  lemma CommitBlind(s: State, s': State, key: string, o: Result<SubmitOutcome, ActionError>, f: Append)
    requires LooksLike(s, s')
    ensures var (a, r), (a', r') := Commit(s, key, o, f), Commit(s', key, o, f); LooksLike(a, a') && r == r'
  {
  }

  lemma DispatchedBlind(c: Config, s: State, rec: PendingRecord, key: string, now: Timestamp, env: Env, x': ExecOutcome)
    requires x' == WithFired(env.exec, x'.fired)
    ensures var (a, r), (a', r') :=
            Dispatched(c, s, rec, key, now, env), Dispatched(c, s, rec, key, now, env.(exec := x'));
            LooksLike(a, a') && r == r'
  {
    hide RunApproved, Settled, Commit, LooksLike;
    RunApprovedBlind(c, s, rec, key, now, env.exec, x');
    var (s1, run) := RunApproved(c, s, rec, key, now, env.exec);
    var s1' := RunApproved(c, s, rec, key, now, x').0;
    if run.Answer? {
      var o := RunOutcome(rec.taskId, run.r);
      CommitBlind(s1, s1', key, o, env.commit);
      if o.Ok? {
        SettledBlind(Commit(s1, key, o, env.commit).0, Commit(s1', key, o, env.commit).0, rec.Id(), o.value, env);
        SettledIgnoresExec(Commit(s1', key, o, env.commit).0, rec.Id(), o.value, env, x');
      }
    }
  }

  lemma SettledIgnoresExec(s: State, id: ApprovalId, o: SubmitOutcome, env: Env, x: ExecOutcome)
    ensures Settled(s, id, o, env.(exec := x)) == Settled(s, id, o, env)
  {
  }

  // Whatever the executor does and whatever fails around it: approving leaves
  // the same disk, the same memory and the same answer whether or not the effect
  // fired.  No condition on what the runtime keeps can decide it.
  lemma FiringLeavesNoTrace(c: Config, s: State, id: ApprovalId, now: Timestamp, env: Env)
    ensures var (a, r) := Approved(c, s, id, now, env.(exec := WithFired(env.exec, false)));
            var (a', r') := Approved(c, s, id, now, env.(exec := WithFired(env.exec, true)));
            LooksLike(a, a') && r == r'
  {
    hide Dispatched, Lookup, ApprovalKey;
    if id in s.disk.pending {
      var quiet := env.(exec := WithFired(env.exec, false));
      var s1 := LogRow(s, IntentRow(ApprovalKey(id)), env.intent);
      DispatchedBlind(c, s1, s.disk.pending[id], ApprovalKey(id), now, quiet, WithFired(env.exec, true));
    }
  }

  // For instance, a kill just before the effect and one just after it leave the
  // same disk.
  lemma DiskCannotTell(c: Config, s: State, id: ApprovalId, now: Timestamp)
    requires s.up && PendingInv(s) && MemInv(s) && Approvable(c, s, id)
    requires s.mem.tasks[s.disk.pending[id].taskId].skillId in s.mem.skills
             && now <= s.disk.pending[id].approval.expiresAt
    ensures var before := Approved(c, s, id, now, Smooth(true).(exec := Killed(false))).0;
            var after := Approved(c, s, id, now, Smooth(true).(exec := Killed(true))).0;
            && before.disk == after.disk && Lookup(before.disk.outbox, ApprovalKey(id)).InProgress?
            && before.world.effects == s.world.effects
            && after.world.effects
               == s.world.effects + [Effect(s.disk.pending[id].taskId, Some(ApprovalKey(id)), Some(id))]
  {
    var rec, key := s.disk.pending[id], ApprovalKey(id);
    var s1 := LogRow(s, IntentRow(key), Written);
    FiringLeavesNoTrace(c, s, id, now, Smooth(true).(exec := Killed(true)));
    ReplayKeyAppend(s.disk.outbox, IntentRow(key), key);
    RunKilled(c, s1, rec, key, now, false);
    RunKilled(c, s1, rec, key, now, true);
  }

  lemma RunKilled(c: Config, s: State, rec: PendingRecord, key: string, now: Timestamp, fired: bool)
    requires rec.taskId in s.mem.tasks && s.mem.tasks[rec.taskId].status.NeedsApproval?
    requires rec.Id() in s.mem.ledger && s.mem.ledger[rec.Id()] == rec.approval && !rec.approval.consumed
    requires c.hash(s.mem.tasks[rec.taskId].payload) == rec.approval.payloadHash && now <= rec.approval.expiresAt
    ensures var (s', r) := RunApproved(c, s, rec, key, now, Killed(fired));
            && r.Crash? && s'.disk == s.disk
            && s'.world.effects
               == s.world.effects + (if fired then [Effect(rec.taskId, Some(key), Some(rec.Id()))] else [])
  {
  }

  // So no recovery rule that looks only at the disk makes the effect fire
  // exactly once: whatever it decides, one of the two kills proves it wrong.
  // Refusing to retry is the choice that keeps "at most once".
  lemma NoRecoveryRuleIsExactlyOnce(c: Config, s: State, id: ApprovalId, now: Timestamp, retry: Disk -> bool)
    requires s.up && PendingInv(s) && MemInv(s) && Approvable(c, s, id) && Count(s.world.effects, ByApproval(id)) == 0
    requires s.mem.tasks[s.disk.pending[id].taskId].skillId in s.mem.skills
             && now <= s.disk.pending[id].approval.expiresAt
    ensures exists fired :: var s1 := Approved(c, s, id, now, Smooth(true).(exec := Killed(fired))).0;
              Count(s1.world.effects, ByApproval(id)) + (if retry(s1.disk) then 1 else 0) != 1
  {
    DiskCannotTell(c, s, id, now);
    CountSnoc(s.world.effects, Effect(s.disk.pending[id].taskId, Some(ApprovalKey(id)), Some(id)), ByApproval(id));
    var before := Approved(c, s, id, now, Smooth(true).(exec := Killed(false))).0;
    var after := Approved(c, s, id, now, Smooth(true).(exec := Killed(true))).0;
    if retry(before.disk) {
      assert Count(after.world.effects, ByApproval(id)) + 1 != 1;
    } else {
      assert Count(before.world.effects, ByApproval(id)) + 0 != 1;
    }
  }
}
