// No external effect fires twice, whatever crashes, restarts and append
// failures a run contains.
module AtMostOnce {
  import opened Types
  import opened Tasks
  import opened Outbox
  import opened PendingStore
  import opened Runtime
  import A = Approvals
  import L = Limiter

  // ----- counting effects -----

  datatype Tag = ByKey(key: string) | ByTask(task: TaskId) | ByApproval(id: ApprovalId) {
    predicate Matches(e: Effect) {
      match this
      case ByKey(k) => e.guard == Some(k)
      case ByTask(t) => e.task == t
      case ByApproval(id) => e.via == Some(id)
    }
  }

  function Count(es: seq<Effect>, tag: Tag): nat {
    if es == [] then 0
    else Count(es[..|es| - 1], tag) + (if tag.Matches(es[|es| - 1]) then 1 else 0)
  }

  lemma CountSnoc(es: seq<Effect>, e: Effect, tag: Tag)
    ensures Count(es + [e], tag) == Count(es, tag) + (if tag.Matches(e) then 1 else 0)
  {
    assert (es + [e])[..|es|] == es;
  }

  predicate Started(d: Disk, key: string) { !Lookup(d.outbox, key).NotStarted? }

  // ----- the rules every step obeys -----

  // Identifiers come in blocks: task t, action t + 1, approval t + 2.
  ghost predicate PendingInv(s: State) {
    && s.world.nextId >= 1
    && forall id :: id in s.disk.pending ==>
         s.disk.pending[id].Id() == id && s.disk.pending[id].taskId + 2 == id && id < s.world.nextId
  }

  // A step may fire one effect, and only with a permission that did not exist
  // before the step and is used up by it.
  predicate MayFire(s: State, s': State, e: Effect) {
    && (e.guard.Some? ==> !Started(s.disk, e.guard.value) && Started(s'.disk, e.guard.value))
    && match e.via
       case None => s.world.nextId <= e.task < s'.world.nextId && e.task + 2 !in s'.disk.pending
       case Some(id) =>
         id in s.disk.pending && e.task == s.disk.pending[id].taskId && e.guard == Some(ApprovalKey(id))
  }

  predicate NewEffects(s: State, s': State) {
    var es, es' := s.world.effects, s'.world.effects;
    es' == es || (|es'| == |es| + 1 && es' == es + [es'[|es|]] && MayFire(s, s', es'[|es|]))
  }

  predicate NewLineage(s: State, s': State) {
    var w, w' := s.world, s'.world;
    || w'.lineage == w.lineage
    || (&& w.nextId < w'.nextId && w.nextId in w'.lineage
        && w'.lineage == w.lineage[w.nextId := w'.lineage[w.nextId]]
        && !Started(s.disk, w'.lineage[w.nextId]) && Started(s'.disk, w'.lineage[w.nextId]))
  }

  ghost predicate KeptPending(s: State, s': State) {
    forall id :: id in s'.disk.pending && id < s.world.nextId + 2 ==>
      id in s.disk.pending && s'.disk.pending[id] == s.disk.pending[id]
  }

  ghost predicate Legal(s: State, s': State) {
    && AddsRows(s.disk, s'.disk)
    && s.world.nextId <= s'.world.nextId
    && PendingInv(s')
    && KeptPending(s, s')
    && NewEffects(s, s')
    && NewLineage(s, s')
  }

  predicate Extends(d: Disk, d': Disk) {
    |d.outbox| <= |d'.outbox| && d'.outbox[..|d.outbox|] == d.outbox
  }

  predicate OnlyKey(d: Disk, d': Disk, key: string) {
    Extends(d, d') && forall i :: |d.outbox| <= i < |d'.outbox| ==> d'.outbox[i].key == key
  }

  // A step writes rows for at most one key, and only if that key was not started.
  predicate AddsRows(d: Disk, d': Disk) {
    || d'.outbox == d.outbox
    || (|d.outbox| < |d'.outbox| && OnlyKey(d, d', d'.outbox[|d.outbox|].key) && !Started(d, d'.outbox[|d.outbox|].key))
  }

  lemma ExtendsStarted(d: Disk, d': Disk, key: string)
    requires Extends(d, d') && Started(d, key)
    ensures Started(d', key)
  {
    PhaseIsMonotone(d.outbox, d'.outbox[|d.outbox|..], key);
    assert d'.outbox == d.outbox + d'.outbox[|d.outbox|..];
  }

  // ----- footprints: what each part of an operation may touch -----

  predicate SameButSnapshots(d: Disk, d': Disk) {
    d'.outbox == d.outbox && d'.pending == d.pending
  }

  predicate FiresAtMost(w: World, w': World, e: Effect) {
    w' == w || w' == w.(effects := w.effects + [e])
  }

  predicate AtMostDrops(d: Disk, d': Disk, id: ApprovalId) {
    d'.pending == d.pending || d'.pending == d.pending - {id}
  }

  lemma SnapshotFoot(s: State, t: TaskId, f: Append)
    ensures var s' := Snapshot(s, t, f).0; SameButSnapshots(s.disk, s'.disk) && s'.world == s.world
  {
  }

  lemma ConcludedFoot(s: State, o: SubmitOutcome, f: Append)
    ensures var s' := Concluded(s, o, f).0; SameButSnapshots(s.disk, s'.disk) && s'.world == s.world
  {
    SnapshotFoot(s, o.taskId, f);
  }

  lemma ExecuteFoot(s: State, e: Effect, now: Timestamp, x: ExecOutcome)
    ensures var s' := Execute(s, e, now, x).0; s'.disk == s.disk && FiresAtMost(s.world, s'.world, e)
  {
  }

  // What a submission may add under a fresh block of identifiers.
  predicate OnePendingMore(w: World, d: Disk, d': Disk) {
    && w.nextId + 2 in d'.pending
    && d'.pending == d.pending[w.nextId + 2 := d'.pending[w.nextId + 2]]
    && d'.pending[w.nextId + 2].Id() == w.nextId + 2
    && d'.pending[w.nextId + 2].taskId == w.nextId
  }

  predicate Created(s: State, s': State, key: Option<string>) {
    || (FiresAtMost(Reserve(s, key).world, s'.world, Effect(s.world.nextId, key, None))
        && s'.disk.pending == s.disk.pending)
    || (s'.world == Reserve(s, key).world && OnePendingMore(s.world, s.disk, s'.disk))
  }

  predicate Submission(s: State, s': State, key: Option<string>) {
    (s'.world == s.world && s'.disk.pending == s.disk.pending) || Created(s, s', key)
  }

  lemma FiledFoot(c: Config, s: State, rec: PendingRecord, env: Env)
    ensures var s' := Filed(c, s, rec, env).0;
            && s'.disk.outbox == s.disk.outbox && s'.world == s.world
            && (s'.disk.pending == s.disk.pending || s'.disk.pending == s.disk.pending[rec.Id() := rec])
  {
    var s1 := s.(mem := s.mem.(ledger := s.mem.ledger[rec.Id() := rec.approval]));
    var ins := InsertInto(s.disk.pending, c.capacity, rec);
    if ins.Ok? && env.put.Written? {
      ConcludedFoot(s1.(disk := s1.disk.(pending := ins.value)),
                    SubmitOutcome(rec.taskId, NeedsApproval, Some(rec.Id())), env.snapshot);
    }
  }

  lemma AutoRunFoot(s: State, t: TaskId, key: Option<string>, now: Timestamp, env: Env)
    ensures var s' := AutoRun(s, t, key, now, env).0;
            SameButSnapshots(s.disk, s'.disk) && FiresAtMost(s.world, s'.world, Effect(t, key, None))
  {
    ExecuteFoot(s, Effect(t, key, None), now, env.exec);
    var (s1, run) := Execute(s, Effect(t, key, None), now, env.exec);
    if run.Answer? && run.r.Ok? {
      ConcludedFoot(WithProof(s1, t, run.r.value), SubmitOutcome(t, run.r.value, None), env.snapshot);
    }
  }

  // Submission writes no outbox row and touches no earlier task or approval.
  lemma SubmittedFoot(c: Config, s: State, key: Option<string>, being: string, skill: SkillId, payload: Payload,
                      now: Timestamp, env: Env)
    ensures var s' := Submitted(c, s, key, being, skill, payload, now, env).0;
            s'.disk.outbox == s.disk.outbox && Submission(s, s', key)
  {
    var t := s.world.nextId;
    if skill in s.mem.skills && skill != 0 {
      if s.mem.skills[skill].NeedsHuman() {
        var s1 := Enqueued(Reserve(s, key), t, skill, payload, now, NeedsApproval);
        var s2 := s1.(mem := s1.mem.(hits := L.Recorded(c.limits, s1.mem.hits, being, now)));
        FiledFoot(c, s2, RecordFor(c, t, payload, now), env);
      } else {
        AutoRunFoot(Enqueued(Reserve(s, key), t, skill, payload, now, Running), t, key, now, env);
      }
    }
  }

  lemma RunApprovedFoot(c: Config, s: State, rec: PendingRecord, key: string, now: Timestamp, x: ExecOutcome)
    ensures var s' := RunApproved(c, s, rec, key, now, x).0;
            s'.disk == s.disk && FiresAtMost(s.world, s'.world, Effect(rec.taskId, Some(key), Some(rec.Id())))
  {
    if rec.taskId in s.mem.tasks
      && A.CheckConsume(s.mem.ledger, rec.Id(), c.hash(s.mem.tasks[rec.taskId].payload), now).Ok? {
      var s1 := s.(mem := s.mem.(ledger := A.MarkConsumed(s.mem.ledger, rec.Id())));
      var moved := TransitionIn(s1.mem.tasks, rec.taskId, Running, now);
      if moved.Ok? {
        ExecuteFoot(WithTasks(s1, moved.value.0), Effect(rec.taskId, Some(key), Some(rec.Id())), now, x);
      }
    }
  }

  lemma SettledFoot(s: State, id: ApprovalId, o: SubmitOutcome, env: Env)
    ensures var s' := Settled(s, id, o, env).0;
            s'.disk.outbox == s.disk.outbox && s'.world == s.world && AtMostDrops(s.disk, s'.disk, id)
  {
    ConcludedFoot(Tombstone(s, id, env.tombstone), o, env.snapshot);
  }

  lemma CommitFoot(s: State, key: string, r: Result<SubmitOutcome, ActionError>, f: Append)
    ensures var s' := Commit(s, key, r, f).0;
            && s'.world == s.world && s'.disk.pending == s.disk.pending
            && s'.disk.outbox == if f.Lands() then s.disk.outbox + [CommittedRow(key, DispatchedOutcome.FromResult(r))]
                                 else s.disk.outbox
  {
  }

  // What an approval does after its intent row: at most one effect, only its
  // own rows added, at most its own pending record dropped.
  lemma DispatchedFoot(c: Config, s: State, rec: PendingRecord, key: string, now: Timestamp, env: Env)
    ensures var s' := Dispatched(c, s, rec, key, now, env).0;
            && FiresAtMost(s.world, s'.world, Effect(rec.taskId, Some(key), Some(rec.Id())))
            && OnlyKey(s.disk, s'.disk, key) && AtMostDrops(s.disk, s'.disk, rec.Id())
  {
    RunApprovedFoot(c, s, rec, key, now, env.exec);
    var (s1, run) := RunApproved(c, s, rec, key, now, env.exec);
    if run.Answer? {
      if run.r.Ok? {
        var o := SubmitOutcome(rec.taskId, run.r.value, None);
        CommitFoot(s1, key, Ok(o), env.commit);
        SettledFoot(Commit(s1, key, Ok(o), env.commit).0, rec.Id(), o, env);
      } else {
        CommitFoot(s1, key, Err(run.r.error), env.commit);
      }
    }
  }

  lemma DropAndCancelFoot(s: State, id: ApprovalId, t: TaskId, now: Timestamp, env: Env)
    ensures var s' := DropAndCancel(s, id, t, now, env).0;
            s'.world == s.world && s'.disk.outbox == s.disk.outbox && AtMostDrops(s.disk, s'.disk, id)
  {
    var s1 := Tombstone(s, id, env.tombstone);
    var moved := TransitionIn(s1.mem.tasks, t, Cancelled, now);
    if moved.Ok? { SnapshotFoot(WithTasks(s1, moved.value.0), t, env.snapshot); }
  }

  lemma QuarantinedFoot(s: State, key: string, reason: string, env: Env)
    ensures var s' := Quarantined(s, key, reason, env).0;
            && s'.world == s.world && s'.disk.pending == s.disk.pending && s'.mem == s.mem
            && (s'.disk.outbox == s.disk.outbox || (OnlyKey(s.disk, s'.disk, key) && !Started(s.disk, key)))
  {
  }

  lemma AbortedFoot(s: State, id: ApprovalId, now: Timestamp, env: Env)
    ensures var s' := Aborted(s, id, now, env).0;
            s'.world == s.world && AddsRows(s.disk, s'.disk) && AtMostDrops(s.disk, s'.disk, id)
  {
    QuarantinedFoot(s, ApprovalKey(id), QUARANTINE, env);
    var s1 := Quarantined(s, ApprovalKey(id), QUARANTINE, env).0;
    if id in s.disk.pending { DropAndCancelFoot(s1, id, s.disk.pending[id].taskId, now, env); }
  }

  // ----- every step is legal -----

  lemma IntentStarts(d: Disk, d1: Disk, d2: Disk, key: string)
    requires d1.outbox == d.outbox + [IntentRow(key)] && OnlyKey(d1, d2, key) && !Started(d, key)
    ensures Started(d2, key) && AddsRows(d, d2)
  {
    ReplayKeyAppend(d.outbox, IntentRow(key), key);
    ExtendsStarted(d1, d2, key);
    assert d2.outbox[..|d.outbox|] == d1.outbox[..|d.outbox|];
    assert d2.outbox[|d.outbox|] == d1.outbox[|d.outbox|];
  }

  lemma SubmissionIsLegal(s: State, s1: State, s': State, key: Option<string>)
    requires PendingInv(s) && s1.world == s.world && s1.disk.pending == s.disk.pending
    requires Submission(s1, s', key) && AddsRows(s.disk, s'.disk)
    requires key.Some? ==> !Started(s.disk, key.value) && Started(s'.disk, key.value)
    ensures Legal(s, s')
  {
    if s'.world.effects != s.world.effects {
      assert MayFire(s, s', Effect(s.world.nextId, key, None));
    }
  }

  lemma SubmitOnceIsLegal(c: Config, s: State, key: string, being: string, skill: SkillId, payload: Payload,
                          now: Timestamp, env: Env)
    requires PendingInv(s)
    ensures Legal(s, SubmittedOnce(c, s, key, being, skill, payload, now, env).0)
  {
    if !Started(s.disk, key) && env.intent.Written? {
      var s1 := LogRow(s, IntentRow(key), env.intent);
      RunOnceIsLegal(c, s, s1, key, being, skill, payload, now, env);
    }
  }

  lemma RunOnceIsLegal(c: Config, s: State, s1: State, key: string, being: string, skill: SkillId, payload: Payload,
                       now: Timestamp, env: Env)
    requires PendingInv(s) && !Started(s.disk, key)
    requires s1.world == s.world && s1.disk.pending == s.disk.pending
             && s1.disk.outbox == s.disk.outbox + [IntentRow(key)]
    ensures Legal(s, RunOnce(c, s1, key, being, skill, payload, now, env).0)
  {
    SubmittedFoot(c, s1, Some(key), being, skill, payload, now, env);
    var (s2, run) := Submitted(c, s1, Some(key), being, skill, payload, now, env);
    var s3 := RunOnce(c, s1, key, being, skill, payload, now, env).0;
    if run.Answer? { CommitFoot(s2, key, run.r, env.commit); }
    IntentStarts(s.disk, s1.disk, s3.disk, key);
    assert Submission(s1, s3, Some(key));
    SubmissionIsLegal(s, s1, s3, Some(key));
  }

  lemma ApproveIsLegal(c: Config, s: State, id: ApprovalId, now: Timestamp, env: Env)
    requires PendingInv(s)
    ensures Legal(s, Approved(c, s, id, now, env).0)
  {
    if id in s.disk.pending && !Started(s.disk, ApprovalKey(id)) {
      ApprovedOnceIsLegal(c, s, id, now, env);
    }
  }

  lemma ApprovedOnceIsLegal(c: Config, s: State, id: ApprovalId, now: Timestamp, env: Env)
    requires PendingInv(s) && id in s.disk.pending && !Started(s.disk, ApprovalKey(id))
    ensures Legal(s, ApprovedOnce(c, s, s.disk.pending[id], ApprovalKey(id), now, env).0)
  {
    var key, rec := ApprovalKey(id), s.disk.pending[id];
    var s1 := LogRow(s, IntentRow(key), env.intent);
    QuietIsLegal(s, s, id);
    if rec.taskId in s.mem.tasks && s.mem.tasks[rec.taskId].skillId in s.mem.skills {
      if env.intent.Written? {
        DispatchedFoot(c, s1, rec, key, now, env);
        KeyedDispatch(s, s1, Dispatched(c, s1, rec, key, now, env).0, id);
      } else {
        QuietIsLegal(s, s1, id);
      }
    }
  }

  lemma KeyedDispatch(s: State, s1: State, s2: State, id: ApprovalId)
    requires PendingInv(s) && id in s.disk.pending && !Started(s.disk, ApprovalKey(id))
    requires s1.world == s.world && s1.disk.pending == s.disk.pending
    requires s1.disk.outbox == s.disk.outbox + [IntentRow(ApprovalKey(id))]
    requires OnlyKey(s1.disk, s2.disk, ApprovalKey(id)) && AtMostDrops(s1.disk, s2.disk, id)
    requires FiresAtMost(s1.world, s2.world, Effect(s.disk.pending[id].taskId, Some(ApprovalKey(id)), Some(id)))
    ensures Legal(s, s2)
  {
    IntentStarts(s.disk, s1.disk, s2.disk, ApprovalKey(id));
    if s2.world.effects != s.world.effects {
      assert MayFire(s, s2, Effect(s.disk.pending[id].taskId, Some(ApprovalKey(id)), Some(id)));
    }
  }

  lemma QuietIsLegal(s: State, s': State, id: ApprovalId)
    requires PendingInv(s) && s'.world == s.world && AddsRows(s.disk, s'.disk) && AtMostDrops(s.disk, s'.disk, id)
    ensures Legal(s, s')
  {
  }

  lemma StepIsLegal(c: Config, s: State, op: Op)
    requires PendingInv(s)
    ensures Legal(s, Step(c, s, op))
  {
    var s' := Step(c, s, op);
    if !op.Restart? && s.up {
      match op
      case Register(_, _) =>
      case Evict(_, _, _) =>
      case Submit(being, skill, payload, now, env) =>
        SubmittedFoot(c, s, None, being, skill, payload, now, env);
        SubmissionIsLegal(s, s, s', None);
      case SubmitOnce(key, being, skill, payload, now, env) =>
        SubmitOnceIsLegal(c, s, key, being, skill, payload, now, env);
      case Approve(id, now, env) => ApproveIsLegal(c, s, id, now, env);
      case Deny(id, now, env) =>
        if id in s.disk.pending { DropAndCancelFoot(s, id, s.disk.pending[id].taskId, now, env); }
        QuietIsLegal(s, s', id);
      case Abort(id, now, env) =>
        AbortedFoot(s, id, now, env);
        QuietIsLegal(s, s', id);
    }
  }

  // ----- a started key is frozen -----

  lemma {:induction false} OtherKeysRows(rows: seq<OutboxRow>, more: seq<OutboxRow>, key: string)
    requires forall r :: r in more ==> r.key != key
    ensures ReplayKey(rows + more, key) == ReplayKey(rows, key)
  {
    if more == [] {
      assert rows + more == rows;
    } else {
      var n := |more| - 1;
      OtherKeysRows(rows, more[..n], key);
      assert rows + more == (rows + more[..n]) + [more[n]];
      ReplayKeyAppend(rows + more[..n], more[n], key);
    }
  }

  lemma StartedIsFrozen(d: Disk, d': Disk, key: string)
    requires AddsRows(d, d') && Started(d, key)
    ensures Lookup(d'.outbox, key) == Lookup(d.outbox, key)
  {
    if d'.outbox != d.outbox {
      var more := d'.outbox[|d.outbox|..];
      assert d'.outbox == d.outbox + more;
      forall r | r in more ensures r.key != key {
        var i :| 0 <= i < |more| && more[i] == r;
        assert more[i] == d'.outbox[|d.outbox| + i];
      }
      OtherKeysRows(d.outbox, more, key);
    }
  }

  // Once an operation has started a key, no later operation of any kind, and
  // no restart, changes what the outbox answers for it.
  lemma {:induction false} OutboxAnswerIsFinal(c: Config, s: State, ops: seq<Op>, key: string)
    requires PendingInv(s) && Started(s.disk, key)
    ensures PendingInv(Run(c, s, ops))
    ensures Lookup(Run(c, s, ops).disk.outbox, key) == Lookup(s.disk.outbox, key)
    decreases |ops|
  {
    if ops != [] {
      StepIsLegal(c, s, ops[0]);
      StartedIsFrozen(s.disk, Step(c, s, ops[0]).disk, key);
      OutboxAnswerIsFinal(c, Step(c, s, ops[0]), ops[1..], key);
    }
  }

  // ----- at most once -----

  ghost predicate KeyInv(s: State, k: string) {
    Count(s.world.effects, ByKey(k)) <= 1 && (Count(s.world.effects, ByKey(k)) > 0 ==> Started(s.disk, k))
  }

  ghost predicate TaskInv(s: State, t: TaskId) {
    var n := Count(s.world.effects, ByTask(t));
    && n <= 1
    && (n > 0 ==> t < s.world.nextId)
    && (n > 0 && t + 2 in s.disk.pending ==> Started(s.disk, ApprovalKey(t + 2)))
  }

  // A caller's key names at most one task, and only once it is started.
  ghost predicate LineageInv(s: State, t: TaskId, u: TaskId) {
    var l := s.world.lineage;
    && (t in l ==> t < s.world.nextId && Started(s.disk, l[t]))
    && (u in l ==> u < s.world.nextId && Started(s.disk, l[u]))
    && (t in l && u in l && l[t] == l[u] ==> t == u)
  }

  lemma StillStarted(s: State, s': State, key: string)
    requires Legal(s, s') && Started(s.disk, key)
    ensures Started(s'.disk, key)
  {
    StartedIsFrozen(s.disk, s'.disk, key);
  }

  lemma LegalKeepsKey(s: State, s': State, k: string)
    requires Legal(s, s') && KeyInv(s, k)
    ensures KeyInv(s', k)
  {
    if Started(s.disk, k) { StillStarted(s, s', k); }
    if s'.world.effects != s.world.effects {
      CountSnoc(s.world.effects, s'.world.effects[|s.world.effects|], ByKey(k));
    }
  }

  lemma LegalKeepsTask(s: State, s': State, t: TaskId)
    requires PendingInv(s) && Legal(s, s') && TaskInv(s, t)
    ensures TaskInv(s', t)
  {
    if Started(s.disk, ApprovalKey(t + 2)) { StillStarted(s, s', ApprovalKey(t + 2)); }
    if s'.world.effects != s.world.effects {
      var e := s'.world.effects[|s.world.effects|];
      CountSnoc(s.world.effects, e, ByTask(t));
      if e.task == t && e.via.Some? { assert e.via.value == t + 2; }
    }
  }

  lemma LegalKeepsLineage(s: State, s': State, t: TaskId, u: TaskId)
    requires Legal(s, s') && LineageInv(s, t, u)
    ensures LineageInv(s', t, u)
  {
    if t in s.world.lineage { StillStarted(s, s', s.world.lineage[t]); }
    if u in s.world.lineage { StillStarted(s, s', s.world.lineage[u]); }
  }

  lemma {:induction false} RunKeepsInvariants(c: Config, s: State, ops: seq<Op>, k: string, t: TaskId, u: TaskId)
    requires PendingInv(s) && KeyInv(s, k) && TaskInv(s, t) && LineageInv(s, t, u)
    ensures PendingInv(Run(c, s, ops))
    ensures KeyInv(Run(c, s, ops), k) && TaskInv(Run(c, s, ops), t) && LineageInv(Run(c, s, ops), t, u)
    decreases |ops|
  {
    if ops != [] {
      var s' := Step(c, s, ops[0]);
      StepIsLegal(c, s, ops[0]);
      LegalKeepsKey(s, s', k);
      LegalKeepsTask(s, s', t);
      LegalKeepsLineage(s, s', t, u);
      RunKeepsInvariants(c, s', ops[1..], k, t, u);
    }
  }

  // The effect guarded by any outbox key fires at most once, and never without
  // a durable row of that key.
  lemma AtMostOncePerKey(c: Config, ops: seq<Op>, k: string)
    ensures Count(Run(c, BLANK, ops).world.effects, ByKey(k)) <= 1
    ensures Count(Run(c, BLANK, ops).world.effects, ByKey(k)) == 1 ==> Started(Run(c, BLANK, ops).disk, k)
  {
    RunKeepsInvariants(c, BLANK, ops, k, 0, 0);
  }

  // No task's effect fires twice either, whichever operations reach it:
  // keyed or plain submission, one approval or many.
  lemma AtMostOncePerTask(c: Config, ops: seq<Op>, t: TaskId)
    ensures Count(Run(c, BLANK, ops).world.effects, ByTask(t)) <= 1
  {
    RunKeepsInvariants(c, BLANK, ops, "", t, t);
  }

  // How many effects belong to tasks that were submitted under a key, whether
  // they ran at once or later, through their approval.
  function CountLineage(es: seq<Effect>, l: map<TaskId, string>, k: string): nat {
    if es == [] then 0
    else
      var e := es[|es| - 1];
      CountLineage(es[..|es| - 1], l, k) + (if e.task in l && l[e.task] == k then 1 else 0)
  }

  lemma {:induction false} LineageIsOneTask(es: seq<Effect>, l: map<TaskId, string>, k: string, t: TaskId)
    requires forall u :: u in l && l[u] == k ==> u == t
    ensures CountLineage(es, l, k) <= Count(es, ByTask(t))
  {
    if es != [] { LineageIsOneTask(es[..|es| - 1], l, k, t); }
  }

  // One idempotency key causes at most one external effect over its whole
  // life: immediately, or through the approval it led to, but never both.
  lemma AtMostOncePerDispatch(c: Config, ops: seq<Op>, k: string)
    ensures var w := Run(c, BLANK, ops).world; CountLineage(w.effects, w.lineage, k) <= 1
  {
    var w := Run(c, BLANK, ops).world;
    if t :| t in w.lineage && w.lineage[t] == k {
      forall u | u in w.lineage && w.lineage[u] == k ensures u == t {
        RunKeepsInvariants(c, BLANK, ops, k, t, u);
      }
      AtMostOncePerTask(c, ops, t);
      LineageIsOneTask(w.effects, w.lineage, k, t);
    } else {
      LineageIsOneTask(w.effects, w.lineage, k, 0);
      AtMostOncePerTask(c, ops, 0);
    }
  }

  // ----- blocked approvals stay blocked -----

  // Tombstoned, or carrying an outbox row.
  predicate Blocked(s: State, id: ApprovalId) {
    id < s.world.nextId && (id !in s.disk.pending || Started(s.disk, ApprovalKey(id)))
  }

  lemma LegalKeepsBlocked(s: State, s': State, id: ApprovalId)
    requires PendingInv(s) && Legal(s, s') && Blocked(s, id)
    ensures Blocked(s', id)
    ensures Count(s'.world.effects, ByApproval(id)) == Count(s.world.effects, ByApproval(id))
    ensures id >= 2 ==> Count(s'.world.effects, ByTask(id - 2)) == Count(s.world.effects, ByTask(id - 2))
  {
    if Started(s.disk, ApprovalKey(id)) { StillStarted(s, s', ApprovalKey(id)); }
    if s'.world.effects != s.world.effects {
      var e := s'.world.effects[|s.world.effects|];
      CountSnoc(s.world.effects, e, ByApproval(id));
      if id >= 2 { CountSnoc(s.world.effects, e, ByTask(id - 2)); }
    }
  }

  // For the rest of every run neither the approval nor its task fires again.
  lemma {:induction false} BlockedForever(c: Config, s: State, ops: seq<Op>, id: ApprovalId)
    requires PendingInv(s) && Blocked(s, id)
    ensures Blocked(Run(c, s, ops), id)
    ensures Count(Run(c, s, ops).world.effects, ByApproval(id)) == Count(s.world.effects, ByApproval(id))
    ensures id >= 2 ==> Count(Run(c, s, ops).world.effects, ByTask(id - 2)) == Count(s.world.effects, ByTask(id - 2))
    decreases |ops|
  {
    if ops != [] {
      StepIsLegal(c, s, ops[0]);
      LegalKeepsBlocked(s, Step(c, s, ops[0]), id);
      BlockedForever(c, Step(c, s, ops[0]), ops[1..], id);
    }
  }

  // Denial blocks as soon as its tombstone lands, whatever fails afterwards.
  lemma DenyBlocks(s: State, id: ApprovalId, now: Timestamp, env: Env)
    requires PendingInv(s) && id in s.disk.pending
    ensures Blocked(Denied(s, id, now, env).0, id) <==> env.tombstone.Lands() || Started(s.disk, ApprovalKey(id))
    ensures Denied(s, id, now, env).0.world == s.world
  {
    var t := s.disk.pending[id].taskId;
    DropAndCancelFoot(s, id, t, now, env);
    TombstoneDrops(s, id, t, now, env);
  }

  lemma TombstoneDrops(s: State, id: ApprovalId, t: TaskId, now: Timestamp, env: Env)
    ensures DropAndCancel(s, id, t, now, env).0.disk.pending == if env.tombstone.Lands() then s.disk.pending - {id}
                                                                else s.disk.pending
  {
    var s1 := Tombstone(s, id, env.tombstone);
    var moved := TransitionIn(s1.mem.tasks, t, Cancelled, now);
    if moved.Ok? { SnapshotFoot(WithTasks(s1, moved.value.0), t, env.snapshot); }
  }

  // Abortion blocks exactly when its intent row lands or, the process having
  // lived to try it, its tombstone does; an Ok answer means that both the
  // committed marker and the removal are durable.
  lemma AbortBlocks(s: State, id: ApprovalId, now: Timestamp, env: Env)
    requires PendingInv(s) && id in s.disk.pending && !Started(s.disk, ApprovalKey(id))
    ensures var (s', answer) := Aborted(s, id, now, env);
            && (Blocked(s', id) <==> env.intent.Lands() || (!env.intent.Died? && env.tombstone.Lands()))
            && (answer == Answer(Ok(())) ==>
                Lookup(s'.disk.outbox, ApprovalKey(id)).Committed? && id !in s'.disk.pending)
            && s'.world == s.world
  {
    var key := ApprovalKey(id);
    QuarantinedFoot(s, key, QUARANTINE, env);
    QuarantineRows(s, key, QUARANTINE, env);
    var (s1, marked) := Quarantined(s, key, QUARANTINE, env);
    DropAndCancelFoot(s1, id, s.disk.pending[id].taskId, now, env);
    TombstoneDrops(s1, id, s.disk.pending[id].taskId, now, env);
  }

  lemma QuarantineRows(s: State, key: string, reason: string, env: Env)
    requires !Started(s.disk, key)
    ensures var (s', answer) := Quarantined(s, key, reason, env);
            && (Started(s'.disk, key) <==> env.intent.Lands())
            && (answer == Answer(Ok(())) ==>
                Lookup(s'.disk.outbox, key) == Committed(DispatchedOutcome.FromError(reason)))
            && (answer.Crash? <==> env.intent.Died? || (env.intent.Written? && env.commit.Died?))
  {
    hide ReplayKey, DispatchedOutcome.FromError;
    ReplayKeyAppend(s.disk.outbox, IntentRow(key), key);
    var rows := s.disk.outbox + [IntentRow(key)];
    ReplayKeyAppend(rows, CommittedRow(key, DispatchedOutcome.FromError(reason)), key);
  }

  // ----- replayed dispatches -----

  // What a call on a started key answers, without touching anything.
  function ReplayAnswer(l: DispatchLookup, refusal: string): Reply<SubmitOutcome>
    requires !l.NotStarted?
  {
    match l
    case Committed(o) => Answer(o.IntoResult())
    case InProgress => Answer(Err(PolicyDenied(refusal)))
  }

  // After any run, resubmitting a started key and re-approving a started
  // approval give one fixed answer and change nothing at all.
  lemma ReplayIsStable(c: Config, s: State, ops: seq<Op>, key: string, being: string, skill: SkillId, payload: Payload,
                       now: Timestamp, env: Env)
    requires PendingInv(s) && Started(s.disk, key)
    ensures var s' := Run(c, s, ops);
            SubmittedOnce(c, s', key, being, skill, payload, now, env)
              == (s', ReplayAnswer(Lookup(s.disk.outbox, key), key))
  {
    OutboxAnswerIsFinal(c, s, ops, key);
  }

  lemma ReapprovalIsStable(c: Config, s: State, ops: seq<Op>, id: ApprovalId, now: Timestamp, env: Env)
    requires PendingInv(s) && Started(s.disk, ApprovalKey(id))
    ensures var s' := Run(c, s, ops);
            var missing := Answer(Err(ApprovalMissing(Show(id))));
            var replayed := ReplayAnswer(Lookup(s.disk.outbox, ApprovalKey(id)), Show(id));
            Approved(c, s', id, now, env) == (s', if id in s'.disk.pending then replayed else missing)
  {
    OutboxAnswerIsFinal(c, s, ops, ApprovalKey(id));
  }

  lemma CommitIsLookedUp(s: State, key: string, r: Result<SubmitOutcome, ActionError>, f: Append)
    requires f.Lands()
    ensures Lookup(Commit(s, key, r, f).0.disk.outbox, key) == Committed(DispatchedOutcome.FromResult(r))
  {
    ReplayKeyAppend(s.disk.outbox, CommittedRow(key, DispatchedOutcome.FromResult(r)), key);
  }

  // The first result of a key is the final one.  Once its commit has landed,
  // acknowledged or not, every later submission under the key, after any run,
  // gives that result -- a success unchanged, a failure as ExecutionFailed with
  // the first error's text -- and changes nothing.
  lemma FirstResultIsFinal(c: Config, s: State, key: string, being: string, skill: SkillId, payload: Payload,
                           now: Timestamp, env: Env, ops: seq<Op>, being': string, skill': SkillId, payload': Payload,
                           now': Timestamp, env': Env)
    requires PendingInv(s) && !Started(s.disk, key) && env.intent.Written? && env.commit.Lands()
    requires Submitted(c, LogRow(s, IntentRow(key), Written), Some(key), being, skill, payload, now, env).1.Answer?
    ensures var first := Submitted(c, LogRow(s, IntentRow(key), Written), Some(key), being, skill, payload, now, env).1;
            var s2 := Run(c, SubmittedOnce(c, s, key, being, skill, payload, now, env).0, ops);
            SubmittedOnce(c, s2, key, being', skill', payload', now', env') == (s2, Answer(Replayed(first.r)))
  {
    hide Submitted, ReplayKey;
    var s0 := LogRow(s, IntentRow(key), Written);
    var (sm, run) := Submitted(c, s0, Some(key), being, skill, payload, now, env);
    var s1 := SubmittedOnce(c, s, key, being, skill, payload, now, env).0;
    assert s1 == RunOnce(c, s0, key, being, skill, payload, now, env).0;
    SubmitOnceIsLegal(c, s, key, being, skill, payload, now, env);
    CommitIsLookedUp(sm, key, run.r, env.commit);
    StoredOutcomeRoundTrip(run.r);
    ReplayIsStable(c, s1, ops, key, being', skill', payload', now', env');
  }

  // In particular the first acknowledged answer is repeated for ever.
  lemma FirstAnswerIsFinal(c: Config, s: State, key: string, being: string, skill: SkillId, payload: Payload,
                           now: Timestamp, env: Env, ops: seq<Op>, being': string, skill': SkillId, payload': Payload,
                           now': Timestamp, env': Env)
    requires PendingInv(s) && !Started(s.disk, key) && env.intent.Written? && env.commit.Written?
    requires SubmittedOnce(c, s, key, being, skill, payload, now, env).1.Answer?
    ensures var (s1, first) := SubmittedOnce(c, s, key, being, skill, payload, now, env);
            var s2 := Run(c, s1, ops);
            SubmittedOnce(c, s2, key, being', skill', payload', now', env') == (s2, Answer(Replayed(first.r)))
  {
    hide Submitted, ReplayKey, Run;
    var s0 := LogRow(s, IntentRow(key), Written);
    assert SubmittedOnce(c, s, key, being, skill, payload, now, env)
      == RunOnce(c, s0, key, being, skill, payload, now, env);
    FirstResultIsFinal(c, s, key, being, skill, payload, now, env, ops, being', skill', payload', now', env');
  }

  // The outcome of an approved run, as the approval will report and store it.
  function RunOutcome(t: TaskId, r: Result<TaskStatus, ActionError>): Result<SubmitOutcome, ActionError> {
    match r
    case Ok(status) => Ok(SubmitOutcome(t, status, None))
    case Err(e) => Err(e)
  }

  lemma DispatchedCommits(c: Config, s: State, rec: PendingRecord, key: string, now: Timestamp, env: Env)
    requires env.commit.Lands() && RunApproved(c, s, rec, key, now, env.exec).1.Answer?
    ensures var first := RunOutcome(rec.taskId, RunApproved(c, s, rec, key, now, env.exec).1.r);
            Lookup(Dispatched(c, s, rec, key, now, env).0.disk.outbox, key)
              == Committed(DispatchedOutcome.FromResult(first))
  {
    hide RunApproved, Settled, Lookup;
    var (s1, run) := RunApproved(c, s, rec, key, now, env.exec);
    var first := RunOutcome(rec.taskId, run.r);
    CommitIsLookedUp(s1, key, first, env.commit);
    if run.r.Ok? { SettledFoot(Commit(s1, key, first, env.commit).0, rec.Id(), first.value, env); }
  }

  // The first outcome of an approval is the final one.  Whatever became of the
  // first call after its commit landed -- an I/O error, a kill before the
  // tombstone -- and whatever run follows, approving again while the record is
  // still there repeats that outcome and changes nothing.
  lemma FirstApprovalIsFinal(c: Config, s: State, id: ApprovalId, now: Timestamp, env: Env, ops: seq<Op>,
                             now': Timestamp, env': Env)
    requires PendingInv(s) && id in s.disk.pending && !Started(s.disk, ApprovalKey(id))
    requires var t := s.disk.pending[id].taskId; t in s.mem.tasks && s.mem.tasks[t].skillId in s.mem.skills
    requires env.intent.Written? && env.commit.Lands()
    requires RunApproved(c, LogRow(s, IntentRow(ApprovalKey(id)), Written), s.disk.pending[id], ApprovalKey(id), now,
                         env.exec).1.Answer?
    ensures var rec, key := s.disk.pending[id], ApprovalKey(id);
            var first := RunOutcome(rec.taskId,
                                    RunApproved(c, LogRow(s, IntentRow(key), Written), rec, key, now, env.exec).1.r);
            var s2 := Run(c, Approved(c, s, id, now, env).0, ops);
            id in s2.disk.pending ==> Approved(c, s2, id, now', env') == (s2, Answer(Replayed(first)))
  {
    hide RunApproved, Dispatched, ReplayKey, ApprovalKey;
    var rec, key := s.disk.pending[id], ApprovalKey(id);
    var s0 := LogRow(s, IntentRow(key), Written);
    var s1 := Approved(c, s, id, now, env).0;
    assert s1 == Dispatched(c, s0, rec, key, now, env).0;
    ApproveIsLegal(c, s, id, now, env);
    DispatchedCommits(c, s0, rec, key, now, env);
    StoredOutcomeRoundTrip(RunOutcome(rec.taskId, RunApproved(c, s0, rec, key, now, env.exec).1.r));
    ReapprovalIsStable(c, s1, ops, id, now', env');
  }
}
