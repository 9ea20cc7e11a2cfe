// The task state machine, the in-memory queue and its snapshot log.
module Tasks {
  import opened Types

  datatype TaskStatus =
    | Planned | Ready | Running | NeedsApproval | Blocked | Suspended
    | Done | Failed | Cancelled
  {
    predicate IsTerminal() { Done? || Failed? || Cancelled? }

    predicate CanTransitionTo(next: TaskStatus) {
      if IsTerminal() then false
      else if next.Cancelled? then true
      else
        match this
        case Planned => next.Ready?
        case Blocked => next.Ready?
        case Suspended => next.Ready?
        case Ready => next.Running?
        case NeedsApproval => next.Running?
        case Running => next.Done? || next.Failed? || next.NeedsApproval? || next.Blocked? || next.Suspended?
        case _ => false
    }
  }

  // Every legal edge.
  const EDGES: set<(TaskStatus, TaskStatus)> := {
    (Planned, Ready), (Blocked, Ready), (Suspended, Ready),
    (Ready, Running), (NeedsApproval, Running),
    (Running, Done), (Running, Failed), (Running, NeedsApproval), (Running, Blocked), (Running, Suspended),
    (Planned, Cancelled), (Ready, Cancelled), (Running, Cancelled),
    (NeedsApproval, Cancelled), (Blocked, Cancelled), (Suspended, Cancelled)
  }

  lemma EdgesExactly(a: TaskStatus, b: TaskStatus)
    ensures a.CanTransitionTo(b) <==> (a, b) in EDGES
  {
  }

  // Closed form of "some chain of legal edges leads from a to b";
  // ReachesIsClosure justifies it.
  predicate Reaches(a: TaskStatus, b: TaskStatus) {
    a == b || (!a.IsTerminal() && !b.Planned?)
  }

  predicate LegalChain(path: seq<TaskStatus>) {
    forall i :: 0 <= i < |path| - 1 ==> path[i].CanTransitionTo(path[i + 1])
  }

  // A chain of legal edges from a up to, and excluding, b.
  function ChainTo(a: TaskStatus, b: TaskStatus): seq<TaskStatus>
    requires Reaches(a, b)
  {
    if a == b then []
    else if b.Cancelled? then [a]
    else ToReady(a) + (if b.Ready? then [] else if b.Running? then [Ready] else [Ready, Running])
  }

  function ToReady(a: TaskStatus): seq<TaskStatus> {
    match a
    case Planned => [Planned]
    case Blocked => [Blocked]
    case Suspended => [Suspended]
    case Running => [Running, Blocked]
    case NeedsApproval => [NeedsApproval, Running, Blocked]
    case _ => []
  }

  // Reaches is exactly the reflexive-transitive closure of the edge relation:
  // it contains the edges, composes, and every pair in it is joined by edges.
  lemma ReachesIsClosure(a: TaskStatus, b: TaskStatus, c: TaskStatus)
    ensures a.CanTransitionTo(b) ==> Reaches(a, b)
    ensures Reaches(a, b) && Reaches(b, c) ==> Reaches(a, c)
    ensures Reaches(a, b) ==> LegalChain(ChainTo(a, b) + [b]) && (ChainTo(a, b) + [b])[0] == a
  {
    if Reaches(a, b) && a != b && !b.Cancelled? {
      ToReadyIsLegal(a);
      if b.Ready? {
        assert ChainTo(a, b) == ToReady(a);
      } else {
        assert ChainTo(a, b) == ToReady(a) + (if b.Running? then [Ready] else [Ready, Running]);
        ExtendChain(ToReady(a), Ready, Running);
        if b.Running? {
          assert ChainTo(a, b) + [b] == ToReady(a) + [Ready] + [Running];
        } else {
          ExtendChain(ToReady(a) + [Ready], Running, b);
          assert ChainTo(a, b) + [b] == ToReady(a) + [Ready] + [Running] + [b];
        }
      }
    }
  }

  lemma ToReadyIsLegal(a: TaskStatus)
    requires !a.IsTerminal()
    ensures LegalChain(ToReady(a) + [Ready]) && (ToReady(a) + [Ready])[0] == a
  {
  }

  lemma ExtendChain(path: seq<TaskStatus>, x: TaskStatus, y: TaskStatus)
    requires LegalChain(path + [x]) && x.CanTransitionTo(y)
    ensures LegalChain(path + [x] + [y])
  {
    var longer := path + [x] + [y];
    forall i | 0 <= i < |longer| - 1 ensures longer[i].CanTransitionTo(longer[i + 1]) {
      if i < |path| {
        assert longer[i] == (path + [x])[i] && longer[i + 1] == (path + [x])[i + 1];
      }
    }
  }

  datatype ActionTask = ActionTask(
    id: TaskId,
    skillId: SkillId,
    status: TaskStatus,
    payload: Payload,
    retryCount: nat,
    scheduledAt: Option<Timestamp>,
    deadline: Option<Timestamp>,
    suspensionReason: Option<string>,
    createdAt: Timestamp,
    updatedAt: Timestamp)
  {
    static function New(id: TaskId, skillId: SkillId, payload: Payload, now: Timestamp): ActionTask {
      ActionTask(id, skillId, Planned, payload, 0, None, None, None, now, now)
    }

    function Validate(): Result<(), ActionError> {
      if id == 0 then Err(ManifestValidation("nil task id"))
      else if skillId == 0 then Err(ManifestValidation("nil skill id"))
      else if updatedAt < createdAt then Err(ManifestValidation("updated_at before created_at"))
      else if scheduledAt.Some? && deadline.Some? && deadline.value < scheduledAt.value then
        Err(ManifestValidation("deadline before scheduled_at"))
      else Ok(())
    }

    predicate IsReadyAt(now: Timestamp) {
      status.Ready? && (scheduledAt.None? || scheduledAt.value <= now)
    }
  }

  // What a task needs to be stored, in the queue or in the log.
  predicate Storable(t: ActionTask) {
    && t.id != 0 && t.skillId != 0 && t.createdAt <= t.updatedAt
    && (t.scheduledAt.Some? && t.deadline.Some? ==> t.scheduledAt.value <= t.deadline.value)
  }

  lemma ValidExactly(t: ActionTask)
    ensures t.Validate().Ok? <==> Storable(t)
  {
  }

  type TaskMap = map<TaskId, ActionTask>

  predicate WellKeyed(m: TaskMap) {
    forall id :: id in m ==> m[id].id == id
  }

  datatype TaskEvent =
    | StatusChanged(taskId: TaskId, from: TaskStatus, to: TaskStatus, at: Timestamp)
    | RetryIncremented(taskId: TaskId, count: nat, at: Timestamp)

  const U32_MAX: nat := 4294967295

  // ----- the queue operations as functions of the task map -----

  type QueueResult = Result<(TaskMap, TaskEvent), ActionError>

  function SubmitTo(m: TaskMap, t: ActionTask): Result<TaskMap, ActionError> {
    match t.Validate()
    case Err(e) => Err(e)
    case Ok(_) =>
      if t.id in m then Err(ManifestValidation(Show(t.id)))
      else Ok(m[t.id := t])
  }

  function Moved(m: TaskMap, id: TaskId, t: ActionTask): QueueResult
    requires id in m
  {
    Ok((m[id := t], StatusChanged(id, m[id].status, t.status, t.updatedAt)))
  }

  function TransitionIn(m: TaskMap, id: TaskId, next: TaskStatus, now: Timestamp): QueueResult {
    if id !in m then Err(NotFound(Show(id)))
    else if !m[id].status.CanTransitionTo(next) then Err(IllegalTransition(Show(id)))
    else Moved(m, id, m[id].(status := next, updatedAt := now))
  }

  function SuspendIn(m: TaskMap, id: TaskId, reason: string, now: Timestamp): QueueResult {
    if id !in m then Err(NotFound(Show(id)))
    else if !m[id].status.CanTransitionTo(Suspended) then Err(IllegalTransition(Show(id)))
    else Moved(m, id, m[id].(status := Suspended, suspensionReason := Some(reason), updatedAt := now))
  }

  function ResumeIn(m: TaskMap, id: TaskId, now: Timestamp): QueueResult {
    if id !in m then Err(NotFound(Show(id)))
    else if !m[id].status.Suspended? then Err(IllegalTransition(Show(id)))
    else Moved(m, id, m[id].(status := Ready, suspensionReason := None, updatedAt := now))
  }

  function RetryIn(m: TaskMap, id: TaskId, now: Timestamp): QueueResult {
    if id !in m then Err(NotFound(Show(id)))
    else if m[id].retryCount >= U32_MAX then Err(ExecutionFailed("retry_count overflow"))
    else
      var t := m[id].(retryCount := m[id].retryCount + 1, updatedAt := now);
      Ok((m[id := t], RetryIncremented(id, t.retryCount, now)))
  }

  // A refused operation leaves the queue as it was.
  function MapOr(r: QueueResult, m: TaskMap): TaskMap {
    match r
    case Ok((m', _)) => m'
    case Err(_) => m
  }

  // The in-memory queue.
  class TaskQueue {
    var inner: TaskMap

    ghost predicate Valid() reads this { WellKeyed(inner) }

    constructor FromMap(tasks: TaskMap)
      requires WellKeyed(tasks)
      ensures Valid() && inner == tasks
    {
      inner := tasks;
    }

    method Submit(task: ActionTask) returns (r: Result<(), ActionError>)
      requires Valid()
      modifies this
      ensures Valid()
      ensures r.Ok? <==> Storable(task) && task.id !in old(inner)
      ensures r.Ok? ==> inner == old(inner)[task.id := task]
      ensures r.Err? ==> inner == old(inner) && r.error.ManifestValidation?
      ensures match SubmitTo(old(inner), task)
              case Ok(m) => r == Ok(()) && inner == m
              case Err(e) => r == Err(e)
    {
      r := task.Validate();
      if r.Err? { return; }
      if task.id in inner {
        return Err(ManifestValidation(Show(task.id)));
      }
      inner := inner[task.id := task];
    }

    method Transition(id: TaskId, next: TaskStatus, now: Timestamp) returns (r: Result<TaskEvent, ActionError>)
      requires Valid()
      modifies this
      ensures Valid()
      ensures r.Ok? <==> id in old(inner) && (old(inner)[id].status, next) in EDGES
      ensures r.Ok? ==> inner == old(inner)[id := old(inner)[id].(status := next, updatedAt := now)]
      ensures r.Ok? ==> r.value == StatusChanged(id, old(inner)[id].status, next, now)
      ensures r.Err? ==> inner == old(inner)
      ensures r.Err? ==> r.error == if id in old(inner) then IllegalTransition(Show(id)) else NotFound(Show(id))
      ensures MapOr(TransitionIn(old(inner), id, next, now), old(inner)) == inner
    {
      if id !in inner { return Err(NotFound(Show(id))); }
      var from := inner[id].status;
      if !from.CanTransitionTo(next) { return Err(IllegalTransition(Show(id))); }
      inner := inner[id := inner[id].(status := next, updatedAt := now)];
      r := Ok(StatusChanged(id, from, next, now));
    }

    method Suspend(id: TaskId, reason: string, now: Timestamp) returns (r: Result<TaskEvent, ActionError>)
      requires Valid()
      modifies this
      ensures Valid()
      ensures r.Ok? <==> id in old(inner) && old(inner)[id].status == Running
      ensures r.Ok? ==> inner == old(inner)[id := old(inner)[id].(status := Suspended, suspensionReason := Some(reason),
                                                                  updatedAt := now)]
      ensures r.Ok? ==> r.value == StatusChanged(id, old(inner)[id].status, Suspended, now)
      ensures r.Err? ==> inner == old(inner)
      ensures r.Err? ==> r.error == if id in old(inner) then IllegalTransition(Show(id)) else NotFound(Show(id))
      ensures MapOr(SuspendIn(old(inner), id, reason, now), old(inner)) == inner
    {
      if id !in inner { return Err(NotFound(Show(id))); }
      var from := inner[id].status;
      if !from.CanTransitionTo(Suspended) { return Err(IllegalTransition(Show(id))); }
      inner := inner[id := inner[id].(status := Suspended, suspensionReason := Some(reason), updatedAt := now)];
      r := Ok(StatusChanged(id, from, Suspended, now));
    }

    method Resume(id: TaskId, now: Timestamp) returns (r: Result<TaskEvent, ActionError>)
      requires Valid()
      modifies this
      ensures Valid()
      ensures r.Ok? <==> id in old(inner) && old(inner)[id].status == Suspended
      ensures r.Ok? ==> inner == old(inner)[id := old(inner)[id].(status := Ready, suspensionReason := None,
                                                                  updatedAt := now)]
      ensures r.Ok? ==> r.value == StatusChanged(id, Suspended, Ready, now)
      ensures r.Err? ==> inner == old(inner)
      ensures r.Err? ==> r.error == if id in old(inner) then IllegalTransition(Show(id)) else NotFound(Show(id))
      ensures MapOr(ResumeIn(old(inner), id, now), old(inner)) == inner
    {
      if id !in inner { return Err(NotFound(Show(id))); }
      var from := inner[id].status;
      if from != Suspended { return Err(IllegalTransition(Show(id))); }
      inner := inner[id := inner[id].(status := Ready, suspensionReason := None, updatedAt := now)];
      r := Ok(StatusChanged(id, from, Ready, now));
    }

    method IncrementRetry(id: TaskId, now: Timestamp) returns (r: Result<TaskEvent, ActionError>)
      requires Valid()
      modifies this
      ensures Valid()
      ensures r.Ok? <==> id in old(inner) && old(inner)[id].retryCount < 4294967295
      ensures r.Ok? ==> inner == old(inner)[id := old(inner)[id].(retryCount := old(inner)[id].retryCount + 1,
                                                                  updatedAt := now)]
      ensures r.Ok? ==> r.value == RetryIncremented(id, old(inner)[id].retryCount + 1, now)
      ensures r.Err? ==> inner == old(inner)
      ensures r.Err? ==> if id in old(inner) then r.error.ExecutionFailed? else r.error == NotFound(Show(id))
      ensures MapOr(RetryIn(old(inner), id, now), old(inner)) == inner
    {
      if id !in inner { return Err(NotFound(Show(id))); }
      if inner[id].retryCount >= U32_MAX { return Err(ExecutionFailed("retry_count overflow")); }
      var next := inner[id].retryCount + 1;
      inner := inner[id := inner[id].(retryCount := next, updatedAt := now)];
      r := Ok(RetryIncremented(id, next, now));
    }

    // The map is walked in an arbitrary order, yet the answer is determined:
    // the eligible task with the least identifier.
    method NextReady(now: Timestamp) returns (r: Option<ActionTask>)
      requires Valid()
      ensures r.None? <==> forall id :: id in inner ==> !inner[id].IsReadyAt(now)
      ensures r.Some? ==> r.value.id in inner && inner[r.value.id] == r.value && r.value.IsReadyAt(now)
      ensures r.Some? ==> r.value.status == Ready && (r.value.scheduledAt.Some? ==> r.value.scheduledAt.value <= now)
      ensures r.Some? ==> forall id :: id in inner && inner[id].IsReadyAt(now) ==> r.value.id <= id
      ensures forall id :: id in inner && inner[id].status == Ready
                           && (inner[id].scheduledAt.None? || inner[id].scheduledAt.value <= now) ==>
                             r.Some? && r.value.id <= id
    {
      r := None;
      var rest := inner.Keys;
      while rest != {}
        invariant rest <= inner.Keys
        invariant r.None? ==> forall id :: id in inner && id !in rest ==> !inner[id].IsReadyAt(now)
        invariant r.Some? ==> r.value.id in inner && inner[r.value.id] == r.value && r.value.IsReadyAt(now)
        invariant r.Some? ==> forall id :: id in inner && id !in rest && inner[id].IsReadyAt(now) ==> r.value.id <= id
        decreases rest
      {
        var id :| id in rest;
        var t := inner[id];
        if t.IsReadyAt(now) && (r.None? || t.id < r.value.id) {
          r := Some(t);
        }
        rest := rest - {id};
      }
    }
  }

  // ----- whole histories of the queue -----

  datatype QueueOp =
    | OpSubmit(task: ActionTask)
    | OpTransition(id: TaskId, next: TaskStatus, now: Timestamp)
    | OpSuspend(id: TaskId, reason: string, now: Timestamp)
    | OpResume(id: TaskId, now: Timestamp)
    | OpRetry(id: TaskId, now: Timestamp)
  {
    function Target(): TaskId { if OpSubmit? then task.id else id }
  }

  function ApplyOp(m: TaskMap, op: QueueOp): TaskMap {
    match op
    case OpSubmit(t) => (match SubmitTo(m, t) case Ok(m') => m' case Err(_) => m)
    case OpTransition(id, next, now) => MapOr(TransitionIn(m, id, next, now), m)
    case OpSuspend(id, reason, now) => MapOr(SuspendIn(m, id, reason, now), m)
    case OpResume(id, now) => MapOr(ResumeIn(m, id, now), m)
    case OpRetry(id, now) => MapOr(RetryIn(m, id, now), m)
  }

  function RunQueue(m: TaskMap, ops: seq<QueueOp>): TaskMap
    decreases |ops|
  {
    if ops == [] then m else RunQueue(ApplyOp(m, ops[0]), ops[1..])
  }

  // Everything of a task that no queue operation may touch.
  predicate SameIdentity(a: ActionTask, b: ActionTask) {
    a.id == b.id && a.skillId == b.skillId && a.payload == b.payload && a.createdAt == b.createdAt
  }

  lemma OpIsLegal(m: TaskMap, op: QueueOp, id: TaskId)
    requires WellKeyed(m)
    ensures WellKeyed(ApplyOp(m, op))
    ensures m.Keys <= ApplyOp(m, op).Keys <= m.Keys + {op.Target()}
    ensures id in m ==> SameIdentity(m[id], ApplyOp(m, op)[id])
    ensures id in m ==>
              || m[id].status == ApplyOp(m, op)[id].status
              || m[id].status.CanTransitionTo(ApplyOp(m, op)[id].status)
    ensures id in m && id != op.Target() ==> ApplyOp(m, op)[id] == m[id]
  {
  }

  // Over any history no task is lost or relabelled, its status only moves
  // along legal edges, and a terminal status is final.
  lemma {:induction false} HistoryIsLegal(m: TaskMap, ops: seq<QueueOp>, id: TaskId)
    requires WellKeyed(m) && id in m
    ensures id in RunQueue(m, ops)
    ensures SameIdentity(m[id], RunQueue(m, ops)[id])
    ensures Reaches(m[id].status, RunQueue(m, ops)[id].status)
    ensures m[id].status.IsTerminal() ==> RunQueue(m, ops)[id].status == m[id].status
    decreases |ops|
  {
    if ops != [] {
      OpIsLegal(m, ops[0], id);
      HistoryIsLegal(ApplyOp(m, ops[0]), ops[1..], id);
    }
  }

  // ----- the snapshot log -----

  // The latest snapshot of each identifier: a later line wins.
  function Latest(log: seq<ActionTask>): TaskMap {
    if log == [] then map[]
    else Latest(log[..|log| - 1])[log[|log| - 1].id := log[|log| - 1]]
  }

  predicate IsLastOf(log: seq<ActionTask>, i: nat, id: TaskId) {
    i < |log| && log[i].id == id && forall j :: i < j < |log| ==> log[j].id != id
  }

  lemma {:induction false} LatestIsLastSnapshot(log: seq<ActionTask>, id: TaskId)
    ensures WellKeyed(Latest(log))
    ensures id in Latest(log) <==> exists i: nat :: IsLastOf(log, i, id)
    ensures forall i: nat :: IsLastOf(log, i, id) ==> Latest(log)[id] == log[i]
  {
    if log != [] {
      var n := |log| - 1;
      var front := log[..n];
      LatestIsLastSnapshot(front, id);
      forall k | k in Latest(front) ensures Latest(front)[k].id == k {
        LatestIsLastSnapshot(front, k);
      }
      if log[n].id == id {
        assert IsLastOf(log, n, id);
      } else {
        forall i: nat ensures IsLastOf(log, i, id) <==> IsLastOf(front, i, id) {
          assert forall j :: 0 <= j < n ==> log[j] == front[j];
        }
      }
    }
  }

  lemma LatestAppend(log: seq<ActionTask>, t: ActionTask)
    ensures Latest(log + [t]) == Latest(log)[t.id := t]
  {
    assert (log + [t])[..|log|] == log;
  }

  // One line of the snapshot file.
  datatype Line = Blank | Row(task: ActionTask) | Garbage

  function Rows(lines: seq<Line>): seq<ActionTask> {
    if lines == [] then []
    else
      var last := lines[|lines| - 1];
      Rows(lines[..|lines| - 1]) + (if last.Row? then [last.task] else [])
  }

  lemma RowsSnoc(lines: seq<Line>, l: Line)
    ensures Rows(lines + [l]) == if l.Row? then Rows(lines) + [l.task] else Rows(lines)
  {
    assert (lines + [l])[..|lines|] == lines;
    assert Rows(lines) + [] == Rows(lines);
  }

  class DurableTaskQueue {
    var lines: seq<Line>

    constructor (file: seq<Line>)
      ensures lines == file
    {
      lines := file;
    }

    // A snapshot is validated before it is written.
    method AppendSnapshot(task: ActionTask, fault: Append) returns (r: Result<(), ActionError>)
      requires !fault.Died?
      modifies this
      ensures r.Ok? <==> Storable(task) && fault.Written?
      ensures lines == if Storable(task) && (fault.Written? || fault.Unacked?) then old(lines) + [Row(task)]
                       else old(lines)
      ensures r.Err? ==> if Storable(task) then r.error == Proof("io") else r.error.ManifestValidation?
    {
      r := task.Validate();
      if r.Err? { return; }
      if fault.Lands() { lines := lines + [Row(task)]; }
      if !fault.Written? { r := Err(IO_ERROR); }
    }

    method Reload() returns (r: Result<TaskMap, ActionError>)
      ensures r.Ok? <==> Garbage !in lines
      ensures r.Ok? ==> r.value == Latest(Rows(lines))
      ensures r.Err? ==> r.error.Proof?
    {
      var latest: TaskMap := map[];
      for i := 0 to |lines|
        invariant Garbage !in lines[..i]
        invariant latest == Latest(Rows(lines[..i]))
      {
        assert lines[..i + 1] == lines[..i] + [lines[i]];
        RowsSnoc(lines[..i], lines[i]);
        match lines[i] {
          case Blank =>
          case Garbage =>
            assert lines[i] in lines;
            return Err(Proof("unreadable line"));
          case Row(task) =>
            LatestAppend(Rows(lines[..i]), task);
            latest := latest[task.id := task];
        }
      }
      assert lines[..|lines|] == lines;
      r := Ok(latest);
    }
  }

  // ----- live queue and snapshot log together -----

  // A change is followed by a snapshot that may or may not land; a restart
  // rebuilds the live queue from the log.
  datatype DurableEvent = Change(op: QueueOp, lands: bool) | Restart

  datatype DurableState = DurableState(live: TaskMap, log: seq<ActionTask>)

  predicate Snapshots(s: DurableState, e: DurableEvent) {
    e.Change? && e.lands &&
    var m := ApplyOp(s.live, e.op);
    e.op.Target() in m && m[e.op.Target()].Validate().Ok?
  }

  function ApplyEvent(s: DurableState, e: DurableEvent): DurableState {
    match e
    case Restart => s.(live := Latest(s.log))
    case Change(op, _) =>
      var m := ApplyOp(s.live, op);
      DurableState(m, if Snapshots(s, e) then s.log + [m[op.Target()]] else s.log)
  }

  function RunEvents(s: DurableState, es: seq<DurableEvent>): DurableState
    decreases |es|
  {
    if es == [] then s else RunEvents(ApplyEvent(s, es[0]), es[1..])
  }

  // Every change of the live queue is followed by a landed snapshot.
  predicate FullySnapshotted(s: DurableState, es: seq<DurableEvent>)
    decreases |es|
  {
    es == [] ||
    (&& (es[0].Change? && ApplyOp(s.live, es[0].op) != s.live ==> Snapshots(s, es[0]))
     && FullySnapshotted(ApplyEvent(s, es[0]), es[1..]))
  }

  const EMPTY: DurableState := DurableState(map[], [])

  lemma {:induction false} ReloadEqualsLive(s: DurableState, es: seq<DurableEvent>)
    requires WellKeyed(s.live) && Latest(s.log) == s.live
    requires FullySnapshotted(s, es)
    ensures Latest(RunEvents(s, es).log) == RunEvents(s, es).live
    decreases |es|
  {
    if es != [] {
      var s' := ApplyEvent(s, es[0]);
      if es[0].Change? {
        var id := es[0].op.Target();
        OpIsLegal(s.live, es[0].op, id);
        if Snapshots(s, es[0]) {
          LatestAppend(s.log, s'.live[id]);
          OnlyTargetChanges(s.live, es[0].op);
        }
      }
      ReloadEqualsLive(s', es[1..]);
    }
  }

  lemma OnlyTargetChanges(m: TaskMap, op: QueueOp)
    requires WellKeyed(m)
    ensures op.Target() in ApplyOp(m, op) ==> ApplyOp(m, op)[op.Target()].id == op.Target()
    ensures op.Target() in ApplyOp(m, op) ==> ApplyOp(m, op) == m[op.Target() := ApplyOp(m, op)[op.Target()]]
    ensures op.Target() !in ApplyOp(m, op) ==> ApplyOp(m, op) == m
  {
    forall id | id in m ensures id in ApplyOp(m, op) && (id != op.Target() ==> ApplyOp(m, op)[id] == m[id]) {
      OpIsLegal(m, op, id);
    }
    OpIsLegal(m, op, op.Target());
  }

  // Successive snapshots of one task are joined by legal edges.
  ghost predicate LogIsLegal(log: seq<ActionTask>) {
    forall i, j :: 0 <= i < j < |log| && log[i].id == log[j].id ==>
      Reaches(log[i].status, log[j].status) && SameIdentity(log[i], log[j])
  }

  // The log lags behind the live queue, along legal edges.
  ghost predicate Lags(s: DurableState) {
    && WellKeyed(s.live)
    && LogIsLegal(s.log)
    && forall i :: 0 <= i < |s.log| ==>
         s.log[i].id in s.live && Reaches(s.log[i].status, s.live[s.log[i].id].status)
         && SameIdentity(s.log[i], s.live[s.log[i].id])
  }

  lemma {:induction false} RestartLags(s: DurableState)
    requires Lags(s)
    ensures Lags(ApplyEvent(s, Restart))
  {
    var s' := ApplyEvent(s, Restart);
    forall id ensures id in s'.live ==> s'.live[id].id == id { LatestIsLastSnapshot(s.log, id); }
    forall i | 0 <= i < |s.log|
      ensures s.log[i].id in s'.live && Reaches(s.log[i].status, s'.live[s.log[i].id].status)
      ensures SameIdentity(s.log[i], s'.live[s.log[i].id])
    {
      LatestIsLastSnapshot(s.log, s.log[i].id);
      var k := LastFrom(s.log, i);
    }
  }

  lemma {:induction false} LastFrom(log: seq<ActionTask>, i: nat) returns (k: nat)
    requires i < |log|
    ensures i <= k && IsLastOf(log, k, log[i].id)
    decreases |log| - i
  {
    if j: nat :| i < j < |log| && log[j].id == log[i].id {
      k := LastFrom(log, j);
    } else {
      k := i;
    }
  }

  lemma ChangeLags(s: DurableState, e: DurableEvent)
    requires Lags(s) && e.Change?
    ensures Lags(ApplyEvent(s, e))
  {
    var s' := ApplyEvent(s, e);
    OpIsLegal(s.live, e.op, e.op.Target());
    forall i | 0 <= i < |s.log|
      ensures s.log[i].id in s'.live && Reaches(s.log[i].status, s'.live[s.log[i].id].status)
      ensures SameIdentity(s.log[i], s'.live[s.log[i].id])
    {
      OpIsLegal(s.live, e.op, s.log[i].id);
    }
  }

  // Whatever snapshots are skipped and wherever crashes fall: the log never
  // records an illegal history, a terminal snapshot is final, and what a
  // reload brings back is the last snapshot of each task, never ahead of the
  // live queue it replaces.
  lemma {:induction false} CrashesKeepHistoriesLegal(s: DurableState, es: seq<DurableEvent>)
    requires Lags(s)
    ensures Lags(RunEvents(s, es))
    decreases |es|
  {
    if es != [] {
      if es[0].Restart? { RestartLags(s); } else { ChangeLags(s, es[0]); }
      CrashesKeepHistoriesLegal(ApplyEvent(s, es[0]), es[1..]);
    }
  }

  lemma TerminalSnapshotIsFinal(es: seq<DurableEvent>, i: nat, j: nat)
    requires var log := RunEvents(EMPTY, es).log;
             i < j < |log| && log[i].id == log[j].id && log[i].status.IsTerminal()
    ensures RunEvents(EMPTY, es).log[j].status == RunEvents(EMPTY, es).log[i].status
  {
    CrashesKeepHistoriesLegal(EMPTY, es);
  }
}
