// The dispatch outbox: an intent row before a side effect, a committed row after it.
module Outbox {
  import opened Types
  import opened Tasks

  datatype SubmitOutcome = SubmitOutcome(taskId: TaskId, status: TaskStatus, pendingApproval: Option<ApprovalId>)

  // The stored form of a dispatch's outcome.
  datatype DispatchedOutcome = DispatchedOutcome(
    taskId: TaskId,
    status: TaskStatus,
    pendingApproval: Option<ApprovalId>,
    error: Option<string>)
  {
    static function FromSubmit(o: SubmitOutcome): DispatchedOutcome {
      DispatchedOutcome(o.taskId, o.status, o.pendingApproval, None)
    }

    static function FromError(message: string): DispatchedOutcome {
      DispatchedOutcome(0, Failed, None, Some(message))
    }

    static function FromResult(r: Result<SubmitOutcome, ActionError>): DispatchedOutcome {
      match r
      case Ok(o) => FromSubmit(o)
      case Err(e) => FromError(e.Display())
    }

    function IntoResult(): Result<SubmitOutcome, ActionError> {
      match error
      case Some(message) => Err(ExecutionFailed(message))
      case None => Ok(SubmitOutcome(taskId, status, pendingApproval))
    }
  }

  // What storing a result and reading it back yields: a success survives
  // unchanged, an error keeps its text and becomes ExecutionFailed.
  function Replayed(r: Result<SubmitOutcome, ActionError>): Result<SubmitOutcome, ActionError> {
    match r
    case Ok(_) => r
    case Err(e) => Err(ExecutionFailed(e.Display()))
  }

  lemma StoredOutcomeRoundTrip(r: Result<SubmitOutcome, ActionError>)
    ensures DispatchedOutcome.FromResult(r).IntoResult() == Replayed(r)
  {
  }

  datatype DispatchLookup = NotStarted | InProgress | Committed(outcome: DispatchedOutcome)

  function Rank(l: DispatchLookup): nat {
    match l
    case NotStarted => 0
    case InProgress => 1
    case Committed(_) => 2
  }

  datatype KeyState = KeyState(intent: bool, committed: Option<DispatchedOutcome>) {
    function Phase(): DispatchLookup {
      match committed
      case Some(outcome) => Committed(outcome)
      case None => if intent then InProgress else NotStarted
    }
  }

  const FRESH: KeyState := KeyState(false, None)

  datatype RowName = DispatchIntent | DispatchCommitted | OtherRow

  datatype OutboxRow = OutboxRow(name: RowName, key: string, outcome: Option<DispatchedOutcome>)

  function IntentRow(key: string): OutboxRow { OutboxRow(DispatchIntent, key, None) }

  function CommittedRow(key: string, o: DispatchedOutcome): OutboxRow { OutboxRow(DispatchCommitted, key, Some(o)) }

  // How one row changes the state of one key.  A committed row that carries no
  // outcome changes nothing.
  function Absorb(s: KeyState, row: OutboxRow, key: string): KeyState {
    if row.name.OtherRow? || row.key != key then s
    else if row.name.DispatchIntent? then s.(intent := true)
    else if row.outcome.Some? then KeyState(true, row.outcome)
    else s
  }

  function ReplayKey(rows: seq<OutboxRow>, key: string): KeyState {
    if rows == [] then FRESH
    else Absorb(ReplayKey(rows[..|rows| - 1], key), rows[|rows| - 1], key)
  }

  function Lookup(rows: seq<OutboxRow>, key: string): DispatchLookup {
    ReplayKey(rows, key).Phase()
  }

  lemma ReplayKeyAppend(rows: seq<OutboxRow>, row: OutboxRow, key: string)
    ensures ReplayKey(rows + [row], key) == Absorb(ReplayKey(rows, key), row, key)
  {
    assert (rows + [row])[..|rows|] == rows;
  }

  // ----- the two stores -----

  class JournalDispatchOutbox {
    var rows: seq<OutboxRow>
    var nextStep: nat

    constructor Open(journal: seq<OutboxRow>)
      ensures rows == journal && nextStep == |journal|
    {
      rows := journal;
      nextStep := |journal|;
    }

    method AppendMarker(row: OutboxRow, fault: Append) returns (r: Result<(), ActionError>)
      requires !fault.Died?
      modifies this
      ensures rows == if fault.Lands() then old(rows) + [row] else old(rows)
      ensures r.Ok? <==> fault.Written?
      ensures nextStep == old(nextStep) + 1
    {
      nextStep := nextStep + 1;
      if fault.Lands() { rows := rows + [row]; }
      r := if fault.Written? then Ok(()) else Err(IO_ERROR);
    }

    method ReplayKeyLoop(key: string) returns (s: KeyState)
      ensures s == ReplayKey(rows, key)
    {
      s := FRESH;
      for i := 0 to |rows|
        invariant s == ReplayKey(rows[..i], key)
      {
        var row := rows[i];
        ReplayKeyAppend(rows[..i], row, key);
        assert rows[..i + 1] == rows[..i] + [row];
        var isIntent := row.name.DispatchIntent?;
        var isCommitted := row.name.DispatchCommitted?;
        if !isIntent && !isCommitted { continue; }
        if row.key != key { continue; }
        if isIntent {
          s := s.(intent := true);
        } else if row.outcome.Some? {
          s := KeyState(true, row.outcome);
        }
      }
      assert rows[..|rows|] == rows;
    }

    method LookupKey(key: string) returns (l: DispatchLookup)
      ensures l == Lookup(rows, key)
    {
      var s := ReplayKeyLoop(key);
      if s.committed.Some? {
        l := Committed(s.committed.value);
      } else if s.intent {
        l := InProgress;
      } else {
        l := NotStarted;
      }
    }

    method RecordIntent(key: string, fault: Append) returns (r: Result<(), ActionError>)
      requires !fault.Died?
      modifies this
      ensures r.Ok? <==> fault.Written?
      ensures rows == if fault.Lands() then old(rows) + [IntentRow(key)] else old(rows)
    {
      r := AppendMarker(OutboxRow(DispatchIntent, key, None), fault);
    }

    method RecordCommitted(key: string, outcome: DispatchedOutcome, fault: Append) returns (r: Result<(), ActionError>)
      requires !fault.Died?
      modifies this
      ensures r.Ok? <==> fault.Written?
      ensures rows == if fault.Lands() then old(rows) + [CommittedRow(key, outcome)] else old(rows)
    {
      r := AppendMarker(OutboxRow(DispatchCommitted, key, Some(outcome)), fault);
    }
  }

  type KeyMap = map<string, KeyState>

  function StateOf(m: KeyMap, key: string): KeyState {
    if key in m then m[key] else FRESH
  }

  class InMemoryDispatchOutbox {
    var inner: KeyMap

    constructor ()
      ensures inner == map[]
    {
      inner := map[];
    }

    method LookupKey(key: string) returns (l: DispatchLookup)
      ensures l == StateOf(inner, key).Phase()
    {
      if key !in inner { return NotStarted; }
      var s := inner[key];
      if s.committed.Some? { return Committed(s.committed.value); }
      l := if s.intent then InProgress else NotStarted;
    }

    method RecordIntent(key: string)
      modifies this
      ensures inner == RecordInMemory(old(inner), RecIntent(key))
    {
      var s := if key in inner then inner[key] else FRESH;
      inner := inner[key := s.(intent := true)];
    }

    method RecordCommitted(key: string, outcome: DispatchedOutcome)
      modifies this
      ensures inner == RecordInMemory(old(inner), RecCommitted(key, outcome))
    {
      inner := inner[key := KeyState(true, Some(outcome))];
    }
  }

  // ----- both stores over whole histories -----

  datatype Record =
    | RecIntent(key: string)
    | RecCommitted(key: string, outcome: DispatchedOutcome)
    | Reopen
  {
    function Row(): OutboxRow
      requires !Reopen?
    {
      if RecIntent? then IntentRow(key) else CommittedRow(key, outcome)
    }
  }

  // Reopening is nothing to a map.
  function RecordInMemory(m: KeyMap, r: Record): KeyMap {
    match r
    case RecIntent(key) => m[key := StateOf(m, key).(intent := true)]
    case RecCommitted(key, outcome) => m[key := KeyState(true, Some(outcome))]
    case Reopen => m
  }

  function RunInMemory(m: KeyMap, rs: seq<Record>): KeyMap
    decreases |rs|
  {
    if rs == [] then m else RunInMemory(RecordInMemory(m, rs[0]), rs[1..])
  }

  // A journal with its step counter, which a reopening sets to the row count.
  datatype JournalState = JournalState(rows: seq<OutboxRow>, nextStep: nat)

  function RecordInJournal(j: JournalState, r: Record): JournalState {
    if r.Reopen? then JournalState(j.rows, |j.rows|) else JournalState(j.rows + [r.Row()], j.nextStep + 1)
  }

  function RunInJournal(j: JournalState, rs: seq<Record>): JournalState
    decreases |rs|
  {
    if rs == [] then j else RunInJournal(RecordInJournal(j, rs[0]), rs[1..])
  }

  ghost predicate Agree(m: KeyMap, j: JournalState) { forall k :: StateOf(m, k) == ReplayKey(j.rows, k) }

  lemma RecordAgrees(m: KeyMap, j: JournalState, r: Record)
    requires Agree(m, j)
    ensures Agree(RecordInMemory(m, r), RecordInJournal(j, r))
  {
    if !r.Reopen? {
      forall k ensures StateOf(RecordInMemory(m, r), k) == ReplayKey(j.rows + [r.Row()], k) {
        ReplayKeyAppend(j.rows, r.Row(), k);
      }
    }
  }

  // The two stores answer every lookup alike after any history of records and
  // reopenings.
  lemma {:induction false} StoresAgree(m: KeyMap, j: JournalState, rs: seq<Record>, key: string)
    requires Agree(m, j)
    ensures StateOf(RunInMemory(m, rs), key) == ReplayKey(RunInJournal(j, rs).rows, key)
    ensures StateOf(RunInMemory(m, rs), key).Phase() == Lookup(RunInJournal(j, rs).rows, key)
    decreases |rs|
  {
    if rs != [] {
      RecordAgrees(m, j, rs[0]);
      StoresAgree(RecordInMemory(m, rs[0]), RecordInJournal(j, rs[0]), rs[1..], key);
    }
  }

  // A key's phase never moves back, whatever rows follow.
  lemma {:induction false} PhaseIsMonotone(rows: seq<OutboxRow>, more: seq<OutboxRow>, key: string)
    ensures Rank(Lookup(rows, key)) <= Rank(Lookup(rows + more, key))
    ensures Lookup(rows, key).NotStarted? ==> (Lookup(rows + more, key).NotStarted? <==>
      forall r :: r in more && r.key == key ==> r.name.OtherRow? || (r.name.DispatchCommitted? && r.outcome.None?))
  {
    if more == [] {
      assert rows + more == rows;
    } else {
      var n := |more| - 1;
      PhaseIsMonotone(rows, more[..n], key);
      assert rows + more == (rows + more[..n]) + [more[n]];
      assert more == more[..n] + [more[n]];
      ReplayKeyAppend(rows + more[..n], more[n], key);
      PhaseHasIntent(rows + more[..n], key);
    }
  }

  predicate CommitsAt(rows: seq<OutboxRow>, i: int, key: string) {
    0 <= i < |rows| && rows[i].key == key && rows[i].name == DispatchCommitted && rows[i].outcome.Some?
  }

  // The last committed row of the key that carries an outcome.
  predicate LastCommit(rows: seq<OutboxRow>, i: int, key: string) {
    CommitsAt(rows, i, key) && forall j :: i < j < |rows| ==> !CommitsAt(rows, j, key)
  }

  // A key is committed with the outcome of its last committed row; without one
  // it is in progress if it has an intent row, and not started otherwise.
  lemma {:induction false} LookupExactly(rows: seq<OutboxRow>, key: string)
    ensures forall i :: LastCommit(rows, i, key) ==> Lookup(rows, key) == Committed(rows[i].outcome.value)
    ensures Lookup(rows, key).Committed? <==> exists i :: LastCommit(rows, i, key)
    ensures Lookup(rows, key).NotStarted? <==>
      forall r :: r in rows && r.key == key ==> r.name == OtherRow || (r.name == DispatchCommitted && r.outcome.None?)
  {
    if rows != [] {
      var n := |rows| - 1;
      var front := rows[..n];
      LookupExactly(front, key);
      PhaseHasIntent(front, key);
      assert rows == front + [rows[n]];
      assert forall i :: CommitsAt(front, i, key) <==> i < n && CommitsAt(rows, i, key);
      if CommitsAt(rows, n, key) {
        assert LastCommit(rows, n, key);
      } else {
        assert forall i :: LastCommit(front, i, key) <==> LastCommit(rows, i, key);
      }
    }
  }

  // A committed key is always also an intended one.
  lemma {:induction false} PhaseHasIntent(rows: seq<OutboxRow>, key: string)
    ensures ReplayKey(rows, key).committed.Some? ==> ReplayKey(rows, key).intent
  {
    if rows != [] { PhaseHasIntent(rows[..|rows| - 1], key); }
  }

  function RowsFor(rows: seq<OutboxRow>, key: string): seq<OutboxRow> {
    if rows == [] then []
    else
      var last := rows[|rows| - 1];
      RowsFor(rows[..|rows| - 1], key) + (if last.key == key then [last] else [])
  }

  // Keys are independent: a lookup depends on the rows of its own key alone.
  lemma {:induction false} KeysAreIndependent(rows: seq<OutboxRow>, key: string)
    ensures Lookup(rows, key) == Lookup(RowsFor(rows, key), key)
    ensures ReplayKey(rows, key) == ReplayKey(RowsFor(rows, key), key)
  {
    if rows != [] {
      var n := |rows| - 1;
      KeysAreIndependent(rows[..n], key);
      if rows[n].key == key {
        ReplayKeyAppend(RowsFor(rows[..n], key), rows[n], key);
      } else {
        assert RowsFor(rows, key) == RowsFor(rows[..n], key);
      }
    }
  }
}
