// The journalled pending store: an append-only log of puts and tombstones,
// replayed on every read and compacted when too many of its rows are dead.
module JournalStore {
  import opened Types
  import opened PendingStore

  // ----- the log -----

  datatype Entry = Put(rec: PendingRecord) | Delete(id: ApprovalId) | Other

  datatype Row = Row(step: nat, entry: Entry)

  // Rows of other kinds are skipped; a later row wins.
  function Absorb(m: Records, e: Entry): Records {
    match e
    case Put(rec) => m[rec.Id() := rec]
    case Delete(id) => m - {id}
    case Other => m
  }

  function Replay(rows: seq<Row>): (m: Records)
    ensures WellKeyed(m)
  {
    if rows == [] then map[] else Absorb(Replay(rows[..|rows| - 1]), rows[|rows| - 1].entry)
  }

  lemma ReplayAppend(rows: seq<Row>, row: Row)
    ensures Replay(rows + [row]) == Absorb(Replay(rows), row.entry)
  {
    assert (rows + [row])[..|rows|] == rows;
  }

  // An order in which a walk over a set of identifiers may visit them.
  predicate Enumerates(order: seq<ApprovalId>, ids: set<ApprovalId>) {
    && (forall i, j :: 0 <= i < j < |order| ==> order[i] != order[j])
    && (forall id :: id in ids ==> id in order)
    && (forall id :: id in order ==> id in ids)
  }

  lemma {:induction false} EnumerationLength(order: seq<ApprovalId>, ids: set<ApprovalId>)
    requires Enumerates(order, ids)
    ensures |order| == |ids|
  {
    if order == [] {
      assert ids == {};
    } else {
      var n := |order| - 1;
      EnumerationLength(order[..n], ids - {order[n]});
    }
  }

  // One put per live record, numbered from zero.
  function Compacted(m: Records, order: seq<ApprovalId>): (rows: seq<Row>)
    requires forall id :: id in order ==> id in m
    ensures |rows| == |order|
    ensures forall i :: 0 <= i < |rows| ==> rows[i] == Row(i, Put(m[order[i]]))
  {
    if order == [] then []
    else
      var n := |order| - 1;
      Compacted(m, order[..n]) + [Row(n, Put(m[order[n]]))]
  }

  function Sub(m: Records, order: seq<ApprovalId>): Records
    requires forall id :: id in order ==> id in m
  {
    map id | id in order :: m[id]
  }

  lemma SubSnoc(m: Records, order: seq<ApprovalId>, id: ApprovalId)
    requires id in m && forall k :: k in order ==> k in m
    ensures Sub(m, order + [id]) == Sub(m, order)[id := m[id]]
  {
  }

  lemma CompactedSnoc(m: Records, front: seq<ApprovalId>, id: ApprovalId)
    requires WellKeyed(m) && id in m && forall k :: k in front ==> k in m
    requires Replay(Compacted(m, front)) == Sub(m, front)
    ensures Replay(Compacted(m, front + [id])) == Sub(m, front + [id])
  {
    var row := Row(|front|, Put(m[id]));
    assert (front + [id])[..|front|] == front;
    assert Compacted(m, front + [id]) == Compacted(m, front) + [row];
    ReplayAppend(Compacted(m, front), row);
    SubSnoc(m, front, id);
  }

  lemma {:induction false} ReplayCompacted(m: Records, order: seq<ApprovalId>)
    requires WellKeyed(m) && forall id :: id in order ==> id in m
    ensures Replay(Compacted(m, order)) == Sub(m, order)
  {
    if order == [] {
      assert Sub(m, order) == map[];
    } else {
      var n := |order| - 1;
      ReplayCompacted(m, order[..n]);
      CompactedSnoc(m, order[..n], order[n]);
      assert order[..n] + [order[n]] == order;
    }
  }

  // In whatever order the records are written back, replaying them gives the
  // same state.
  lemma CompactionKeepsState(m: Records, order: seq<ApprovalId>)
    requires WellKeyed(m) && Enumerates(order, m.Keys)
    ensures Replay(Compacted(m, order)) == m && |Compacted(m, order)| == |m|
  {
    ReplayCompacted(m, order);
    EnumerationLength(order, m.Keys);
    assert |m.Keys| == |m|;
  }

  // ----- the store as a value -----

  const AUTO_COMPACT_MIN_ROWS: nat := 64
  const AUTO_COMPACT_FACTOR: nat := 2
  const USIZE_MAX: nat := 18446744073709551615

  function SaturatingMul(a: nat, b: nat): nat {
    if a * b > USIZE_MAX then USIZE_MAX else a * b
  }

  datatype Settings = Settings(capacity: nat, factor: nat)

  // The log, the step counter and whether the process is alive; and, as pure
  // history, how many rows were ever appended and rewritten.
  datatype Store = Store(rows: seq<Row>, next: nat, up: bool, appended: nat, rewritten: nat) {
    function Live(): Records { Replay(rows) }
  }

  // The fate of one compaction: the order of the walk over the live records,
  // whether the new log took the old one's place, and whether the process dies.
  datatype Compaction = Compaction(order: seq<ApprovalId>, swaps: bool, dies: bool)

  // A reserved step number is spent even when the append fails.
  function AppendMarker(s: Store, e: Entry, f: Append): Store {
    if f.Lands() then Store(s.rows + [Row(s.next, e)], s.next + 1, s.up, s.appended + 1, s.rewritten)
    else s.(next := s.next + 1, up := s.up && !f.Died?)
  }

  // A walk in an impossible order stands for a kill before the swap.
  function CompactTo(s: Store, k: Compaction): Store {
    if !Enumerates(k.order, s.Live().Keys) then s.(up := false)
    else if k.swaps then
      Store(Compacted(s.Live(), k.order), |k.order|, s.up && !k.dies, s.appended, s.rewritten + |k.order|)
    else s.(up := s.up && !k.dies)
  }

  predicate NeedsCompaction(s: Store, factor: nat) {
    factor > 0 && |s.rows| >= AUTO_COMPACT_MIN_ROWS && |s.rows| > SaturatingMul(factor, |s.Live()|)
  }

  function AutoCompact(s: Store, factor: nat, k: Compaction): Store {
    if NeedsCompaction(s, factor) then CompactTo(s, k) else s
  }

  // Once its row is acknowledged, an operation considers compaction and answers.
  function Finished<T>(s: Store, factor: nat, k: Compaction, answer: T): (Store, Reply<T>) {
    var s1 := AutoCompact(s, factor, k);
    (s1, if s.up && !s1.up then Crash else Answer(Ok(answer)))
  }

  function Logged<T>(c: Settings, s: Store, e: Entry, f: Append, k: Compaction, answer: T): (Store, Reply<T>) {
    var s1 := AppendMarker(s, e, f);
    match f
    case Died => (s1, Crash)
    case Unacked => (s1, Answer(Err(IO_ERROR)))
    case Refused => (s1, Answer(Err(IO_ERROR)))
    case Written => Finished(s1, c.factor, k, answer)
  }

  function Inserted(c: Settings, s: Store, rec: PendingRecord, f: Append, k: Compaction): (Store, Reply<()>) {
    match InsertInto(s.Live(), c.capacity, rec)
    case Err(e) => (s, Answer(Err(e)))
    case Ok(_) => Logged(c, s, Put(rec), f, k, ())
  }

  function Removed(c: Settings, s: Store, id: ApprovalId, f: Append,
                   k: Compaction): (Store, Reply<Option<PendingRecord>>) {
    match Find(s.Live(), id)
    case None => (s, Answer(Ok(None)))
    case Some(rec) => Logged(c, s, Delete(id), f, k, Some(rec))
  }

  // The tombstones of an eviction, up to the first that fails.
  function Buried(s: Store, order: seq<ApprovalId>, f: ApprovalId -> Append): (Store, Reply<()>)
    decreases |order|
  {
    if order == [] then (s, Answer(Ok(())))
    else
      var s1 := AppendMarker(s, Delete(order[0]), f(order[0]));
      match f(order[0])
      case Died => (s1, Crash)
      case Unacked => (s1, Answer(Err(IO_ERROR)))
      case Refused => (s1, Answer(Err(IO_ERROR)))
      case Written => Buried(s1, order[1..], f)
  }

  function Evicted(c: Settings, s: Store, now: Timestamp, order: seq<ApprovalId>, f: ApprovalId -> Append,
                   k: Compaction): (Store, Reply<nat>) {
    if !Enumerates(order, Expired(s.Live(), now)) then (s.(up := false), Crash)
    else
      var (s1, buried) := Buried(s, order, f);
      match buried
      case Crash => (s1, Crash)
      case Answer(Err(e)) => (s1, Answer(Err(e)))
      case Answer(Ok(_)) => if order == [] then (s1, Answer(Ok(0))) else Finished(s1, c.factor, k, |order|)
  }

  // Opening infers the next step number from the length of the log.
  function Reopened(s: Store): Store { s.(next := |s.rows|, up := true) }

  lemma {:induction false} LiveAtMostRows(rows: seq<Row>)
    ensures |Replay(rows)| <= |rows|
  {
    if rows != [] {
      var front, e := rows[..|rows| - 1], rows[|rows| - 1].entry;
      LiveAtMostRows(front);
      AbsorbSize(Replay(front), e);
    }
  }

  lemma AbsorbSize(m: Records, e: Entry)
    ensures e.Put? ==> |Absorb(m, e)| == if e.rec.Id() in m then |m| else |m| + 1
    ensures e.Delete? ==> |Absorb(m, e)| == if e.id in m then |m| - 1 else |m|
  {
    match e {
      case Put(rec) => assert Absorb(m, e).Keys == m.Keys + {rec.Id()};
      case Delete(id) => assert Absorb(m, e).Keys == m.Keys - {id};
      case Other =>
    }
  }

  // ----- the store as an object -----

  class JournalPendingStore {
    const settings: Settings
    var rows: seq<Row>
    var next: nat
    var up: bool
    ghost var appended: nat
    ghost var rewritten: nat

    ghost function Model(): Store reads this { Store(rows, next, up, appended, rewritten) }

    constructor OpenWithCapacity(log: seq<Row>, settings: Settings, ghost before: Store)
      requires before.rows == log
      ensures this.settings == settings && Model() == Reopened(before)
    {
      this.settings := settings;
      rows, next, up := log, |log|, true;
      appended, rewritten := before.appended, before.rewritten;
    }

    method Append(e: Entry, fault: Append) returns (ack: Reply<()>)
      modifies this`rows, this`next, this`up, this`appended
      ensures Model() == AppendMarker(old(Model()), e, fault)
      ensures ack == if fault.Died? then Crash else if fault.Written? then Answer(Ok(())) else Answer(Err(IO_ERROR))
    {
      var step := next;
      next := next + 1;
      if fault.Lands() {
        rows := rows + [Row(step, e)];
        appended := appended + 1;
      }
      if fault.Died? { up := false; return Crash; }
      ack := if fault.Written? then Answer(Ok(())) else Answer(Err(IO_ERROR));
    }

    method ReplayState() returns (state: Records)
      ensures state == Replay(rows)
    {
      state := map[];
      for i := 0 to |rows|
        invariant state == Replay(rows[..i])
      {
        assert rows[..i + 1] == rows[..i] + [rows[i]];
        ReplayAppend(rows[..i], rows[i]);
        match rows[i].entry {
          case Put(rec) => state := state[rec.Id() := rec];
          case Delete(id) => state := state - {id};
          case Other =>
        }
      }
      assert rows[..|rows|] == rows;
    }

    // Rewrites the log to its live records, walked in an arbitrary order, and
    // reports how many dead rows were dropped.
    method Compact(swaps: bool, dies: bool) returns (r: Reply<nat>, ghost k: Compaction)
      modifies this`rows, this`next, this`up, this`rewritten
      ensures k.swaps == swaps && k.dies == dies && Enumerates(k.order, Replay(old(rows)).Keys)
      ensures Model() == CompactTo(old(Model()), k)
      ensures r == if dies then Crash else if swaps then Answer(Ok(|old(rows)| - |Replay(old(rows))|))
                                           else Answer(Err(IO_ERROR))
    {
      hide Replay, Enumerates;
      var state := ReplayState();
      LiveAtMostRows(rows);
      var kept;
      ghost var order;
      kept, order := LiveRows(state);
      EnumerationLength(order, state.Keys);
      assert |state.Keys| == |state|;
      k := Compaction(order, swaps, dies);
      var dropped := |rows| - |kept|;
      if swaps {
        rows := kept;
        rewritten := rewritten + |kept|;
        next := |kept|;
      }
      if dies { up := false; return Crash, k; }
      r := if swaps then Answer(Ok(dropped)) else Answer(Err(IO_ERROR));
    }

    // A failed compaction is swallowed; only a death is felt by the caller.
    method MaybeAutoCompact(swaps: bool, dies: bool) returns (alive: bool, ghost k: Compaction)
      modifies this`rows, this`next, this`up, this`rewritten
      ensures Model() == AutoCompact(old(Model()), settings.factor, k)
      ensures k.swaps == swaps && k.dies == dies && Enumerates(k.order, Replay(old(rows)).Keys)
      ensures !alive <==> NeedsCompaction(old(Model()), settings.factor) && dies
    {
      alive := true;
      var state := ReplayState();
      if settings.factor > 0 && |rows| >= AUTO_COMPACT_MIN_ROWS && |rows| > SaturatingMul(settings.factor, |state|) {
        var r;
        r, k := Compact(swaps, dies);
        alive := !r.Crash?;
      } else {
        k := SomeCompaction(state, swaps, dies);
      }
    }

    method Insert(rec: PendingRecord, fault: Append, swaps: bool, dies: bool)
      returns (r: Reply<()>, ghost k: Compaction)
      requires up
      modifies this
      ensures (Model(), r) == Inserted(settings, old(Model()), rec, fault, k)
    {
      var state := ReplayState();
      k := SomeCompaction(state, swaps, dies);
      var id := rec.Id();
      if id !in state && !(|state| < settings.capacity) {
        return Answer(Err(PolicyDenied(Show(settings.capacity)))), k;
      }
      r := Append(Put(rec), fault);
      if r.Crash? || r.r.Err? { return; }
      var alive;
      alive, k := MaybeAutoCompact(swaps, dies);
      r := if alive then Answer(Ok(())) else Crash;
    }

    method Get(id: ApprovalId) returns (r: Option<PendingRecord>)
      ensures r == Find(Replay(rows), id)
    {
      var state := ReplayState();
      r := if id in state then Some(state[id]) else None;
    }

    method Len() returns (n: nat)
      ensures n == |Replay(rows)| <= |rows|
    {
      var state := ReplayState();
      LiveAtMostRows(rows);
      n := |state|;
    }

    method Remove(id: ApprovalId, fault: Append, swaps: bool, dies: bool)
      returns (r: Reply<Option<PendingRecord>>, ghost k: Compaction)
      requires up
      modifies this
      ensures (Model(), r) == Removed(settings, old(Model()), id, fault, k)
    {
      var state := ReplayState();
      k := SomeCompaction(state, swaps, dies);
      if id !in state { return Answer(Ok(None)), k; }
      var ack := Append(Delete(id), fault);
      if ack.Crash? { return Crash, k; }
      if ack.r.Err? { return Answer(Err(ack.r.error)), k; }
      var alive;
      alive, k := MaybeAutoCompact(swaps, dies);
      r := if alive then Answer(Ok(Some(state[id]))) else Crash;
    }

    method EvictExpired(now: Timestamp, faults: ApprovalId -> Append, swaps: bool, dies: bool)
      returns (r: Reply<nat>, ghost order: seq<ApprovalId>, ghost k: Compaction)
      requires up
      modifies this
      ensures Enumerates(order, Expired(Replay(old(rows)), now))
      ensures (Model(), r) == Evicted(settings, old(Model()), now, order, faults, k)
    {
      var state := ReplayState();
      k := SomeCompaction(state, swaps, dies);
      var expired := ListOf(Expired(state, now));
      order := expired;
      for i := 0 to |expired|
        invariant up
        invariant Buried(old(Model()), expired, faults) == Buried(Model(), expired[i..], faults)
      {
        var ack := Append(Delete(expired[i]), faults(expired[i]));
        assert expired[i..][1..] == expired[i + 1..];
        if ack.Crash? { return Crash, order, k; }
        if ack.r.Err? { return Answer(Err(ack.r.error)), order, k; }
      }
      r := Answer(Ok(|expired|));
      if expired != [] {
        var alive;
        alive, k := MaybeAutoCompact(swaps, dies);
        if !alive { r := Crash; }
      }
    }
  }

  // One put per live record, in the order some walk visits them.
  method LiveRows(state: Records) returns (kept: seq<Row>, ghost order: seq<ApprovalId>)
    ensures Enumerates(order, state.Keys) && kept == Compacted(state, order)
  {
    kept, order := [], [];
    var rest := state.Keys;
    while rest != {}
      invariant rest <= state.Keys && Enumerates(order, state.Keys - rest)
      invariant kept == Compacted(state, order)
      decreases rest
    {
      var id :| id in rest;
      kept := kept + [Row(|kept|, Put(state[id]))];
      ghost var longer := order + [id];
      assert longer[..|order|] == order;
      order := longer;
      rest := rest - {id};
    }
  }

  // A set's elements in the order some walk visits them.
  method ListOf(ids: set<ApprovalId>) returns (order: seq<ApprovalId>)
    ensures Enumerates(order, ids)
  {
    order := [];
    var rest := ids;
    while rest != {}
      invariant rest <= ids && Enumerates(order, ids - rest)
      decreases rest
    {
      var id :| id in rest;
      ghost var before := order;
      order := order + [id];
      assert order[..|before|] == before;
      rest := rest - {id};
    }
  }

  ghost method SomeCompaction(state: Records, swaps: bool, dies: bool) returns (k: Compaction)
    ensures k.swaps == swaps && k.dies == dies && Enumerates(k.order, state.Keys)
  {
    var order := ListOfGhost(state.Keys);
    k := Compaction(order, swaps, dies);
  }

  lemma {:induction false} ListOfGhost(ids: set<ApprovalId>) returns (order: seq<ApprovalId>)
    ensures Enumerates(order, ids)
    decreases ids
  {
    order := [];
    if ids != {} {
      var id :| id in ids;
      order := ListOfGhost(ids - {id});
      ghost var before := order;
      order := order + [id];
      assert order[..|before|] == before;
    }
  }
}
