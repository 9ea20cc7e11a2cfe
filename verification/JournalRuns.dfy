// Whole histories of the journalled store: it is the plain map store, its log
// stays short, and compaction pays for itself.
module JournalRuns {
  import opened Types
  import opened PendingStore
  import opened JournalStore
  import A = Approvals

  datatype StoreOp =
    | OpInsert(rec: PendingRecord, f: Append, k: Compaction)
    | OpGet(id: ApprovalId)
    | OpRemove(id: ApprovalId, f: Append, k: Compaction)
    | OpEvict(now: Timestamp, order: seq<ApprovalId>, fs: ApprovalId -> Append, k: Compaction)
    | OpCompact(k: Compaction)
    | OpReopen

  function Step(c: Settings, s: Store, op: StoreOp): Store {
    if op.OpReopen? then Reopened(s)
    else if !s.up then s
    else
      match op
      case OpInsert(rec, f, k) => Inserted(c, s, rec, f, k).0
      case OpGet(_) => s
      case OpRemove(id, f, k) => Removed(c, s, id, f, k).0
      case OpEvict(now, order, fs, k) => Evicted(c, s, now, order, fs, k).0
      case OpCompact(k) => CompactTo(s, k)
  }

  function Run(c: Settings, s: Store, ops: seq<StoreOp>): Store
    decreases |ops|
  {
    if ops == [] then s else Run(c, Step(c, s, ops[0]), ops[1..])
  }

  // ----- what the plain map store does, given which appends land -----

  // The tombstones of an eviction that reach the log.
  function Reached(order: seq<ApprovalId>, f: ApprovalId -> Append): set<ApprovalId>
    decreases |order|
  {
    if order == [] || !f(order[0]).Lands() then {}
    else if f(order[0]).Unacked? then {order[0]}
    else {order[0]} + Reached(order[1..], f)
  }

  // Compacting and reopening are nothing to a map.
  function MapStep(m: Records, capacity: nat, op: StoreOp): Records {
    match op
    case OpInsert(rec, f, _) =>
      var inserted := InsertInto(m, capacity, rec);
      if f.Lands() && inserted.Ok? then inserted.value else m
    case OpRemove(id, f, _) => if f.Lands() then m - {id} else m
    case OpEvict(now, order, fs, _) => if Enumerates(order, Expired(m, now)) then m - Reached(order, fs) else m
    case _ => m
  }

  function RunMap(m: Records, capacity: nat, ops: seq<StoreOp>): Records
    decreases |ops|
  {
    if ops == [] then m else RunMap(MapStep(m, capacity, ops[0]), capacity, ops[1..])
  }

  // ----- refinement -----

  lemma AppendLive(s: Store, e: Entry, f: Append)
    ensures AppendMarker(s, e, f).Live() == if f.Lands() then Absorb(s.Live(), e) else s.Live()
  {
    ReplayAppend(s.rows, Row(s.next, e));
  }

  lemma CompactLive(s: Store, k: Compaction)
    ensures CompactTo(s, k).Live() == s.Live()
  {
    if Enumerates(k.order, s.Live().Keys) { CompactionKeepsState(s.Live(), k.order); }
  }

  lemma LoggedLive<T>(c: Settings, s: Store, e: Entry, f: Append, k: Compaction, answer: T)
    ensures Logged(c, s, e, f, k, answer).0.Live() == if f.Lands() then Absorb(s.Live(), e) else s.Live()
  {
    AppendLive(s, e, f);
    CompactLive(AppendMarker(s, e, f), k);
  }

  lemma {:induction false} BuriedLive(s: Store, order: seq<ApprovalId>, f: ApprovalId -> Append)
    ensures Buried(s, order, f).0.Live() == s.Live() - Reached(order, f)
    decreases |order|
  {
    if order != [] {
      AppendLive(s, Delete(order[0]), f(order[0]));
      if f(order[0]).Written? { BuriedLive(AppendMarker(s, Delete(order[0]), f(order[0])), order[1..], f); }
    }
  }

  lemma EvictedLive(c: Settings, s: Store, now: Timestamp, order: seq<ApprovalId>, f: ApprovalId -> Append,
                    k: Compaction)
    ensures Evicted(c, s, now, order, f, k).0.Live()
            == if Enumerates(order, Expired(s.Live(), now)) then s.Live() - Reached(order, f) else s.Live()
  {
    BuriedLive(s, order, f);
    CompactLive(Buried(s, order, f).0, k);
  }

  lemma StepLive(c: Settings, s: Store, op: StoreOp)
    requires s.up
    ensures Step(c, s, op).Live() == MapStep(s.Live(), c.capacity, op)
  {
    match op
    case OpInsert(rec, f, k) => LoggedLive(c, s, Put(rec), f, k, ());
    case OpRemove(id, f, k) => LoggedLive(c, s, Delete(id), f, k, Find(s.Live(), id));
    case OpEvict(now, order, fs, k) => EvictedLive(c, s, now, order, fs, k);
    case OpCompact(k) => CompactLive(s, k);
    case OpGet(_) =>
    case OpReopen =>
  }

  // A caller reopens a dead store before using it again.
  predicate Driven(c: Settings, s: Store, ops: seq<StoreOp>)
    decreases |ops|
  {
    ops == [] || ((s.up || ops[0].OpReopen?) && Driven(c, Step(c, s, ops[0]), ops[1..]))
  }

  // After any history -- failed and unacknowledged appends, compactions in any
  // order that succeed, fail or die halfway, reopenings -- the log replays to
  // what the plain map store would hold.
  lemma {:induction false} JournalRefinesMap(c: Settings, s: Store, ops: seq<StoreOp>)
    requires Driven(c, s, ops)
    ensures Run(c, s, ops).Live() == RunMap(s.Live(), c.capacity, ops)
    decreases |ops|
  {
    if ops != [] {
      if s.up { StepLive(c, s, ops[0]); }
      JournalRefinesMap(c, Step(c, s, ops[0]), ops[1..]);
    }
  }

  // And it answers as the map store answers, whenever its append is
  // acknowledged and the compaction that may follow does not kill it.
  lemma InsertAnswersAsMap(c: Settings, s: Store, rec: PendingRecord, k: Compaction)
    requires s.up && Inserted(c, s, rec, Written, k).0.up
    ensures var (s', r) := Inserted(c, s, rec, Written, k);
            match InsertInto(s.Live(), c.capacity, rec)
            case Ok(m) => r == Answer(Ok(())) && s'.Live() == m
            case Err(e) => r == Answer(Err(e)) && s' == s
  {
    LoggedLive(c, s, Put(rec), Written, k, ());
  }

  lemma RemoveAnswersAsMap(c: Settings, s: Store, id: ApprovalId, k: Compaction)
    requires s.up && Removed(c, s, id, Written, k).0.up
    ensures var (s', r) := Removed(c, s, id, Written, k);
            r == Answer(Ok(Find(s.Live(), id))) && s'.Live() == s.Live() - {id}
  {
    LoggedLive(c, s, Delete(id), Written, k, Find(s.Live(), id));
  }

  lemma {:induction false} BuriedAll(s: Store, order: seq<ApprovalId>, f: ApprovalId -> Append)
    requires forall id :: id in order ==> f(id).Written?
    ensures Reached(order, f) == set id | id in order
    ensures Buried(s, order, f).1 == Answer(Ok(())) && Buried(s, order, f).0.up == s.up
    decreases |order|
  {
    if order != [] {
      BuriedAll(AppendMarker(s, Delete(order[0]), f(order[0])), order[1..], f);
      assert order == [order[0]] + order[1..];
    }
  }

  lemma EvictAnswersAsMap(c: Settings, s: Store, now: Timestamp, order: seq<ApprovalId>, f: ApprovalId -> Append,
                          k: Compaction)
    requires s.up && Enumerates(order, Expired(s.Live(), now)) && Evicted(c, s, now, order, f, k).0.up
    requires forall id :: id in order ==> f(id).Written?
    ensures var (s', r) := Evicted(c, s, now, order, f, k);
            r == Answer(Ok(|Expired(s.Live(), now)|)) && s'.Live() == s.Live() - Expired(s.Live(), now)
  {
    BuriedAll(s, order, f);
    EnumerationLength(order, Expired(s.Live(), now));
    EvictedLive(c, s, now, order, f, k);
    assert Reached(order, f) == Expired(s.Live(), now);
  }

  // ----- what one operation does to the log, and answers, for every fault -----

  // The count at which automatic compaction sets in.
  predicate MustCompact(rows: nat, live: nat, factor: nat) {
    && factor > 0 && rows >= 64
    && rows > (if factor * live > 18446744073709551615 then 18446744073709551615 else factor * live)
  }

  // After a compaction: one put per live record, numbered from zero, if a new
  // log took the old one's place; the old log untouched otherwise.
  predicate WasCompacted(rows: seq<Row>, next: nat, live: Records, s': Store, k: Compaction) {
    if Enumerates(k.order, live.Keys) && k.swaps then
      && |s'.rows| == s'.next == |k.order|
      && forall i :: 0 <= i < |k.order| ==> s'.rows[i] == Row(i, Put(live[k.order[i]]))
    else
      s'.rows == rows && s'.next == next
  }

  lemma CompactExactly(s: Store, k: Compaction)
    requires s.up
    ensures var s' := CompactTo(s, k);
            WasCompacted(s.rows, s.next, s.Live(), s', k)
            && (s'.up <==> Enumerates(k.order, s.Live().Keys) && !k.dies)
  {
    hide Replay;
  }

  // Behind an acknowledged row: compaction exactly at the threshold, whose
  // failure the caller does not see unless it is a death.
  predicate WasFinished<T(==)>(rows: seq<Row>, next: nat, live: Records, s': Store, r: Reply<T>, factor: nat,
                               k: Compaction, answer: T)
  {
    && (s'.up <==> r.Answer?)
    && if MustCompact(|rows|, |live|, factor) then
         && WasCompacted(rows, next, live, s', k)
         && r == if Enumerates(k.order, live.Keys) && !k.dies then Answer(Ok(answer)) else Crash
       else
         s'.rows == rows && s'.next == next && r == Answer(Ok(answer))
  }

  lemma FinishedExactly<T>(s: Store, factor: nat, k: Compaction, answer: T)
    requires s.up
    ensures var (s', r) := Finished(s, factor, k, answer);
            WasFinished(s.rows, s.next, s.Live(), s', r, factor, k, answer)
  {
    hide WasCompacted, Enumerates, CompactTo, Replay;
    CompactExactly(s, k);
  }

  // A row is written under the next number; a refused or unacknowledged append
  // is reported.
  predicate WasLogged<T(==)>(c: Settings, s: Store, s': Store, r: Reply<T>, e: Entry, f: Append, k: Compaction,
                             answer: T)
  {
    var rows, live := s.rows + [Row(s.next, e)], Absorb(s.Live(), e);
    && (s'.up <==> r.Answer?)
    && match f
       case Died => r.Crash? && s'.rows == s.rows
       case Refused => r == Answer(Err(Proof("io"))) && s'.rows == s.rows && s'.next == s.next + 1
       case Unacked => r == Answer(Err(Proof("io"))) && s'.rows == rows && s'.next == s.next + 1
       case Written => WasFinished(rows, s.next + 1, live, s', r, c.factor, k, answer)
  }

  lemma LoggedExactly<T>(c: Settings, s: Store, e: Entry, f: Append, k: Compaction, answer: T)
    requires s.up
    ensures var (s', r) := Logged(c, s, e, f, k, answer); WasLogged(c, s, s', r, e, f, k, answer)
  {
    hide Absorb, WasCompacted, Enumerates, Finished;
    AppendLive(s, e, f);
    FinishedExactly(AppendMarker(s, e, Written), c.factor, k, answer);
  }

  // An insertion is refused only for a new record in a full store, and then
  // writes nothing.
  lemma InsertExactly(c: Settings, s: Store, rec: PendingRecord, f: Append, k: Compaction)
    requires s.up
    ensures var (s', r) := Inserted(c, s, rec, f, k);
            if rec.Id() !in s.Live() && |s.Live()| >= c.capacity then
              s' == s && r == Answer(Err(PolicyDenied(Show(c.capacity))))
            else WasLogged(c, s, s', r, Put(rec), f, k, ())
  {
    hide Logged, WasLogged;
    LoggedExactly(c, s, Put(rec), f, k, ());
  }

  // A removal that finds nothing writes nothing.
  lemma RemoveExactly(c: Settings, s: Store, id: ApprovalId, f: Append, k: Compaction)
    requires s.up
    ensures var (s', r) := Removed(c, s, id, f, k);
            if id !in s.Live() then s' == s && r == Answer(Ok(None))
            else WasLogged(c, s, s', r, Delete(id), f, k, Some(s.Live()[id]))
  {
    hide Logged, WasLogged;
    if id in s.Live() { LoggedExactly(c, s, Delete(id), f, k, Some(s.Live()[id])); }
  }

  // The m first tombstones of an eviction are acknowledged, and no more.
  predicate AckedUpTo(order: seq<ApprovalId>, f: ApprovalId -> Append, m: nat) {
    && m <= |order| && (forall i :: 0 <= i < m ==> f(order[i]).Written?)
    && (m < |order| ==> !f(order[m]).Written?)
  }

  // The log has grown by n tombstones, in order, under the next numbers.
  predicate HasBuried(rows: seq<Row>, rows': seq<Row>, next: nat, order: seq<ApprovalId>, n: nat) {
    && n <= |order| && |rows'| == |rows| + n && rows'[..|rows|] == rows
    && forall i :: 0 <= i < n ==> rows'[|rows| + i] == Row(next + i, Delete(order[i]))
  }

  lemma BuriedNext(rows: seq<Row>, rows': seq<Row>, next: nat, order: seq<ApprovalId>, n: nat)
    requires order != [] && HasBuried(rows + [Row(next, Delete(order[0]))], rows', next + 1, order[1..], n)
    ensures HasBuried(rows, rows', next, order, n + 1)
  {
    var front := rows + [Row(next, Delete(order[0]))];
    assert rows'[..|rows|] == rows'[..|front|][..|rows|] == rows;
    forall i | 0 <= i < n + 1 ensures rows'[|rows| + i] == Row(next + i, Delete(order[i])) {
      if i == 0 {
        assert rows'[|rows|] == rows'[..|front|][|rows|];
      } else {
        assert rows'[|front| + (i - 1)] == Row(next + 1 + (i - 1), Delete(order[1..][i - 1]));
      }
    }
  }

  lemma {:induction false} BuriedExactly(s: Store, order: seq<ApprovalId>, f: ApprovalId -> Append, m: nat)
    requires s.up && AckedUpTo(order, f, m)
    ensures var (s', r) := Buried(s, order, f);
            && (s'.up <==> r.Answer?)
            && if m == |order| then
                 r == Answer(Ok(())) && HasBuried(s.rows, s'.rows, s.next, order, m) && s'.next == s.next + m
               else
                 && HasBuried(s.rows, s'.rows, s.next, order, if f(order[m]).Unacked? then m + 1 else m)
                 && r == if f(order[m]).Died? then Crash else Answer(Err(Proof("io")))
    decreases |order|
  {
    hide HasBuried;
    if m > 0 {
      var s1 := AppendMarker(s, Delete(order[0]), f(order[0]));
      BuriedExactly(s1, order[1..], f, m - 1);
      var n := if m < |order| && f(order[m]).Unacked? then m else m - 1;
      BuriedNext(s.rows, Buried(s1, order[1..], f).0.rows, s.next, order, n);
    } else {
      NothingBuried(s, order);
    }
  }

  lemma NothingBuried(s: Store, order: seq<ApprovalId>)
    ensures HasBuried(s.rows, s.rows, s.next, order, 0)
    ensures order != [] ==> HasBuried(s.rows, s.rows + [Row(s.next, Delete(order[0]))], s.next, order, 1)
  {
    assert s.rows[..|s.rows|] == s.rows;
  }

  // An eviction buries the expired records in order.  The first append that is
  // not acknowledged ends it, with that append's fate ...
  lemma EvictCutShort(c: Settings, s: Store, now: Timestamp, order: seq<ApprovalId>, f: ApprovalId -> Append,
                      k: Compaction, m: nat)
    requires s.up && Enumerates(order, Expired(s.Live(), now)) && AckedUpTo(order, f, m) && m < |order|
    ensures var (s', r) := Evicted(c, s, now, order, f, k);
            && HasBuried(s.rows, s'.rows, s.next, order, if f(order[m]).Unacked? then m + 1 else m)
            && r == if f(order[m]).Died? then Crash else Answer(Err(Proof("io")))
  {
    hide HasBuried, Replay, Buried, Finished;
    BuriedExactly(s, order, f, m);
  }

  // ... and if there is none it answers their number, after a compaction exactly
  // at the threshold.
  lemma EvictExactly(c: Settings, s: Store, now: Timestamp, order: seq<ApprovalId>, f: ApprovalId -> Append,
                     k: Compaction)
    requires s.up && Enumerates(order, Expired(s.Live(), now)) && AckedUpTo(order, f, |order|)
    ensures var (s', r) := Evicted(c, s, now, order, f, k);
            var live := s.Live() - Expired(s.Live(), now);
            exists rows ::
              && HasBuried(s.rows, rows, s.next, order, |order|)
              && if order == [] then s'.rows == rows && r == Answer(Ok(0))
                 else WasFinished(rows, s.next + |order|, live, s', r, c.factor, k, |order|)
  {
    hide HasBuried, WasFinished, Replay, Buried, Finished, Reached;
    BuriedExactly(s, order, f, |order|);
    var s1 := Buried(s, order, f).0;
    BuriedLive(s, order, f);
    BuriedAllOf(s, order, f);
    assert s1.Live() == s.Live() - Expired(s.Live(), now);
    FinishedExactly(s1, c.factor, k, |order|);
    assert HasBuried(s.rows, s1.rows, s.next, order, |order|);
  }

  lemma BuriedAllOf(s: Store, order: seq<ApprovalId>, f: ApprovalId -> Append)
    requires AckedUpTo(order, f, |order|)
    ensures Reached(order, f) == set id | id in order
  {
    BuriedAll(s, order, f);
  }

  // ----- capacity -----

  lemma MapKeepsCapacity(m: Records, capacity: nat, op: StoreOp)
    requires |m| <= capacity
    ensures |MapStep(m, capacity, op)| <= capacity
  {
    var m' := MapStep(m, capacity, op);
    if op.OpInsert? && m' != m {
      assert m'.Keys == m.Keys + {op.rec.Id()};
      assert |m'.Keys| == |m'| && |m.Keys| == |m|;
      AbsorbSize(m, Put(op.rec));
    } else {
      FewerKeys(m, m');
    }
  }

  lemma FewerKeys(m: Records, m': Records)
    requires m'.Keys <= m.Keys
    ensures |m'| <= |m|
  {
    assert m.Keys == m'.Keys + (m.Keys - m'.Keys);
    assert |m'.Keys| == |m'| && |m.Keys| == |m|;
  }

  // The number of live records never exceeds the cap.
  lemma {:induction false} CapacityHolds(c: Settings, s: Store, ops: seq<StoreOp>)
    requires |s.Live()| <= c.capacity
    ensures |Run(c, s, ops).Live()| <= c.capacity
    decreases |ops|
  {
    if ops != [] {
      if s.up { StepLive(c, s, ops[0]); }
      MapKeepsCapacity(s.Live(), c.capacity, ops[0]);
      CapacityHolds(c, Step(c, s, ops[0]), ops[1..]);
    }
  }

  // ----- the log stays short -----

  function Max(a: nat, b: nat): nat { if a < b then b else a }

  // The longest log an operation may leave behind.
  function RowBound(factor: nat, live: nat): nat {
    Max(AUTO_COMPACT_MIN_ROWS - 1, SaturatingMul(factor, live))
  }

  predicate Bounded(c: Settings, s: Store) {
    |s.rows| <= RowBound(c.factor, |s.Live()|)
  }

  // A row count is a machine word.
  predicate Fits(s: Store) { |s.rows| <= USIZE_MAX }

  lemma SaturatingMulGrows(factor: nat, n: nat)
    requires factor >= 1 && n <= USIZE_MAX
    ensures n <= SaturatingMul(factor, n)
  {
    assert factor * n >= n;
  }

  lemma CompactRows(s: Store, k: Compaction)
    requires k.swaps && Enumerates(k.order, s.Live().Keys)
    ensures var s' := CompactTo(s, k);
            |s'.rows| == |s.Live()| == |s'.Live()| && s'.rewritten == s.rewritten + |s.Live()|
  {
    CompactionKeepsState(s.Live(), k.order);
    EnumerationLength(k.order, s.Live().Keys);
    assert |s.Live().Keys| == |s.Live()|;
  }

  lemma AutoCompactBounds(c: Settings, s: Store, k: Compaction)
    requires c.factor >= 1 && Fits(s)
    requires NeedsCompaction(s, c.factor) ==> k.swaps && Enumerates(k.order, s.Live().Keys)
    ensures Bounded(c, AutoCompact(s, c.factor, k))
  {
    if NeedsCompaction(s, c.factor) {
      CompactRows(s, k);
      LiveAtMostRows(s.rows);
      SaturatingMulGrows(c.factor, |s.Live()|);
    }
  }

  // The compaction an operation may call for succeeds.
  predicate Compacts(s: Store, k: Compaction) {
    k.swaps && !k.dies && Enumerates(k.order, s.Live().Keys)
  }

  // The store as it stands when the operation has written its rows and turns
  // to compaction, if its appends are all acknowledged.
  function BeforeCompaction(s: Store, op: StoreOp): Store {
    match op
    case OpInsert(rec, _, _) => AppendMarker(s, Put(rec), Written)
    case OpRemove(id, _, _) => AppendMarker(s, Delete(id), Written)
    case OpEvict(_, order, fs, _) => Buried(s, order, fs).0
    case _ => s
  }

  // An operation completes when no append of it fails and the compaction it
  // may trigger succeeds; the row count it reaches is a machine word.
  predicate Completes(s: Store, op: StoreOp) {
    && Fits(BeforeCompaction(s, op))
    && match op
       case OpInsert(_, f, k) => f.Written? && Compacts(BeforeCompaction(s, op), k)
       case OpRemove(_, f, k) => f.Written? && Compacts(BeforeCompaction(s, op), k)
       case OpEvict(now, order, fs, k) =>
         && (forall id :: id in order ==> fs(id).Written?)
         && Enumerates(order, Expired(s.Live(), now)) && Compacts(BeforeCompaction(s, op), k)
       case OpCompact(k) => Compacts(s, k)
       case _ => true
  }

  // A completed operation that wrote anything leaves the log within the bound,
  // however long it was before; one that wrote nothing leaves it as it was.
  lemma CompletedIsBounded(c: Settings, s: Store, op: StoreOp)
    requires s.up && c.factor >= 1 && Completes(s, op)
    ensures Bounded(c, Step(c, s, op)) || Step(c, s, op).rows == s.rows
  {
    hide Replay, SaturatingMul, Compacted;
    match op
    case OpInsert(_, f, k) => AutoCompactBounds(c, BeforeCompaction(s, op), k);
    case OpRemove(_, f, k) => AutoCompactBounds(c, BeforeCompaction(s, op), k);
    case OpEvict(_, order, fs, k) =>
      BuriedAll(s, order, fs);
      AutoCompactBounds(c, BeforeCompaction(s, op), k);
    case OpCompact(k) =>
      CompactRows(s, k);
      LiveAtMostRows(s.rows);
      SaturatingMulGrows(c.factor, |s.Live()|);
    case OpGet(_) =>
    case OpReopen =>
  }

  predicate AllComplete(c: Settings, s: Store, ops: seq<StoreOp>)
    decreases |ops|
  {
    ops == [] || (Completes(s, ops[0]) && AllComplete(c, Step(c, s, ops[0]), ops[1..]))
  }

  // So a log opened within the bound stays within it.
  lemma {:induction false} LogStaysBounded(c: Settings, s: Store, ops: seq<StoreOp>)
    requires c.factor >= 1 && Bounded(c, s) && AllComplete(c, s, ops)
    ensures Bounded(c, Run(c, s, ops))
    decreases |ops|
  {
    if ops != [] {
      if s.up { CompletedIsBounded(c, s, ops[0]); }
      LogStaysBounded(c, Step(c, s, ops[0]), ops[1..]);
    }
  }

  // ----- compaction pays for itself -----

  // Rows that no longer matter: tombstones, replaced puts, foreign rows.
  function Dead(s: Store): int { |s.rows| - |s.Live()| }

  // Each appended row makes at most two rows dead, and each automatic
  // compaction rewrites fewer rows than it buries.
  predicate PaysFor(s: Store, s': Store) {
    s'.rewritten + Dead(s') - (s.rewritten + Dead(s)) <= 2 * (s'.appended - s.appended)
  }

  lemma AppendPays(s: Store, e: Entry, f: Append)
    ensures PaysFor(s, AppendMarker(s, e, f))
    ensures |AppendMarker(s, e, f).rows| <= |s.rows| + 1
  {
    AppendLive(s, e, f);
    AbsorbSize(s.Live(), e);
  }

  // A log longer than the compaction threshold is more than half dead.
  lemma TwiceFits(factor: nat, live: nat, rows: nat)
    requires factor >= 2 && rows <= USIZE_MAX && rows > SaturatingMul(factor, live)
    ensures 2 * live < rows
  {
    assert factor * live >= 2 * live;
  }

  lemma AutoCompactPays(s: Store, factor: nat, k: Compaction)
    requires factor != 1 && Fits(s)
    ensures PaysFor(s, AutoCompact(s, factor, k))
  {
    if NeedsCompaction(s, factor) && k.swaps && Enumerates(k.order, s.Live().Keys) {
      CompactRows(s, k);
      LiveAtMostRows(s.rows);
      TwiceFits(factor, |s.Live()|, |s.rows|);
    }
  }

  lemma {:induction false} BuriedPays(s: Store, order: seq<ApprovalId>, f: ApprovalId -> Append)
    ensures PaysFor(s, Buried(s, order, f).0)
    decreases |order|
  {
    if order != [] {
      AppendPays(s, Delete(order[0]), f(order[0]));
      if f(order[0]).Written? { BuriedPays(AppendMarker(s, Delete(order[0]), f(order[0])), order[1..], f); }
    }
  }

  lemma LoggedPays<T>(c: Settings, s: Store, e: Entry, f: Append, k: Compaction, answer: T)
    requires c.factor != 1 && Fits(AppendMarker(s, e, Written))
    ensures PaysFor(s, Logged(c, s, e, f, k, answer).0)
  {
    AppendPays(s, e, f);
    AutoCompactPays(AppendMarker(s, e, Written), c.factor, k);
  }

  lemma StepPays(c: Settings, s: Store, op: StoreOp)
    requires c.factor != 1 && !op.OpCompact? && Fits(BeforeCompaction(s, op))
    ensures PaysFor(s, Step(c, s, op))
  {
    if s.up {
      match op
      case OpInsert(rec, f, k) => LoggedPays(c, s, Put(rec), f, k, ());
      case OpRemove(id, f, k) => LoggedPays(c, s, Delete(id), f, k, Find(s.Live(), id));
      case OpEvict(_, order, fs, k) =>
        BuriedPays(s, order, fs);
        AutoCompactPays(BeforeCompaction(s, op), c.factor, k);
      case OpGet(_) =>
      case OpReopen =>
    }
  }

  // Only automatic compaction, and row counts that are machine words.
  predicate OnlyAutomatic(c: Settings, s: Store, ops: seq<StoreOp>)
    decreases |ops|
  {
    ops == [] || (!ops[0].OpCompact? && Fits(BeforeCompaction(s, ops[0]))
                  && OnlyAutomatic(c, Step(c, s, ops[0]), ops[1..]))
  }

  // Unless the factor is 1, over any history, whatever fails in it, the rows
  // rewritten are at most twice the rows appended plus the rows dead at the start.
  lemma {:induction false} CompactionIsAmortised(c: Settings, s: Store, ops: seq<StoreOp>)
    requires c.factor != 1 && OnlyAutomatic(c, s, ops)
    ensures var s' := Run(c, s, ops);
            && PaysFor(s, s')
            && s'.rewritten - s.rewritten <= 2 * (s'.appended - s.appended) + Dead(s)
    decreases |ops|
  {
    if ops != [] {
      StepPays(c, s, ops[0]);
      CompactionIsAmortised(c, Step(c, s, ops[0]), ops[1..]);
    }
    LiveAtMostRows(Run(c, s, ops).rows);
  }

  // A log of n live rows and no dead ones, from copies of one record.
  function CopyOf(rec: PendingRecord, id: ApprovalId): PendingRecord { rec.(approval := rec.approval.(id := id)) }

  function Full(rec: PendingRecord, n: nat): (rows: seq<Row>)
    ensures |rows| == n
  {
    if n == 0 then [] else Full(rec, n - 1) + [Row(n - 1, Put(CopyOf(rec, n - 1)))]
  }

  lemma {:induction false} FullIsLive(rec: PendingRecord, n: nat)
    ensures |Replay(Full(rec, n))| == n && forall id: nat :: id in Replay(Full(rec, n)) <==> id < n
  {
    if n > 0 {
      FullIsLive(rec, n - 1);
      ReplayAppend(Full(rec, n - 1), Row(n - 1, Put(CopyOf(rec, n - 1))));
      AbsorbSize(Replay(Full(rec, n - 1)), Put(CopyOf(rec, n - 1)));
    }
  }

  function FullStore(rec: PendingRecord): Store {
    Store(Full(rec, AUTO_COMPACT_MIN_ROWS), AUTO_COMPACT_MIN_ROWS, true, 0, 0)
  }

  // With factor 1 a single acknowledged replacement on a log of 64 live rows and
  // no dead one appends 1 row and rewrites 64.
  lemma FactorOneOverpays(c: Settings, rec: PendingRecord) returns (k: Compaction)
    requires c.factor == 1
    ensures var s, op := FullStore(rec), OpInsert(CopyOf(rec, 0), Written, k);
            && OnlyAutomatic(c, s, [op]) && Dead(s) == 0
            && Run(c, s, [op]).appended == 1 && Run(c, s, [op]).rewritten == AUTO_COMPACT_MIN_ROWS
            && !PaysFor(s, Run(c, s, [op]))
  {
    hide Full, Compacted, Enumerates;
    var s, n := FullStore(rec), AUTO_COMPACT_MIN_ROWS;
    FullIsLive(rec, n);
    var order := ListOfGhost(s.Live().Keys);
    k := Compaction(order, true, false);
    var op := OpInsert(CopyOf(rec, 0), Written, k);
    var s1 := AppendMarker(s, Put(CopyOf(rec, 0)), Written);
    AppendLive(s, Put(CopyOf(rec, 0)), Written);
    AbsorbSize(s.Live(), Put(CopyOf(rec, 0)));
    assert s1.Live().Keys == s.Live().Keys;
    CompactRows(s1, k);
    assert Step(c, s, op) == CompactTo(s1, k);
    assert [op][1..] == [];
    assert Run(c, s, [op]) == Run(c, Step(c, s, op), []);
  }

  // Automatic compaction pays for itself in every history.
  ghost predicate AlwaysPays(c: Settings) {
    forall s: Store, ops: seq<StoreOp> :: OnlyAutomatic(c, s, ops) ==> PaysFor(s, Run(c, s, ops))
  }

  // It does if and only if the factor is not 1; factor 0 never compacts.
  lemma AmortisedExactly(c: Settings)
    ensures AlwaysPays(c) <==> c.factor != 1
  {
    if c.factor == 1 {
      var rec := PendingRecord(0, A.Approval(0, 0, [], 0, 0, false), "", 0);
      var k := FactorOneOverpays(c, rec);
      assert OnlyAutomatic(c, FullStore(rec), [OpInsert(CopyOf(rec, 0), Written, k)]);
    } else {
      forall s: Store, ops: seq<StoreOp> | OnlyAutomatic(c, s, ops) ensures PaysFor(s, Run(c, s, ops)) {
        CompactionIsAmortised(c, s, ops);
      }
    }
  }

  // ----- step numbers: when they are 0, 1, 2, ... -----

  predicate TightRows(rows: seq<Row>) { forall i :: 0 <= i < |rows| ==> rows[i].step == i }

  // Row i carries step i, and the counter of a live store points past the end.
  predicate Tight(s: Store) { TightRows(s.rows) && (s.up ==> s.next == |s.rows|) }

  // How an eviction's tombstones end: the first append that is not acknowledged.
  function FirstFailure(order: seq<ApprovalId>, f: ApprovalId -> Append): Option<Append>
    decreases |order|
  {
    if order == [] then None
    else if f(order[0]).Written? then FirstFailure(order[1..], f)
    else Some(f(order[0]))
  }

  // The operation gets as far as an append, and that append is refused.
  predicate SpendsNumber(c: Settings, s: Store, op: StoreOp) {
    s.up &&
    match op
    case OpInsert(rec, f, _) => f.Refused? && InsertInto(s.Live(), c.capacity, rec).Ok?
    case OpRemove(id, f, _) => f.Refused? && id in s.Live()
    case OpEvict(now, order, fs, _) => Enumerates(order, Expired(s.Live(), now))
      && FirstFailure(order, fs) == Some(Refused)
    case _ => false
  }

  lemma CompactTight(s: Store, k: Compaction)
    requires Tight(s)
    ensures Tight(CompactTo(s, k))
  {
  }

  lemma LoggedTight<T>(c: Settings, s: Store, e: Entry, f: Append, k: Compaction, answer: T)
    requires Tight(s) && s.up
    ensures Tight(Logged(c, s, e, f, k, answer).0) <==> !f.Refused?
  {
    hide Replay;
    if f.Written? { CompactTight(AppendMarker(s, e, f), k); }
  }

  lemma {:induction false} BuriedTight(s: Store, order: seq<ApprovalId>, f: ApprovalId -> Append)
    requires Tight(s) && s.up
    ensures Tight(Buried(s, order, f).0) <==> FirstFailure(order, f) != Some(Refused)
    ensures Buried(s, order, f).1.Answer? && Buried(s, order, f).1.r.Ok? <==> FirstFailure(order, f).None?
    ensures FirstFailure(order, f).None? ==> Buried(s, order, f).0.up
    decreases |order|
  {
    if order != [] && f(order[0]).Written? {
      BuriedTight(AppendMarker(s, Delete(order[0]), f(order[0])), order[1..], f);
    }
  }

  lemma EvictedTight(c: Settings, s: Store, now: Timestamp, order: seq<ApprovalId>, f: ApprovalId -> Append,
                     k: Compaction)
    requires Tight(s) && s.up && Enumerates(order, Expired(s.Live(), now))
    ensures Tight(Evicted(c, s, now, order, f, k).0) <==> FirstFailure(order, f) != Some(Refused)
  {
    hide Replay, Buried, CompactTo;
    BuriedTight(s, order, f);
    var s1 := Buried(s, order, f).0;
    if FirstFailure(order, f).None? { CompactTight(s1, k); }
  }

  // An operation keeps the numbering tight exactly when it spends no number.
  lemma StepTight(c: Settings, s: Store, op: StoreOp)
    requires Tight(s)
    ensures Tight(Step(c, s, op)) <==> !SpendsNumber(c, s, op)
  {
    hide Replay;
    if s.up {
      match op
      case OpInsert(rec, f, k) => LoggedTight(c, s, Put(rec), f, k, ());
      case OpRemove(id, f, k) => LoggedTight(c, s, Delete(id), f, k, Find(s.Live(), id));
      case OpEvict(now, order, fs, k) =>
        if Enumerates(order, Expired(s.Live(), now)) { EvictedTight(c, s, now, order, fs, k); }
      case OpCompact(k) => CompactTight(s, k);
      case OpGet(_) =>
      case OpReopen =>
    }
  }

  predicate NeverSpends(c: Settings, s: Store, ops: seq<StoreOp>)
    decreases |ops|
  {
    ops == [] || (!SpendsNumber(c, s, ops[0]) && NeverSpends(c, Step(c, s, ops[0]), ops[1..]))
  }

  predicate AlwaysTight(c: Settings, s: Store, ops: seq<StoreOp>)
    decreases |ops|
  {
    Tight(s) && (ops == [] || AlwaysTight(c, Step(c, s, ops[0]), ops[1..]))
  }

  // The log is numbered 0, 1, 2, ... throughout a history exactly when no
  // append in it is refused.
  lemma {:induction false} NumberingIsTight(c: Settings, s: Store, ops: seq<StoreOp>)
    requires Tight(s)
    ensures AlwaysTight(c, s, ops) <==> NeverSpends(c, s, ops)
    decreases |ops|
  {
    hide Tight, Step, SpendsNumber;
    if ops != [] {
      var s' := Step(c, s, ops[0]);
      StepTight(c, s, ops[0]);
      if Tight(s') {
        NumberingIsTight(c, s', ops[1..]);
      } else {
        assert !AlwaysTight(c, s', ops[1..]);
      }
    }
  }

  // ----- step numbers: when they increase -----

  predicate Increasing(rows: seq<Row>) { forall i, j :: 0 <= i < j < |rows| ==> rows[i].step < rows[j].step }

  // The next number lies beyond every number in the log.
  predicate Ahead(s: Store) { s.rows == [] || s.rows[|s.rows| - 1].step < s.next }

  lemma {:induction false} IncreasingFromBelow(rows: seq<Row>, i: nat)
    requires Increasing(rows) && i < |rows|
    ensures i <= rows[i].step && rows[i].step + (|rows| - 1 - i) <= rows[|rows| - 1].step
    decreases |rows|
  {
    var n := |rows| - 1;
    if n > 0 {
      var front := rows[..n];
      if i < n {
        IncreasingFromBelow(front, i);
      } else {
        IncreasingFromBelow(front, n - 1);
      }
      assert rows[n - 1] == front[n - 1];
    }
  }

  // An append keeps the numbers increasing exactly when it does not land or
  // the counter is ahead, and it never lets the counter fall behind.
  lemma AppendIncreasing(s: Store, e: Entry, f: Append)
    requires Increasing(s.rows)
    ensures Increasing(AppendMarker(s, e, f).rows) <==> (f.Lands() ==> Ahead(s))
    ensures Ahead(s) ==> Ahead(AppendMarker(s, e, f))
  {
    var rows := AppendMarker(s, e, f).rows;
    if f.Lands() && s.rows != [] {
      var n := |s.rows|;
      assert rows[n - 1] == s.rows[n - 1] && rows[n].step == s.next;
      forall i | 0 <= i < n ensures rows[i].step <= s.rows[n - 1].step { assert rows[i] == s.rows[i]; }
    }
  }

  // Reopening counts rows, so it puts the counter ahead exactly when the log is
  // tight.
  lemma ReopenedAhead(s: Store)
    requires Increasing(s.rows)
    ensures Ahead(Reopened(s)) <==> TightRows(s.rows)
  {
    if s.rows != [] && Ahead(Reopened(s)) {
      forall i | 0 <= i < |s.rows| ensures s.rows[i].step == i { IncreasingFromBelow(s.rows, i); }
    }
  }

  // After a reopening the next row continues the numbering exactly when the log
  // was tight.
  lemma ReopenedIncreasing(s: Store, e: Entry)
    requires Increasing(s.rows)
    ensures Increasing(AppendMarker(Reopened(s), e, Written).rows) <==> TightRows(s.rows)
  {
    hide AppendMarker;
    ReopenedAhead(s);
    AppendIncreasing(Reopened(s), e, Written);
  }

  // The operation gets as far as an append, and its first append lands.
  predicate LandsFirst(c: Settings, s: Store, op: StoreOp) {
    match op
    case OpInsert(rec, f, _) => f.Lands() && InsertInto(s.Live(), c.capacity, rec).Ok?
    case OpRemove(id, f, _) => f.Lands() && id in s.Live()
    case OpEvict(now, order, fs, _) => Enumerates(order, Expired(s.Live(), now)) && order != [] && fs(order[0]).Lands()
    case _ => false
  }

  // A compaction at this point replaces the log.
  predicate Swaps(s: Store, k: Compaction) { k.swaps && Enumerates(k.order, s.Live().Keys) }

  // The operation ends with a compaction that replaces the log.
  predicate Renumbers(c: Settings, s: Store, op: StoreOp) {
    var s1 := BeforeCompaction(s, op);
    match op
    case OpInsert(rec, f, k) => f.Written? && InsertInto(s.Live(), c.capacity, rec).Ok?
      && NeedsCompaction(s1, c.factor) && Swaps(s1, k)
    case OpRemove(id, f, k) => f.Written? && id in s.Live() && NeedsCompaction(s1, c.factor) && Swaps(s1, k)
    case OpEvict(now, order, fs, k) =>
      && Enumerates(order, Expired(s.Live(), now)) && order != [] && FirstFailure(order, fs).None?
      && NeedsCompaction(s1, c.factor) && Swaps(s1, k)
    case OpCompact(k) => Swaps(s, k)
    case _ => false
  }

  lemma CompactIncreasing(s: Store, k: Compaction)
    ensures Increasing(CompactTo(s, k).rows) <==> Swaps(s, k) || Increasing(s.rows)
    ensures Swaps(s, k) || Ahead(s) ==> Ahead(CompactTo(s, k))
  {
    hide Replay;
  }

  lemma LoggedIncreasing<T>(c: Settings, s: Store, e: Entry, f: Append, k: Compaction, answer: T)
    requires Increasing(s.rows)
    ensures var s1 := AppendMarker(s, e, Written);
            var renumbered := f.Written? && NeedsCompaction(s1, c.factor) && Swaps(s1, k);
            && (Increasing(Logged(c, s, e, f, k, answer).0.rows) <==> renumbered || Ahead(s) || !f.Lands())
            && (Ahead(s) ==> Ahead(Logged(c, s, e, f, k, answer).0))
  {
    hide Replay, AppendMarker, CompactTo, Swaps, NeedsCompaction, Increasing, Ahead;
    AppendIncreasing(s, e, f);
    CompactIncreasing(AppendMarker(s, e, f), k);
  }

  lemma {:induction false} BuriedExtends(s: Store, order: seq<ApprovalId>, f: ApprovalId -> Append)
    ensures var rows := Buried(s, order, f).0.rows; |s.rows| <= |rows| && rows[..|s.rows|] == s.rows
    decreases |order|
  {
    if order != [] && f(order[0]).Written? {
      var s1 := AppendMarker(s, Delete(order[0]), f(order[0]));
      BuriedExtends(s1, order[1..], f);
      var rows := Buried(s1, order[1..], f).0.rows;
      assert rows[..|s.rows|] == rows[..|s1.rows|][..|s.rows|];
    }
  }

  lemma IncreasingPrefix(rows: seq<Row>, n: nat)
    requires n <= |rows| && Increasing(rows)
    ensures Increasing(rows[..n])
  {
  }

  lemma {:induction false} BuriedIncreasing(s: Store, order: seq<ApprovalId>, f: ApprovalId -> Append)
    requires Increasing(s.rows)
    ensures Increasing(Buried(s, order, f).0.rows) <==> order == [] || Ahead(s) || !f(order[0]).Lands()
    ensures Ahead(s) ==> Ahead(Buried(s, order, f).0)
    ensures Buried(s, order, f).1.Answer? && Buried(s, order, f).1.r.Ok? <==> FirstFailure(order, f).None?
    decreases |order|
  {
    hide AppendMarker, Increasing, Ahead;
    if order != [] {
      var s1 := AppendMarker(s, Delete(order[0]), f(order[0]));
      AppendIncreasing(s, Delete(order[0]), f(order[0]));
      if f(order[0]).Written? {
        if Increasing(s1.rows) {
          BuriedIncreasing(s1, order[1..], f);
        } else {
          BuriedEnds(s1, order[1..], f);
          BuriedExtends(s1, order[1..], f);
          var rows := Buried(s1, order[1..], f).0.rows;
          if Increasing(rows) { IncreasingPrefix(rows, |s1.rows|); }
        }
      }
    }
  }

  lemma {:induction false} BuriedEnds(s: Store, order: seq<ApprovalId>, f: ApprovalId -> Append)
    ensures Buried(s, order, f).1.Answer? && Buried(s, order, f).1.r.Ok? <==> FirstFailure(order, f).None?
    decreases |order|
  {
    if order != [] && f(order[0]).Written? {
      BuriedEnds(AppendMarker(s, Delete(order[0]), f(order[0])), order[1..], f);
    }
  }

  lemma EvictedIncreasing(c: Settings, s: Store, now: Timestamp, order: seq<ApprovalId>, f: ApprovalId -> Append,
                          k: Compaction)
    requires Increasing(s.rows) && Enumerates(order, Expired(s.Live(), now))
    ensures var s1 := Buried(s, order, f).0;
            var renumbered := order != [] && FirstFailure(order, f).None? && NeedsCompaction(s1, c.factor)
              && Swaps(s1, k);
            && (Increasing(Evicted(c, s, now, order, f, k).0.rows)
                <==> renumbered || Ahead(s) || order == [] || !f(order[0]).Lands())
            && (Ahead(s) ==> Ahead(Evicted(c, s, now, order, f, k).0))
  {
    hide Replay, Buried, CompactTo, Swaps, NeedsCompaction, Increasing, Ahead, FirstFailure;
    BuriedIncreasing(s, order, f);
    CompactIncreasing(Buried(s, order, f).0, k);
  }

  // An operation keeps the numbers increasing exactly when the counter is ahead,
  // or it lands nothing, or it ends by renumbering; and only a reopening can let
  // the counter fall behind.
  lemma StepIncreasing(c: Settings, s: Store, op: StoreOp)
    requires Increasing(s.rows)
    ensures Increasing(Step(c, s, op).rows) <==> !RepeatsNumber(c, s, op)
    ensures Ahead(s) && !op.OpReopen? ==> Ahead(Step(c, s, op))
  {
    hide Replay, CompactTo, Logged, Evicted, Swaps, NeedsCompaction, Increasing, Ahead, Buried;
    if s.up {
      match op
      case OpInsert(rec, f, k) => LoggedIncreasing(c, s, Put(rec), f, k, ());
      case OpRemove(id, f, k) => LoggedIncreasing(c, s, Delete(id), f, k, Find(s.Live(), id));
      case OpEvict(now, order, fs, k) =>
        if Enumerates(order, Expired(s.Live(), now)) {
          EvictedIncreasing(c, s, now, order, fs, k);
        } else {
          NoWalk(c, s, now, order, fs, k);
        }
      case OpCompact(k) => CompactIncreasing(s, k);
      case OpGet(_) =>
      case OpReopen =>
    }
  }

  lemma NoWalk(c: Settings, s: Store, now: Timestamp, order: seq<ApprovalId>, f: ApprovalId -> Append, k: Compaction)
    requires !Enumerates(order, Expired(s.Live(), now))
    ensures var s' := Evicted(c, s, now, order, f, k).0; s'.rows == s.rows && (Ahead(s') <==> Ahead(s))
  {
  }

  // A row lands although the counter is behind, and no renumbering follows.
  predicate RepeatsNumber(c: Settings, s: Store, op: StoreOp) {
    s.up && !Ahead(s) && LandsFirst(c, s, op) && !Renumbers(c, s, op)
  }

  predicate NeverRepeats(c: Settings, s: Store, ops: seq<StoreOp>)
    decreases |ops|
  {
    ops == [] || (!RepeatsNumber(c, s, ops[0]) && NeverRepeats(c, Step(c, s, ops[0]), ops[1..]))
  }

  predicate AlwaysIncreasing(c: Settings, s: Store, ops: seq<StoreOp>)
    decreases |ops|
  {
    Increasing(s.rows) && (ops == [] || AlwaysIncreasing(c, Step(c, s, ops[0]), ops[1..]))
  }

  // The step numbers increase throughout a history exactly when no operation
  // lands its first row behind the log without renumbering.
  lemma {:induction false} NumbersIncreaseExactly(c: Settings, s: Store, ops: seq<StoreOp>)
    requires Increasing(s.rows)
    ensures AlwaysIncreasing(c, s, ops) <==> NeverRepeats(c, s, ops)
    decreases |ops|
  {
    hide Increasing, Step, RepeatsNumber;
    if ops != [] {
      var s' := Step(c, s, ops[0]);
      StepIncreasing(c, s, ops[0]);
      if Increasing(s'.rows) {
        NumbersIncreaseExactly(c, s', ops[1..]);
      } else {
        assert !AlwaysIncreasing(c, s', ops[1..]);
      }
    }
  }

  // Every reopening finds a tight log.
  predicate ReopensTight(c: Settings, s: Store, ops: seq<StoreOp>)
    decreases |ops|
  {
    ops == [] || ((ops[0].OpReopen? ==> TightRows(s.rows)) && ReopensTight(c, Step(c, s, ops[0]), ops[1..]))
  }

  // The numbers increase and the counter stays ahead of them.
  predicate AlwaysOrdered(c: Settings, s: Store, ops: seq<StoreOp>)
    decreases |ops|
  {
    Increasing(s.rows) && Ahead(s) && (ops == [] || AlwaysOrdered(c, Step(c, s, ops[0]), ops[1..]))
  }

  // Refused appends alone do no harm: the numbering stays ordered throughout a
  // history exactly when every reopening in it finds a tight log.
  lemma {:induction false} OrderedExactly(c: Settings, s: Store, ops: seq<StoreOp>)
    requires Increasing(s.rows) && Ahead(s)
    ensures AlwaysOrdered(c, s, ops) <==> ReopensTight(c, s, ops)
    decreases |ops|
  {
    hide Increasing, Ahead, TightRows;
    if ops != [] {
      OrderedStep(c, s, ops[0]);
      var s' := Step(c, s, ops[0]);
      if Ahead(s') {
        OrderedExactly(c, s', ops[1..]);
      } else {
        assert !AlwaysOrdered(c, s', ops[1..]);
      }
    }
  }

  lemma OrderedStep(c: Settings, s: Store, op: StoreOp)
    requires Increasing(s.rows) && Ahead(s)
    ensures Increasing(Step(c, s, op).rows)
    ensures Ahead(Step(c, s, op)) <==> (op.OpReopen? ==> TightRows(s.rows))
  {
    hide Increasing, Ahead, TightRows;
    StepIncreasing(c, s, op);
    if op.OpReopen? { ReopenedAhead(s); }
  }

  // A refused append spends a number, and reopening counts rows instead: the
  // two together give two rows the same step number.
  lemma RefusalRepeatsAStep(c: Settings, a: PendingRecord, b: PendingRecord, k: Compaction)
    requires c.capacity >= 2
    ensures var ops := [OpInsert(a, Refused, k), OpInsert(a, Written, k), OpReopen, OpInsert(b, Written, k)];
            Run(c, Store([], 0, true, 0, 0), ops).rows == [Row(1, Put(a)), Row(1, Put(b))]
  {
    var s0 := Store([], 0, true, 0, 0);
    var s1 := Step(c, s0, OpInsert(a, Refused, k));
    var s2 := Step(c, s1, OpInsert(a, Written, k));
    var s3 := Step(c, s2, OpReopen);
    var s4 := Step(c, s3, OpInsert(b, Written, k));
    ReplayAppend([], Row(1, Put(a)));
    assert s2.rows == [Row(1, Put(a))];
    assert s3.Live() == map[a.Id() := a] && |s3.Live()| == 1;
    assert s4.rows == [Row(1, Put(a)), Row(1, Put(b))];
    var ops := [OpInsert(a, Refused, k), OpInsert(a, Written, k), OpReopen, OpInsert(b, Written, k)];
    assert ops[1..][1..][1..] == [OpInsert(b, Written, k)];
    assert Run(c, s3, ops[1..][1..][1..]) == s4;
    assert ops[1..][1..] == [OpReopen, OpInsert(b, Written, k)];
    assert ops[1..] == [OpInsert(a, Written, k), OpReopen, OpInsert(b, Written, k)];
    assert Run(c, s2, ops[1..][1..]) == s4;
    assert Run(c, s1, ops[1..]) == s4;
  }
}
