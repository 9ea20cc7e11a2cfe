// Human approvals: time-limited, single-use, bound to one payload's hash.
module Approvals {
  import opened Types

  // The bytes of a hex digest.  The hash itself is any function of the payload.
  type Digest = seq<bv8>
  type HashFn = Payload -> Digest

  datatype Approval = Approval(
    id: ApprovalId,
    actionId: ActionId,
    payloadHash: Digest,
    grantedAt: Timestamp,
    expiresAt: Timestamp,
    consumed: bool)
  {
    predicate IsExpired(now: Timestamp) { now > expiresAt }
  }

  // The instants the clock type can represent.
  datatype ClockRange = ClockRange(earliest: Timestamp, latest: Timestamp) {
    predicate Contains(t: Timestamp) { earliest <= t <= latest }

    function CheckedAdd(t: Timestamp, d: int): Option<Timestamp> {
      if Contains(t + d) then Some(t + d) else None
    }
  }

  function Clamp(t: Timestamp, range: ClockRange): Timestamp {
    if t < range.earliest then range.earliest else if t > range.latest then range.latest else t
  }

  // Checked addition whose overflow direction is guessed from the sign of the
  // TTL alone; on every representable `now` the guess is right.
  function SaturatingExpiry(now: Timestamp, ttl: int, range: ClockRange): (t: Timestamp)
    ensures range.Contains(now) ==> t == Clamp(now + ttl, range)
  {
    match range.CheckedAdd(now, ttl)
    case Some(t) => t
    case None => if ttl < 0 then range.earliest else range.latest
  }

  lemma XorOrIsZero(diff: bv8, x: bv8, y: bv8)
    ensures diff | (x ^ y) == 0 <==> diff == 0 && x == y
  {
    assert x ^ y == 0 <==> x == y;
  }

  // Walks every byte and accumulates the differences, so that the time taken
  // does not depend on where the inputs differ; it still decides equality.
  method ConstantTimeEq(a: Digest, b: Digest) returns (same: bool)
    ensures same <==> a == b
  {
    if |a| != |b| { return false; }
    var diff: bv8 := 0;
    for i := 0 to |a|
      invariant diff == 0 <==> a[..i] == b[..i]
    {
      XorOrIsZero(diff, a[i], b[i]);
      assert a[..i + 1] == a[..i] + [a[i]] && b[..i + 1] == b[..i] + [b[i]];
      diff := diff | (a[i] ^ b[i]);
    }
    assert a[..|a|] == a && b[..|b|] == b;
    same := diff == 0;
  }

  datatype AuditAction = ApprovalGranted | ApprovalConsumed | ApprovalDenied | AuditExpired | ApprovalRejected

  datatype AuditEvent = AuditEvent(action: AuditAction, actionId: ActionId, approvalId: Option<ApprovalId>,
                                   at: Timestamp)

  type ApprovalMap = map<ApprovalId, Approval>

  datatype LedgerState = LedgerState(approvals: ApprovalMap, audit: seq<AuditEvent>)

  const EMPTY: LedgerState := LedgerState(map[], [])

  // ----- the ledger operations as functions -----

  function Granted(id: ApprovalId, actionId: ActionId, hash: Digest, now: Timestamp, ttl: int,
                   range: ClockRange): Approval {
    Approval(id, actionId, hash, now, SaturatingExpiry(now, ttl, range), false)
  }

  function GrantIn(s: LedgerState, a: Approval): LedgerState {
    LedgerState(s.approvals[a.id := a], s.audit + [AuditEvent(ApprovalGranted, a.actionId, Some(a.id), a.grantedAt)])
  }

  // The checks run in this order and the first failing one names the error.
  function CheckConsume(approvals: ApprovalMap, id: ApprovalId, presented: Digest,
                        now: Timestamp): Result<(), ActionError> {
    if id !in approvals then Err(ActionError.ApprovalMissing(Show(id)))
    else if approvals[id].IsExpired(now) then Err(ActionError.ApprovalExpired(Show(id)))
    else if approvals[id].consumed then Err(ActionError.ApprovalReused(Show(id)))
    else if presented != approvals[id].payloadHash then Err(ActionError.ApprovalPayloadMismatch(Show(id)))
    else Ok(())
  }

  function MarkConsumed(approvals: ApprovalMap, id: ApprovalId): ApprovalMap
    requires id in approvals
  {
    approvals[id := approvals[id].(consumed := true)]
  }

  function ConsumeIn(s: LedgerState, id: ApprovalId, presented: Digest, now: Timestamp): LedgerState {
    match CheckConsume(s.approvals, id, presented, now)
    case Ok(_) =>
      LedgerState(MarkConsumed(s.approvals, id),
                  s.audit + [AuditEvent(ApprovalConsumed, s.approvals[id].actionId, Some(id), now)])
    case Err(ApprovalMissing(_)) => s
    case Err(ApprovalExpired(_)) =>
      s.(audit := s.audit + [AuditEvent(AuditExpired, s.approvals[id].actionId, Some(id), now)])
    case Err(_) =>
      s.(audit := s.audit + [AuditEvent(ApprovalRejected, s.approvals[id].actionId, Some(id), now)])
  }

  class ApprovalLedger {
    var approvals: ApprovalMap
    var audit: seq<AuditEvent>
    const range: ClockRange
    const hash: HashFn

    ghost function State(): LedgerState reads this { LedgerState(approvals, audit) }

    constructor (range: ClockRange, hash: HashFn)
      ensures State() == EMPTY && this.range == range && this.hash == hash
    {
      this.range := range;
      this.hash := hash;
      approvals := map[];
      audit := [];
    }

    method Grant(id: ApprovalId, actionId: ActionId, payloadHash: Digest, now: Timestamp, ttl: int)
      returns (a: Approval)
      requires id !in approvals && range.Contains(now)
      modifies this
      ensures a == Approval(id, actionId, payloadHash, now, Clamp(now + ttl, range), false)
      ensures State() == GrantIn(old(State()), a)
    {
      a := Approval(id, actionId, payloadHash, now, SaturatingExpiry(now, ttl, range), false);
      audit := audit + [AuditEvent(ApprovalGranted, actionId, Some(id), now)];
      approvals := approvals[id := a];
    }

    method Consume(id: ApprovalId, payload: Payload, now: Timestamp) returns (r: Result<(), ActionError>)
      modifies this
      ensures r.Ok? <==>
        && id in old(approvals) && now <= old(approvals)[id].expiresAt
        && !old(approvals)[id].consumed && old(approvals)[id].payloadHash == hash(payload)
      ensures r.Ok? ==>
        && approvals == old(approvals)[id := old(approvals)[id].(consumed := true)]
        && audit == old(audit) + [AuditEvent(ApprovalConsumed, old(approvals)[id].actionId, Some(id), now)]
      ensures r.Err? ==> approvals == old(approvals)
      ensures r.Err? ==>
        if id !in old(approvals) then r.error == ApprovalMissing(Show(id)) && audit == old(audit)
        else
          var a := old(approvals)[id];
          if a.expiresAt < now then
            && r.error == ActionError.ApprovalExpired(Show(id))
            && audit == old(audit) + [AuditEvent(AuditExpired, a.actionId, Some(id), now)]
          else
            && r.error == (if a.consumed then ApprovalReused(Show(id)) else ApprovalPayloadMismatch(Show(id)))
            && audit == old(audit) + [AuditEvent(ApprovalRejected, a.actionId, Some(id), now)]
      ensures r == CheckConsume(old(approvals), id, hash(payload), now)
      ensures State() == ConsumeIn(old(State()), id, hash(payload), now)
    {
      if id !in approvals { return Err(ActionError.ApprovalMissing(Show(id))); }
      var a := approvals[id];
      if a.IsExpired(now) {
        audit := audit + [AuditEvent(AuditExpired, a.actionId, Some(id), now)];
        return Err(ActionError.ApprovalExpired(Show(id)));
      }
      if a.consumed {
        audit := audit + [AuditEvent(ApprovalRejected, a.actionId, Some(id), now)];
        return Err(ActionError.ApprovalReused(Show(id)));
      }
      var same := ConstantTimeEq(hash(payload), a.payloadHash);
      if !same {
        audit := audit + [AuditEvent(ApprovalRejected, a.actionId, Some(id), now)];
        return Err(ActionError.ApprovalPayloadMismatch(Show(id)));
      }
      approvals := approvals[id := a.(consumed := true)];
      audit := audit + [AuditEvent(ApprovalConsumed, a.actionId, Some(id), now)];
      r := Ok(());
    }

    method Deny(actionId: ActionId, now: Timestamp) returns (e: AuditEvent)
      modifies this
      ensures e == AuditEvent(ApprovalDenied, actionId, None, now)
      ensures State() == old(State()).(audit := old(audit) + [e])
    {
      e := AuditEvent(ApprovalDenied, actionId, None, now);
      audit := audit + [e];
    }

    method Reinstate(a: Approval)
      modifies this
      ensures State() == old(State()).(approvals := old(approvals)[a.id := a])
    {
      approvals := approvals[a.id := a];
    }
  }

  // ----- whole ledger histories -----

  datatype LedgerOp =
    | OpGrant(a: Approval)
    | OpConsume(id: ApprovalId, presented: Digest, now: Timestamp)
    | OpDeny(actionId: ActionId, now: Timestamp)
    | OpReinstate(a: Approval)

  function ApplyOp(s: LedgerState, op: LedgerOp): LedgerState {
    match op
    case OpGrant(a) => GrantIn(s, a)
    case OpConsume(id, presented, now) => ConsumeIn(s, id, presented, now)
    case OpDeny(actionId, now) => s.(audit := s.audit + [AuditEvent(ApprovalDenied, actionId, None, now)])
    case OpReinstate(a) => s.(approvals := s.approvals[a.id := a])
  }

  function RunLedger(s: LedgerState, ops: seq<LedgerOp>): LedgerState
    decreases |ops|
  {
    if ops == [] then s else RunLedger(ApplyOp(s, ops[0]), ops[1..])
  }

  // Identifiers are generated fresh: no grant reuses one, and it starts unconsumed.
  predicate FreshGrants(s: LedgerState, ops: seq<LedgerOp>)
    decreases |ops|
  {
    ops == [] ||
    (&& (ops[0].OpGrant? ==> ops[0].a.id !in s.approvals && !ops[0].a.consumed)
     && FreshGrants(ApplyOp(s, ops[0]), ops[1..]))
  }

  // How many times the trail records that this approval was consumed.
  function Consumptions(audit: seq<AuditEvent>, id: ApprovalId): nat {
    if audit == [] then 0
    else
      Consumptions(audit[..|audit| - 1], id)
      + (if audit[|audit| - 1].action.ApprovalConsumed? && audit[|audit| - 1].approvalId == Some(id) then 1 else 0)
  }

  lemma ConsumptionsSnoc(audit: seq<AuditEvent>, e: AuditEvent, id: ApprovalId)
    ensures Consumptions(audit + [e], id)
         == Consumptions(audit, id) + (if e.action.ApprovalConsumed? && e.approvalId == Some(id) then 1 else 0)
  {
    assert (audit + [e])[..|audit|] == audit;
  }

  function Reinstatements(ops: seq<LedgerOp>, id: ApprovalId): nat {
    if ops == [] then 0
    else (if ops[0].OpReinstate? && ops[0].a.id == id then 1 else 0) + Reinstatements(ops[1..], id)
  }

  predicate IsConsumed(s: LedgerState, id: ApprovalId) {
    id in s.approvals && s.approvals[id].consumed
  }

  lemma OpConsumptions(s: LedgerState, op: LedgerOp, id: ApprovalId)
    ensures Consumptions(ApplyOp(s, op).audit, id)
         == Consumptions(s.audit, id)
          + (if op.OpConsume? && op.id == id && CheckConsume(s.approvals, id, op.presented, op.now).Ok? then 1 else 0)
  {
    var t := ApplyOp(s, op);
    if t.audit != s.audit {
      var e := t.audit[|t.audit| - 1];
      assert t.audit == s.audit + [e];
      ConsumptionsSnoc(s.audit, e, id);
    }
  }

  // The trail holds one consumption exactly when the flag is set.
  predicate TrailMatchesFlag(s: LedgerState, id: ApprovalId) {
    Consumptions(s.audit, id) == if IsConsumed(s, id) then 1 else 0
  }

  // A reinstated copy of the approval carries the flag the ledger already has.
  predicate Faithful(s: LedgerState, op: LedgerOp, id: ApprovalId) {
    op.OpReinstate? && op.a.id == id ==> (op.a.consumed <==> IsConsumed(s, id))
  }

  // The trail keeps matching the flag exactly when a reinstatement, if that is
  // the operation, is faithful.
  lemma OpKeepsTrailExactly(s: LedgerState, op: LedgerOp, id: ApprovalId)
    requires TrailMatchesFlag(s, id)
    requires op.OpGrant? ==> op.a.id !in s.approvals && !op.a.consumed
    ensures TrailMatchesFlag(ApplyOp(s, op), id) <==> Faithful(s, op, id)
  {
    OpConsumptions(s, op, id);
  }

  predicate FaithfulHistory(s: LedgerState, ops: seq<LedgerOp>, id: ApprovalId)
    decreases |ops|
  {
    ops == [] || (Faithful(s, ops[0], id) && FaithfulHistory(ApplyOp(s, ops[0]), ops[1..], id))
  }

  // Trail and flag match at every point of the history.
  predicate TrailAlwaysMatches(s: LedgerState, ops: seq<LedgerOp>, id: ApprovalId)
    decreases |ops|
  {
    TrailMatchesFlag(s, id) && (ops == [] || TrailAlwaysMatches(ApplyOp(s, ops[0]), ops[1..], id))
  }

  // Over whole histories the trail holds one consumption of an approval exactly
  // when its flag is set, for ever, if and only if every reinstatement of it
  // carries the flag the ledger has at that moment.
  lemma {:induction false} TrailMatchesExactly(s: LedgerState, ops: seq<LedgerOp>, id: ApprovalId)
    requires FreshGrants(s, ops) && TrailMatchesFlag(s, id)
    ensures TrailAlwaysMatches(s, ops, id) <==> FaithfulHistory(s, ops, id)
    decreases |ops|
  {
    if ops != [] {
      var s' := ApplyOp(s, ops[0]);
      OpKeepsTrailExactly(s, ops[0], id);
      if TrailMatchesFlag(s', id) {
        TrailMatchesExactly(s', ops[1..], id);
      } else {
        assert !TrailAlwaysMatches(s', ops[1..], id);
      }
    }
  }

  // Single use: in a history whose reinstatements are faithful -- those a
  // restart makes of approvals not yet used, and none at all -- an approval is
  // consumed at most once, and once exactly when its flag is set.
  lemma {:induction false} SingleUse(s: LedgerState, ops: seq<LedgerOp>, id: ApprovalId)
    requires FreshGrants(s, ops) && FaithfulHistory(s, ops, id)
    requires TrailMatchesFlag(s, id)
    ensures TrailMatchesFlag(RunLedger(s, ops), id) && Consumptions(RunLedger(s, ops).audit, id) <= 1
    decreases |ops|
  {
    if ops != [] {
      OpKeepsTrailExactly(s, ops[0], id);
      SingleUse(ApplyOp(s, ops[0]), ops[1..], id);
    }
  }

  predicate UsedAtMost(s: LedgerState, id: ApprovalId, n: nat) {
    Consumptions(s.audit, id) + (if IsConsumed(s, id) then 0 else 1) <= 1 + n
  }

  lemma OpUsedAtMost(s: LedgerState, op: LedgerOp, id: ApprovalId, n: nat)
    requires UsedAtMost(s, id, n)
    requires op.OpGrant? ==> op.a.id !in s.approvals && !op.a.consumed
    ensures UsedAtMost(ApplyOp(s, op), id, if op.OpReinstate? && op.a.id == id then n + 1 else n)
  {
    OpConsumptions(s, op, id);
  }

  // Each reinstatement can revive an approval once, and no more than once.
  lemma {:induction false} ReinstatementsBoundUse(s: LedgerState, ops: seq<LedgerOp>, id: ApprovalId, n: nat)
    requires FreshGrants(s, ops) && UsedAtMost(s, id, n)
    ensures UsedAtMost(RunLedger(s, ops), id, n + Reinstatements(ops, id))
    ensures Consumptions(RunLedger(s, ops).audit, id) <= 1 + n + Reinstatements(ops, id)
    decreases |ops|
  {
    if ops != [] {
      OpUsedAtMost(s, ops[0], id, n);
      ReinstatementsBoundUse(ApplyOp(s, ops[0]), ops[1..], id, if ops[0].OpReinstate? && ops[0].a.id == id then n + 1
                                                               else n);
    }
  }

  // The bound is reached: after a restart puts an unconsumed copy back, the
  // ledger alone lets the same approval be consumed a second time.
  lemma ReinstatementAllowsSecondUse(a: Approval, now: Timestamp)
    requires now <= a.expiresAt && !a.consumed
    ensures var use := OpConsume(a.id, a.payloadHash, now);
            Consumptions(RunLedger(EMPTY, [OpGrant(a), use, OpReinstate(a), use]).audit, a.id) == 2
  {
    var use := OpConsume(a.id, a.payloadHash, now);
    var s1 := ApplyOp(EMPTY, OpGrant(a));
    var s2 := ApplyOp(s1, use);
    var s3 := ApplyOp(s2, OpReinstate(a));
    var s4 := ApplyOp(s3, use);
    OpConsumptions(EMPTY, OpGrant(a), a.id);
    OpConsumptions(s1, use, a.id);
    OpConsumptions(s2, OpReinstate(a), a.id);
    OpConsumptions(s3, use, a.id);
    var ops := [OpGrant(a), use, OpReinstate(a), use];
    assert ops[1..] == [use, OpReinstate(a), use];
    assert ops[1..][1..] == [OpReinstate(a), use];
    assert ops[1..][1..][1..] == [use];
    assert RunLedger(s3, [use]) == s4;
    assert RunLedger(s2, [OpReinstate(a), use]) == s4;
    assert RunLedger(s1, [use, OpReinstate(a), use]) == s4;
  }
}
