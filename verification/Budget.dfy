// Concurrency budgets and the leases that hold them.
module Budget {
  import opened Types

  datatype BudgetLimits = BudgetLimits(maxConcurrent: Option<nat>, perSkillConcurrency: Option<nat>,
                                       maxQueueLen: Option<nat>)

  // The counters under the lock.
  datatype Counts = Counts(total: nat, perSkill: map<SkillId, nat>) {
    function Active(skill: SkillId): nat { if skill in perSkill then perSkill[skill] else 0 }
  }

  predicate Full(cap: Option<nat>, n: nat) { cap.Some? && n >= cap.value }

  // The caps are consulted in this order; the first one reached names the reason.
  function Refusal(limits: BudgetLimits, c: Counts, skill: SkillId, queueLen: nat): Option<string> {
    if Full(limits.maxQueueLen, queueLen) then Some("queue_length budget exhausted")
    else if Full(limits.maxConcurrent, c.total) then Some("max_concurrent budget exhausted")
    else if Full(limits.perSkillConcurrency, c.Active(skill)) then Some("per_skill_concurrency budget exhausted")
    else None
  }

  function Acquired(c: Counts, skill: SkillId): Counts {
    Counts(c.total + 1, c.perSkill[skill := c.Active(skill) + 1])
  }

  function SaturatingSub(a: nat, b: nat): nat { if a < b then 0 else a - b }

  function Released(c: Counts, skill: SkillId): Counts {
    var n := SaturatingSub(c.Active(skill), 1);
    Counts(SaturatingSub(c.total, 1),
           if skill !in c.perSkill then c.perSkill else if n == 0 then c.perSkill - {skill} else c.perSkill[skill := n])
  }

  // ----- conservation -----

  // The leases held for one skill, among the unreleased ones.
  function OfSkill<L(==)>(live: map<L, SkillId>, skill: SkillId): set<L> {
    set l | l in live && live[l] == skill
  }

  // Every counter is the number of unreleased leases it stands for, and no
  // zero entry is kept.
  ghost predicate Conserved<L>(c: Counts, live: map<L, SkillId>) {
    && c.total == |live|
    && (forall s :: s in c.perSkill ==> c.perSkill[s] > 0)
    && forall s: SkillId :: c.Active(s) == |OfSkill(live, s)|
  }

  ghost predicate WithinCaps(limits: BudgetLimits, c: Counts) {
    && (limits.maxConcurrent.Some? ==> c.total <= limits.maxConcurrent.value)
    && (limits.perSkillConcurrency.Some? ==> forall s: SkillId :: c.Active(s) <= limits.perSkillConcurrency.value)
  }

  lemma SizeAdd<K, V>(m: map<K, V>, k: K, v: V)
    requires k !in m
    ensures |m[k := v]| == |m| + 1
  {
    assert m[k := v].Keys == m.Keys + {k};
    assert |m[k := v].Keys| == |m[k := v]|;
    assert |m.Keys| == |m|;
  }

  lemma SizeRemove<K, V>(m: map<K, V>, ks: set<K>)
    requires ks <= m.Keys
    ensures |m - ks| == |m| - |ks|
  {
    assert (m - ks).Keys == m.Keys - ks;
    assert |(m - ks).Keys| == |m - ks|;
    assert |m.Keys| == |m|;
  }

  lemma OfSkillAdd<L>(live: map<L, SkillId>, lease: L, skill: SkillId, s: SkillId)
    requires lease !in live
    ensures |OfSkill(live[lease := skill], s)| == |OfSkill(live, s)| + if s == skill then 1 else 0
  {
    assert OfSkill(live[lease := skill], s) == if s == skill then OfSkill(live, s) + {lease} else OfSkill(live, s);
  }

  lemma OfSkillRemove<L>(live: map<L, SkillId>, lease: L, s: SkillId)
    requires lease in live
    ensures |OfSkill(live - {lease}, s)| == |OfSkill(live, s)| - if s == live[lease] then 1 else 0
  {
    assert OfSkill(live - {lease}, s) == if s == live[lease] then OfSkill(live, s) - {lease} else OfSkill(live, s);
    assert s == live[lease] ==> lease in OfSkill(live, s);
  }

  lemma ActiveAcquired(c: Counts, skill: SkillId, s: SkillId)
    ensures Acquired(c, skill).Active(s) == c.Active(s) + if s == skill then 1 else 0
  {
  }

  lemma ActiveReleased(c: Counts, skill: SkillId, s: SkillId)
    requires skill in c.perSkill && c.perSkill[skill] > 0
    ensures Released(c, skill).Active(s) == c.Active(s) - if s == skill then 1 else 0
  {
  }

  lemma AcquireConserves<L>(limits: BudgetLimits, c: Counts, live: map<L, SkillId>, lease: L, skill: SkillId,
                            queueLen: nat)
    requires Conserved(c, live) && WithinCaps(limits, c) && lease !in live && Refusal(limits, c, skill, queueLen).None?
    ensures Conserved(Acquired(c, skill), live[lease := skill]) && WithinCaps(limits, Acquired(c, skill))
  {
    var c', live' := Acquired(c, skill), live[lease := skill];
    SizeAdd(live, lease, skill);
    forall s: SkillId
      ensures c'.Active(s) == |OfSkill(live', s)|
      ensures limits.perSkillConcurrency.Some? ==> c'.Active(s) <= limits.perSkillConcurrency.value
    {
      OfSkillAdd(live, lease, skill, s);
      ActiveAcquired(c, skill, s);
    }
  }

  lemma LiveIsCounted<L>(c: Counts, live: map<L, SkillId>, lease: L)
    requires Conserved(c, live) && lease in live
    ensures c.total >= 1 && live[lease] in c.perSkill && c.perSkill[live[lease]] > 0
  {
    assert lease in OfSkill(live, live[lease]);
    assert c.Active(live[lease]) == |OfSkill(live, live[lease])|;
    assert live.Keys != {} && |live.Keys| == |live|;
  }

  // Releasing an unreleased lease never saturates: both counters it lowers are
  // positive.
  lemma ReleaseConserves<L>(limits: BudgetLimits, c: Counts, live: map<L, SkillId>, lease: L)
    requires Conserved(c, live) && WithinCaps(limits, c) && lease in live
    ensures Conserved(Released(c, live[lease]), live - {lease}) && WithinCaps(limits, Released(c, live[lease]))
    ensures c.total >= 1 && Released(c, live[lease]).total == c.total - 1
    ensures Released(c, live[lease]).Active(live[lease]) == c.Active(live[lease]) - 1
  {
    var skill := live[lease];
    LiveIsCounted(c, live, lease);
    SizeRemove(live, {lease});
    forall s: SkillId
      ensures Released(c, skill).Active(s) == |OfSkill(live - {lease}, s)| <= c.Active(s)
    {
      OfSkillRemove(live, lease, s);
      ActiveReleased(c, skill, s);
    }
    ActiveReleased(c, skill, skill);
  }

  // The sum of the per-skill counters.
  ghost function Sum(m: map<SkillId, nat>): nat
    decreases |m|
  {
    if m == map[] then 0
    else
      var k :| k in m;
      SizeRemove(m, {k});
      m[k] + Sum(m - {k})
  }

  // The leases not held for skill k.
  lemma Others<L>(live: map<L, SkillId>, k: SkillId, s: SkillId)
    requires s != k
    ensures OfSkill(live - OfSkill(live, k), s) == OfSkill(live, s)
  {
  }

  lemma {:induction false} SumIsSize<L>(m: map<SkillId, nat>, live: map<L, SkillId>)
    requires forall s :: s in m ==> m[s] == |OfSkill(live, s)|
    requires forall l :: l in live ==> live[l] in m
    ensures Sum(m) == |live|
    decreases |m|
  {
    if m == map[] {
      assert live == map[];
    } else {
      var k :| k in m && Sum(m) == m[k] + Sum(m - {k});
      SumStep(m, live, k);
      SizeRemove(m, {k});
      SumIsSize(m - {k}, live - OfSkill(live, k));
    }
  }

  lemma SumStep<L>(m: map<SkillId, nat>, live: map<L, SkillId>, k: SkillId)
    requires k in m && forall s :: s in m ==> m[s] == |OfSkill(live, s)|
    requires forall l :: l in live ==> live[l] in m
    ensures var m', rest := m - {k}, live - OfSkill(live, k);
            && |rest| == |live| - m[k]
            && (forall s :: s in m' ==> m'[s] == |OfSkill(rest, s)|)
            && (forall l :: l in rest ==> rest[l] in m')
  {
    var rest := live - OfSkill(live, k);
    SizeRemove(live, OfSkill(live, k));
    forall s | s in m && s != k ensures m[s] == |OfSkill(rest, s)| { Others(live, k, s); }
  }

  // The global counter is the sum of the per-skill counters.
  lemma TotalIsSum<L>(c: Counts, live: map<L, SkillId>)
    requires Conserved(c, live)
    ensures c.total == Sum(c.perSkill)
  {
    forall l | l in live ensures live[l] in c.perSkill { LiveIsCounted(c, live, l); }
    forall s | s in c.perSkill ensures c.perSkill[s] == |OfSkill(live, s)| { assert c.Active(s) == c.perSkill[s]; }
    SumIsSize(c.perSkill, live);
  }

  // ----- every reachable state -----

  datatype Op = Acquire(skill: SkillId, queueLen: nat) | Release(lease: nat)

  // Leases are numbered as they are granted; a released one is gone for good.
  datatype World = World(c: Counts, live: map<nat, SkillId>, granted: nat)

  function Step(limits: BudgetLimits, w: World, op: Op): World {
    match op
    case Acquire(skill, queueLen) =>
      if Refusal(limits, w.c, skill, queueLen).Some? then w
      else World(Acquired(w.c, skill), w.live[w.granted := skill], w.granted + 1)
    case Release(lease) =>
      if lease !in w.live then w
      else World(Released(w.c, w.live[lease]), w.live - {lease}, w.granted)
  }

  function Run(limits: BudgetLimits, w: World, ops: seq<Op>): World
    decreases |ops|
  {
    if ops == [] then w else Run(limits, Step(limits, w, ops[0]), ops[1..])
  }

  const IDLE: World := World(Counts(0, map[]), map[], 0)

  ghost predicate Inv(limits: BudgetLimits, w: World) {
    Conserved(w.c, w.live) && WithinCaps(limits, w.c) && forall l :: l in w.live ==> l < w.granted
  }

  lemma {:induction false} RunConserves(limits: BudgetLimits, w: World, ops: seq<Op>)
    requires Inv(limits, w)
    ensures Inv(limits, Run(limits, w, ops)) && Run(limits, w, ops).c.total == Sum(Run(limits, w, ops).c.perSkill)
    decreases |ops|
  {
    if ops == [] {
      TotalIsSum(w.c, w.live);
    } else {
      var w' := Step(limits, w, ops[0]);
      match ops[0] {
        case Acquire(skill, queueLen) =>
          if w' != w { AcquireConserves(limits, w.c, w.live, w.granted, skill, queueLen); }
        case Release(lease) =>
          if lease in w.live { ReleaseConserves(limits, w.c, w.live, lease); }
      }
      RunConserves(limits, w', ops[1..]);
    }
  }

  // From an idle budget, after any mix of acquisitions and releases -- also
  // repeated releases of one lease -- the counters are exact and within the caps.
  lemma EveryRunConserves(limits: BudgetLimits, ops: seq<Op>)
    ensures Inv(limits, Run(limits, IDLE, ops))
    ensures Run(limits, IDLE, ops).c.total == Sum(Run(limits, IDLE, ops).c.perSkill)
  {
    forall s: SkillId ensures OfSkill(IDLE.live, s) == {} {
    }
    RunConserves(limits, IDLE, ops);
  }

  // ----- the budget and its leases as objects -----

  class BudgetState {
    var totalActive: nat
    var perSkillActive: map<SkillId, nat>
    ghost var live: map<ResourceLease, SkillId>

    ghost function View(): Counts reads this { Counts(totalActive, perSkillActive) }

    ghost predicate Valid(limits: BudgetLimits) reads this { Conserved(View(), live) && WithinCaps(limits, View()) }

    constructor (limits: BudgetLimits)
      ensures Valid(limits) && live == map[] && totalActive == 0
    {
      totalActive, perSkillActive, live := 0, map[], map[];
      new;
      assert forall s: SkillId :: OfSkill(live, s) == {};
    }
  }

  datatype AcquireOutcome = Granted(lease: ResourceLease) | Unavailable(reason: string)

  class ResourceBudget {
    const limits: BudgetLimits
    const state: BudgetState

    constructor (limits: BudgetLimits)
      ensures this.limits == limits && fresh(state) && state.Valid(limits) && state.live == map[]
    {
      this.limits := limits;
      state := new BudgetState(limits);
    }

    // Refused exactly when a cap is reached, and then nothing changes.
    method TryAcquire(skill: SkillId, queueLen: nat) returns (outcome: AcquireOutcome)
      requires state.Valid(limits)
      modifies state
      ensures state.Valid(limits)
      ensures outcome.Unavailable? <==>
        || (limits.maxQueueLen.Some? && queueLen >= limits.maxQueueLen.value)
        || (limits.maxConcurrent.Some? && old(state.totalActive) >= limits.maxConcurrent.value)
        || (limits.perSkillConcurrency.Some?
            && (if skill in old(state.perSkillActive) then old(state.perSkillActive)[skill] else 0)
               >= limits.perSkillConcurrency.value)
      ensures match Refusal(limits, old(state.View()), skill, queueLen)
              case Some(reason) => outcome == Unavailable(reason) && state.View() == old(state.View())
                && state.live == old(state.live)
              case None =>
                && outcome.Granted? && fresh(outcome.lease) && outcome.lease.Valid(limits) && !outcome.lease.released
                && outcome.lease.skillId == skill && outcome.lease.state == state
                && state.View() == Acquired(old(state.View()), skill)
                && state.live == old(state.live)[outcome.lease := skill]
    {
      if Full(limits.maxQueueLen, queueLen) { return Unavailable("queue_length budget exhausted"); }
      if Full(limits.maxConcurrent, state.totalActive) { return Unavailable("max_concurrent budget exhausted"); }
      var active := if skill in state.perSkillActive then state.perSkillActive[skill] else 0;
      if Full(limits.perSkillConcurrency, active) { return Unavailable("per_skill_concurrency budget exhausted"); }
      var lease := new ResourceLease(skill, state);
      assert lease !in state.live;
      AcquireConserves(limits, state.View(), state.live, lease, skill, queueLen);
      state.totalActive := state.totalActive + 1;
      state.perSkillActive := state.perSkillActive[skill := active + 1];
      state.live := state.live[lease := skill];
      outcome := Granted(lease);
    }
  }

  class ResourceLease {
    const skillId: SkillId
    const state: BudgetState
    var released: bool

    ghost predicate Valid(limits: BudgetLimits)
      reads this, state
    {
      && state.Valid(limits)
      && (released <==> this !in state.live)
      && (!released ==> state.live[this] == skillId)
    }

    constructor (skill: SkillId, state: BudgetState)
      ensures this.skillId == skill && this.state == state && !released
    {
      skillId, this.state, released := skill, state, false;
    }

    // Gives the capacity back, once; also what dropping the lease does.
    method Release(ghost limits: BudgetLimits)
      requires Valid(limits)
      modifies this, state
      ensures Valid(limits) && released
      ensures if old(released) then state.View() == old(state.View()) && state.live == old(state.live)
              else state.View() == Released(old(state.View()), skillId) && state.live == old(state.live) - {this}
    {
      if released { return; }
      ReleaseConserves(limits, state.View(), state.live, this);
      released := true;
      state.totalActive := SaturatingSub(state.totalActive, 1);
      if skillId in state.perSkillActive {
        var active := SaturatingSub(state.perSkillActive[skillId], 1);
        if active == 0 {
          state.perSkillActive := state.perSkillActive - {skillId};
        } else {
          state.perSkillActive := state.perSkillActive[skillId := active];
        }
      }
      state.live := state.live - {this};
    }
  }
}
