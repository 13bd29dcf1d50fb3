/** The analysis slot allocator: leases over time under a per-tenant and a global limit. */
module Capacity {
  import opened Common

  datatype Slot = Slot(tenant: nat, key: string, worker: string, leaseUntil: int, releasedAt: Option<int>)
  datatype Policy = Policy(perTenant: int, global: int, leaseSeconds: int)

  predicate IsValid(p: Policy) { 0 < p.perTenant <= p.global }

  predicate IsActive(s: Slot, now: int) { s.releasedAt.None? && s.leaseUntil > now }

  function Active(slots: map<nat, Slot>, now: int): set<nat> {
    set k | k in slots && IsActive(slots[k], now)
  }

  function ActiveFor(slots: map<nat, Slot>, tenant: nat, now: int): set<nat> {
    set k | k in slots && IsActive(slots[k], now) && slots[k].tenant == tenant
  }

  /** The active slot a repeated reservation finds. */
  predicate IsHeld(slots: map<nat, Slot>, tenant: nat, key: string, now: int, k: nat) {
    k in slots && IsActive(slots[k], now) && slots[k].tenant == tenant && slots[k].key == key
  }

  /** The table keeps one row per tenant and key, active or not. */
  predicate IsTaken(slots: map<nat, Slot>, tenant: nat, key: string) {
    exists k :: k in slots && slots[k].tenant == tenant && slots[k].key == key
  }

  datatype Answer = Granted(id: nat) | BadPolicy | Exhausted | KeyTaken

  predicate IsFull(slots: map<nat, Slot>, tenant: nat, p: Policy, now: int) {
    |ActiveFor(slots, tenant, now)| >= p.perTenant || |Active(slots, now)| >= p.global
  }

  // ---------------------------------------------------------------- runs

  datatype Step =
    | Reserve(tenant: nat, key: string, worker: string, id: nat)
    | Release(id: nat, worker: string)
    | Recover

  predicate MayRelease(slots: map<nat, Slot>, id: nat, worker: string) {
    id in slots && (slots[id].releasedAt.None? ==> slots[id].worker == worker)
  }

  function Renewed(s: Slot, worker: string, until: int): Slot { s.(leaseUntil := until, worker := worker) }

  /** `id` is the row a repeated reservation finds, or a fresh one. */
  function Apply(slots: map<nat, Slot>, p: Policy, step: Step, now: int): map<nat, Slot> {
    match step
    case Reserve(tenant, key, worker, id) =>
      if !IsValid(p) then slots
      else if IsHeld(slots, tenant, key, now, id) then slots[id := Renewed(slots[id], worker, now + p.leaseSeconds)]
      else if IsFull(slots, tenant, p, now) || IsTaken(slots, tenant, key) || id in slots then slots
      else slots[id := Slot(tenant, key, worker, now + p.leaseSeconds, None)]
    case Release(id, worker) =>
      if MayRelease(slots, id, worker) then slots[id := slots[id].(releasedAt := Some(now))] else slots
    case Recover =>
      map k | k in slots :: if slots[k].releasedAt.None? && slots[k].leaseUntil <= now then slots[k].(releasedAt := Some(now)) else slots[k]
  }

  datatype State = State(slots: map<nat, Slot>, clock: int)
  datatype Call = Call(step: Step, now: int)

  ghost predicate IsRun(run: seq<State>, calls: seq<Call>, p: Policy) {
    && |run| == |calls| + 1
    && run[0].slots == map[]
    && forall i :: 0 <= i < |calls| ==>
         && run[i].clock <= calls[i].now
         && run[i + 1] == State(Apply(run[i].slots, p, calls[i].step, calls[i].now), calls[i].now)
  }

  /** At every moment from now on the limits hold. */
  ghost predicate Within(slots: map<nat, Slot>, p: Policy, now: int) {
    && |Active(slots, now)| <= p.global
    && (forall tenant :: |ActiveFor(slots, tenant, now)| <= p.perTenant)
  }

  /** Leases only run out by themselves. */
  lemma TimeFrees(slots: map<nat, Slot>, p: Policy, now: int, later: int)
    requires Within(slots, p, now) && now <= later
    ensures Within(slots, p, later)
  {
    SubsetSize(Active(slots, later), Active(slots, now));
    forall tenant ensures |ActiveFor(slots, tenant, later)| <= p.perTenant {
      SubsetSize(ActiveFor(slots, tenant, later), ActiveFor(slots, tenant, now));
    }
  }

  /** A change that activates nothing keeps the limits. */
  lemma ShrinkKeeps(slots: map<nat, Slot>, slots': map<nat, Slot>, p: Policy, now: int)
    requires Within(slots, p, now)
    requires forall k :: k in slots' && IsActive(slots'[k], now) ==> k in slots && IsActive(slots[k], now) && slots'[k].tenant == slots[k].tenant
    ensures Within(slots', p, now)
  {
    SubsetSize(Active(slots', now), Active(slots, now));
    forall tenant ensures |ActiveFor(slots', tenant, now)| <= p.perTenant {
      SubsetSize(ActiveFor(slots', tenant, now), ActiveFor(slots, tenant, now));
    }
  }

  lemma GrantKeeps(slots: map<nat, Slot>, p: Policy, id: nat, row: Slot, now: int)
    requires Within(slots, p, now) && id !in slots && !IsFull(slots, row.tenant, p, now)
    ensures Within(slots[id := row], p, now)
  {
    hide Active, ActiveFor;
    var after := slots[id := row];
    GrantCounts(slots, id, row, now);
    forall tenant ensures |ActiveFor(after, tenant, now)| <= p.perTenant {
      GrantCountsFor(slots, id, row, tenant, now);
    }
  }

  lemma GrantCounts(slots: map<nat, Slot>, id: nat, row: Slot, now: int)
    requires id !in slots
    ensures |Active(slots[id := row], now)| <= |Active(slots, now)| + 1
  {
    SubsetSize(Active(slots[id := row], now), Active(slots, now) + {id});
  }

  lemma GrantCountsFor(slots: map<nat, Slot>, id: nat, row: Slot, tenant: nat, now: int)
    requires id !in slots
    ensures |ActiveFor(slots[id := row], tenant, now)| <= |ActiveFor(slots, tenant, now)| + (if tenant == row.tenant then 1 else 0)
  {
    SubsetSize(ActiveFor(slots[id := row], tenant, now), ActiveFor(slots, tenant, now) + (if tenant == row.tenant then {id} else {}));
  }

  lemma StepKeepsLimits(slots: map<nat, Slot>, p: Policy, step: Step, now: int)
    requires Within(slots, p, now)
    ensures Within(Apply(slots, p, step, now), p, now)
  {
    hide Within, IsFull, IsTaken;
    var after := Apply(slots, p, step, now);
    if step.Reserve? && step.id !in slots && step.id in after {
      GrantKeeps(slots, p, step.id, after[step.id], now);
    } else {
      ShrinkKeeps(slots, after, p, now);
    }
  }

  /** Whatever the mix of reservations, renewals, releases and recoveries, at every moment at
      most `global` slots are active, and at most `perTenant` of each tenant. */
  lemma {:induction false} NeverOverbooked(run: seq<State>, calls: seq<Call>, p: Policy, i: nat, t: int)
    requires IsRun(run, calls, p) && IsValid(p) && i < |run| && run[i].clock <= t
    ensures |Active(run[i].slots, t)| <= p.global
    ensures forall tenant :: |ActiveFor(run[i].slots, tenant, t)| <= p.perTenant
  {
    hide Apply;
    if i > 0 {
      var call := calls[i - 1];
      NeverOverbooked(run, calls, p, i - 1, call.now);
      StepKeepsLimits(run[i - 1].slots, p, call.step, call.now);
      TimeFrees(run[i].slots, p, call.now, t);
    }
  }

  // ---------------------------------------------------------------- how long a slot counts

  /** A slot that was granted or renewed counts for exactly its lease, and no other slot changes. */
  lemma GrantLasts(slots: map<nat, Slot>, p: Policy, tenant: nat, key: string, worker: string, id: nat, now: int, t: int)
    requires var after := Apply(slots, p, Reserve(tenant, key, worker, id), now);
             id in after && after[id] == Slot(tenant, key, worker, now + p.leaseSeconds, None)
    ensures var after := Apply(slots, p, Reserve(tenant, key, worker, id), now);
            && (id in Active(after, t) <==> t < now + p.leaseSeconds)
            && (id in ActiveFor(after, tenant, t) <==> t < now + p.leaseSeconds)
            && Active(after, t) - {id} == Active(slots, t) - {id}
  {}

  /** A released slot counts no more, and no other slot changes. */
  lemma ReleaseEnds(slots: map<nat, Slot>, p: Policy, id: nat, worker: string, now: int, t: int)
    requires id in slots && (slots[id].releasedAt.Some? || slots[id].worker == worker)
    ensures Active(Apply(slots, p, Release(id, worker), now), t) == Active(slots, t) - {id}
  {}

  /** Recovery frees no slot that counts: it releases exactly those whose lease is over. */
  lemma RecoveryFreesNone(slots: map<nat, Slot>, p: Policy, now: int, t: int)
    ensures var after := Apply(slots, p, Recover, now);
            && (now <= t ==> Active(after, t) == Active(slots, t))
            && after.Keys == slots.Keys
            && (forall k :: k in after && after[k].releasedAt.None? ==> now < after[k].leaseUntil && after[k] == slots[k])
            && (forall k :: k in slots && after[k] != slots[k] ==> slots[k].leaseUntil <= now && after[k] == slots[k].(releasedAt := Some(now)))
  {}

  // ---------------------------------------------------------------- the allocator

  class Allocator {
    var slots: map<nat, Slot>
    var nextId: nat
    const policy: Policy

    predicate Valid()
      reads this
    {
      forall k :: k in slots ==> k < nextId
    }

    constructor (p: Policy)
      ensures Valid() && slots == map[] && policy == p
    {
      slots, nextId, policy := map[], 0, p;
    }

    /** Reads the active rows once: the tenant's own, and the slot this key already holds. */
    method Survey(tenant: nat, key: string, now: int) returns (held: Option<nat>, count: nat)
      ensures held.Some? ==> IsHeld(slots, tenant, key, now, held.value)
      ensures held.None? ==> forall k :: !IsHeld(slots, tenant, key, now, k)
      ensures count == |ActiveFor(slots, tenant, now)|
    {
      var left := Active(slots, now);
      held, count := None, 0;
      ghost var seen: set<nat> := {};
      while left != {}
        invariant left <= Active(slots, now) && seen == ActiveFor(slots, tenant, now) - left && count == |seen|
        invariant held.Some? ==> IsHeld(slots, tenant, key, now, held.value)
        invariant held.None? ==> forall k :: IsHeld(slots, tenant, key, now, k) ==> k in left
      {
        var k :| k in left;
        if slots[k].tenant == tenant {
          seen, count := seen + {k}, count + 1;
          if slots[k].key == key { held := Some(k); }
        }
        left := left - {k};
      }
      assert seen == ActiveFor(slots, tenant, now);
    }

    /** Renews the slot this key holds, refuses at a limit, or takes a new one. */
    method ReserveSlot(tenant: nat, key: string, worker: string, now: int) returns (answer: Answer)
      requires Valid()
      modifies this
      ensures Valid()
      ensures answer.BadPolicy? <==> !IsValid(policy)
      ensures answer.Exhausted? <==>
                IsValid(policy) && (forall k :: !IsHeld(old(slots), tenant, key, now, k)) && IsFull(old(slots), tenant, policy, now)
      ensures answer.KeyTaken? <==>
                && IsValid(policy) && (forall k :: !IsHeld(old(slots), tenant, key, now, k))
                && !IsFull(old(slots), tenant, policy, now) && IsTaken(old(slots), tenant, key)
      ensures slots == if answer.Granted? then Apply(old(slots), policy, Reserve(tenant, key, worker, answer.id), now) else old(slots)
      ensures answer.Granted? ==> answer.id in slots && slots[answer.id] == Slot(tenant, key, worker, now + policy.leaseSeconds, None)
    {
      hide IsTaken, Active, ActiveFor;
      if !IsValid(policy) { return BadPolicy; }
      var held, count := Survey(tenant, key, now);
      if held.Some? {
        slots := slots[held.value := Renewed(slots[held.value], worker, now + policy.leaseSeconds)];
        return Granted(held.value);
      }
      if count >= policy.perTenant || |Active(slots, now)| >= policy.global { return Exhausted; }
      if IsTaken(slots, tenant, key) { return KeyTaken; }
      var id := nextId;
      slots, nextId := slots[id := Slot(tenant, key, worker, now + policy.leaseSeconds, None)], nextId + 1;
      return Granted(id);
    }

    method ReleaseSlot(id: nat, worker: string, now: int) returns (ok: bool)
      requires Valid()
      modifies this`slots
      ensures Valid() && ok == MayRelease(old(slots), id, worker)
      ensures slots == Apply(old(slots), policy, Release(id, worker), now)
    {
      if id !in slots { return false; }
      var row := slots[id];
      if row.releasedAt.None? && row.worker != worker { return false; }
      row := row.(releasedAt := Some(now));
      slots := slots[id := row];
      return true;
    }

    method RecoverSlots(now: int) returns (count: nat)
      requires Valid()
      modifies this`slots
      ensures Valid() && slots == Apply(old(slots), policy, Recover, now)
      ensures count == |set k | k in old(slots) && old(slots)[k].releasedAt.None? && old(slots)[k].leaseUntil <= now|
    {
      var expired := set k | k in slots && slots[k].releasedAt.None? && slots[k].leaseUntil <= now;
      var left := expired;
      count := 0;
      while left != {}
        invariant left <= expired && count + |left| == |expired|
        invariant slots == map k | k in old(slots) ::
                    if k in expired - left then old(slots)[k].(releasedAt := Some(now)) else old(slots)[k]
      {
        var k :| k in left;
        slots := slots[k := slots[k].(releasedAt := Some(now))];
        left := left - {k};
        count := count + 1;
      }
    }
  }
}
