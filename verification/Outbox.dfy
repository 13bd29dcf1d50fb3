/** The transactional outbox: publishing with a crash possible at every commit point, and the
    sweep that finds jobs whose wake-up was lost. */
module Outbox {
  import opened Common
  import Jobs

  /** A wake-up event of a job. */
  datatype Event = Event(job: nat, createdAt: int, publishedAt: Option<int>, attempts: nat)

  /** What happened outside the database: how often the publisher returned normally for an
      event, and how often the process died before saving that. */
  datatype Delivery = Delivery(sent: nat, unsaved: nat)

  /** How one publication attempt goes, after the attempt itself was committed. */
  datatype Fate =
    | DiesBefore   // killed before the publisher is called
    | Fails        // the publisher, or the injector inside the try block, raises
    | DiesAfter    // killed after the publisher returned, before the result is saved
    | Returns

  datatype State = State(events: map<nat, Event>, deliveries: map<nat, Delivery>, nextId: nat)

  const EMPTY := State(map[], map[], 0)
  const STALE: int := 60

  // ---------------------------------------------------------------- publishing

  predicate Stops(f: Fate) { f in {DiesBefore, DiesAfter} }

  function Tried(e: Event, f: Fate, now: int): Event {
    e.(attempts := e.attempts + 1, publishedAt := if f == Returns then Some(now) else e.publishedAt)
  }

  function Delivered(d: Delivery, f: Fate): Delivery {
    if f == Returns then d.(sent := d.sent + 1)
    else if f == DiesAfter then Delivery(d.sent + 1, d.unsaved + 1)
    else d
  }

  /** How many events of a batch are attempted: a crash ends the pass. */
  function Reach(batch: seq<nat>, fate: nat -> Fate): (n: nat)
    ensures n <= |batch|
    ensures forall i :: 0 <= i < n - 1 ==> !Stops(fate(batch[i]))
    ensures n < |batch| ==> n > 0 && Stops(fate(batch[n - 1]))
  {
    if batch == [] then 0
    else if Stops(fate(batch[0])) then 1
    else 1 + Reach(batch[1..], fate)
  }

  predicate Before(events: map<nat, Event>, a: nat, b: nat)
    requires a in events && b in events
  {
    events[a].createdAt < events[b].createdAt || (events[a].createdAt == events[b].createdAt && a < b)
  }

  /** The first `limit` unpublished events, oldest first. */
  ghost predicate IsBatch(events: map<nat, Event>, batch: seq<nat>, limit: nat) {
    && |batch| <= limit
    && (forall i :: 0 <= i < |batch| ==> batch[i] in events && events[batch[i]].publishedAt.None?)
    && (forall i, j :: 0 <= i < j < |batch| ==> Before(events, batch[i], batch[j]))
    && (forall k :: k in events && events[k].publishedAt.None? && k !in batch ==>
          |batch| == limit && forall i :: 0 <= i < |batch| ==> Before(events, batch[i], k))
  }

  function PublishedEvents(events: map<nat, Event>, tried: seq<nat>, fate: nat -> Fate, now: int): map<nat, Event> {
    map k | k in events :: if k in tried then Tried(events[k], fate(k), now) else events[k]
  }

  function PublishedDeliveries(deliveries: map<nat, Delivery>, tried: seq<nat>, fate: nat -> Fate): map<nat, Delivery> {
    map k | k in deliveries :: if k in tried then Delivered(deliveries[k], fate(k)) else deliveries[k]
  }

  function Publish(s: State, batch: seq<nat>, fate: nat -> Fate, now: int): State {
    var tried := batch[..Reach(batch, fate)];
    s.(events := PublishedEvents(s.events, tried, fate, now), deliveries := PublishedDeliveries(s.deliveries, tried, fate))
  }

  function Add(s: State, job: nat, now: int): State {
    State(s.events[s.nextId := Event(job, now, None, 0)], s.deliveries[s.nextId := Delivery(0, 0)], s.nextId + 1)
  }

  // ---------------------------------------------------------------- lost wake-ups

  predicate IsDue(j: Jobs.Job, now: int) { Jobs.IsWaiting(j) && j.availableAt <= now }

  /** The job has an event that is still pending or was written within the last minute. */
  predicate Signalled(events: map<nat, Event>, job: nat, now: int) {
    exists k :: k in events && events[k].job == job && (events[k].publishedAt.None? || events[k].createdAt >= now - STALE)
  }

  function Missed(jobs: map<nat, Jobs.Job>, events: map<nat, Event>, now: int): set<nat> {
    set j | j in jobs && IsDue(jobs[j], now) && !Signalled(events, j, now)
  }

  // ---------------------------------------------------------------- runs

  datatype Step =
    | AddStep(job: nat, now: int)
    | PublishStep(batch: seq<nat>, limit: nat, fate: nat -> Fate, now: int)

  function Apply(s: State, step: Step): State {
    match step
    case AddStep(job, now) => Add(s, job, now)
    case PublishStep(batch, _, fate, now) => Publish(s, batch, fate, now)
  }

  ghost predicate IsRun(run: seq<State>, steps: seq<Step>) {
    && |run| == |steps| + 1
    && run[0] == EMPTY
    && forall i :: 0 <= i < |steps| ==>
         && (steps[i].PublishStep? ==> IsBatch(run[i].events, steps[i].batch, steps[i].limit))
         && run[i + 1] == Apply(run[i], steps[i])
  }

  /** Normal returns of the publisher are exactly the saved one, if any, and those whose saving
      died; there are at most as many as attempts. */
  predicate RowOk(e: Event, d: Delivery) {
    d.sent == d.unsaved + (if e.publishedAt.Some? then 1 else 0) && d.sent <= e.attempts
  }

  ghost predicate Inv(s: State) {
    && (forall k :: k in s.events <==> k in s.deliveries)
    && (forall k :: k in s.events ==> k < s.nextId && RowOk(s.events[k], s.deliveries[k]))
  }

  lemma TryKeepsRow(e: Event, d: Delivery, f: Fate, now: int)
    requires RowOk(e, d) && e.publishedAt.None?
    ensures RowOk(Tried(e, f, now), Delivered(d, f))
  {}

  lemma PublishKeepsInv(s: State, batch: seq<nat>, limit: nat, fate: nat -> Fate, now: int)
    requires Inv(s) && IsBatch(s.events, batch, limit)
    ensures Inv(Publish(s, batch, fate, now))
  {
    hide RowOk, Before;
    var tried := batch[..Reach(batch, fate)];
    forall k | k in s.events && k in tried ensures RowOk(Tried(s.events[k], fate(k), now), Delivered(s.deliveries[k], fate(k))) {
      TryKeepsRow(s.events[k], s.deliveries[k], fate(k), now);
    }
  }

  lemma {:induction false} ReachableInv(run: seq<State>, steps: seq<Step>, i: nat)
    requires IsRun(run, steps) && i < |run|
    ensures Inv(run[i])
  {
    hide Publish, IsBatch;
    if i > 0 {
      ReachableInv(run, steps, i - 1);
      var step := steps[i - 1];
      if step.PublishStep? { PublishKeepsInv(run[i - 1], step.batch, step.limit, step.fate, step.now); }
    }
  }

  /** An event marked published was published: its publisher returned normally. Every further
      normal return is one whose saving died, and there are never more returns than attempts. */
  lemma PublishedMeansReturned(run: seq<State>, steps: seq<Step>, i: nat, k: nat)
    requires IsRun(run, steps) && i < |run| && k in run[i].events
    ensures k in run[i].deliveries
    ensures var e, d := run[i].events[k], run[i].deliveries[k];
            && (e.publishedAt.Some? ==> d.sent == 1 + d.unsaved)
            && (e.publishedAt.None? ==> d.sent == d.unsaved)
            && d.sent <= e.attempts
  {
    hide IsRun;
    ReachableInv(run, steps, i);
  }

  /** The row of an event between two states. */
  predicate RowStays(a: Event, b: Event) {
    && b.job == a.job && b.createdAt == a.createdAt && a.attempts <= b.attempts
    && (a.publishedAt.Some? ==> b == a)
  }

  lemma StepKeepsEvents(s: State, step: Step, k: nat)
    requires Inv(s) && k in s.events && (step.PublishStep? ==> IsBatch(s.events, step.batch, step.limit))
    ensures k in Apply(s, step).events && RowStays(s.events[k], Apply(s, step).events[k])
  {
    hide Before;
  }

  /** No event is ever lost: it stays in the table, it stays pending until a publication returns
      and is saved, and a published one is never attempted again. */
  lemma {:induction false} NothingIsLost(run: seq<State>, steps: seq<Step>, i: nat, j: nat, k: nat)
    requires IsRun(run, steps) && i <= j < |run| && k in run[i].events
    ensures k in run[j].events && RowStays(run[i].events[k], run[j].events[k])
  {
    hide Apply, IsBatch, Inv;
    if i < j {
      NothingIsLost(run, steps, i, j - 1, k);
      ReachableInv(run, steps, j - 1);
      StepKeepsEvents(run[j - 1], steps[j - 1], k);
    }
  }

  /** A pending event becomes published only in a pass whose publisher returned for it and whose
      result was saved; it is attempted whenever the pass reaches it. */
  lemma PublishedByReturn(s: State, batch: seq<nat>, limit: nat, fate: nat -> Fate, now: int, k: nat)
    requires IsBatch(s.events, batch, limit) && k in s.events && s.events[k].publishedAt.None?
    ensures k in Publish(s, batch, fate, now).events
    ensures var after := Publish(s, batch, fate, now).events[k]; var n := Reach(batch, fate);
            && after.publishedAt == (if k in batch[..n] && fate(k) == Returns then Some(now) else None)
            && after.attempts == s.events[k].attempts + (if k in batch[..n] then 1 else 0)
            && after.job == s.events[k].job && after.createdAt == s.events[k].createdAt
            && ((forall j :: !Stops(fate(j))) && |batch| < limit ==> k in batch[..n])
  {
    hide Before;
  }

  // ---------------------------------------------------------------- the sweep

  /** The sweep so far: old events are untouched, and each job of `done` got exactly one new
      pending event. */
  ghost predicate Swept(was: map<nat, Event>, events: map<nat, Event>, done: set<nat>, now: int) {
    && (forall k :: k in was ==> k in events && events[k] == was[k])
    && (forall k :: k in events && k !in was ==> events[k].job in done && events[k] == Event(events[k].job, now, None, 0))
    && (forall j :: j in done ==> Woken(was, events, j))
    && (forall k, l :: k in events && l in events && k !in was && l !in was && events[k].job == events[l].job ==> k == l)
  }

  predicate Woken(was: map<nat, Event>, events: map<nat, Event>, j: nat) {
    exists k :: k in events && k !in was && events[k].job == j
  }

  lemma SweepOne(was: map<nat, Event>, events: map<nat, Event>, done: set<nat>, id: nat, j: nat, now: int)
    requires Swept(was, events, done, now) && id !in events && j !in done
    ensures Swept(was, events[id := Event(j, now, None, 0)], done + {j}, now)
  {
    var after := events[id := Event(j, now, None, 0)];
    assert id in after && id !in was && after[id].job == j;
    forall i | i in done ensures Woken(was, after, i) {
      var k :| k in events && k !in was && events[k].job == i;
      assert k in after && after[k].job == i;
    }
  }

  /** After the sweep every due job is signalled, so sweeping again at once adds nothing. */
  lemma SweepSignalsAll(jobs: map<nat, Jobs.Job>, was: map<nat, Event>, events: map<nat, Event>, now: int)
    requires Swept(was, events, Missed(jobs, was, now), now)
    ensures forall j :: j in jobs && IsDue(jobs[j], now) ==> Signalled(events, j, now)
    ensures Missed(jobs, events, now) == {}
  {
    forall j | j in jobs && IsDue(jobs[j], now) ensures Signalled(events, j, now) {
      if j in Missed(jobs, was, now) {
        assert Woken(was, events, j);
      } else {
        var k :| k in was && was[k].job == j && (was[k].publishedAt.None? || was[k].createdAt >= now - STALE);
        assert events[k] == was[k];
      }
    }
  }

  /** A job is woken exactly if it waits, its time has come, and all its events were published and
      are more than a minute old. */
  lemma WokenIff(jobs: map<nat, Jobs.Job>, was: map<nat, Event>, events: map<nat, Event>, now: int, j: nat)
    requires Swept(was, events, Missed(jobs, was, now), now)
    ensures Woken(was, events, j) <==>
              && j in jobs && jobs[j].state in {Jobs.Queued, Jobs.RetryWait} && jobs[j].availableAt <= now
              && forall k :: k in was && was[k].job == j ==> was[k].publishedAt.Some? && was[k].createdAt < now - 60
  {
    if j in Missed(jobs, was, now) { assert Woken(was, events, j); }
  }

  // ---------------------------------------------------------------- the table

  class OutboxTable {
    var events: map<nat, Event>
    var nextId: nat
    ghost var deliveries: map<nat, Delivery>

    ghost function Rows(): State reads this { State(events, deliveries, nextId) }

    constructor ()
      ensures Rows() == EMPTY
    {
      events, nextId, deliveries := map[], 0, map[];
    }

    method AddEvent(job: nat, now: int)
      modifies this
      ensures Rows() == Add(old(Rows()), job, now)
    {
      events := events[nextId := Event(job, now, None, 0)];
      deliveries := deliveries[nextId := Delivery(0, 0)];
      nextId := nextId + 1;
    }

    /** One attempt on one event, up to the crash if there is one. */
    method Attempt(id: nat, f: Fate, now: int)
      requires id in events && id in deliveries
      modifies this`events, this`deliveries
      ensures events == old(events)[id := Tried(old(events)[id], f, now)]
      ensures deliveries == old(deliveries)[id := Delivered(old(deliveries)[id], f)]
    {
      var e := events[id];
      e := e.(attempts := e.attempts + 1);
      events := events[id := e];
      if f == DiesBefore || f == Fails { return; }
      ghost var d := deliveries[id];
      deliveries := deliveries[id := if f == Returns then d.(sent := d.sent + 1) else Delivery(d.sent + 1, d.unsaved + 1)];
      if f == DiesAfter { return; }
      e := e.(publishedAt := Some(now));
      events := events[id := e];
    }

    /** Publishes the oldest pending events; `crashed` means the pass did not return. */
    method PublishPending(limit: nat, fate: nat -> Fate, now: int)
      returns (ok: bool, crashed: bool, published: nat, failed: nat, ghost batch: seq<nat>)
      requires forall k :: k in events <==> k in deliveries
      modifies this
      ensures ok == (limit >= 1)
      ensures if ok then IsBatch(old(events), batch, limit) else batch == []
      ensures Rows() == Publish(old(Rows()), batch, fate, now)
      ensures crashed <==> exists i :: 0 <= i < |batch| && Stops(fate(batch[i]))
      ensures !crashed ==> published == |Returned(batch, fate)| && failed == |batch| - published
    {
      hide PublishedEvents, PublishedDeliveries, Before;
      ok := limit >= 1;
      var entries := [];
      if ok { entries := Oldest(events, limit); }
      batch := entries;
      crashed, published, failed := PublishEach(entries, fate, now);
    }

    method PublishEach(entries: seq<nat>, fate: nat -> Fate, now: int) returns (crashed: bool, published: nat, failed: nat)
      requires forall k :: k in events <==> k in deliveries
      requires forall j :: 0 <= j < |entries| ==> entries[j] in events
      requires forall i, j :: 0 <= i < j < |entries| ==> entries[i] != entries[j]
      modifies this`events, this`deliveries
      ensures Rows() == Publish(old(Rows()), entries, fate, now)
      ensures crashed <==> exists i :: 0 <= i < |entries| && Stops(fate(entries[i]))
      ensures !crashed ==> published == |Returned(entries, fate)| && failed == |entries| - published
    {
      hide Tried, Delivered, PublishedEvents, PublishedDeliveries, Reach, Stops;
      ghost var was, given := events, deliveries;
      NonePublished(was, given, fate, now);
      assert entries[..0] == [];
      published, failed, crashed := 0, 0, false;
      var i := 0;
      while i < |entries| && !crashed
        invariant 0 <= i <= |entries|
        invariant events == PublishedEvents(was, entries[..i], fate, now)
        invariant deliveries == PublishedDeliveries(given, entries[..i], fate)
        invariant forall j :: 0 <= j < i - 1 ==> !Stops(fate(entries[j]))
        invariant i > 0 ==> (crashed <==> Stops(fate(entries[i - 1])))
        invariant crashed ==> i > 0
        invariant !crashed ==> published == |Returned(entries[..i], fate)| && published + failed == i
      {
        var id := entries[i];
        OnePublished(was, given, entries, i, fate, now);
        OneReturned(entries, i, fate);
        var f := fate(id);
        Attempt(id, f, now);
        crashed := Stops(f);
        if f == Returns { published := published + 1; } else { failed := failed + 1; }
        i := i + 1;
      }
      ReachIs(entries, fate, i);
      assert !crashed ==> entries[..i] == entries;
    }

    /** Whether the job has a pending or a recent event, event by event. */
    method HasSignal(job: nat, now: int) returns (found: bool)
      ensures found == Signalled(events, job, now)
    {
      found := false;
      var left := events.Keys;
      while left != {} && !found
        invariant left <= events.Keys
        invariant found ==> Signalled(events, job, now)
        invariant !found ==> forall k :: k in events && k !in left ==>
                    events[k].job != job || (events[k].publishedAt.Some? && events[k].createdAt < now - STALE)
      {
        var k :| k in left;
        left := left - {k};
        var e := events[k];
        found := e.job == job && (e.publishedAt.None? || e.createdAt >= now - STALE);
      }
    }

    /** Wakes one due job unless it has a signal. */
    method WakeIfLost(j: nat, now: int, ghost was: map<nat, Event>, ghost done: set<nat>) returns (woken: bool)
      requires Inv(Rows()) && Swept(was, events, done, now) && j !in done
      modifies this
      ensures woken == !Signalled(was, j, now)
      ensures Inv(Rows()) && Swept(was, events, if woken then done + {j} else done, now)
    {
      hide Swept, Signalled;
      SignalKept(was, events, done, j, now);
      var signalled := HasSignal(j, now);
      woken := !signalled;
      if woken {
        SweepOne(was, events, done, nextId, j, now);
        AddEvent(j, now);
      }
    }

    /** Wakes every due job that has neither a pending nor a recent event. */
    method DiscoverLostWakeups(jobs: map<nat, Jobs.Job>, now: int) returns (added: nat)
      requires Inv(Rows())
      modifies this
      ensures Inv(Rows()) && Swept(old(events), events, Missed(jobs, old(events), now), now)
      ensures added == |Missed(jobs, old(events), now)|
    {
      hide Inv, Swept, Signalled, IsDue;
      ghost var was, done: set<nat> := events, {};
      ghost var missed := Missed(jobs, events, now);
      var left := jobs.Keys;
      added := 0;
      NothingSwept(was, now);
      while left != {}
        invariant left <= jobs.Keys && done == missed - left && added == |done|
        invariant Inv(Rows()) && Swept(was, events, done, now)
      {
        var j :| j in left;
        left := left - {j};
        if IsDue(jobs[j], now) {
          var woken := WakeIfLost(j, now, was, done);
          if woken {
            done := done + {j};
            added := added + 1;
          }
        }
      }
      assert done == missed;
    }
  }

  /** A job not woken yet has the signals it had before. */
  lemma SignalKept(was: map<nat, Event>, events: map<nat, Event>, done: set<nat>, j: nat, now: int)
    requires Swept(was, events, done, now) && j !in done
    ensures Signalled(events, j, now) <==> Signalled(was, j, now)
  {}

  lemma NothingSwept(events: map<nat, Event>, now: int)
    ensures Swept(events, events, {}, now)
  {}

  lemma NonePublished(events: map<nat, Event>, deliveries: map<nat, Delivery>, fate: nat -> Fate, now: int)
    ensures PublishedEvents(events, [], fate, now) == events && PublishedDeliveries(deliveries, [], fate) == deliveries
  {}

  /** The next entry of a pass changes its own rows and nothing else. */
  lemma OnePublished(events: map<nat, Event>, deliveries: map<nat, Delivery>, entries: seq<nat>, i: nat, fate: nat -> Fate, now: int)
    requires i < |entries| && entries[i] in events && entries[i] in deliveries
    requires forall a, b :: 0 <= a < b < |entries| ==> entries[a] != entries[b]
    ensures var id := entries[i]; var done := PublishedEvents(events, entries[..i], fate, now);
            && id in done && done[id] == events[id]
            && PublishedEvents(events, entries[..i + 1], fate, now) == done[id := Tried(events[id], fate(id), now)]
    ensures var id := entries[i]; var done := PublishedDeliveries(deliveries, entries[..i], fate);
            && id in done && done[id] == deliveries[id]
            && PublishedDeliveries(deliveries, entries[..i + 1], fate) == done[id := Delivered(deliveries[id], fate(id))]
  {
    hide Tried, Delivered;
    assert entries[..i + 1] == entries[..i] + [entries[i]];
  }

  /** The entries whose publisher returned. */
  function Returned(batch: seq<nat>, fate: nat -> Fate): set<nat> { set k | k in batch && fate(k) == Returns }

  lemma OneReturned(entries: seq<nat>, i: nat, fate: nat -> Fate)
    requires i < |entries| && forall a, b :: 0 <= a < b < |entries| ==> entries[a] != entries[b]
    ensures |Returned(entries[..i + 1], fate)| == |Returned(entries[..i], fate)| + (if fate(entries[i]) == Returns then 1 else 0)
  {
    var before := Returned(entries[..i], fate);
    assert entries[..i + 1] == entries[..i] + [entries[i]];
    assert entries[i] !in before;
    assert Returned(entries[..i + 1], fate) == if fate(entries[i]) == Returns then before + {entries[i]} else before;
  }

  lemma ReachIs(batch: seq<nat>, fate: nat -> Fate, n: nat)
    requires n <= |batch| && (forall i :: 0 <= i < n - 1 ==> !Stops(fate(batch[i])))
    requires if n < |batch| then n > 0 && Stops(fate(batch[n - 1])) else true
    ensures Reach(batch, fate) == n
  {}

  /** The oldest pending rows: `order by created_at, id limit n`. */
  method Oldest(events: map<nat, Event>, limit: nat) returns (batch: seq<nat>)
    ensures IsBatch(events, batch, limit)
    ensures forall i, j :: 0 <= i < j < |batch| ==> batch[i] != batch[j]
  {
    hide Before;
    var pending := set k | k in events && events[k].publishedAt.None?;
    var left := pending;
    batch := [];
    while |batch| < limit && left != {}
      invariant left <= pending && |batch| <= limit
      invariant forall k :: k in pending <==> k in left || k in batch
      invariant forall k :: k in left ==> k !in batch
      invariant forall i :: 0 <= i < |batch| ==> batch[i] in pending
      invariant forall i, j :: 0 <= i < j < |batch| ==> Before(events, batch[i], batch[j]) && batch[i] != batch[j]
      invariant forall i, k :: 0 <= i < |batch| && k in left ==> Before(events, batch[i], k)
    {
      var id := Earliest(events, left);
      left := left - {id};
      batch := batch + [id];
    }
  }

  method Earliest(events: map<nat, Event>, ids: set<nat>) returns (id: nat)
    requires ids != {} && forall k :: k in ids ==> k in events
    ensures id in ids && forall k :: k in ids && k != id ==> Before(events, id, k)
  {
    id :| id in ids;
    var left := ids - {id};
    while left != {}
      invariant left <= ids && id in ids
      invariant forall k :: k in ids && k !in left && k != id ==> Before(events, id, k)
    {
      var k :| k in left;
      if Before(events, k, id) { id := k; }
      left := left - {k};
    }
  }
}
