/** Runs of the payment commands that reach the states the theorems speak about. */
module PaymentWitness {
  import opened Common
  import opened Payments
  import opened PaymentRules
  import opened PaymentRuns
  import Actions

  const FIRST: LinkKey := LinkKey(0, 1)

  /** An event of the one payment of the first link. */
  function EventOf(id: string, kind: Kind, total: int, captured: bool): Event {
    Event(EventKey("account", TEST, id), kind, true, "link", "payment", "order", Some(Own(FIRST)), Some(total), INR, captured)
  }

  function Captured(total: int): Event { EventOf("capture", LinkPaid, total, true) }
  function Authorized(total: int): Event { EventOf("authorization", PaymentAuthorized, total, false) }

  /** A paid link whose payment the provider still reports as authorized. */
  function PaidUncaptured(total: int): Event { EventOf("capture", LinkPaid, total, false) }

  function Answer(total: int): Payments.Answer { Answered("link", "url", Some(total), INR, Own(FIRST), "order") }

  function RequestCall(total: int): Call { Call(RequestStep(0, total), false) }
  const PREPARE_CALL := Call(PrepareStep(0, "account"), false)
  function DispatchCall(total: int): Call { Call(DispatchStep(FIRST, "account", Answer(total), 0), false) }
  function ObserveCall(e: Event): Call { Call(ObserveStep(e, 0), false) }

  // ---------------------------------------------------------------- the first steps

  predicate IsPrepared(db: Tables, total: int) {
    && db.requests == map[0 := Request(total, CreationPending, None, 1)]
    && db.links == map[FIRST := Link("account", total, INR, Ready, None, None)]
    && db.actions == map[FIRST := Actions.NEW_ACTION]
  }

  predicate IsOpen(db: Tables, total: int) {
    && db.requests == map[0 := Request(total, Pending, None, 2)]
    && db.links == map[FIRST := Link("account", total, INR, Created, Some("link"), Some("order"))]
  }

  lemma FirstLink(total: int) returns (db: Tables)
    ensures Prepare(NewRequest(EMPTY, 0, total), 0, "account") == Done(db) && IsPrepared(db, total)
    ensures db.charges == map[] && db.observations == map[]
  {
    var before := NewRequest(EMPTY, 0, total);
    assert NumbersOf(before.links, 0) == {} && ActiveNumbers(before.links, 0) == {};
    db := Prepare(before, 0, "account").db;
  }

  lemma FirstDispatch(before: Tables, total: int) returns (db: Tables)
    requires IsPrepared(before, total)
    ensures Dispatch(before, FIRST, "account", Answer(total), 0) == Done(db) && IsOpen(db, total)
    ensures db.charges == before.charges && db.observations == before.observations
  {
    hide Actions.SetLast;
    FirstAttempt();
    db := Dispatch(before, FIRST, "account", Answer(total), 0).db;
    assert IsFree(before.links, FIRST, "link");
  }

  lemma FirstAttempt()
    ensures Actions.Apply(Actions.NEW_ACTION, Actions.Begin).Done?
    ensures Actions.Apply(Actions.Apply(Actions.NEW_ACTION, Actions.Begin).row, Actions.Complete).Done?
  {
    var begun := Actions.Apply(Actions.NEW_ACTION, Actions.Begin);
    assert MaxKey(Actions.NEW_ACTION.attempts) == 0;
    assert 1 in begun.row.attempts;
  }

  /** The run up to an open link. */
  lemma OpenLink(total: int) returns (run: seq<Tables>, calls: seq<Call>)
    ensures calls == [RequestCall(total), PREPARE_CALL, DispatchCall(total)] && IsRun(run, calls)
    ensures IsOpen(run[3], total) && run[3].charges == map[] && run[3].observations == map[]
  {
    hide Prepare, Dispatch;
    calls := [RequestCall(total), PREPARE_CALL, DispatchCall(total)];
    var prepared := FirstLink(total);
    var opened' := FirstDispatch(prepared, total);
    run := [EMPTY, NewRequest(EMPTY, 0, total), prepared, opened'];
  }

  lemma Extend(run: seq<Tables>, calls: seq<Call>, call: Call) returns (run': seq<Tables>, calls': seq<Call>)
    requires IsRun(run, calls)
    ensures calls' == calls + [call] && IsRun(run', calls') && run' == run + [After(run[|run| - 1], call.step, call.commitsFailure)]
  {
    hide After;
    calls' := calls + [call];
    run' := run + [After(run[|run| - 1], call.step, call.commitsFailure)];
  }

  // ---------------------------------------------------------------- a payment can be collected

  lemma CaptureWillPay(db: Tables, total: int)
    requires 0 < total <= MAX_AMOUNT && IsOpen(db, total) && db.charges == map[] && db.observations == map[]
    ensures WillPay(db, Captured(total), 0)
  {
    assert Matches(FIRST, db.links[FIRST], Captured(total));
  }

  /** Request, link, dispatch and capture lead to a paid request: what is said of every run is
      not said of runs that never pay. */
  lemma AnyTotalCanBePaid(total: int) returns (run: seq<Tables>, calls: seq<Call>)
    requires 0 < total <= MAX_AMOUNT
    ensures IsRun(run, calls) && calls == [RequestCall(total), PREPARE_CALL, DispatchCall(total), ObserveCall(Captured(total))]
    ensures IsPaid(run[4].requests, 0) && run[4].requests[0].total == total
  {
    hide Observe, Inv, WillPay, IsRun;
    run, calls := OpenLink(total);
    RunLength(run, calls);
    ReachableInv(run, calls, 3);
    CaptureWillPay(run[3], total);
    WillPayPays(run[3], Captured(total), 0, 0);
    run, calls := Extend(run, calls, ObserveCall(Captured(total)));
    RowsStay(run, calls, 3, 4);
  }

  lemma RunLength(run: seq<Tables>, calls: seq<Call>)
    requires IsRun(run, calls)
    ensures |run| == |calls| + 1
  {}

  // ---------------------------------------------------------------- the order of events

  lemma AuthorizationIsRecorded(db: Tables, total: int)
    requires 0 < total <= MAX_AMOUNT && IsOpen(db, total) && db.charges == map[] && db.observations == map[] && Inv(db)
    ensures var r := Observe(db, db.links, Authorized(total), 0);
            r.Done? && "payment" in r.db.charges && !r.db.charges["payment"].captured && !IsPaid(r.db.requests, 0)
  {
    hide Inv;
    LinkIsSound(db, FIRST);
    FoundHere(db.links, "link", FIRST);
    assert Matches(FIRST, db.links[FIRST], Authorized(total));
  }

  /** The same two events, delivered in the two orders: the capture pays if it comes first, and
      does not if the authorization does. */
  lemma OrderOfEventsMatters(total: int) returns (run: seq<Tables>, calls: seq<Call>, run': seq<Tables>, calls': seq<Call>)
    requires 0 < total <= MAX_AMOUNT
    ensures IsRun(run, calls) && IsRun(run', calls')
    ensures var opening := [RequestCall(total), PREPARE_CALL, DispatchCall(total)];
            && calls == opening + [ObserveCall(Captured(total)), ObserveCall(Authorized(total))]
            && calls' == opening + [ObserveCall(Authorized(total)), ObserveCall(Captured(total))]
    ensures IsPaid(run[5].requests, 0) && 0 in run'[5].requests && !IsPaid(run'[5].requests, 0)
  {
    hide Observe, Inv, WillPay, IsRun;
    run, calls := AnyTotalCanBePaid(total);
    RunLength(run, calls);
    run, calls := Extend(run, calls, ObserveCall(Authorized(total)));
    RowsStay(run, calls, 4, 5);

    run', calls' := OpenLink(total);
    RunLength(run', calls');
    ReachableInv(run', calls', 3);
    AuthorizationIsRecorded(run'[3], total);
    run', calls' := Extend(run', calls', ObserveCall(Authorized(total)));
    UncapturedNeverPaysDirectly(run', calls', 4, 4, Captured(total), 0, 0);
    run', calls' := Extend(run', calls', ObserveCall(Captured(total)));
    RowsStay(run', calls', 3, 5);
  }

  // ---------------------------------------------------------------- a replay pays on an uncaptured charge

  lemma OrphanIsRecorded(db: Tables, total: int)
    requires 0 < total <= MAX_AMOUNT && IsPrepared(db, total) && db.charges == map[] && db.observations == map[]
    ensures var e := PaidUncaptured(total); var r := Observe(db, db.links, e, 0);
            && r.Done? && IsPrepared(r.db, total)
            && r.db.charges == map["payment" := Charge(None, false)]
            && r.db.observations == map[e.key := Observation(e, None, Some("payment"), Unmatched, Some(RETRY_FOR))]
  {
    assert Find(db.links, "link").None?;
  }

  lemma OrphanWillPay(db: Tables, total: int)
    requires 0 < total <= MAX_AMOUNT && IsOpen(db, total) && Inv(db)
    requires var e := PaidUncaptured(total);
             db.observations == map[e.key := Observation(e, None, Some("payment"), Unmatched, Some(RETRY_FOR))]
    ensures ReplayWillPay(db, PaidUncaptured(total).key, 0)
  {
    hide Inv;
    LinkIsSound(db, FIRST);
    FoundHere(db.links, "link", FIRST);
    assert Owner(db.links, PaidUncaptured(total)) == Some(FIRST);
  }

  /** A paid-link event arrives before its link is known, for a payment that is not captured; the
      link is created, and the replay pays the request although its charge is recorded as not
      captured. */
  lemma ReplayPaysUncapturedRun(total: int) returns (run: seq<Tables>, calls: seq<Call>)
    requires 0 < total <= MAX_AMOUNT
    ensures IsRun(run, calls)
    ensures calls == [RequestCall(total), PREPARE_CALL, ObserveCall(PaidUncaptured(total)), DispatchCall(total),
                      Call(ReplayStep([PaidUncaptured(total).key], 0), false)]
    ensures IsPaid(run[5].requests, 0) && "payment" in run[5].charges && !run[5].charges["payment"].captured
  {
    hide Observe, Prepare, Dispatch, Inv, ReplayWillPay, ReplayOne;
    var e := PaidUncaptured(total);
    var prepared := FirstLink(total);
    OrphanIsRecorded(prepared, total);
    var orphan := Observe(prepared, prepared.links, e, 0).db;
    var opened' := FirstDispatch(orphan, total);
    calls := [RequestCall(total), PREPARE_CALL, ObserveCall(e), DispatchCall(total)];
    run := [EMPTY, NewRequest(EMPTY, 0, total), prepared, orphan, opened'];
    assert IsRun(run, calls);
    ReachableInv(run, calls, 4);
    OrphanWillPay(opened', total);
    ReplayPaysUncaptured(opened', e.key, 0, 0);
    OneReplay(opened', e.key, 0);
    run, calls := Extend(run, calls, Call(ReplayStep([e.key], 0), false));
  }

  lemma OneReplay(db: Tables, key: EventKey, now: int)
    ensures Replay(db, [key], now) == ReplayOne(db, key, now)
  {
    hide ReplayOne;
    assert [key][..0] == [];
    assert Replay(db, [], now) == Done(db);
  }
}
