/** Provider calls over runs of the payment commands: what stops them, and how a link's attempts
    are numbered and acknowledged. */
module PaymentActions {
  import opened Common
  import opened Payments
  import opened PaymentRules
  import opened PaymentSteps
  import opened PaymentRuns
  import Actions

  // ---------------------------------------------------------------- a request under review

  /** The call reaches the provider. */
  ghost predicate Reaches(db: Tables, k: LinkKey, account: string) {
    && k in db.links && k in db.actions && k.request in db.requests
    && db.requests[k.request].status in {CreationPending, Pending} && account == db.links[k].account
    && Actions.Apply(db.actions[k], Actions.Begin).Done?
  }

  /** Once a request is under review it stays so until it is paid, and no call on any of its
      links, old or new, reaches the provider any more: not even after an acknowledged retry. */
  lemma ReviewBlocksDispatch(run: seq<Tables>, calls: seq<Call>, i: nat, j: nat, p: nat)
    requires IsRun(run, calls) && i <= j < |run| && p in run[i].requests && run[i].requests[p].status == ReviewRequired
    ensures p in run[j].requests && run[j].requests[p].status in {ReviewRequired, Paid}
    ensures forall k: LinkKey, account: string :: k.request == p ==> !Reaches(run[j], k, account)
  {
    hide Apply, Actions.Apply;
    RowsStay(run, calls, i, j);
    assert RowKept(run[i].requests[p], run[j].requests[p]);
  }

  predicate IsRefusal(k: LinkKey, link: Link, answer: Answer) { !answer.Answered? || !Valid(k, link, answer) }

  /** A provider call without a proper answer leaves the request under review and the action
      uncertain. */
  lemma RefusalIsReviewed(db: Tables, k: LinkKey, account: string, answer: Answer, now: int)
    requires Inv(db) && Reaches(db, k, account) && IsRefusal(k, db.links[k], answer)
    ensures var r := Dispatch(db, k, account, answer, now);
            && r.Raised? && k.request in r.db.requests && r.db.requests[k.request].status == ReviewRequired
            && k in r.db.actions && Actions.IsUncertain(r.db.actions[k].state)
  {
    hide Inv, Valid, Actions.SetLast;
    var begun := WithActionRow(db, k, Actions.Apply(db.actions[k], Actions.Begin).row);
    assert db.actions[k].state != Actions.Succeeded;
    assert begun.actions[k].state == Actions.Dispatching;
    var s, op := if answer.Uncertain? then UnknownOutcome else NeedsReview, if answer.Uncertain? then Actions.MarkUnknown else Actions.MarkReview;
    FailedRows(begun, k, s, op, now);
  }

  lemma FailedRows(db: Tables, k: LinkKey, s: LinkStatus, op: Actions.Op, now: int)
    requires k in db.actions && k in db.links && k.request in db.requests
    requires db.requests[k.request].status in {CreationPending, Pending} && db.actions[k].state == Actions.Dispatching
    requires op in {Actions.MarkUnknown, Actions.MarkReview}
    ensures var r := Fail(db, k, s, op, now);
            && r.Raised? && k.request in r.db.requests && r.db.requests[k.request].status == ReviewRequired
            && k in r.db.actions && Actions.IsUncertain(r.db.actions[k].state) && k in r.db.links
  {}

  /** In every run, a provider call that got no proper answer, and whose failure the worker
      committed, is the last call on that request that reaches the provider. */
  lemma FailedDispatchBlocks(run: seq<Tables>, calls: seq<Call>, i: nat, j: nat)
    requires IsRun(run, calls) && i < j < |run| && calls[i].step.DispatchStep? && calls[i].commitsFailure
    requires var s := calls[i].step; Reaches(run[i], s.link, s.account) && IsRefusal(s.link, run[i].links[s.link], s.answer)
    ensures var p := calls[i].step.link.request;
            && p in run[j].requests && run[j].requests[p].status in {ReviewRequired, Paid}
            && (forall k: LinkKey, account: string :: k.request == p ==> !Reaches(run[j], k, account))
  {
    hide Dispatch, Reaches, IsRefusal;
    var s := calls[i].step;
    ReachableInv(run, calls, i);
    AtLink(run[i], s.link, s.account);
    RefusalIsReviewed(run[i], s.link, s.account, s.answer, s.now);
    ReviewBlocksDispatch(run, calls, i + 1, j, s.link.request);
  }

  lemma AtLink(db: Tables, k: LinkKey, account: string)
    requires Reaches(db, k, account)
    ensures k in db.links
  {}

  // ---------------------------------------------------------------- attempts of a link

  /** Every action moves without an acknowledgement, and new ones are untouched. */
  ghost predicate MovesUnacknowledged(a: map<LinkKey, Actions.Action>, b: map<LinkKey, Actions.Action>) {
    && (forall k :: k in a ==> k in b && Actions.Unacknowledged(a[k], b[k]))
    && (forall k :: k in b && k !in a ==> b[k] == Actions.NEW_ACTION)
  }

  lemma SameActions(a: map<LinkKey, Actions.Action>)
    ensures MovesUnacknowledged(a, a)
  {
    hide Actions.Unacknowledged;
    forall k | k in a ensures Actions.Unacknowledged(a[k], a[k]) { Actions.UnacknowledgedSame(a[k]); }
  }

  lemma OneAction(a: map<LinkKey, Actions.Action>, k: LinkKey, row: Actions.Action)
    requires k in a && Actions.Unacknowledged(a[k], row)
    ensures MovesUnacknowledged(a, a[k := row])
  {
    hide Actions.Unacknowledged;
    forall j | j in a ensures Actions.Unacknowledged(a[j], a[k := row][j]) { Actions.UnacknowledgedSame(a[j]); }
  }

  lemma MoveActions()
    ensures forall db: Tables, p: nat, target: Status, now: int :: p in db.requests ==> Move(db, p, target, now).db.actions == db.actions
  {}

  lemma PrepareActions(db: Tables, p: nat, account: string)
    ensures MovesUnacknowledged(db.actions, Prepare(db, p, account).db.actions)
  {
    hide MaxOf, NumbersOf, ActiveNumbers, Actions.Unacknowledged;
    SameActions(db.actions);
  }

  lemma ReplaceActions(db: Tables, p: nat, expected: nat, account: string, now: int)
    ensures MovesUnacknowledged(db.actions, Replace(db, p, expected, account, now).db.actions)
  {
    hide MaxOf, NumbersOf, Move, Prepare, MovesUnacknowledged;
    SameActions(db.actions);
    MoveActions();
    PrepareActions(db, p, account);
    if p in db.requests { PrepareActions(Move(db, p, Pending, now).db, p, account); }
  }

  lemma DriveActions(db: Tables, k: LinkKey, e: Event, charge: Option<Charge>, now: int)
    requires k in db.links && k.request in db.requests
    ensures Drive(db, k, e, charge, now).db.actions == db.actions
  {
    hide Move;
    MoveActions();
  }

  lemma ReviewActions(db: Tables, k: LinkKey, s: LinkStatus, now: int)
    requires k in db.links && k.request in db.requests
    ensures Review(db, k, s, now).db.actions == db.actions
  {
    hide Move;
    MoveActions();
  }

  lemma ObserveActions(db: Tables, stored: map<LinkKey, Link>, e: Event, now: int)
    ensures Observe(db, stored, e, now).db.actions == db.actions
  {
    hide Find, Matches, Drive, Review;
    var link := Find(stored, e.linkId);
    if link.Some? && link.value in db.links && link.value.request in db.requests {
      DriveActions(Recorded(db, e, link, now), link.value, e, ChargeOf(db, e, link), now);
      ReviewActions(Recorded(db, e, link, now), link.value, NeedsReview, now);
    }
  }

  lemma AdoptActions(db: Tables, key: EventKey, k: LinkKey, now: int)
    requires key in db.observations && k in db.links && k.request in db.requests
    ensures Adopt(db, key, k, now).db.actions == db.actions
  {
    hide Move;
    MoveActions();
  }

  lemma ReplayOneActions(db: Tables, key: EventKey, now: int)
    ensures ReplayOne(db, key, now).db.actions == db.actions
  {
    hide Owner, Adopt, Associate, IsExact;
    if key in db.observations && db.observations[key].state == Unmatched {
      var owner := Owner(db.links, db.observations[key].event);
      if owner.Some? && owner.value in db.links && owner.value.request in db.requests {
        AssociatedHere(db, key, owner.value);
        AssociateActions(db, key, owner.value);
        AdoptActions(Associate(db, key, owner.value), key, owner.value, now);
      }
    }
  }

  lemma AssociateActions(db: Tables, key: EventKey, k: LinkKey)
    requires key in db.observations
    ensures Associate(db, key, k).actions == db.actions
  {}

  lemma {:induction false} ReplayActions(db: Tables, batch: seq<EventKey>, now: int)
    ensures Replay(db, batch, now).db.actions == db.actions
  {
    hide ReplayOne;
    if batch != [] {
      ReplayActions(db, batch[..|batch| - 1], now);
      ReplayOneActions(Replay(db, batch[..|batch| - 1], now).db, batch[|batch| - 1], now);
    }
  }

  lemma ReconcileActions(db: Tables, p: nat, account: string, found: seq<Found>, fetched: Option<Fetched>, flushes: bool, now: int)
    ensures Reconcile(db, p, account, found, fetched, flushes, now).db.actions == db.actions
  {
    hide Observe, Identify, Reconciled;
    var k := LinkKey(p, MaxOf(NumbersOf(db.links, p)));
    if p in db.requests && k in db.links {
      IdentifyActions(db, k, found, now);
      var b := Identify(db, k, found, now).db;
      if fetched.Some? { ObserveActions(b, if flushes then b.links else db.links, Reconciled(fetched.value, account, db.requests[p].total), now); }
    }
  }

  lemma IdentifyActions(db: Tables, k: LinkKey, found: seq<Found>, now: int)
    requires k in db.links && k.request in db.requests
    ensures Identify(db, k, found, now).db.actions == db.actions
  {
    hide Review, LastMatch, IsFree;
    ReviewActions(db, k, UnknownOutcome, now);
  }

  /** Settling a dispatch applies at most one more call to the begun action. */
  lemma SettleActions(before: Tables, db: Tables, k: LinkKey, answer: Answer, now: int)
    requires k in db.actions && k in db.links && k.request in db.requests
    ensures var after := Settle(before, db, k, answer, now).db.actions;
            after in {before.actions, db.actions} || (exists op :: op != Actions.Retry(true) && after == db.actions[k := Actions.Apply(db.actions[k], op).row])
  {
    hide Move, Actions.Apply, Valid, IsFree;
    MoveActions();
  }

  lemma DispatchActions(db: Tables, k: LinkKey, account: string, answer: Answer, now: int)
    requires Inv(db)
    ensures MovesUnacknowledged(db.actions, Dispatch(db, k, account, answer, now).db.actions)
  {
    hide Inv, Settle, Actions.Apply, MovesUnacknowledged, Actions.RowOk, Actions.Unacknowledged;
    SameActions(db.actions);
    if k in db.actions && k in db.links && k.request in db.requests {
      LinkActionOk(db, k);
      var begun := WithActionRow(db, k, Actions.Apply(db.actions[k], Actions.Begin).row);
      Actions.CallIsUnacknowledged(db.actions[k], Actions.Begin);
      Actions.CallKeepsRow(db.actions[k], Actions.Begin);
      OneAction(db.actions, k, begun.actions[k]);
      SettleActions(db, begun, k, answer, now);
      var after := Settle(db, begun, k, answer, now).db.actions;
      if after !in {db.actions, begun.actions} {
        var op :| op != Actions.Retry(true) && after == begun.actions[k := Actions.Apply(begun.actions[k], op).row];
        Actions.CallIsUnacknowledged(begun.actions[k], op);
        Actions.UnacknowledgedTrans(db.actions[k], begun.actions[k], after[k]);
        OneAction(db.actions, k, after[k]);
        assert after == db.actions[k := after[k]];
      }
    }
  }

  lemma LinkActionOk(db: Tables, k: LinkKey)
    requires Inv(db) && k in db.actions
    ensures Actions.RowOk(db.actions[k])
  {}

  lemma CallActions(db: Tables, k: LinkKey, op: Actions.Op)
    requires Inv(db) && op != Actions.Retry(true)
    ensures MovesUnacknowledged(db.actions, ActionCall(db, k, op).db.actions)
  {
    hide Inv, Actions.Apply, MovesUnacknowledged, Actions.RowOk, Actions.Unacknowledged;
    SameActions(db.actions);
    if k in db.actions {
      LinkActionOk(db, k);
      Actions.CallIsUnacknowledged(db.actions[k], op);
      OneAction(db.actions, k, Actions.Apply(db.actions[k], op).row);
    }
  }

  predicate IsAcknowledgement(step: Step) { step.ActionStep? && step.op == Actions.Retry(true) }

  lemma StepActions(db: Tables, step: Step, commitsFailure: bool)
    requires Inv(db) && !IsAcknowledgement(step)
    ensures MovesUnacknowledged(db.actions, After(db, step, commitsFailure).actions)
  {
    hide Inv, MovesUnacknowledged, Prepare, Replace, Dispatch, ActionCall, Observe, Replay, Reconcile;
    SameActions(db.actions);
    match step
    case RequestStep(p, total) =>
    case PrepareStep(p, account) => PrepareActions(db, p, account);
    case ReplaceStep(p, e, account, now) => ReplaceActions(db, p, e, account, now);
    case DispatchStep(k, account, answer, now) => DispatchActions(db, k, account, answer, now);
    case ActionStep(k, op) => CallActions(db, k, op);
    case ObserveStep(e, now) => ObserveActions(db, db.links, e, now);
    case ReplayStep(batch, now) => ReplayActions(db, batch, now);
    case ReconcileStep(p, account, found, fetched, flushes, now) => ReconcileActions(db, p, account, found, fetched, flushes, now);
  }

  /** An acknowledgement changes no attempt, and only its own action. */
  lemma AcknowledgementActions(db: Tables, step: Step, commitsFailure: bool, k: LinkKey)
    requires IsAcknowledgement(step) && k in After(db, step, commitsFailure).actions
    ensures k in db.actions && After(db, step, commitsFailure).actions[k].attempts == db.actions[k].attempts
    ensures step.link != k ==> After(db, step, commitsFailure).actions[k] == db.actions[k]
    ensures After(db, step, commitsFailure).actions[k] == db.actions[k] || Actions.IsUncertain(db.actions[k].state)
  {}

  /** An operator acknowledged the risk of repeating attempt n of the link's action, at a step
      before j at which that attempt was the latest and the action uncertain. */
  ghost predicate WasAcknowledged(run: seq<Tables>, calls: seq<Call>, j: nat, k: LinkKey, n: nat)
    requires IsRun(run, calls) && j < |run|
  {
    exists m: nat :: m < j && calls[m].step == ActionStep(k, Actions.Retry(true)) && k in run[m].actions
      && Actions.IsUncertain(run[m].actions[k].state) && MaxKey(run[m].actions[k].attempts) == n
  }

  /** In every run a link's attempts are numbered 1..n with n at most three, only the last can
      have succeeded, and each one recorded as uncertain that was followed by another had been
      acknowledged before that. */
  lemma LinkAttempts(run: seq<Tables>, calls: seq<Call>, j: nat, k: LinkKey)
    requires IsRun(run, calls) && j < |run| && k in run[j].actions
    ensures var row := run[j].actions[k]; var n := MaxKey(row.attempts);
            && n <= 3 && (forall m: nat :: m in row.attempts <==> 1 <= m <= n)
            && (forall m :: m in row.attempts && row.attempts[m] == Actions.Succeeded ==> m == n)
            && (forall m :: m in row.attempts && m < n && Actions.IsUncertain(row.attempts[m]) ==> WasAcknowledged(run, calls, j, k, m))
  {
    hide Apply, IsRun, WasAcknowledged;
    ReachableInv(run, calls, j);
    PassedWasAcknowledged(run, calls, j, k);
    var row := run[j].actions[k];
    forall m | m in row.attempts && m < MaxKey(row.attempts) && Actions.IsUncertain(row.attempts[m])
      ensures WasAcknowledged(run, calls, j, k, m) {
      assert Actions.IsPassed(row, m);
    }
  }

  lemma {:induction false} PassedWasAcknowledged(run: seq<Tables>, calls: seq<Call>, j: nat, k: LinkKey)
    requires IsRun(run, calls) && j < |run| && k in run[j].actions
    ensures forall n :: Actions.IsPassed(run[j].actions[k], n) ==> WasAcknowledged(run, calls, j, k, n)
    ensures Actions.IsCleared(run[j].actions[k]) ==> WasAcknowledged(run, calls, j, k, MaxKey(run[j].actions[k].attempts))
  {
    hide After, Inv, Actions.IsPassed, Actions.IsCleared, WasAcknowledged;
    if j > 0 {
      var i, call := j - 1, calls[j - 1];
      ReachableInv(run, calls, i);
      if k in run[i].actions { PassedWasAcknowledged(run, calls, i, k); Earlier(run, calls, i, k); }
      if IsAcknowledgement(call.step) {
        AcknowledgementActions(run[i], call.step, call.commitsFailure, k);
        SamePassed(run[i].actions[k], run[j].actions[k]);
        if run[j].actions[k] != run[i].actions[k] { Acknowledges(run, calls, i, k); }
      } else {
        StepActions(run[i], call.step, call.commitsFailure);
        if k !in run[i].actions { NewIsClear(); }
      }
    }
  }

  lemma Earlier(run: seq<Tables>, calls: seq<Call>, i: nat, k: LinkKey)
    requires IsRun(run, calls) && i + 1 < |run|
    ensures forall n: nat :: WasAcknowledged(run, calls, i, k, n) ==> WasAcknowledged(run, calls, i + 1, k, n)
  {
    hide IsRun;
  }

  lemma Acknowledges(run: seq<Tables>, calls: seq<Call>, i: nat, k: LinkKey)
    requires IsRun(run, calls) && i + 1 < |run| && calls[i].step == ActionStep(k, Actions.Retry(true)) && k in run[i].actions
    requires Actions.IsUncertain(run[i].actions[k].state)
    ensures WasAcknowledged(run, calls, i + 1, k, MaxKey(run[i].actions[k].attempts))
  {
    hide IsRun;
  }

  lemma SamePassed(a: Actions.Action, b: Actions.Action)
    requires a.attempts == b.attempts
    ensures forall n :: Actions.IsPassed(b, n) ==> Actions.IsPassed(a, n)
  {}

  lemma NewIsClear()
    ensures !Actions.IsCleared(Actions.NEW_ACTION) && forall n :: !Actions.IsPassed(Actions.NEW_ACTION, n)
  {}
}
