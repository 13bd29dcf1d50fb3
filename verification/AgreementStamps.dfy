/** Row versions as stamps: an order row changes only together with its row version, and
    approved or withdrawn rows never change again. */
module AgreementStamps {
  import opened Common
  import opened ChangeOrders
  import opened AgreementRules
  import opened AgreementSteps
  import opened AgreementRuns
  import Actions

  predicate IsFinal(s: OrderStatus) { s in {ClientApproved, Withdrawn} }

  /** The row is untouched, or it was not final and its row version grew. */
  predicate Stamped(before: map<nat, Order>, after: map<nat, Order>, o: nat) {
    && o in before && o in after
    && (after[o] == before[o] || (before[o].rowVersion < after[o].rowVersion && !IsFinal(before[o].status)))
  }

  lemma StampedTrans(a: map<nat, Order>, b: map<nat, Order>, c: map<nat, Order>, o: nat)
    requires Stamped(a, b, o) && Stamped(b, c, o)
    ensures Stamped(a, c, o)
  {}

  lemma SameStamps(orders: map<nat, Order>, o: nat)
    requires o in orders
    ensures Stamped(orders, orders, o)
  {}

  lemma MoveStamps(orders: map<nat, Order>, moved: nat, s: OrderStatus, o: nat)
    requires moved in orders && o in orders && !IsFinal(orders[moved].status)
    ensures Stamped(orders, orders[moved := Moved(orders[moved], s)], o)
  {}

  lemma ReissueStamps(orders: map<nat, Order>, reissued: nat, r: nat, o: nat)
    requires reissued in orders && o in orders && !IsFinal(orders[reissued].status)
    ensures Stamped(orders, Reissued(orders, reissued, r), o)
  {}

  lemma RevisionStamps(db: Db, order: nat, contact: nat, content: Content, now: int, o: nat)
    requires o in db.orders && order in db.orders && !IsFinal(db.orders[order].status)
    ensures Stamped(db.orders, NewRevision(db, order, contact, content, now).db.orders, o)
  {
    hide Stamped, Complete, HasCurrent, Revoke, Drafted;
    SameStamps(db.orders, o);
    ReissueStamps(db.orders, order, db.nextId, o);
  }

  lemma ProposeStamps(db: Db, before: Db, order: nat, p: Proposal, now: int, o: nat)
    requires o in db.orders && order in db.orders && !IsFinal(db.orders[order].status)
    requires p.contact.Some? && p.draft.Some?
    ensures Propose(db, before, order, p, now).error.None? ==> Stamped(db.orders, Propose(db, before, order, p, now).db.orders, o)
    ensures Propose(db, before, order, p, now).error.Some? ==> Propose(db, before, order, p, now).db == before
  {
    hide Stamped, NewRevision;
    RevisionStamps(db, order, p.contact.value, p.draft.value, now, o);
  }

  lemma AssembleStamps(db: Db, p: Proposal, pick: nat, now: int, o: nat)
    requires o in db.orders && o < db.nextId
    ensures Stamped(db.orders, Assemble(db, p, pick, now).db.orders, o)
  {
    hide Stamped, Propose;
    SameStamps(db.orders, o);
    if p.contact.Some? && p.draft.Some? {
      var base := WithDraft(db, p.project, p.request);
      ProposeStamps(base, db, db.nextId, p, now, o);
      var opening := Propose(base, db, db.nextId, p, now);
      if opening.error.None? { OpenStamps(db.orders, db.nextId, base.orders[db.nextId], opening.db.orders, o); }
      if pick in Matches(db.orders, p.project, p.request) { ProposeStamps(db, db, pick, p, now, o); }
    }
  }

  lemma OpenStamps(orders: map<nat, Order>, fresh': nat, row: Order, after: map<nat, Order>, o: nat)
    requires o in orders && o != fresh'
    requires Stamped(orders[fresh' := row], after, o)
    ensures Stamped(orders, after, o)
  {}

  lemma ReviseStamps(db: Db, order: nat, edits: Edits, now: int, o: nat)
    requires o in db.orders
    ensures Stamped(db.orders, CreateRevision(db, order, edits, now).db.orders, o)
  {
    hide Stamped, NewRevision, Edited;
    SameStamps(db.orders, o);
    if order in db.orders && !IsFinal(db.orders[order].status) && HasCurrent(db.orders, db.revisions, order) {
      var current := db.revisions[db.orders[order].current.value];
      RevisionStamps(db, order, current.contact, Edited(current.content, edits), now, o);
    }
  }

  lemma ApproveStamps(db: Db, order: nat, e: nat, r: nat, h: Artifact, stale: bool, pick: nat, now: int, o: nat)
    requires o in db.orders
    ensures Stamped(db.orders, ApproveFreelancer(db, order, e, r, h, stale, pick, now).db.orders, o)
  {
    hide HasCurrent, LiveFor, SendsFor, Projection;
  }

  lemma FreelancerStamps(db: Db, order: nat, d: Decision, now: int, o: nat)
    requires o in db.orders
    ensures Stamped(db.orders, FreelancerDecide(db, order, d, now).db.orders, o)
  {
    hide HasCurrent, Revoke;
  }

  lemma WithdrawStamps(db: Db, order: nat, now: int, o: nat)
    requires o in db.orders
    ensures Stamped(db.orders, Withdraw(db, order, now).db.orders, o)
  {
    hide Stamped, Revoke, CancelPendingSend, SendsOf;
    SameStamps(db.orders, o);
    if order in db.orders && !IsFinal(db.orders[order].status) { MoveStamps(db.orders, order, Withdrawn, o); }
  }

  lemma ClientStamps(db: Db, s: nat, csrf: nat, order: nat, e: nat, r: nat, h: Artifact, d: Decision, now: int, o: nat)
    requires o in db.orders
    ensures Stamped(db.orders, ClientDecide(db, s, csrf, order, e, r, h, d, now).db.orders, o)
  {
    hide Revoke;
  }

  lemma BookStamps(db: Db, c: nat, key: string, csrf: nat, now: int, o: nat)
    requires Ready(db, c) && o in db.orders
    ensures Stamped(db.orders, Agree(db, c, key, csrf, now).orders, o)
  {
    hide NextVersion, CopyLinks, ConfirmByReceipt;
  }

  lemma AcceptStamps(db: Db, s: nat, csrf: nat, order: nat, e: nat, r: nat, h: Artifact, key: string, ready: bool, csrf': nat, now: int, o: nat)
    requires Inv(db) && o in db.orders
    ensures Stamped(db.orders, AcceptClient(db, s, csrf, order, e, r, h, key, ready, csrf', now).db.orders, o)
  {
    hide Inv, Stamped, AcceptClient, Agree, ReopenReceipt, Ready;
    SameStamps(db.orders, o);
    AcceptAnswer(db, s, csrf, order, e, r, h, key, ready, csrf', now);
    var c := SessionScope(db, s, Some(csrf), now);
    if AcceptClient(db, s, csrf, order, e, r, h, key, ready, csrf', now).error.None? {
      if db.capabilities[c.value].consumedAt.Some? {
        ReopenKeepsOrders(db, c.value, csrf', now);
      } else {
        BookStamps(db, c.value, key, csrf', now, o);
      }
    }
  }

  lemma OpenSessionKeepsOrders()
    ensures forall db: Db, c: nat, csrf: nat, now: int :: OpenSession(db, c, csrf, now).orders == db.orders
  {}

  lemma IssueKeepsOrders(db: Db, c: nat, csrf: nat, now: int)
    requires c in db.capabilities
    ensures IssueReceipt(db, c, csrf, now).orders == db.orders
  {}

  lemma ReopenKeepsOrders(db: Db, c: nat, csrf: nat, now: int)
    requires c in db.capabilities
    ensures ReopenReceipt(db, c, csrf, now).orders == db.orders
  {
    hide ReceiptsFor, MaxOf, IssueReceipt, OpenSession;
    OpenSessionKeepsOrders();
    IssueKeepsOrders(db, c, csrf, now);
  }

  lemma {:induction false} SweepStamps(db: Db, offers: seq<nat>, unsent: seq<nat>, now: int, o: nat)
    requires o in db.orders
    ensures Stamped(db.orders, ExpireOffers(db, offers, now).orders, o)
    ensures Stamped(db.orders, ExpireUnsents(ExpireOffers(db, offers, now), unsent, now).orders, o)
    decreases |offers| + |unsent|
  {
    hide ExpireOffer, ExpireUnsent;
    if unsent != [] {
      SweepStamps(db, offers, unsent[..|unsent| - 1], now, o);
      UnsentStamps(ExpireUnsents(ExpireOffers(db, offers, now), unsent[..|unsent| - 1], now), unsent[|unsent| - 1], now, o);
    } else if offers != [] {
      SweepStamps(db, offers[..|offers| - 1], [], now, o);
      OfferStamps(ExpireOffers(db, offers[..|offers| - 1], now), offers[|offers| - 1], now, o);
    }
  }

  lemma OfferStamps(db: Db, order: nat, now: int, o: nat)
    requires o in db.orders
    ensures Stamped(db.orders, ExpireOffer(db, order, now).orders, o)
  {
    hide LiveReviews, CancelPendingSend;
  }

  lemma UnsentStamps(db: Db, order: nat, now: int, o: nat)
    requires o in db.orders
    ensures Stamped(db.orders, ExpireUnsent(db, order, now).orders, o)
  {
    hide Stamped, SendsOf, CancelPendingSend, ApprovedADayAgo, Revoke;
    SameStamps(db.orders, o);
    if order in db.orders && !IsFinal(db.orders[order].status) { MoveStamps(db.orders, order, Expired, o); }
  }

  lemma DeliveredStamps(db: Db, order: nat, o: nat)
    requires o in db.orders
    ensures Stamped(db.orders, Delivered(db, order).orders, o)
  {
    hide Stamped, Moved;
    SameStamps(db.orders, o);
    if order in db.orders && db.orders[order].status == SendPending { MoveStamps(db.orders, order, AwaitingClient, o); }
  }

  lemma RecordStamps(db: Db, s: nat, matches: bool, commits: bool, o: nat)
    requires o in db.orders
    ensures Stamped(db.orders, RecordSent(db, s, matches, commits).db.orders, o)
  {
    hide Stamped, Actions.Apply, WithAction, Delivered;
    SameStamps(db.orders, o);
    if s in db.sends {
      var op := if db.sends[s].action.state == Actions.UnknownOutcome then Actions.LateGmailSuccess else Actions.Complete;
      var a := Actions.Apply(db.sends[s].action, op).row;
      WithActionKeepsOrders(db, s, a);
      DeliveredStamps(WithAction(db, s, a), db.sends[s].payload.order, o);
    }
  }

  lemma ExchangeKeepsOrders(db: Db, c: nat, csrf: nat, now: int)
    ensures Exchange(db, c, csrf, now).db.orders == db.orders
  {
    hide ReceiptsFor, MaxOf, OpenSession;
    OpenSessionKeepsOrders();
  }

  lemma RefreshKeepsOrders(db: Db, s: nat, csrf: nat, now: int)
    ensures Refresh(db, s, csrf, now).db.orders == db.orders
  {
    hide OpenSession;
    OpenSessionKeepsOrders();
  }

  lemma WithActionKeepsOrders(db: Db, s: nat, a: Actions.Action)
    requires s in db.sends
    ensures WithAction(db, s, a).orders == db.orders
  {}

  lemma BeginKeepsOrders(db: Db, s: nat, commits: bool)
    ensures BeginSend(db, s, commits).db.orders == db.orders
  {
    hide Actions.Apply, WithAction;
    if s in db.sends { WithActionKeepsOrders(db, s, Actions.Apply(db.sends[s].action, Actions.Begin).row); }
  }

  lemma SendOpKeepsOrders(db: Db, s: nat, op: Actions.Op, commits: bool)
    ensures SendOp(db, s, op, commits).db.orders == db.orders
  {
    hide Actions.Apply, WithAction;
    if s in db.sends { WithActionKeepsOrders(db, s, Actions.Apply(db.sends[s].action, op).row); }
  }

  lemma ConfirmKeepsOrders(db: Db, p: nat, chosen: set<nat>)
    ensures ConfirmScope(db, p, chosen).db.orders == db.orders
  {
    hide WithScope;
    if p in db.projects && forall i :: i in chosen ==> i in db.candidates { WithScopeKeepsOrders(db, p, chosen); }
  }

  lemma WithScopeKeepsOrders(db: Db, p: nat, chosen: set<nat>)
    requires p in db.projects && forall i :: i in chosen ==> i in db.candidates
    ensures WithScope(db, p, chosen).orders == db.orders
  {
    hide NumbersOf, MaxOf, NewItems, NewLinks, Confirmed, ItemIds;
  }

  predicate MayMove(step: Step) {
    step.AssembleStep? || step.ReviseStep? || step.ApproveStep? || step.FreelancerStep? || step.WithdrawStep? || step.ClientStep?
    || step.AcceptStep? || step.ExpireStep? || step.RecordSentStep?
  }

  lemma OtherStepsKeepOrders(db: Db, step: Step)
    requires !MayMove(step)
    ensures Apply(db, step).orders == db.orders
  {
    hide Exchange, Refresh, BeginSend, SendOp, ConfirmScope;
    match step
    case ExchangeStep(c, csrf, now) => ExchangeKeepsOrders(db, c, csrf, now);
    case RefreshStep(s, csrf, now) => RefreshKeepsOrders(db, s, csrf, now);
    case BeginSendStep(s, commits) => BeginKeepsOrders(db, s, commits);
    case SendOpStep(s, op, commits) => SendOpKeepsOrders(db, s, op, commits);
    case ConfirmScopeStep(p, chosen) => ConfirmKeepsOrders(db, p, chosen);
    case _ =>
  }

  lemma MovingStepStamps(db: Db, step: Step, o: nat)
    requires Inv(db) && o in db.orders && MayMove(step)
    ensures Stamped(db.orders, Apply(db, step).orders, o)
  {
    hide Inv, Stamped, Assemble, CreateRevision, ApproveFreelancer, FreelancerDecide, Withdraw, ClientDecide,
      AcceptClient, RecordSent, ExpireOffers, ExpireUnsents;
    OrderIds(db, o);
    match step
    case AssembleStep(p, pick, now) => AssembleStamps(db, p, pick, now, o);
    case ReviseStep(order, edits, now) => ReviseStamps(db, order, edits, now, o);
    case ApproveStep(order, e, r, h, stale, pick, now) => ApproveStamps(db, order, e, r, h, stale, pick, now, o);
    case FreelancerStep(order, d, now) => FreelancerStamps(db, order, d, now, o);
    case WithdrawStep(order, now) => WithdrawStamps(db, order, now, o);
    case ClientStep(s, csrf, order, e, r, h, d, now) => ClientStamps(db, s, csrf, order, e, r, h, d, now, o);
    case AcceptStep(s, csrf, order, e, r, h, key, ready, csrf', now) => AcceptStamps(db, s, csrf, order, e, r, h, key, ready, csrf', now, o);
    case ExpireStep(offers, unsent, now) => SweepStamps(db, offers, unsent, now, o);
    case RecordSentStep(s, matches, commits) => RecordStamps(db, s, matches, commits, o);
  }

  lemma StepStamps(db: Db, step: Step, o: nat)
    requires Inv(db) && o in db.orders
    ensures Stamped(db.orders, Apply(db, step).orders, o)
  {
    hide Inv, Stamped, Apply;
    SameStamps(db.orders, o);
    if MayMove(step) { MovingStepStamps(db, step, o); } else { OtherStepsKeepOrders(db, step); }
  }

  lemma OrderIds(db: Db, o: nat)
    requires Inv(db) && o in db.orders
    ensures o < db.nextId
  {}

  lemma {:induction false} RunStamps(run: seq<Db>, steps: seq<Step>, i: nat, j: nat, o: nat)
    requires IsRun(run, steps) && i <= j < |run| && o in run[i].orders
    ensures Stamped(run[i].orders, run[j].orders, o)
  {
    hide Apply, Inv, Stamped;
    SameStamps(run[i].orders, o);
    if i < j {
      RunStamps(run, steps, i, j - 1, o);
      ReachableInv(run, steps, j - 1);
      StampedHere(run[i].orders, run[j - 1].orders, o);
      StepStamps(run[j - 1], steps[j - 1], o);
      StampedTrans(run[i].orders, run[j - 1].orders, run[j].orders, o);
    }
  }

  lemma StampedHere(a: map<nat, Order>, b: map<nat, Order>, o: nat)
    requires Stamped(a, b, o)
    ensures o in b
  {}

  // ---------------------------------------------------------------- what stamps are for

  /** Two states of a run with equal row version have the same order row: same status, same
      current revision. */
  lemma EqualVersionsEqualRows(run: seq<Db>, steps: seq<Step>, i: nat, j: nat, o: nat)
    requires IsRun(run, steps) && i < |run| && j < |run|
    requires o in run[i].orders && o in run[j].orders
    requires run[i].orders[o].rowVersion == run[j].orders[o].rowVersion
    ensures run[i].orders[o] == run[j].orders[o]
  {
    hide Apply;
    if i <= j { RunStamps(run, steps, i, j, o); } else { RunStamps(run, steps, j, i, o); }
  }

  /** A command that was told the row version its caller read acts on exactly that row. */
  lemma CommandsActOnWhatWasRead(run: seq<Db>, steps: seq<Step>, i: nat, j: nat, o: nat, expected: nat)
    requires IsRun(run, steps) && i <= j < |run|
    requires o in run[i].orders && run[i].orders[o].rowVersion == expected
    ensures forall r, h, stale, pick, now ::
              ApproveFreelancer(run[j], o, expected, r, h, stale, pick, now).error.None? ==> run[j].orders[o] == run[i].orders[o]
    ensures forall s, csrf, r, h, d, now ::
              ClientDecide(run[j], s, csrf, o, expected, r, h, d, now).error.None? ==> run[j].orders[o] == run[i].orders[o]
  {
    hide Apply;
    RunStamps(run, steps, i, j, o);
  }

  /** An acceptance is either a repeated one or acts on exactly the row its caller read. */
  lemma AcceptanceActsOnWhatWasRead(run: seq<Db>, steps: seq<Step>, i: nat, j: nat, o: nat,
                                    s: nat, csrf: nat, expected: nat, r: nat, h: Artifact, key: string, ready: bool, csrf': nat, now: int)
    requires IsRun(run, steps) && i <= j < |run|
    requires o in run[i].orders && run[i].orders[o].rowVersion == expected
    requires AcceptClient(run[j], s, csrf, o, expected, r, h, key, ready, csrf', now).error.None?
    ensures run[j].orders[o] == run[i].orders[o] || run[j].orders[o].status == ClientApproved
  {
    hide Apply, Inv, AcceptClient;
    RunStamps(run, steps, i, j, o);
    ReachableInv(run, steps, j);
    AcceptAnswer(run[j], s, csrf, o, expected, r, h, key, ready, csrf', now);
  }

  /** An approved or withdrawn order row never changes again. */
  lemma FinalForever(run: seq<Db>, steps: seq<Step>, i: nat, j: nat, o: nat)
    requires IsRun(run, steps) && i <= j < |run|
    requires o in run[i].orders && IsFinal(run[i].orders[o].status)
    ensures o in run[j].orders && run[j].orders[o] == run[i].orders[o]
  {
    hide Apply;
    RunStamps(run, steps, i, j, o);
  }

  /** No provider call for an order's email begins once the order is approved or withdrawn. */
  lemma NoSendAfterFinal(run: seq<Db>, steps: seq<Step>, i: nat, j: nat, s: nat, commits: bool)
    requires IsRun(run, steps) && i <= j < |run|
    requires s in run[j].sends
    requires var o := run[j].sends[s].order; o in run[i].orders && IsFinal(run[i].orders[o].status)
    ensures BeginSend(run[j], s, commits) == Refuse(run[j], Conflict)
  {
    hide Apply, Inv;
    FinalForever(run, steps, i, j, run[j].sends[s].order);
    ReachableInv(run, steps, j);
    SendNamesItsOrder(run[j], s);
  }

  lemma SendNamesItsOrder(db: Db, s: nat)
    requires Inv(db) && s in db.sends
    ensures db.sends[s].payload.order == db.sends[s].order
  {}
}
