/** Agreement and collection together: an acceptance creates the payment request it is about, in
    the same transaction, and the payment commands then drive that request. A payment request is
    identified with the revision it was accepted for, which is a unique column of its table. */
module Collection {
  import opened Common
  import ChangeOrders
  import AgreementRules
  import AgreementRuns
  import AgreementReplay
  import opened Payments
  import PaymentRules
  import PaymentSteps
  import PaymentRuns
  import Actions

  datatype State = State(agreement: ChangeOrders.Db, payments: Tables)

  const START := State(ChangeOrders.EMPTY, Payments.EMPTY)

  datatype Step =
    | Agree(step: AgreementRuns.Step)
    | Collect(call: PaymentRuns.Call)

  function NewRequest(p: ChangeOrders.Payment): Request {
    Request(p.total, CreationPending, None, 1)
  }

  /** Every payment request the agreement created has its row. */
  function Opened(t: Tables, created: map<nat, ChangeOrders.Payment>): Tables {
    t.(requests := map r | r in created.Keys + t.requests.Keys :: if r in t.requests then t.requests[r] else NewRequest(created[r]))
  }

  /** Only an acceptance creates payment requests. */
  ghost function Apply(s: State, step: Step): State {
    match step
    case Agree(a) =>
      var db := AgreementRuns.Apply(s.agreement, a);
      State(db, Opened(s.payments, db.payments))
    case Collect(c) =>
      if c.step.RequestStep? then s else State(s.agreement, PaymentRuns.After(s.payments, c.step, c.commitsFailure))
  }

  ghost predicate IsRun(run: seq<State>, steps: seq<Step>) {
    && |run| == |steps| + 1
    && run[0] == START
    && forall i :: 0 <= i < |steps| ==> run[i + 1] == Apply(run[i], steps[i])
  }

  /** The two sides know the same payment requests, with the same totals. */
  ghost predicate Linked(created: map<nat, ChangeOrders.Payment>, requests: map<nat, Request>) {
    && (forall r :: r in created <==> r in requests)
    && (forall r :: r in created ==> requests[r].total == created[r].total)
  }

  ghost predicate Inv(s: State) {
    && AgreementRules.Inv(s.agreement) && PaymentRules.Inv(s.payments)
    && Linked(s.agreement.payments, s.payments.requests)
  }

  lemma OpenKeeps(t: Tables, created: map<nat, ChangeOrders.Payment>)
    requires PaymentRules.Inv(t)
    ensures PaymentRules.Quiet(t, Opened(t, created))
  {
    hide PaymentRules.NumberedOk, PaymentRules.ActionsOk, PaymentRules.UniqueOk, PaymentRules.ObservationsOk;
    PaymentRules.EventsSame(t.observations);
  }

  lemma OpenLinks(a: map<nat, ChangeOrders.Payment>, b: map<nat, ChangeOrders.Payment>, t: Tables)
    requires Linked(a, t.requests) && AgreementReplay.Kept(a, b)
    ensures Linked(b, Opened(t, b).requests)
  {}

  lemma CreatedKept(db: ChangeOrders.Db, step: AgreementRuns.Step)
    requires AgreementRules.Inv(db)
    ensures AgreementReplay.Kept(db.payments, AgreementRuns.Apply(db, step).payments)
  {
    hide AgreementRules.Inv, AgreementRuns.Apply;
    AgreementReplay.StepExtends(db, step);
  }

  // ---------------------------------------------------------------- payment commands create no request

  lemma MoveKeys()
    ensures forall db: Tables, p: nat, target: Status, now: int :: p in db.requests ==> Move(db, p, target, now).db.requests.Keys == db.requests.Keys
  {}

  lemma ReviewKeys(db: Tables, k: LinkKey, s: LinkStatus, now: int)
    requires k in db.links && k.request in db.requests
    ensures Review(db, k, s, now).db.requests.Keys == db.requests.Keys
  {
    hide Move;
    MoveKeys();
  }

  lemma PrepareKeys(db: Tables, p: nat, account: string)
    ensures Prepare(db, p, account).db.requests == db.requests
  {
    hide MaxOf, NumbersOf, ActiveNumbers;
  }

  lemma ReplaceKeys(db: Tables, p: nat, expected: nat, account: string, now: int)
    ensures Replace(db, p, expected, account, now).db.requests.Keys == db.requests.Keys
  {
    hide MaxOf, NumbersOf, Move, Prepare;
    MoveKeys();
    PrepareKeys(db, p, account);
    if p in db.requests { PrepareKeys(Move(db, p, Pending, now).db, p, account); }
  }

  lemma SettleKeys(before: Tables, db: Tables, k: LinkKey, answer: Answer, now: int)
    requires k in db.actions && k in db.links && k.request in db.requests && before.requests == db.requests
    ensures Settle(before, db, k, answer, now).db.requests.Keys == db.requests.Keys
  {
    hide Move, Valid, IsFree, Actions.Apply;
    MoveKeys();
  }

  lemma DispatchKeys(db: Tables, k: LinkKey, account: string, answer: Answer, now: int)
    ensures Dispatch(db, k, account, answer, now).db.requests.Keys == db.requests.Keys
  {
    hide Settle, Actions.Apply;
    if k in db.actions && k in db.links && k.request in db.requests {
      SettleKeys(db, WithActionRow(db, k, Actions.Apply(db.actions[k], Actions.Begin).row), k, answer, now);
    }
  }

  lemma DriveKeys(db: Tables, k: LinkKey, e: Event, charge: Option<Charge>, now: int)
    requires k in db.links && k.request in db.requests
    ensures Drive(db, k, e, charge, now).db.requests.Keys == db.requests.Keys
  {
    hide Move;
    MoveKeys();
  }

  lemma ObserveKeys(db: Tables, stored: map<LinkKey, Link>, e: Event, now: int)
    ensures Observe(db, stored, e, now).db.requests.Keys == db.requests.Keys
  {
    hide Find, Matches, Drive, Review;
    var link := Find(stored, e.linkId);
    if link.Some? && link.value in db.links && link.value.request in db.requests {
      DriveKeys(Recorded(db, e, link, now), link.value, e, ChargeOf(db, e, link), now);
      ReviewKeys(Recorded(db, e, link, now), link.value, NeedsReview, now);
    }
  }

  lemma AdoptKeys(db: Tables, key: EventKey, k: LinkKey, now: int)
    requires key in db.observations && k in db.links && k.request in db.requests
    ensures Adopt(db, key, k, now).db.requests.Keys == db.requests.Keys
  {
    hide Move;
    MoveKeys();
  }

  lemma ReplayOneKeys(db: Tables, key: EventKey, now: int)
    ensures ReplayOne(db, key, now).db.requests.Keys == db.requests.Keys
  {
    hide Owner, Adopt, Associate, IsExact;
    if key in db.observations && db.observations[key].state == Unmatched {
      var owner := Owner(db.links, db.observations[key].event);
      if owner.Some? && owner.value in db.links && owner.value.request in db.requests {
        PaymentSteps.AssociatedHere(db, key, owner.value);
        AdoptKeys(Associate(db, key, owner.value), key, owner.value, now);
      }
    }
  }

  lemma {:induction false} ReplayKeys(db: Tables, batch: seq<EventKey>, now: int)
    ensures Replay(db, batch, now).db.requests.Keys == db.requests.Keys
  {
    hide ReplayOne;
    if batch != [] {
      ReplayKeys(db, batch[..|batch| - 1], now);
      ReplayOneKeys(Replay(db, batch[..|batch| - 1], now).db, batch[|batch| - 1], now);
    }
  }

  lemma IdentifyKeys(db: Tables, k: LinkKey, found: seq<Found>, now: int)
    requires k in db.links && k.request in db.requests
    ensures Identify(db, k, found, now).db.requests.Keys == db.requests.Keys
  {
    hide Review, LastMatch, IsFree;
    ReviewKeys(db, k, UnknownOutcome, now);
  }

  lemma ReconcileKeys(db: Tables, p: nat, account: string, found: seq<Found>, fetched: Option<Fetched>, flushes: bool, now: int)
    ensures Reconcile(db, p, account, found, fetched, flushes, now).db.requests.Keys == db.requests.Keys
  {
    hide Observe, Identify, Reconciled;
    var k := LinkKey(p, MaxOf(NumbersOf(db.links, p)));
    if p in db.requests && k in db.links {
      IdentifyKeys(db, k, found, now);
      var b := Identify(db, k, found, now).db;
      if fetched.Some? { ObserveKeys(b, if flushes then b.links else db.links, Reconciled(fetched.value, account, db.requests[p].total), now); }
    }
  }

  lemma StepKeys(db: Tables, step: PaymentRuns.Step, commitsFailure: bool)
    requires !step.RequestStep?
    ensures PaymentRuns.After(db, step, commitsFailure).requests.Keys == db.requests.Keys
  {
    hide Prepare, Replace, Dispatch, Observe, Replay, Reconcile;
    match step
    case PrepareStep(p, account) => PrepareKeys(db, p, account);
    case ReplaceStep(p, e, account, now) => ReplaceKeys(db, p, e, account, now);
    case DispatchStep(k, account, answer, now) => DispatchKeys(db, k, account, answer, now);
    case ActionStep(k, op) =>
    case ObserveStep(e, now) => ObserveKeys(db, db.links, e, now);
    case ReplayStep(batch, now) => ReplayKeys(db, batch, now);
    case ReconcileStep(p, account, found, fetched, flushes, now) => ReconcileKeys(db, p, account, found, fetched, flushes, now);
  }

  // ---------------------------------------------------------------- runs

  /** The payment commands neither create requests nor change their totals. */
  lemma CollectLinks(created: map<nat, ChangeOrders.Payment>, t: Tables, call: PaymentRuns.Call)
    requires PaymentRules.Inv(t) && Linked(created, t.requests) && !call.step.RequestStep?
    ensures Linked(created, PaymentRuns.After(t, call.step, call.commitsFailure).requests)
  {
    hide PaymentRules.Inv, PaymentRuns.After, PaymentRules.Justified;
    PaymentRuns.StepKeeps(t, call.step, call.commitsFailure);
    StepKeys(t, call.step, call.commitsFailure);
  }

  lemma StepKeeps(s: State, step: Step)
    requires Inv(s)
    ensures Inv(Apply(s, step)) && PaymentRules.Keeps(s.payments, Apply(s, step).payments)
  {
    hide AgreementRules.Inv, PaymentRules.Inv, PaymentRules.Keeps, PaymentRules.Quiet, AgreementRuns.Apply, PaymentRuns.After, Linked, Opened,
      AgreementReplay.Kept;
    PaymentRules.SameIsQuiet(s.payments);
    PaymentRules.QuietKeeps(s.payments, s.payments);
    match step
    case Agree(a) =>
      var db := AgreementRuns.Apply(s.agreement, a);
      AgreementRuns.StepKeepsInv(s.agreement, a);
      CreatedKept(s.agreement, a);
      OpenLinks(s.agreement.payments, db.payments, s.payments);
      OpenKeeps(s.payments, db.payments);
      PaymentRules.QuietKeeps(s.payments, Opened(s.payments, db.payments));
      PaymentSteps.KeepsInv(s.payments, Opened(s.payments, db.payments));
    case Collect(c) =>
      if !c.step.RequestStep? {
        PaymentRuns.StepKeeps(s.payments, c.step, c.commitsFailure);
        PaymentSteps.KeepsInv(s.payments, PaymentRuns.After(s.payments, c.step, c.commitsFailure));
        CollectLinks(s.agreement.payments, s.payments, c);
      }
  }

  lemma StartInv()
    ensures Inv(START)
  {
    hide AgreementRules.Inv;
    AgreementRuns.EmptyInv();
  }

  lemma {:induction false} ReachableInv(run: seq<State>, steps: seq<Step>, i: nat)
    requires IsRun(run, steps) && i < |run|
    ensures Inv(run[i])
  {
    hide Apply, Inv;
    if i == 0 {
      StartInv();
    } else {
      ReachableInv(run, steps, i - 1);
      StepKeeps(run[i - 1], steps[i - 1]);
    }
  }

  /** What is collected is what was agreed: in every run a payment request is that of an order's
      current revision, which both sides approved, and asks for exactly that revision's total,
      and so does each of its links. */
  lemma CollectedIsAgreed(run: seq<State>, steps: seq<Step>, i: nat, r: nat)
    requires IsRun(run, steps) && i < |run| && r in run[i].payments.requests
    ensures var db, t := run[i].agreement, run[i].payments;
            && r in db.revisions && db.revisions[r].order in db.orders
            && db.orders[db.revisions[r].order].status == ChangeOrders.ClientApproved && db.orders[db.revisions[r].order].current == Some(r)
            && t.requests[r].total == db.revisions[r].total
            && (forall k :: k in t.links && k.request == r ==> t.links[k].amount == db.revisions[r].total)
  {
    hide IsRun, AgreementRules.Inv, PaymentRules.Inv;
    ReachableInv(run, steps, i);
    PaymentsAreAgreed(run[i].agreement, r);
    LinksAsk(run[i].payments);
  }

  lemma PaymentsAreAgreed(db: ChangeOrders.Db, r: nat)
    requires AgreementRules.Inv(db) && r in db.payments
    ensures r in db.revisions && db.revisions[r].order in db.orders && AgreementRules.ApprovedWith(db.orders[db.revisions[r].order], r)
    ensures db.payments[r].total == db.revisions[r].total
  {
    hide AgreementRules.IdsOk, AgreementRules.ProposalsOk, AgreementRules.ScopeOk, AgreementRules.FactsOk, AgreementRules.AmendmentsOk,
      AgreementRules.BookedOk;
  }

  lemma LinksAsk(t: Tables)
    requires PaymentRules.Inv(t)
    ensures forall k :: k in t.links ==> k.request in t.requests && t.links[k].amount == t.requests[k.request].total
  {
    hide PaymentRules.ActionsOk, PaymentRules.UniqueOk, PaymentRules.ObservationsOk, PaymentRules.PaidOk, PaymentRules.NumberedOk;
  }

  /** And a request is paid only by a step right after which its evidence is in place, for a
      revision both sides had approved by then. */
  lemma {:induction false} PaidIsAgreed(run: seq<State>, steps: seq<Step>, i: nat, r: nat)
    requires IsRun(run, steps) && i < |run| && PaymentRules.IsPaid(run[i].payments.requests, r)
    ensures exists j: nat :: j < i && BecomesPaid(run, j, r)
  {
    hide Apply, Inv, BecomesPaid;
    if i == 0 {
      NothingPaid(r);
    } else {
      var j := i - 1;
      ReachableInv(run, steps, j);
      StepKeeps(run[j], steps[j]);
      if PaymentRules.IsPaid(run[j].payments.requests, r) {
        PaidIsAgreed(run, steps, j, r);
      } else {
        CollectedIsAgreed(run, steps, i, r);
        PaidHere(run, j, r);
      }
    }
  }

  ghost predicate BecomesPaid(run: seq<State>, j: nat, r: nat)
    requires j + 1 < |run|
  {
    var after := run[j + 1];
    && !PaymentRules.IsPaid(run[j].payments.requests, r) && PaymentRules.IsPaid(after.payments.requests, r)
    && PaymentRules.Justified(after.payments, r)
    && r in after.agreement.revisions && after.agreement.revisions[r].order in after.agreement.orders
    && AgreementRules.ApprovedWith(after.agreement.orders[after.agreement.revisions[r].order], r)
    && after.payments.requests[r].total == after.agreement.revisions[r].total
  }

  lemma NothingPaid(r: nat)
    ensures !PaymentRules.IsPaid(START.payments.requests, r)
  {}

  lemma PaidHere(run: seq<State>, j: nat, r: nat)
    requires j + 1 < |run| && PaymentRules.Keeps(run[j].payments, run[j + 1].payments)
    requires !PaymentRules.IsPaid(run[j].payments.requests, r) && PaymentRules.IsPaid(run[j + 1].payments.requests, r)
    requires var db := run[j + 1].agreement;
             && r in db.revisions && db.revisions[r].order in db.orders && AgreementRules.ApprovedWith(db.orders[db.revisions[r].order], r)
             && run[j + 1].payments.requests[r].total == db.revisions[r].total
    ensures BecomesPaid(run, j, r)
  {
    hide PaymentRules.Inv, PaymentRules.Justified;
    assert PaymentRules.PaidNow(run[j].payments.requests, run[j + 1].payments.requests, r);
  }
}
