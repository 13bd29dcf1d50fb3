/** The payment commands as the service runs them, row by row and in place, each proved against
    the command of the same name on the tables it found. */
module PaymentService {
  import opened Common
  import opened Payments
  import opened PaymentRules
  import opened PaymentSteps
  import Actions

  function Ended(raised: bool, db: Tables): Outcome { if raised then Raised(db) else Done(db) }

  /** One unit of work over the payment tables. */
  class Service {
    var db: Tables

    constructor ()
      ensures db == EMPTY
    {
      db := EMPTY;
    }

    // -------------------------------------------------------------- shared row updates

    method MoveStatus(p: nat, target: Status, now: int) returns (raised: bool)
      requires p in db.requests
      modifies this
      ensures Move(old(db), p, target, now) == Ended(raised, db)
    {
      var row := db.requests[p];
      if row.status == target { return false; }
      if row.status == Reversed { return false; }
      if row.status == Paid && target != Reversed { return false; }
      if !MayMove(row.status, target) { return true; }
      row := row.(status := target);
      row := row.(rowVersion := row.rowVersion + 1);
      if target == Paid && row.paidAt.None? { row := row.(paidAt := Some(now)); }
      db := db.(requests := db.requests[p := row]);
      return false;
    }

    method SetLink(k: LinkKey, row: Link)
      modifies this
      ensures db == WithLink(old(db), k, row)
    {
      db := db.(links := db.links[k := row]);
    }

    method PutUnderReview(k: LinkKey, s: LinkStatus, now: int) returns (raised: bool)
      requires k in db.links && k.request in db.requests
      modifies this
      ensures Review(old(db), k, s, now) == Ended(raised, db)
    {
      SetLink(k, db.links[k].(status := s));
      raised := MoveStatus(k.request, ReviewRequired, now);
    }

    method Act(k: LinkKey, op: Actions.Op) returns (raised: bool)
      requires k in db.actions
      modifies this
      ensures var r := Actions.Apply(old(db).actions[k], op);
              raised == r.Raised? && db == WithActionRow(old(db), k, r.row)
    {
      var ok, row := Actions.Perform(db.actions[k], op);
      db := db.(actions := db.actions[k := row]);
      raised := !ok;
    }

    // -------------------------------------------------------------- preparation

    method PrepareLink(p: nat, account: string) returns (raised: bool)
      modifies this
      ensures Prepare(old(db), p, account) == Ended(raised, db)
    {
      if p !in db.requests || db.requests[p].status !in {CreationPending, Pending} { return true; }
      var active := ActiveNumbers(db.links, p);
      var n := Latest(active);
      if active != {} && LinkKey(p, n) in db.actions { return false; }
      var last := Latest(NumbersOf(db.links, p));
      var k := LinkKey(p, last + 1);
      if k.number > MAX_LINKS { return true; }
      if k !in db.actions {
        var action := new Actions.ExternalAction();
        db := db.(actions := db.actions[k := Actions.Action(action.state, action.attempts)]);
      }
      db := db.(links := db.links[k := Link(account, db.requests[p].total, INR, Ready, None, None)]);
      return false;
    }

    method ReplaceLink(p: nat, expected: nat, account: string, now: int) returns (raised: bool)
      modifies this
      ensures Replace(old(db), p, expected, account, now) == Ended(raised, db)
    {
      hide Prepare, Move;
      if p !in db.requests || db.requests[p].rowVersion != expected { return true; }
      if db.requests[p].status in {Paid, Reversed} { return true; }
      var last := Latest(NumbersOf(db.links, p));
      var latest := LinkKey(p, last);
      if latest !in db.links || db.links[latest].status !in {Lapsed, Closed} { return true; }
      if db.requests[p].status in {Expired, Cancelled} {
        raised := MoveStatus(p, Pending, now);
        if raised { return; }
      }
      raised := PrepareLink(p, account);
    }

    // -------------------------------------------------------------- dispatch

    method DispatchLink(k: LinkKey, account: string, answer: Answer, now: int) returns (raised: bool)
      modifies this
      ensures Dispatch(old(db), k, account, answer, now) == Ended(raised, db)
    {
      hide Settle, Actions.Apply, WithActionRow;
      if k !in db.actions || k !in db.links || k.request !in db.requests { return true; }
      if db.actions[k].state == Actions.Succeeded && db.links[k].providerLink.Some? { return false; }
      if db.requests[k.request].status !in {CreationPending, Pending} { return true; }
      if account != db.links[k].account { return true; }
      var before := db;
      ActionLeaves(db, k);
      raised := Act(k, Actions.Begin);
      if raised { return; }
      raised := BookAnswer(before, k, answer, now);
    }

    method BookAnswer(before: Tables, k: LinkKey, answer: Answer, now: int) returns (raised: bool)
      requires k in db.actions && k in db.links && k.request in db.requests
      modifies this
      ensures Settle(before, old(db), k, answer, now) == Ended(raised, db)
    {
      hide Move, Actions.Apply, Fail, IsFree;
      if answer.Uncertain? {
        BookFailure(k, UnknownOutcome, Actions.MarkUnknown, now);
        return true;
      }
      if answer.Refused? || !Valid(k, db.links[k], answer) {
        BookFailure(k, NeedsReview, Actions.MarkReview, now);
        return true;
      }
      if !IsFree(db.links, k, answer.id) {
        db := before;
        return true;
      }
      SetLink(k, db.links[k].(status := Created, providerLink := Some(answer.id), providerOrder := Clean(answer.order)));
      MoveLeaves();
      raised := MoveStatus(k.request, Pending, now);
      if raised { return; }
      raised := Act(k, Actions.Complete);
    }

    method BookFailure(k: LinkKey, s: LinkStatus, op: Actions.Op, now: int)
      requires k in db.actions && k in db.links && k.request in db.requests
      modifies this
      ensures Fail(old(db), k, s, op, now) == Raised(db)
    {
      hide Move, Actions.Apply;
      MoveLeaves();
      var raised := PutUnderReview(k, s, now);
      if raised { return; }
      raised := Act(k, op);
    }

    /** An operator's decision or recovery on a link's action. */
    method CallAction(k: LinkKey, op: Actions.Op) returns (raised: bool)
      modifies this
      ensures ActionCall(old(db), k, op) == Ended(raised, db)
    {
      hide Actions.Apply;
      if k !in db.actions || op.Begin? { return true; }
      raised := Act(k, op);
    }

    // -------------------------------------------------------------- observation

    /** Looks a link up by its provider id, which is unique among the stored links. */
    method FindLink(stored: map<LinkKey, Link>, id: string) returns (k: Option<LinkKey>)
      requires UniqueOk(stored)
      ensures k == Find(stored, id)
    {
      k := None;
      if id == "" { return; }
      var left := stored.Keys;
      while left != {}
        invariant left <= stored.Keys
        invariant k.Some? ==> k.value in stored && stored[k.value].providerLink == Some(id)
        invariant k.None? ==> forall j :: j in stored && stored[j].providerLink == Some(id) ==> j in left
      {
        var j :| j in left;
        if stored[j].providerLink == Some(id) { k := Some(j); }
        left := left - {j};
      }
    }

    method ObserveEvent(stored: map<LinkKey, Link>, e: Event, now: int) returns (raised: bool)
      requires UniqueOk(stored)
      modifies this
      ensures Observe(old(db), stored, e, now) == Ended(raised, db)
    {
      hide Find, Matches, Drive, Review, Recorded;
      if e.key.environment != TEST || !e.verified { return true; }
      if e.key in db.observations { return false; }
      var link := FindLink(stored, e.linkId);
      if link.Some? && (link.value !in db.links || link.value.request !in db.requests) { return true; }
      if ChargeRefused(db, e) { return true; }
      var charge := ChargeOf(db, e, link);
      var matches := link.Some? && Matches(link.value, db.links[link.value], e);
      RecordLeaves(db, e, link, now);
      RecordEvent(e, link, charge, now);
      if link.None? { return false; }
      if !matches {
        raised := PutUnderReview(link.value, NeedsReview, now);
      } else {
        raised := DriveLink(link.value, e, charge, now);
      }
    }

    method RecordEvent(e: Event, link: Option<LinkKey>, charge: Option<Charge>, now: int)
      requires charge == ChargeOf(db, e, link)
      modifies this
      ensures db == Recorded(old(db), e, link, now)
    {
      var row := Observation(e, link, None, Unmatched, Some(now + RETRY_FOR));
      if charge.Some? {
        db := db.(charges := db.charges[e.paymentId := charge.value]);
        row := row.(charge := Some(e.paymentId));
      }
      if link.Some? { row := row.(state := Associated, retryAt := None); }
      db := db.(observations := db.observations[e.key := row]);
    }

    method DriveLink(k: LinkKey, e: Event, charge: Option<Charge>, now: int) returns (raised: bool)
      requires k in db.links && k.request in db.requests
      modifies this
      ensures Drive(old(db), k, e, charge, now) == Ended(raised, db)
    {
      hide Move, Review;
      if IsCapture(e.kind) && db.links[k].providerOrder.None? {
        SetLink(k, db.links[k].(providerOrder := Clean(e.orderId)));
      }
      if IsCapture(e.kind) && (charge.None? || !charge.value.captured) {
        raised := PutUnderReview(k, NeedsReview, now);
      } else if IsPaying(e.kind) {
        raised := MoveStatus(k.request, Paid, now);
      } else if e.kind == LinkExpired {
        raised := CloseLink(k, Lapsed, Expired, now);
      } else if e.kind == LinkCancelled {
        raised := CloseLink(k, Closed, Cancelled, now);
      } else {
        raised := false;
      }
    }

    method CloseLink(k: LinkKey, s: LinkStatus, target: Status, now: int) returns (raised: bool)
      requires k in db.links && k.request in db.requests
      modifies this
      ensures Close(old(db), k, s, target, now) == Ended(raised, db)
    {
      SetLink(k, db.links[k].(status := s));
      raised := false;
      if db.requests[k.request].status == Pending { raised := MoveStatus(k.request, target, now); }
    }

    // -------------------------------------------------------------- replay of orphans

    method FindOwner(e: Event) returns (k: Option<LinkKey>)
      requires UniqueOk(db.links)
      ensures k == Owner(db.links, e)
    {
      hide Find;
      k := FindLink(db.links, e.linkId);
      if k.Some? && k.value in db.links && db.links[k.value].account == e.key.account && e.key.environment == TEST { return; }
      k := None;
      if e.reference.Some? && e.reference.value.Own? {
        var own := e.reference.value.key;
        if own in db.links && db.links[own].account == e.key.account && e.key.environment == TEST { k := Some(own); }
      }
    }

    method ReplayRow(key: EventKey, now: int) returns (raised: bool)
      requires UniqueOk(db.links)
      modifies this
      ensures ReplayOne(old(db), key, now) == Ended(raised, db)
    {
      hide Owner, Adopt, Associate;
      raised := false;
      if key !in db.observations || db.observations[key].state != Unmatched { return; }
      var row := db.observations[key];
      var owner := FindOwner(row.event);
      if owner.Some? && owner.value in db.links && owner.value.request in db.requests
         && IsExact(owner.value, db.links[owner.value], row.event) {
        AssociateLeaves(db, key, owner.value);
        AssociateRow(key, owner.value);
        raised := AdoptRow(key, owner.value, now);
      } else if row.retryAt.Some? && now >= row.retryAt.value {
        db := db.(observations := db.observations[key := row.(state := ManualReview, retryAt := None)]);
      }
    }

    method AssociateRow(key: EventKey, k: LinkKey)
      requires key in db.observations
      modifies this
      ensures db == Associate(old(db), key, k)
    {
      var row := db.observations[key];
      var id := row.event.paymentId;
      row := row.(link := Some(k), state := Associated, retryAt := None);
      if id != "" {
        var charge := Charge(Some(k), row.event.captured);
        if id in db.charges { charge := db.charges[id].(link := Some(k)); }
        db := db.(charges := db.charges[id := charge]);
        row := row.(charge := Some(id));
      }
      db := db.(observations := db.observations[key := row]);
    }

    method AdoptRow(key: EventKey, k: LinkKey, now: int) returns (raised: bool)
      requires key in db.observations && k in db.links && k.request in db.requests
      modifies this
      ensures Adopt(old(db), key, k, now) == Ended(raised, db)
    {
      hide Move, Review;
      var row := db.observations[key];
      var e := row.event;
      raised := false;
      if !IsPaying(e.kind) { return; }
      if row.charge.Some? && e.amount == Some(db.requests[k.request].total) {
        if db.links[k].providerOrder.None? { SetLink(k, db.links[k].(providerOrder := Clean(e.orderId))); }
        if e.orderId != "" && db.links[k].providerOrder == Some(e.orderId) {
          SetLink(k, db.links[k].(status := Created));
          raised := MoveStatus(k.request, Paid, now);
        }
      } else {
        raised := PutUnderReview(k, NeedsReview, now);
      }
    }

    /** The rows of one batch, oldest first; a failure ends the pass. */
    method ReplayBatch(batch: seq<EventKey>, now: int) returns (raised: bool)
      requires Inv(db)
      modifies this
      ensures Replay(old(db), batch, now) == Ended(raised, db)
    {
      hide ReplayOne;
      raised := false;
      var i := 0;
      while i < |batch| && !raised
        invariant 0 <= i <= |batch|
        invariant Replay(old(db), batch[..i], now) == Ended(raised, db)
        invariant Inv(db)
      {
        assert batch[..i + 1][..i] == batch[..i];
        ReplayInv(db, batch[i], now);
        raised := ReplayRow(batch[i], now);
        i := i + 1;
      }
      if raised { ReplayEnds(old(db), batch, i, now); }
      assert batch[..|batch|] == batch;
    }

    // -------------------------------------------------------------- reconciliation

    method ReconcileRequest(p: nat, account: string, found: seq<Found>, fetched: Option<Fetched>, flushes: bool, now: int)
      returns (raised: bool)
      requires UniqueOk(db.links)
      modifies this
      ensures Reconcile(old(db), p, account, found, fetched, flushes, now) == Ended(raised, db)
    {
      hide Observe, Identify, Reconciled;
      var last := Latest(NumbersOf(db.links, p));
      var k := LinkKey(p, last);
      if p !in db.requests || k !in db.links || account != db.links[k].account { return true; }
      var total := db.requests[p].total;
      var stored := db.links;
      IdentifyUnique(db, k, found, now);
      raised := IdentifyLink(k, found, now);
      if raised { return; }
      if fetched.None? { return true; }
      if flushes { stored := db.links; }
      raised := ObserveEvent(stored, Reconciled(fetched.value, account, total), now);
    }

    method IdentifyLink(k: LinkKey, found: seq<Found>, now: int) returns (raised: bool)
      requires k in db.links && k.request in db.requests
      modifies this
      ensures Identify(old(db), k, found, now) == Ended(raised, db)
    {
      hide Review, IsFree, LastMatch;
      var link := db.links[k];
      if link.providerLink.Some? { return false; }
      var f := LatestMatch(found, k, link);
      if f.None? {
        raised := PutUnderReview(k, UnknownOutcome, now);
        return true;
      }
      if f.value.id != "" && !IsFree(db.links, k, f.value.id) { return true; }
      SetLink(k, link.(providerLink := Clean(f.value.id), providerOrder := Clean(f.value.order)));
      raised := f.value.id == "";
    }

    /** Keeps the last candidate with the link's own terms. */
    method LatestMatch(found: seq<Found>, k: LinkKey, link: Link) returns (f: Option<Found>)
      ensures f == LastMatch(found, k, link)
    {
      f := None;
      var i := 0;
      while i < |found|
        invariant 0 <= i <= |found|
        invariant f == LastMatch(found[..i], k, link)
      {
        assert found[..i + 1][..i] == found[..i];
        if found[i].reference == Own(k) && found[i].amount == Some(link.amount) && found[i].currency == link.currency {
          f := Some(found[i]);
        }
        i := i + 1;
      }
      assert found[..|found|] == found;
    }
  }

  // ---------------------------------------------------------------- what one part leaves for the next

  lemma ActionLeaves(db: Tables, k: LinkKey)
    requires k in db.actions
    ensures forall a: Actions.Action :: (var b := WithActionRow(db, k, a);
              b.links == db.links && b.requests == db.requests && k in b.actions)
  {}

  lemma MoveLeaves()
    ensures forall db: Tables, p: nat, target: Status, now: int :: p in db.requests ==>
              Move(db, p, target, now).db.actions == db.actions && Move(db, p, target, now).db.links == db.links
  {}

  lemma RecordLeaves(db: Tables, e: Event, link: Option<LinkKey>, now: int)
    ensures var b := Recorded(db, e, link, now); b.links == db.links && b.requests == db.requests
  {}

  lemma AssociateLeaves(db: Tables, key: EventKey, k: LinkKey)
    requires key in db.observations
    ensures var b := Associate(db, key, k); b.links == db.links && b.requests == db.requests && key in b.observations
  {}

  lemma ReplayInv(db: Tables, key: EventKey, now: int)
    requires Inv(db)
    ensures Inv(ReplayOne(db, key, now).db)
  {
    hide Inv, ReplayOne;
    ReplayOneKeeps(db, key, now);
    KeepsInv(db, ReplayOne(db, key, now).db);
  }

  lemma IdentifyUnique(db: Tables, k: LinkKey, found: seq<Found>, now: int)
    requires UniqueOk(db.links) && k in db.links && k.request in db.requests
    ensures UniqueOk(Identify(db, k, found, now).db.links)
  {
    hide LastMatch;
  }

  /** A failed pass ends where it failed. */
  lemma {:induction false} ReplayEnds(db: Tables, batch: seq<EventKey>, i: nat, now: int)
    requires i <= |batch| && Replay(db, batch[..i], now).Raised?
    ensures Replay(db, batch, now) == Replay(db, batch[..i], now)
    decreases |batch| - i
  {
    hide ReplayOne;
    if i < |batch| {
      assert batch[..i + 1][..i] == batch[..i];
      ReplayEnds(db, batch, i + 1, now);
    } else {
      assert batch[..i] == batch;
    }
  }
}
