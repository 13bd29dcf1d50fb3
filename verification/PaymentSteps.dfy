/** Every payment command keeps the rules and pays only with evidence. */
module PaymentSteps {
  import opened Common
  import opened Payments
  import opened PaymentRules
  import Actions

  // ---------------------------------------------------------------- preparation

  lemma AddLinkKeeps(db: Tables, k: LinkKey, account: string)
    requires Inv(db) && k.request in db.requests
    requires k.number == MaxOf(NumbersOf(db.links, k.request)) + 1 <= MAX_LINKS
    ensures k !in db.links && k !in db.actions
    ensures var row := Link(account, db.requests[k.request].total, INR, Ready, None, None);
            Quiet(db, db.(actions := db.actions[k := Actions.NEW_ACTION], links := db.links[k := row]))
  {
    hide PaidOk, ObservationsOk, UniqueOk, NumberedOk, ObservationOk, Actions.RowOk;
    Actions.NewActionOk();
    var row := Link(account, db.requests[k.request].total, INR, Ready, None, None);
    NextIsNew(db.links, k);
    NewRow(db.links, k, row);
    GrowObservations(db.links, db.links[k := row], db.charges, db.charges, db.observations);
  }

  lemma NextIsNew(links: map<LinkKey, Link>, k: LinkKey)
    requires k.number == MaxOf(NumbersOf(links, k.request)) + 1
    ensures k !in links
  {
    assert forall j :: j in links && j.request == k.request ==> j.number in NumbersOf(links, k.request);
  }

  lemma NewRow(links: map<LinkKey, Link>, k: LinkKey, row: Link)
    requires UniqueOk(links) && NumberedOk(links) && row.providerLink.None? && row.providerOrder.None?
    requires k.number == MaxOf(NumbersOf(links, k.request)) + 1
    ensures UniqueOk(links[k := row]) && NumberedOk(links[k := row])
  {
    NextIsNew(links, k);
    var top := MaxOf(NumbersOf(links, k.request));
    if top >= 1 {
      assert top in NumbersOf(links, k.request);
      assert LinkKey(k.request, top) in links;
    }
    forall j: nat | 1 <= j <= k.number ensures LinkKey(k.request, j) in links[k := row] {
      assert LinkKey(k.request, j) == k || LinkKey(k.request, j) in links;
    }
  }

  lemma PrepareKeeps(db: Tables, p: nat, account: string)
    requires Inv(db)
    ensures Quiet(db, Prepare(db, p, account).db)
  {
    hide Inv, Quiet;
    SameIsQuiet(db);
    if p in db.requests {
      var k := LinkKey(p, MaxOf(NumbersOf(db.links, p)) + 1);
      if k.number <= MAX_LINKS { AddLinkKeeps(db, k, account); }
    }
  }

  lemma ReplaceKeeps(db: Tables, p: nat, expected: nat, account: string, now: int)
    requires Inv(db)
    ensures Quiet(db, Replace(db, p, expected, account, now).db)
  {
    hide Inv, Quiet, Prepare, Move;
    SameIsQuiet(db);
    PrepareKeeps(db, p, account);
    if p in db.requests {
      var pending := Move(db, p, Pending, now);
      MoveIsQuiet(db, p, Pending, now);
      QuietInv(db, pending.db);
      PrepareKeeps(pending.db, p, account);
      QuietTrans(db, pending.db, Prepare(pending.db, p, account).db);
    }
  }

  // ---------------------------------------------------------------- dispatch

  lemma MovedHere(db: Tables, p: nat, target: Status, now: int)
    requires p in db.requests
    ensures Move(db, p, target, now).db.links == db.links && Move(db, p, target, now).db.actions == db.actions
    ensures Move(db, p, target, now).db.observations == db.observations
  {}

  lemma FailKeeps(db: Tables, k: LinkKey, s: LinkStatus, op: Actions.Op, now: int)
    requires Inv(db) && k in db.actions && k in db.links && k.request in db.requests
    ensures Quiet(db, Fail(db, k, s, op, now).db)
  {
    hide Inv, Quiet, Move, Actions.Apply, WithActionRow;
    var reviewed := Review(db, k, s, now);
    ReviewIsQuiet(db, k, s, now);
    QuietInv(db, reviewed.db);
    MovedHere(WithLinkStatus(db, k, s), k.request, ReviewRequired, now);
    var row := Actions.Apply(reviewed.db.actions[k], op).row;
    CallRowKeeps(reviewed.db, k, op);
    QuietTrans(db, reviewed.db, WithActionRow(reviewed.db, k, row));
  }

  lemma FreshIdKeeps(db: Tables, k: LinkKey, s: LinkStatus, id: string, order: string)
    requires Inv(db) && k in db.links && (id != "" ==> IsFree(db.links, k, id))
    ensures Quiet(db, WithLink(db, k, db.links[k].(status := s, providerLink := Clean(id), providerOrder := Clean(order))))
  {
    hide LinksOk, NumberedOk, ActionsOk, UniqueOk, ObservationsOk, PaidOk, Quiet, IsFree;
    LinkRowKeeps(db, k, db.links[k].(status := s, providerLink := Clean(id), providerOrder := Clean(order)));
  }

  lemma SettleKeeps(before: Tables, db: Tables, k: LinkKey, answer: Answer, now: int)
    requires Inv(before) && Quiet(before, db) && k in db.actions && k in db.links && k.request in db.requests
    ensures Quiet(before, Settle(before, db, k, answer, now).db)
  {
    hide Inv, Quiet, Move, Actions.Apply, WithActionRow, WithLink, Fail, IsFree;
    SameIsQuiet(before);
    QuietInv(before, db);
    if answer.Uncertain? {
      FailKeeps(db, k, UnknownOutcome, Actions.MarkUnknown, now);
      QuietTrans(before, db, Fail(db, k, UnknownOutcome, Actions.MarkUnknown, now).db);
    } else if answer.Refused? || !Valid(k, db.links[k], answer) {
      FailKeeps(db, k, NeedsReview, Actions.MarkReview, now);
      QuietTrans(before, db, Fail(db, k, NeedsReview, Actions.MarkReview, now).db);
    } else if IsFree(db.links, k, answer.id) {
      CreatedKeeps(before, db, k, answer, now);
    }
  }

  lemma CreatedKeeps(before: Tables, db: Tables, k: LinkKey, answer: Answer, now: int)
    requires Inv(before) && Inv(db) && Quiet(before, db) && k in db.actions && k in db.links && k.request in db.requests
    requires answer.Answered? && Valid(k, db.links[k], answer) && IsFree(db.links, k, answer.id)
    ensures Quiet(before, Settle(before, db, k, answer, now).db)
  {
    hide Inv, Quiet, Move, Actions.Apply, WithActionRow, Fail, IsFree;
    var linked := WithLink(db, k, db.links[k].(status := Created, providerLink := Some(answer.id), providerOrder := Clean(answer.order)));
    FreshIdKeeps(db, k, Created, answer.id, answer.order);
    QuietInv(db, linked);
    QuietTrans(before, db, linked);
    var moved := Move(linked, k.request, Pending, now);
    MoveIsQuiet(linked, k.request, Pending, now);
    MovedHere(linked, k.request, Pending, now);
    QuietInv(linked, moved.db);
    QuietTrans(before, linked, moved.db);
    if moved.Done? {
      var after := WithActionRow(moved.db, k, Actions.Apply(moved.db.actions[k], Actions.Complete).row);
      CallRowKeeps(moved.db, k, Actions.Complete);
      QuietTrans(before, moved.db, after);
    }
  }

  lemma DispatchKeeps(db: Tables, k: LinkKey, account: string, answer: Answer, now: int)
    requires Inv(db)
    ensures Quiet(db, Dispatch(db, k, account, answer, now).db)
  {
    hide Inv, Quiet, Actions.Apply, Settle;
    SameIsQuiet(db);
    if k in db.actions && k in db.links && k.request in db.requests {
      var row := Actions.Apply(db.actions[k], Actions.Begin).row;
      CallRowKeeps(db, k, Actions.Begin);
      SettleKeeps(db, WithActionRow(db, k, row), k, answer, now);
    }
  }

  lemma ActionCallKeeps(db: Tables, k: LinkKey, op: Actions.Op)
    requires Inv(db)
    ensures Quiet(db, ActionCall(db, k, op).db)
  {
    hide Inv, Quiet, Actions.Apply;
    SameIsQuiet(db);
    if k in db.actions { CallRowKeeps(db, k, op); }
  }

  // ---------------------------------------------------------------- observation

  lemma RecordKeeps(db: Tables, e: Event, link: Option<LinkKey>, now: int)
    requires Inv(db) && e.key !in db.observations && e.verified && e.key.environment == TEST
    requires link.Some? ==> link.value in db.links
    ensures Quiet(db, Recorded(db, e, link, now))
    ensures e.key in Recorded(db, e, link, now).observations
  {
    hide LinksOk, NumberedOk, ActionsOk, UniqueOk, PaidOk, ObservationsOk;
    RecordObservations(db, e, link, now);
  }

  lemma RecordObservations(db: Tables, e: Event, link: Option<LinkKey>, now: int)
    requires ObservationsOk(db.links, db.charges, db.observations) && e.key !in db.observations
    requires e.verified && e.key.environment == TEST
    requires link.Some? ==> link.value in db.links
    ensures var b := Recorded(db, e, link, now);
            ObservationsOk(db.links, b.charges, b.observations) && EventsKept(db.observations, b.observations)
  {
    var b := Recorded(db, e, link, now);
    assert ObservationOk(db.links, b.charges, e.key, b.observations[e.key]);
    GrowObservations(db.links, db.links, db.charges, b.charges, db.observations);
  }

  lemma FindIsLink(links: map<LinkKey, Link>, id: string)
    ensures Find(links, id).Some? ==> Find(links, id).value in links && links[Find(links, id).value].providerLink == Some(id)
  {}

  /** A move to Paid with the evidence at hand keeps the rules. */
  lemma PayKeeps(db: Tables, k: LinkKey, e: EventKey, now: int)
    requires Inv(db) && k in db.links && e in db.observations && k.request in db.requests
    requires Justifies(db.observations[e], k, db.links[k], db.requests[k.request].total)
    ensures Keeps(db, Move(db, k.request, Paid, now).db)
  {
    hide Inv, Move, Justifies;
    MoveKeeps(db, k.request, Paid, now);
    var b := Move(db, k.request, Paid, now).db;
    assert RowKept(db.requests[k.request], b.requests[k.request]);
    assert Justifies(b.observations[e], k, b.links[k], b.requests[k.request].total);
  }

  lemma CloseKeeps(db: Tables, k: LinkKey, s: LinkStatus, target: Status, now: int)
    requires Inv(db) && k in db.links && k.request in db.requests && target in {Expired, Cancelled}
    ensures Quiet(db, Close(db, k, s, target, now).db)
  {
    hide Inv, Quiet, Move;
    LinkStatusKeeps(db, k, s);
    QuietInv(db, WithLinkStatus(db, k, s));
    MoveIsQuiet(WithLinkStatus(db, k, s), k.request, target, now);
    QuietTrans(db, WithLinkStatus(db, k, s), Move(WithLinkStatus(db, k, s), k.request, target, now).db);
  }

  lemma DriveKeeps(db: Tables, k: LinkKey, e: Event, charge: Option<Charge>, now: int)
    requires Inv(db) && k in db.links && k.request in db.requests && e.key in db.observations
    requires db.observations[e.key].event == e && db.observations[e.key].state == Associated && db.observations[e.key].link == Some(k)
    requires e.verified && Matches(k, db.links[k], e)
    ensures Keeps(db, Drive(db, k, e, charge, now).db)
  {
    hide Inv, Quiet, Keeps, Move, Review, Close, MayMove;
    LinkHasRequest(db, k);
    var b := if IsCapture(e.kind) && db.links[k].providerOrder.None?
             then WithLink(db, k, db.links[k].(providerOrder := Clean(e.orderId))) else db;
    SameIsQuiet(db);
    LinkOrderKeeps(db, k, Clean(e.orderId));
    assert Quiet(db, b);
    QuietInv(db, b);
    DriveOn(db, b, k, e, charge, now);
  }

  lemma DriveOn(db: Tables, b: Tables, k: LinkKey, e: Event, charge: Option<Charge>, now: int)
    requires Inv(db) && Inv(b) && Quiet(db, b) && k in db.links && k.request in db.requests && e.key in db.observations
    requires db.observations[e.key].event == e && db.observations[e.key].state == Associated && db.observations[e.key].link == Some(k)
    requires e.verified && Matches(k, db.links[k], e)
    requires b == if IsCapture(e.kind) && db.links[k].providerOrder.None?
                  then WithLink(db, k, db.links[k].(providerOrder := Clean(e.orderId))) else db
    ensures Keeps(db, Drive(db, k, e, charge, now).db)
  {
    hide Inv, Quiet, Keeps, Move, Review, Close, MayMove;
    var after := Drive(db, k, e, charge, now).db;
    if IsCapture(e.kind) && (charge.None? || !charge.value.captured) {
      ReviewIsQuiet(b, k, NeedsReview, now);
      QuietTrans(db, b, after);
      QuietKeeps(db, after);
    } else if IsPaying(e.kind) {
      LinkHasRequest(db, k);
      assert Justifies(b.observations[e.key], k, b.links[k], b.requests[k.request].total);
      PayKeeps(b, k, e.key, now);
      KeepsAfterQuiet(db, b, after);
    } else {
      CloseKeeps(b, k, Lapsed, Expired, now);
      CloseKeeps(b, k, Closed, Cancelled, now);
      QuietTransIf(db, b, after);
      QuietKeeps(db, after);
    }
  }

  lemma QuietTransIf(a: Tables, b: Tables, c: Tables)
    requires Quiet(a, b) && (Quiet(b, c) || c == b)
    ensures Quiet(a, c)
  {
    hide Quiet;
    if c != b { QuietTrans(a, b, c); }
  }

  lemma ObserveKeeps(db: Tables, stored: map<LinkKey, Link>, e: Event, now: int)
    requires Inv(db)
    ensures Keeps(db, Observe(db, stored, e, now).db)
  {
    hide Inv, Quiet, Keeps, Review, Drive, Find, Matches, ChargeRefused, Recorded;
    SameIsQuiet(db);
    QuietKeeps(db, db);
    var link := Find(stored, e.linkId);
    if e.verified && e.key.environment == TEST && e.key !in db.observations && !ChargeRefused(db, e)
       && (link.Some? ==> link.value in db.links && link.value.request in db.requests) {
      var recorded := Recorded(db, e, link, now);
      RecordKeeps(db, e, link, now);
      RecordedHere(db, e, link, now);
      QuietInv(db, recorded);
      if link.None? {
        QuietKeeps(db, recorded);
      } else if !Matches(link.value, db.links[link.value], e) {
        ReviewIsQuiet(recorded, link.value, NeedsReview, now);
        QuietTrans(db, recorded, Review(recorded, link.value, NeedsReview, now).db);
        QuietKeeps(db, Review(recorded, link.value, NeedsReview, now).db);
      } else {
        DriveKeeps(recorded, link.value, e, ChargeOf(db, e, link), now);
        KeepsAfterQuiet(db, recorded, Drive(recorded, link.value, e, ChargeOf(db, e, link), now).db);
      }
    }
  }

  lemma RecordedHere(db: Tables, e: Event, link: Option<LinkKey>, now: int)
    ensures var b := Recorded(db, e, link, now);
            && b.links == db.links && b.requests == db.requests && e.key in b.observations
            && b.observations[e.key].event == e && b.observations[e.key].link == link
            && (b.observations[e.key].state == Associated <==> link.Some?)
  {}

  // ---------------------------------------------------------------- replay of orphans

  /** Nothing that could have justified a payment is lost. */
  ghost predicate EvidenceKept(a: Tables, b: Tables) {
    && (forall e :: e in a.observations && a.observations[e].state == Associated ==> e in b.observations && b.observations[e] == a.observations[e])
    && (forall k :: k in a.links ==> k in b.links && LinkKept(a.links[k], b.links[k]))
    && (forall p :: p in a.requests ==> p in b.requests && b.requests[p].total == a.requests[p].total)
  }

  predicate LinkKept(a: Link, b: Link) {
    b.amount == a.amount && b.currency == a.currency && (a.providerOrder.Some? ==> b.providerOrder == a.providerOrder)
  }

  lemma EvidenceStays(a: Tables, b: Tables, p: nat)
    requires EvidenceKept(a, b) && Justified(a, p)
    ensures Justified(b, p)
  {
    var e, k :| e in a.observations && k in a.links && k.request == p && p in a.requests
                && Justifies(a.observations[e], k, a.links[k], a.requests[p].total);
    assert LinkKept(a.links[k], b.links[k]);
    assert Justifies(b.observations[e], k, b.links[k], b.requests[p].total);
  }

  lemma KeepsTrans(a: Tables, b: Tables, c: Tables)
    requires Keeps(a, b) && Keeps(b, c) && EvidenceKept(b, c)
    ensures Keeps(a, c)
  {
    hide Inv, PaidNow, Justified, EvidenceKept;
    PaidOnce(a.requests, b.requests, c.requests);
    forall p | PaidNow(a.requests, c.requests, p) ensures Justified(c, p) {
      if !PaidNow(b.requests, c.requests, p) {
        EvidenceStays(b, c, p);
      }
    }
  }

  lemma AssociateKeeps(db: Tables, key: EventKey, k: LinkKey)
    requires Inv(db) && key in db.observations && k in db.links
    ensures Quiet(db, Associate(db, key, k))
  {
    hide LinksOk, NumberedOk, ActionsOk, UniqueOk, PaidOk, ObservationsOk;
    AssociateObservations(db, key, k);
  }

  lemma AssociateObservations(db: Tables, key: EventKey, k: LinkKey)
    requires ObservationsOk(db.links, db.charges, db.observations) && key in db.observations && k in db.links
    ensures var b := Associate(db, key, k);
            ObservationsOk(db.links, b.charges, b.observations) && EventsKept(db.observations, b.observations)
  {
    var b := Associate(db, key, k);
    assert ObservationOk(db.links, db.charges, key, db.observations[key]);
    GrowObservations(db.links, db.links, db.charges, b.charges, db.observations);
  }

  lemma AssociatedHere(db: Tables, key: EventKey, k: LinkKey)
    requires key in db.observations && db.observations[key].state == Unmatched
    ensures var b := Associate(db, key, k);
            && b.links == db.links && b.requests == db.requests && key in b.observations
            && b.observations[key].event == db.observations[key].event
            && b.observations[key].state == Associated && b.observations[key].link == Some(k)
            && EvidenceKept(db, b)
  {}

  lemma EvidenceSelf(db: Tables)
    ensures EvidenceKept(db, db)
  {}

  lemma MoveEvidence(db: Tables, p: nat, target: Status, now: int)
    requires p in db.requests
    ensures EvidenceKept(db, Move(db, p, target, now).db)
  {
    hide MayMove;
  }

  lemma LinkEvidence(db: Tables, k: LinkKey, row: Link)
    requires k in db.links && LinkKept(db.links[k], row)
    ensures EvidenceKept(db, WithLink(db, k, row))
  {}

  /** Setting a missing order and then a status and a request keeps all evidence. */
  lemma LinkMoveEvidence(db: Tables, k: LinkKey, row: Link, target: Status, now: int)
    requires k in db.links && k.request in db.requests && LinkKept(db.links[k], row)
    ensures EvidenceKept(db, Move(WithLink(db, k, row), k.request, target, now).db)
  {
    hide EvidenceKept, Move;
    LinkEvidence(db, k, row);
    MoveEvidence(WithLink(db, k, row), k.request, target, now);
    EvidenceTrans(db, WithLink(db, k, row), Move(WithLink(db, k, row), k.request, target, now).db);
  }

  lemma AdoptEvidence(db: Tables, key: EventKey, k: LinkKey, now: int)
    requires key in db.observations && k in db.links && k.request in db.requests
    ensures EvidenceKept(db, Adopt(db, key, k, now).db)
  {
    hide EvidenceKept, Move;
    EvidenceSelf(db);
    var e := db.observations[key].event;
    var row := if db.links[k].providerOrder.None? then db.links[k].(providerOrder := Clean(e.orderId)) else db.links[k];
    var b := if db.links[k].providerOrder.None? then WithLink(db, k, row) else db;
    LinkEvidence(db, k, row);
    LinkMoveEvidence(b, k, row.(status := Created), Paid, now);
    EvidenceTrans(db, b, Move(WithLink(b, k, row.(status := Created)), k.request, Paid, now).db);
    LinkMoveEvidence(db, k, db.links[k].(status := NeedsReview), ReviewRequired, now);
  }

  lemma AdoptKeeps(db: Tables, key: EventKey, k: LinkKey, now: int)
    requires Inv(db) && key in db.observations && k in db.links && k.request in db.requests
    requires db.observations[key].state == Associated && db.observations[key].link == Some(k)
    requires db.observations[key].event.verified && IsExact(k, db.links[k], db.observations[key].event)
    ensures Keeps(db, Adopt(db, key, k, now).db)
  {
    hide Inv, Quiet, Keeps, Move, Review, WithLinkStatus;
    var row := db.observations[key];
    var order := Clean(row.event.orderId);
    SameIsQuiet(db);
    QuietKeeps(db, db);
    ReviewIsQuiet(db, k, NeedsReview, now);
    QuietKeeps(db, Review(db, k, NeedsReview, now).db);
    if IsPaying(row.event.kind) && row.charge.Some? && row.event.amount == Some(db.requests[k.request].total) {
      LinkOrderKeeps(db, k, order);
      var b := if db.links[k].providerOrder.None? then WithLink(db, k, db.links[k].(providerOrder := order)) else db;
      assert Quiet(db, b);
      QuietInv(db, b);
      QuietKeeps(db, b);
      if row.event.orderId != "" && b.links[k].providerOrder == Some(row.event.orderId) { AdoptPays(db, b, key, k, now); }
    }
  }

  lemma AdoptPays(db: Tables, b: Tables, key: EventKey, k: LinkKey, now: int)
    requires Inv(b) && Quiet(db, b) && key in b.observations && k in b.links && k.request in b.requests
    requires var row := b.observations[key]; Justifies(row, k, b.links[k], b.requests[k.request].total)
    ensures Keeps(db, Move(WithLinkStatus(b, k, Created), k.request, Paid, now).db)
  {
    hide Inv, Quiet, Keeps, Move;
    var c := WithLinkStatus(b, k, Created);
    LinkStatusKeeps(b, k, Created);
    QuietInv(b, c);
    QuietTrans(db, b, c);
    PayKeeps(c, k, key, now);
    KeepsAfterQuiet(db, c, Move(c, k.request, Paid, now).db);
  }

  lemma EventVerified(db: Tables, key: EventKey)
    requires Inv(db) && key in db.observations
    ensures db.observations[key].event.verified
  {
    assert ObservationOk(db.links, db.charges, key, db.observations[key]);
  }

  lemma ReplayOneKeeps(db: Tables, key: EventKey, now: int)
    requires Inv(db)
    ensures Keeps(db, ReplayOne(db, key, now).db) && EvidenceKept(db, ReplayOne(db, key, now).db)
  {
    hide Inv, Quiet, Keeps, Owner, Adopt, Associate, EvidenceKept, IsExact;
    SameIsQuiet(db);
    QuietKeeps(db, db);
    EvidenceSelf(db);
    if key in db.observations && db.observations[key].state == Unmatched {
      EventVerified(db, key);
      var owner := Owner(db.links, db.observations[key].event);
      if owner.Some? && owner.value in db.links && owner.value.request in db.requests
         && IsExact(owner.value, db.links[owner.value], db.observations[key].event) {
        AdoptOneKeeps(db, key, owner.value, now);
      } else {
        ParkKeeps(db, key);
      }
    }
  }

  lemma AdoptOneKeeps(db: Tables, key: EventKey, k: LinkKey, now: int)
    requires Inv(db) && key in db.observations && k in db.links && k.request in db.requests
    requires db.observations[key].state == Unmatched && db.observations[key].event.verified
    requires IsExact(k, db.links[k], db.observations[key].event)
    ensures AdoptOneReady(db, key, k)
    ensures Keeps(db, Adopt(Associate(db, key, k), key, k, now).db) && EvidenceKept(db, Adopt(Associate(db, key, k), key, k, now).db)
  {
    hide Inv, Quiet, Keeps, Adopt, Associate, EvidenceKept, IsExact;
    var b := Associate(db, key, k);
    AssociatedHere(db, key, k);
    AssociateKeeps(db, key, k);
    QuietInv(db, b);
    AdoptKeeps(b, key, k, now);
    AdoptEvidence(b, key, k, now);
    KeepsAfterQuiet(db, b, Adopt(b, key, k, now).db);
    EvidenceTrans(db, b, Adopt(b, key, k, now).db);
  }

  predicate AdoptOneReady(db: Tables, key: EventKey, k: LinkKey)
    requires key in db.observations
  {
    var b := Associate(db, key, k);
    key in b.observations && k in b.links && k.request in b.requests
  }

  lemma EvidenceTrans(a: Tables, b: Tables, c: Tables)
    requires EvidenceKept(a, b) && EvidenceKept(b, c)
    ensures EvidenceKept(a, c)
  {}

  lemma ParkKeeps(db: Tables, key: EventKey)
    requires Inv(db) && key in db.observations && db.observations[key].state == Unmatched
    ensures var b := db.(observations := db.observations[key := db.observations[key].(state := ManualReview, retryAt := None)]);
            Keeps(db, b) && EvidenceKept(db, b)
  {
    hide LinksOk, NumberedOk, ActionsOk, UniqueOk, PaidOk, Justified;
    assert ObservationOk(db.links, db.charges, key, db.observations[key]);
  }

  lemma {:induction false} ReplayKeeps(db: Tables, batch: seq<EventKey>, now: int)
    requires Inv(db)
    ensures Keeps(db, Replay(db, batch, now).db)
  {
    hide Inv, Quiet, Keeps, ReplayOne, EvidenceKept;
    if batch == [] {
      SameIsQuiet(db);
      QuietKeeps(db, db);
    } else {
      var earlier := Replay(db, batch[..|batch| - 1], now);
      ReplayKeeps(db, batch[..|batch| - 1], now);
      KeepsInv(db, earlier.db);
      if earlier.Done? {
        ReplayOneKeeps(earlier.db, batch[|batch| - 1], now);
        KeepsTrans(db, earlier.db, Replay(db, batch, now).db);
      }
    }
  }

  lemma KeepsInv(a: Tables, b: Tables)
    requires Keeps(a, b)
    ensures Inv(b)
  {
    hide Inv;
  }

  // ---------------------------------------------------------------- reconciliation

  lemma IdentifyKeeps(db: Tables, k: LinkKey, found: seq<Found>, now: int)
    requires Inv(db) && k in db.links && k.request in db.requests
    ensures Quiet(db, Identify(db, k, found, now).db)
  {
    hide Inv, Quiet, Review, LastMatch, IsFree;
    SameIsQuiet(db);
    var f := LastMatch(found, k, db.links[k]);
    ReviewIsQuiet(db, k, UnknownOutcome, now);
    if f.Some? && (f.value.id == "" || IsFree(db.links, k, f.value.id)) {
      FreshIdKeeps(db, k, db.links[k].status, f.value.id, f.value.order);
    }
  }

  lemma ReconcileKeeps(db: Tables, p: nat, account: string, found: seq<Found>, fetched: Option<Fetched>, flushes: bool, now: int)
    requires Inv(db)
    ensures Keeps(db, Reconcile(db, p, account, found, fetched, flushes, now).db)
  {
    hide Inv, Quiet, Keeps, Observe, Identify, Reconciled;
    SameIsQuiet(db);
    QuietKeeps(db, db);
    var k := LinkKey(p, MaxOf(NumbersOf(db.links, p)));
    if p in db.requests && k in db.links {
      var identified := Identify(db, k, found, now);
      IdentifyKeeps(db, k, found, now);
      QuietInv(db, identified.db);
      QuietKeeps(db, identified.db);
      if identified.Done? && fetched.Some? {
        var stored := if flushes then identified.db.links else db.links;
        var e := Reconciled(fetched.value, account, db.requests[p].total);
        ObserveKeeps(identified.db, stored, e, now);
        KeepsAfterQuiet(db, identified.db, Observe(identified.db, stored, e, now).db);
      }
    }
  }
}
