/** What preparing, dispatching, replacing and reconciling a link leaves behind, and where a replay
    puts an orphan. */
module PaymentLinkOutcomes {
  import opened Common
  import opened Payments
  import opened PaymentRules
  import opened PaymentSteps
  import opened PaymentRuns
  import opened PaymentOutcomes
  import Actions

  // ---------------------------------------------------------------- preparing and replacing

  /** The request's links are numbered 1..n. */
  predicate HasLinks(links: map<LinkKey, Link>, p: nat, n: nat) {
    && (n > 0 ==> LinkKey(p, n) in links) && forall k :: k in links && k.request == p ==> 1 <= k.number <= n
  }

  predicate HasActive(links: map<LinkKey, Link>, p: nat) { exists k :: k in links && k.request == p && links[k].status == Created }

  /** The next link asks the account for the whole total, not yet sent. */
  predicate LinkAdded(a: Tables, b: Tables, k: LinkKey, account: string) {
    && k.request in a.requests && k !in a.links && k !in a.actions
    && b.links == a.links[k := Link(account, a.requests[k.request].total, "INR", Ready, None, None)]
    && b.actions == a.actions[k := Actions.Action(Actions.Ready, map[])]
  }

  lemma LinksCounted(db: Tables, p: nat)
    requires Inv(db)
    ensures HasLinks(db.links, p, MaxOf(NumbersOf(db.links, p))) && MaxOf(NumbersOf(db.links, p)) <= 3
    ensures HasActive(db.links, p) <==> ActiveNumbers(db.links, p) != {}
    ensures ActiveNumbers(db.links, p) != {} ==> LinkKey(p, MaxOf(ActiveNumbers(db.links, p))) in db.actions
    ensures var k := LinkKey(p, MaxOf(NumbersOf(db.links, p)) + 1); k !in db.links && k !in db.actions
  {
    hide Actions.RowOk, ObservationsOk, UniqueOk, PaidOk, NumberedOk;
    var numbers, active := NumbersOf(db.links, p), ActiveNumbers(db.links, p);
    assert forall k :: k in db.links && k.request == p ==> k.number in numbers;
    if numbers != {} { assert MaxOf(numbers) in numbers; }
    if active != {} { assert MaxOf(active) in active; }
    if k :| k in db.links && k.request == p && db.links[k].status == Created { assert k.number in active; }
  }

  /** A link is prepared exactly while the request is open and has an active link or fewer than
      three; an active link is used again, otherwise the next one is added. */
  lemma PreparationIff(db: Tables, p: nat, account: string)
    requires Inv(db)
    ensures var r := Prepare(db, p, account);
            && (r.Done? <==>
                  && p in db.requests && db.requests[p].status in {CreationPending, Pending}
                  && (HasActive(db.links, p) || !HasLinks(db.links, p, 3)))
            && (r.Done? && !HasActive(db.links, p) ==>
                  exists n: nat :: HasLinks(db.links, p, n) && LinkAdded(db, r.db, LinkKey(p, n + 1), account))
            && (r.Raised? || HasActive(db.links, p) ==> r.db == db)
            && r.db == db.(links := r.db.links, actions := r.db.actions)
  {
    hide Inv, MaxOf, NumbersOf, ActiveNumbers, HasActive;
    LinksCounted(db, p);
    assert forall n :: HasLinks(db.links, p, n) ==> n == MaxOf(NumbersOf(db.links, p)) by {
      forall n | HasLinks(db.links, p, n) ensures n == MaxOf(NumbersOf(db.links, p)) { SameCount(db.links, p, n, MaxOf(NumbersOf(db.links, p))); }
    }
  }

  lemma SameCount(links: map<LinkKey, Link>, p: nat, m: nat, n: nat)
    requires HasLinks(links, p, m) && HasLinks(links, p, n)
    ensures m == n
  {}

  /** A replacement reopens a closed request and then prepares the next link; it leaves all else
      alone. */
  lemma ReplacementOutcome(db: Tables, p: nat, expected: nat, account: string, now: int)
    requires Inv(db) && Replace(db, p, expected, account, now).Done?
    ensures var b := Replace(db, p, expected, account, now).db;
            && p in db.requests && db.requests[p].rowVersion == expected
            && (if db.requests[p].status in {Expired, Cancelled} then RequestMoved(db.requests, b.requests, p, Pending, now)
                else b.requests == db.requests)
            && (if HasActive(db.links, p) then b.links == db.links && b.actions == db.actions
                else exists n: nat :: 1 <= n <= 2 && HasLinks(db.links, p, n) && db.links[LinkKey(p, n)].status in {Lapsed, Closed}
                                      && LinkAdded(db, b, LinkKey(p, n + 1), account))
            && b.charges == db.charges && b.observations == db.observations
  {
    hide Inv, Prepare, Move, MaxOf, NumbersOf, ActiveNumbers, HasActive;
    LinksCounted(db, p);
    ReplacementIff(db, p, expected, account, now);
    NoReversal(db, p);
    MoveOutcome(db, p, Pending, now);
    MoveIsQuiet(db, p, Pending, now);
    QuietInv(db, Move(db, p, Pending, now).db);
    var was := if db.requests[p].status in {Expired, Cancelled} then Move(db, p, Pending, now).db else db;
    PreparationIff(was, p, account);
    if !HasActive(db.links, p) {
      var n: nat :| HasLinks(was.links, p, n) && LinkAdded(was, Replace(db, p, expected, account, now).db, LinkKey(p, n + 1), account);
      SameCount(db.links, p, n, MaxOf(NumbersOf(db.links, p)));
      assert LinkAdded(db, Replace(db, p, expected, account, now).db, LinkKey(p, n + 1), account);
    }
  }

  lemma NoReversal(db: Tables, p: nat)
    requires Inv(db) && p in db.requests
    ensures db.requests[p].status != Reversed
  {}

  // ---------------------------------------------------------------- dispatching

  /** The link was created before. */
  predicate IsCreated(db: Tables, k: LinkKey) {
    k in db.actions && k in db.links && db.actions[k].state == Actions.Succeeded && db.links[k].providerLink.Some?
  }

  /** The call may go to the provider. */
  ghost predicate MayCall(db: Tables, k: LinkKey, account: string) {
    && k in db.actions && k in db.links && k.request in db.requests
    && db.requests[k.request].status in {CreationPending, Pending} && account == db.links[k].account
    && db.actions[k].state in {Actions.Ready, Actions.RetryWait} && MaxKey(db.actions[k].attempts) < 3
  }

  /** The provider confirms exactly what it was asked for, under an id. */
  predicate Confirms(k: LinkKey, link: Link, a: Answer) {
    && a.Answered? && a.id != "" && a.url != ""
    && a.amount == Some(link.amount) && a.currency == link.currency && a.reference == Own(k)
  }

  predicate IsOwnId(links: map<LinkKey, Link>, k: LinkKey, id: string) { forall j :: j in links && j != k ==> links[j].providerLink != Some(id) }

  /** The call was made as the next attempt and ended in this state. */
  ghost predicate Attempted(a: Tables, b: Tables, k: LinkKey, s: Actions.ActionState) {
    && k in a.actions
    && b.actions == a.actions[k := Actions.Action(s, a.actions[k].attempts[MaxKey(a.actions[k].attempts) + 1 := s])]
  }

  /** What the answer does: a confirmation creates the link and opens the request, a refusal or a
      wrong answer and an uncertain one put both under review. */
  ghost predicate Booked(a: Tables, r: Outcome, k: LinkKey, answer: Answer, now: int)
    requires k in a.links && k.request in a.requests
  {
    var link, was := a.links[k], a.requests[k.request].status;
    && r.db == a.(requests := r.db.requests, links := r.db.links, actions := r.db.actions)
    && if Confirms(k, link, answer) then
         && r.Done? && Attempted(a, r.db, k, Actions.Succeeded)
         && r.db.links == a.links[k := Link(link.account, link.amount, link.currency, Created, Some(answer.id),
                                            if answer.order == "" then None else Some(answer.order))]
         && if was == CreationPending then RequestMoved(a.requests, r.db.requests, k.request, Pending, now) else r.db.requests == a.requests
       else
         && r.Raised? && RequestMoved(a.requests, r.db.requests, k.request, ReviewRequired, now)
         && Attempted(a, r.db, k, if answer.Uncertain? then Actions.UnknownOutcome else Actions.ReviewRequired)
         && LinkMoved(a.links, r.db.links, k, if answer.Uncertain? then UnknownOutcome else NeedsReview, link.providerOrder)
  }

  lemma BegunCall(a: Actions.Action)
    requires Actions.RowOk(a)
    ensures var r := Actions.Apply(a, Actions.Begin); var n := MaxKey(a.attempts) + 1;
            && (r.Done? <==> a.state in {Actions.Ready, Actions.RetryWait} && MaxKey(a.attempts) < 3)
            && (r.Done? ==> r.row == Actions.Action(Actions.Dispatching, a.attempts[n := Actions.Dispatching]) && MaxKey(r.row.attempts) == n)
            && (r.Raised? ==> r.row == if a.state in {Actions.Ready, Actions.RetryWait} then Actions.Action(Actions.Dispatching, a.attempts) else a)
  {
    Actions.CallTable(a, Actions.Begin);
    Actions.BeginKeepsRow(a);
  }

  lemma EndedCall(a: Actions.Action, n: nat, was: map<nat, Actions.ActionState>, op: Actions.Op, s: Actions.ActionState)
    requires a == Actions.Action(Actions.Dispatching, was[n := Actions.Dispatching]) && MaxKey(a.attempts) == n
    requires (op, s) in {(Actions.Complete, Actions.Succeeded), (Actions.MarkUnknown, Actions.UnknownOutcome), (Actions.MarkReview, Actions.ReviewRequired)}
    ensures Actions.Apply(a, op) == Actions.Done(Actions.Action(s, was[n := s]))
  {
    hide MaxKey;
    assert n in a.attempts;
  }

  /** A dispatch returns exactly if the link exists already or the provider confirms it under an id
      of its own; an id another link has leaves everything as it was. */
  lemma DispatchIff(db: Tables, k: LinkKey, account: string, answer: Answer, now: int)
    requires Inv(db)
    ensures var r := Dispatch(db, k, account, answer, now);
            && (r.Done? <==>
                  && k in db.links && k.request in db.requests
                  && (IsCreated(db, k) || (MayCall(db, k, account) && Confirms(k, db.links[k], answer) && IsOwnId(db.links, k, answer.id))))
            && (MayCall(db, k, account) ==>
                  if Confirms(k, db.links[k], answer) && !IsOwnId(db.links, k, answer.id) then r.db == db else Booked(db, r, k, answer, now))
            && (!MayCall(db, k, account) ==>
                  r.db == db || (k in db.actions && r.db == db.(actions := db.actions[k := Actions.Action(Actions.Dispatching, db.actions[k].attempts)])))
  {
    hide Inv, Settle, Actions.Apply, Booked, MaxKey, Confirms, IsOwnId;
    if k in db.actions && k in db.links {
      ActionSound(db, k);
      BegunCall(db.actions[k]);
      LinkHasRequest(db, k);
      if MayCall(db, k, account) { SettleOutcome(db, k, answer, now); }
    }
  }

  lemma ActionSound(db: Tables, k: LinkKey)
    requires Inv(db) && k in db.actions
    ensures Actions.RowOk(db.actions[k])
  {
    hide Actions.RowOk;
  }

  lemma SettleOutcome(db: Tables, k: LinkKey, answer: Answer, now: int)
    requires Inv(db) && k in db.actions && k in db.links && k.request in db.requests
    requires db.requests[k.request].status in {CreationPending, Pending}
    requires db.actions[k].state in {Actions.Ready, Actions.RetryWait} && MaxKey(db.actions[k].attempts) < 3
    ensures var r := Settle(db, WithActionRow(db, k, Actions.Apply(db.actions[k], Actions.Begin).row), k, answer, now);
            && (r.Done? <==> Confirms(k, db.links[k], answer) && IsOwnId(db.links, k, answer.id))
            && if Confirms(k, db.links[k], answer) && !IsOwnId(db.links, k, answer.id) then r.db == db else Booked(db, r, k, answer, now)
  {
    hide Inv, Actions.Apply, MaxKey, Move, Fail, Booked, Settle, Confirms, IsOwnId;
    ActionSound(db, k);
    BegunCall(db.actions[k]);
    var begun := WithActionRow(db, k, Actions.Apply(db.actions[k], Actions.Begin).row);
    if Confirms(k, db.links[k], answer) { ConfirmedOutcome(db, begun, k, answer, now); } else { RefusedOutcome(db, begun, k, answer, now); }
  }

  /** The rows right after the attempt was started. */
  ghost predicate Begun(a: Tables, b: Tables, k: LinkKey) {
    && k in a.actions && k in a.links && k.request in a.requests && a.requests[k.request].status in {CreationPending, Pending}
    && b == a.(actions := b.actions) && Attempted(a, b, k, Actions.Dispatching)
    && MaxKey(b.actions[k].attempts) == MaxKey(a.actions[k].attempts) + 1
  }

  lemma ConfirmedOutcome(db: Tables, begun: Tables, k: LinkKey, answer: Answer, now: int)
    requires Begun(db, begun, k) && Confirms(k, db.links[k], answer)
    ensures var r := Settle(db, begun, k, answer, now);
            if IsOwnId(db.links, k, answer.id) then Booked(db, r, k, answer, now) && r.Done? else r == Raised(db)
  {
    hide Actions.Apply, MaxKey, Move;
    EndedCall(begun.actions[k], MaxKey(begun.actions[k].attempts), db.actions[k].attempts, Actions.Complete, Actions.Succeeded);
    MoveOutcome(WithLink(begun, k, begun.links[k].(status := Created, providerLink := Some(answer.id), providerOrder := Clean(answer.order))),
                k.request, Pending, now);
  }

  lemma RefusedOutcome(db: Tables, begun: Tables, k: LinkKey, answer: Answer, now: int)
    requires Begun(db, begun, k) && !Confirms(k, db.links[k], answer)
    ensures var r := Settle(db, begun, k, answer, now); Booked(db, r, k, answer, now) && r.Raised?
  {
    hide Actions.Apply, MaxKey, Move, Fail;
    var s, op := if answer.Uncertain? then UnknownOutcome else NeedsReview, if answer.Uncertain? then Actions.MarkUnknown else Actions.MarkReview;
    EndedCall(begun.actions[k], MaxKey(begun.actions[k].attempts), db.actions[k].attempts, op,
              if answer.Uncertain? then Actions.UnknownOutcome else Actions.ReviewRequired);
    FailOutcome(begun, k, s, op, now);
  }

  lemma FailOutcome(db: Tables, k: LinkKey, s: LinkStatus, op: Actions.Op, now: int)
    requires k in db.actions && k in db.links && k.request in db.requests && db.requests[k.request].status in {CreationPending, Pending}
    ensures var r := Fail(db, k, s, op, now);
            && r.Raised? && RequestMoved(db.requests, r.db.requests, k.request, ReviewRequired, now)
            && LinkMoved(db.links, r.db.links, k, s, db.links[k].providerOrder)
            && r.db.actions == db.actions[k := Actions.Apply(db.actions[k], op).row]
            && r.db == db.(requests := r.db.requests, links := r.db.links, actions := r.db.actions)
  {
    hide Move, Actions.Apply;
    MoveOutcome(WithLinkStatus(db, k, s), k.request, ReviewRequired, now);
  }

  // ---------------------------------------------------------------- replaying an orphan

  /** The orphan's link: the one with its link id on its account, or else the one it refers to on
      its account. */
  ghost predicate Belongs(links: map<LinkKey, Link>, e: Event, k: LinkKey) {
    && k in links && links[k].account == e.key.account
    && (Names(links, e, k) || (e.reference == Some(Own(k)) && forall j :: Names(links, e, j) ==> links[j].account != e.key.account))
  }

  predicate IsOwnPayment(k: LinkKey, link: Link, e: Event) {
    e.reference == Some(Own(k)) && e.amount == Some(link.amount) && e.currency == link.currency
  }

  /** The orphan and its provider payment, stored or new, are the link's now. */
  predicate Adopted(a: Tables, b: Tables, key: EventKey, k: LinkKey) {
    && key in a.observations
    && var row := a.observations[key]; var id := row.event.paymentId;
    && b.observations == a.observations[key := Observation(row.event, Some(k), if id != "" then Some(id) else row.charge, Associated, None)]
    && b.charges == (if id == "" then a.charges
                     else a.charges[id := Charge(Some(k), if id in a.charges then a.charges[id].captured else row.event.captured)])
    && b.actions == a.actions
  }

  /** What an adopted orphan does: a payment with an id, on the link's own order, makes the link
      created and pays; without an id it is reviewed; on another order it only teaches a link
      without one its order. Any other kind only settles where the orphan belongs. */
  predicate Replayed(a: Tables, r: Outcome, key: EventKey, k: LinkKey, now: int)
    requires key in a.observations && k in a.links && k in r.db.links
  {
    var e, link := a.observations[key].event, a.links[k];
    && (e.kind !in {LinkPaid, PaymentCaptured} ==> r.Done? && r.db.links == a.links && r.db.requests == a.requests)
    && (e.kind in {LinkPaid, PaymentCaptured} && e.paymentId == "" ==> UnderReview(a, r, k, link.providerOrder, now))
    && (e.kind in {LinkPaid, PaymentCaptured} && e.paymentId != "" ==>
          var order := r.db.links[k].providerOrder;
          && IsLearned(link.providerOrder, order, e.orderId)
          && if e.orderId != "" && order == Some(e.orderId) then LinkMoved(a.links, r.db.links, k, Created, order) && Pays(a, r, k, now)
             else r.Done? && LinkMoved(a.links, r.db.links, k, link.status, order) && r.db.requests == a.requests)
  }

  lemma BelongsIsOwner(links: map<LinkKey, Link>, e: Event, k: LinkKey)
    requires UniqueOk(links) && e.key.environment == TEST
    ensures Belongs(links, e, k) <==> Owner(links, e) == Some(k) && k in links
  {
    FindIsLink(links, e.linkId);
    FindNeedsId(links, e.linkId);
  }

  lemma OrphanSound(db: Tables, key: EventKey)
    requires Inv(db) && key in db.observations
    ensures UniqueOk(db.links) && key.environment == TEST && db.observations[key].event.key == key
    ensures db.observations[key].event.paymentId == "" ==> db.observations[key].charge.None?
    ensures db.observations[key].state == Unmatched ==> db.observations[key].retryAt.Some?
  {
    assert ObservationOk(db.links, db.charges, key, db.observations[key]);
  }

  /** An orphan that belongs to a link, with the link's own reference, amount and currency, is
      adopted by it; any other one waits until its time is over and then goes to manual review.
      Nothing but an orphan is touched. */
  lemma ReplayOutcome(db: Tables, key: EventKey, k: LinkKey, now: int)
    requires Inv(db)
    ensures var r := ReplayOne(db, key, now);
            && (!(key in db.observations && db.observations[key].state == Unmatched) ==> r == Done(db))
            && (key in db.observations && db.observations[key].state == Unmatched ==>
                  var row := db.observations[key];
                  && (Belongs(db.links, row.event, k) && IsOwnPayment(k, db.links[k], row.event) ==>
                        Adopted(db, r.db, key, k) && k in r.db.links && Replayed(db, r, key, k, now))
                  && ((forall j :: !(Belongs(db.links, row.event, j) && IsOwnPayment(j, db.links[j], row.event))) ==>
                        && r.Done? && row.retryAt.Some?
                        && r.db == if now < row.retryAt.value then db
                                   else db.(observations := db.observations[key := Observation(row.event, row.link, row.charge, ManualReview, None)])))
  {
    hide Inv, Owner, Adopt, Associate, Belongs, Adopted, Replayed;
    if key in db.observations && db.observations[key].state == Unmatched {
      var row := db.observations[key];
      OrphanSound(db, key);
      forall j { BelongsIsOwner(db.links, row.event, j); }
      if Belongs(db.links, row.event, k) && IsOwnPayment(k, db.links[k], row.event) {
        LinkIsSound(db, k);
        Sound(db, k);
        AdoptOutcome(db, key, k, now);
      } else if Owner(db.links, row.event).Some? {
        OwnerIsLink(db.links, row.event);
      }
    }
  }

  lemma OwnerIsLink(links: map<LinkKey, Link>, e: Event)
    ensures Owner(links, e).Some? ==> Owner(links, e).value in links
  {}

  lemma AdoptOutcome(db: Tables, key: EventKey, k: LinkKey, now: int)
    requires key in db.observations && k in db.links && k.request in db.requests && IsOwnPayment(k, db.links[k], db.observations[key].event)
    requires db.links[k].amount == db.requests[k.request].total && db.links[k].providerOrder != Some("") && db.requests[k.request].status != Reversed
    requires db.observations[key].event.paymentId == "" ==> db.observations[key].charge.None?
    ensures var r := Adopt(Associate(db, key, k), key, k, now);
            Adopted(db, r.db, key, k) && k in r.db.links && Replayed(db, r, key, k, now)
  {
    hide Move, Pays, UnderReview;
    var b := Associate(db, key, k);
    var e := db.observations[key].event;
    var learned := if b.links[k].providerOrder.None? then WithLink(b, k, b.links[k].(providerOrder := Clean(e.orderId))) else b;
    PayOutcome(db, learned, k, now);
    ReviewOutcome(db, b, k, now);
  }

  lemma PayOutcome(db: Tables, b: Tables, k: LinkKey, now: int)
    requires k in b.links && k.request in db.requests && b.requests == db.requests && db.requests[k.request].status != Reversed
    ensures var r := Move(WithLinkStatus(b, k, Created), k.request, Paid, now);
            Pays(db, r, k, now) && r.db == WithLinkStatus(b, k, Created).(requests := r.db.requests)
  {
    hide Move;
    MoveOutcome(WithLinkStatus(b, k, Created), k.request, Paid, now);
  }

  lemma ReviewOutcome(db: Tables, b: Tables, k: LinkKey, now: int)
    requires k in db.links && k.request in db.requests && b.requests == db.requests && b.links == db.links && db.requests[k.request].status != Reversed
    ensures var r := Review(b, k, NeedsReview, now);
            UnderReview(db, r, k, db.links[k].providerOrder, now) && k in r.db.links && r.db == b.(links := r.db.links, requests := r.db.requests)
  {
    hide Move;
    MoveOutcome(WithLinkStatus(b, k, NeedsReview), k.request, ReviewRequired, now);
  }

  // ---------------------------------------------------------------- reconciling

  /** The provider's view of the latest link, as an event: paid by status or by amount, else expired
      or cancelled as it says, else nothing to act on. */
  predicate IsViewOf(e: Event, f: Fetched, account: string, total: int) {
    && e.key == EventKey(account, "test", f.eventId) && e.verified
    && e.kind == (if f.paid || f.amountPaid == total then LinkPaid else if f.expired then LinkExpired
                  else if f.cancelled then LinkCancelled else OtherKind)
    && e.linkId == f.linkId && e.paymentId == f.paymentId && e.orderId == f.orderId && e.reference == f.reference
    && e.amount == f.amount && e.currency == f.currency && e.captured == f.captured
  }

  predicate IsCandidate(f: Found, k: LinkKey, link: Link) {
    f.reference == Own(k) && f.amount == Some(link.amount) && f.currency == link.currency
  }

  /** The last candidate with the link's terms. */
  predicate IsLastCandidate(found: seq<Found>, i: nat, k: LinkKey, link: Link) {
    i < |found| && IsCandidate(found[i], k, link) && forall j :: i < j < |found| ==> !IsCandidate(found[j], k, link)
  }

  lemma {:induction false} LastIsLast(found: seq<Found>, k: LinkKey, link: Link)
    ensures LastMatch(found, k, link).None? <==> forall j :: 0 <= j < |found| ==> !IsCandidate(found[j], k, link)
    ensures forall i: nat :: IsLastCandidate(found, i, k, link) ==> LastMatch(found, k, link) == Some(found[i])
  {
    if found != [] && !IsCandidate(found[|found| - 1], k, link) {
      var rest := found[..|found| - 1];
      LastIsLast(rest, k, link);
      assert forall j :: 0 <= j < |rest| ==> rest[j] == found[j];
      forall i: nat | IsLastCandidate(found, i, k, link) ensures LastMatch(found, k, link) == Some(found[i]) {
        assert IsLastCandidate(rest, i, k, link);
      }
    }
  }

  /** A link whose creation answer was lost gets id and order of the last candidate with its terms;
      without one, link and request stay under review and the call fails. */
  lemma IdentifyOutcome(db: Tables, k: LinkKey, found: seq<Found>, i: nat, now: int)
    requires Inv(db) && k in db.links && db.links[k].providerLink.None?
    ensures var r := Identify(db, k, found, now); var link := db.links[k];
            && ((forall j :: 0 <= j < |found| ==> !IsCandidate(found[j], k, link)) ==>
                  && r.Raised? && LinkMoved(db.links, r.db.links, k, UnknownOutcome, link.providerOrder)
                  && if db.requests[k.request].status in {CreationPending, Pending} then RequestMoved(db.requests, r.db.requests, k.request, ReviewRequired, now)
                     else r.db.requests == db.requests)
            && (IsLastCandidate(found, i, k, link) ==>
                  && (r.Done? <==> found[i].id != "" && IsOwnId(db.links, k, found[i].id))
                  && (r.Done? ==> r.db == db.(links := db.links[k := Link(link.account, link.amount, link.currency, link.status, Some(found[i].id),
                                                                          if found[i].order == "" then None else Some(found[i].order))])))
  {
    hide Inv, Move, LastMatch;
    LastIsLast(found, k, db.links[k]);
    Sound(db, k);
    MoveOutcome(WithLinkStatus(db, k, UnknownOutcome), k.request, ReviewRequired, now);
  }

  /** Reconciling a link whose id is known is delivering the provider's view of it as an event. */
  lemma ReconciliationIsEvent(db: Tables, p: nat, n: nat, found: seq<Found>, f: Fetched, flushes: bool, e: Event, now: int)
    requires Inv(db) && p in db.requests && n > 0 && HasLinks(db.links, p, n) && db.links[LinkKey(p, n)].providerLink.Some?
    requires IsViewOf(e, f, db.links[LinkKey(p, n)].account, db.requests[p].total)
    ensures Reconcile(db, p, db.links[LinkKey(p, n)].account, found, Some(f), flushes, now) == Observe(db, db.links, e, now)
  {
    hide Inv, Observe, MaxOf, NumbersOf;
    LinksCounted(db, p);
    SameCount(db.links, p, n, MaxOf(NumbersOf(db.links, p)));
    assert Reconciled(f, db.links[LinkKey(p, n)].account, db.requests[p].total) == e;
  }
}
