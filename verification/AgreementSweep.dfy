/** The expiry sweep as a whole: which offers its two passes expire, in whatever order they read
    the rows. */
module AgreementSweep {
  import opened Common
  import opened ChangeOrders
  import opened AgreementRules
  import opened AgreementSteps
  import opened AgreementOutcomes
  import Actions

  predicate IsOut(s: OrderStatus) { s in {SendPending, AwaitingClient} }

  // ---------------------------------------------------------------- what a pass looks at

  function LinksOf(caps: map<nat, Capability>, o: nat): map<nat, Capability> {
    map c | c in caps && caps[c].order == o :: caps[c]
  }

  function EmailsOf(sends: map<nat, Send>, o: nat): map<nat, Send> {
    map s | s in sends && sends[s].order == o :: sends[s]
  }

  /** Nothing the sweep reads about an order differs. */
  ghost predicate SameOffer(a: Db, b: Db, o: nat) {
    && o in a.orders && o in b.orders && b.orders[o] == a.orders[o]
    && b.approvals == a.approvals && LinksOf(b.capabilities, o) == LinksOf(a.capabilities, o)
    && EmailsOf(b.sends, o) == EmailsOf(a.sends, o)
  }

  lemma SameOfferTrans(a: Db, b: Db, c: Db, o: nat)
    requires SameOffer(a, b, o) && SameOffer(b, c, o)
    ensures SameOffer(a, c, o)
  {
    hide LinksOf, EmailsOf;
  }

  /** The order's latest live review link has run out. */
  ghost predicate HasLapsed(caps: map<nat, Capability>, o: nat, now: int) {
    var c := MaxOf(LiveReviews(caps, o));
    c in LiveReviews(caps, o) && caps[c].expiresAt.Some? && caps[c].expiresAt.value <= now
  }

  /** The order's latest email has not left, a day after the freelancer's latest approval. */
  ghost predicate IsUnsent(sends: map<nat, Send>, approvals: map<ApprovalKey, Approval>, o: nat, now: int) {
    var s := MaxOf(SendsOf(sends, o));
    s in SendsOf(sends, o) && sends[s].action.state in {Actions.Ready, Actions.RetryWait} && ApprovedADayAgo(approvals, o, now)
  }

  lemma SameLinks(a: map<nat, Capability>, b: map<nat, Capability>, o: nat, now: int)
    requires LinksOf(a, o) == LinksOf(b, o)
    ensures HasLapsed(a, o, now) <==> HasLapsed(b, o, now)
  {
    hide MaxOf;
    assert forall c :: c in LiveReviews(a, o) ==> c in LinksOf(a, o) && LinksOf(a, o)[c] == a[c];
    assert forall c :: c in LiveReviews(b, o) ==> c in LinksOf(b, o) && LinksOf(b, o)[c] == b[c];
    assert LiveReviews(a, o) == LiveReviews(b, o);
  }

  lemma SameEmails(a: map<nat, Send>, b: map<nat, Send>, approvals: map<ApprovalKey, Approval>, o: nat, now: int)
    requires EmailsOf(a, o) == EmailsOf(b, o)
    ensures IsUnsent(a, approvals, o, now) <==> IsUnsent(b, approvals, o, now)
  {
    hide MaxOf, ApprovedADayAgo;
    assert forall s :: s in SendsOf(a, o) ==> s in EmailsOf(a, o) && EmailsOf(a, o)[s] == a[s];
    assert forall s :: s in SendsOf(b, o) ==> s in EmailsOf(b, o) && EmailsOf(b, o)[s] == b[s];
    assert SendsOf(a, o) == SendsOf(b, o);
  }

  // ---------------------------------------------------------------- one offer at a time

  lemma CancelOther(sends: map<nat, Send>, q: nat, o: nat)
    requires q != o
    ensures EmailsOf(CancelPendingSend(sends, q), o) == EmailsOf(sends, o)
  {
    hide MaxOf, Actions.Apply;
  }

  lemma LapseOther(db: Db, q: nat, o: nat, now: int)
    requires q != o && o in db.orders
    ensures SameOffer(db, ExpireOffer(db, q, now), o)
  {
    hide CancelPendingSend, EmailsOf, MaxOf, Moved;
    CancelOther(db.sends, q, o);
  }

  lemma RevokeOther(caps: map<nat, Capability>, q: nat, o: nat, now: int)
    requires q != o
    ensures LinksOf(Revoke(caps, q, now, false), o) == LinksOf(caps, o)
  {}

  lemma UnsentOther(db: Db, q: nat, o: nat, now: int)
    requires q != o && o in db.orders
    ensures SameOffer(db, ExpireUnsent(db, q, now), o)
  {
    hide CancelPendingSend, EmailsOf, LinksOf, Revoke, MaxOf, Moved, SendsOf, ApprovedADayAgo;
    CancelOther(db.sends, q, o);
    RevokeOther(db.capabilities, q, o, now);
  }

  /** The order is expired, one row version on, its pending email cancelled and its links revoked. */
  ghost predicate ExpiredNow(a: Db, b: Db, o: nat, now: int) {
    && o in a.orders && o in b.orders
    && b.orders[o] == a.orders[o].(status := Expired, rowVersion := a.orders[o].rowVersion + 1)
    && PendingCancelled(EmailsOf(a.sends, o), EmailsOf(b.sends, o), o)
    && LinksClosed(LinksOf(a.capabilities, o), LinksOf(b.capabilities, o), o, None, now)
  }

  lemma ExpiredAfterSame(a: Db, b: Db, c: Db, o: nat, now: int)
    ensures SameOffer(a, b, o) && ExpiredNow(b, c, o, now) ==> ExpiredNow(a, c, o, now)
    ensures ExpiredNow(a, b, o, now) && SameOffer(b, c, o) ==> ExpiredNow(a, c, o, now)
  {
    hide LinksOf, EmailsOf, PendingCancelled, LinksClosed;
  }

  lemma CancelOwn(sends: map<nat, Send>, o: nat)
    ensures PendingCancelled(EmailsOf(sends, o), EmailsOf(CancelPendingSend(sends, o), o), o)
  {
    hide CancelPendingSend;
    CancelOutcome(sends, o);
    forall s | s in EmailsOf(sends, o) ensures IsLatestSend(EmailsOf(sends, o), o, s) <==> IsLatestSend(sends, o, s) {
      assert forall t :: t in EmailsOf(sends, o) <==> t in sends && sends[t].order == o;
    }
  }

  lemma RevokeOwn(caps: map<nat, Capability>, o: nat, now: int)
    ensures LinksClosed(LinksOf(caps, o), LinksOf(Revoke(caps, o, now, false), o), o, None, now)
  {}

  /** Revoking the one review link of an order that is out revokes all its live links. */
  lemma RevokeOne(db: Db, o: nat, c: nat, now: int)
    requires Inv(db) && o in db.orders && IsOut(db.orders[o].status) && c in LiveReviews(db.capabilities, o)
    ensures var caps := db.capabilities;
            LinksClosed(LinksOf(caps, o), LinksOf(caps[c := caps[c].(revokedAt := Some(now))], o), o, None, now)
  {
    hide Inv;
    OneLink(db);
    forall d | d in db.capabilities && db.capabilities[d].order == o && IsLive(db.capabilities[d]) ensures d == c {
      LinkStage(db, d);
      assert IsLiveReview(db.capabilities[d]) && IsLiveReview(db.capabilities[c]);
    }
  }

  lemma LapseOwn(db: Db, o: nat, now: int)
    requires Inv(db) && o in db.orders
    ensures var after := ExpireOffer(db, o, now);
            if IsOut(db.orders[o].status) && HasLapsed(db.capabilities, o, now) then ExpiredNow(db, after, o, now) else after == db
  {
    hide Inv, CancelPendingSend, MaxOf, LinksClosed, PendingCancelled, EmailsOf, LinksOf;
    if IsOut(db.orders[o].status) && HasLapsed(db.capabilities, o, now) {
      RevokeOne(db, o, MaxOf(LiveReviews(db.capabilities, o)), now);
      CancelOwn(db.sends, o);
    }
  }

  lemma UnsentOwn(db: Db, o: nat, now: int)
    requires o in db.orders
    ensures var after := ExpireUnsent(db, o, now);
            if db.orders[o].status == SendPending && IsUnsent(db.sends, db.approvals, o, now) then ExpiredNow(db, after, o, now)
            else after == db
  {
    hide CancelPendingSend, Revoke, MaxOf, SendsOf, ApprovedADayAgo, LinksClosed, PendingCancelled, EmailsOf, LinksOf;
    CancelOwn(db.sends, o);
    RevokeOwn(db.capabilities, o, now);
  }

  lemma SameSelf(db: Db, o: nat)
    requires o in db.orders
    ensures SameOffer(db, db, o)
  {}

  // ---------------------------------------------------------------- the two passes

  /** The first pass expires an offer exactly if it visits it with its link run out. */
  lemma {:induction false} FirstPass(db: Db, offers: seq<nat>, o: nat, now: int)
    requires Inv(db) && o in db.orders
    ensures var after := ExpireOffers(db, offers, now);
            if o in offers && IsOut(db.orders[o].status) && HasLapsed(db.capabilities, o, now)
            then ExpiredNow(db, after, o, now) else SameOffer(db, after, o)
  {
    hide Inv, ExpireOffer, SameOffer, ExpiredNow, HasLapsed;
    if offers == [] {
      SameSelf(db, o);
    } else {
      var q, before := offers[|offers| - 1], ExpireOffers(db, offers[..|offers| - 1], now);
      var after := ExpireOffer(before, q, now);
      FirstPass(db, offers[..|offers| - 1], o, now);
      SweepKeepsInv(db, offers[..|offers| - 1], [], now);
      SameHere(db, before, o);
      ExpiredHere(db, before, o, now);
      if q != o { LapseOther(before, q, o, now); } else { LapseOwn(before, o, now); }
      if SameOffer(db, before, o) { LapsesAlike(db, before, o, now); }
      if SameOffer(db, before, o) && SameOffer(before, after, o) { SameOfferTrans(db, before, after, o); }
      ExpiredAfterSame(db, before, after, o, now);
      assert offers == offers[..|offers| - 1] + [q];
    }
  }

  lemma ExpiredHere(a: Db, b: Db, o: nat, now: int)
    ensures ExpiredNow(a, b, o, now) ==> o in a.orders && o in b.orders && b.orders[o].status == Expired
    ensures ExpiredNow(a, b, o, now) ==> b.orders[o] == a.orders[o].(status := Expired, rowVersion := a.orders[o].rowVersion + 1)
  {}

  lemma SameHere(a: Db, b: Db, o: nat)
    ensures SameOffer(a, b, o) ==> o in a.orders && o in b.orders && b.orders[o] == a.orders[o]
  {
    hide LinksOf, EmailsOf;
  }

  lemma LapsesAlike(a: Db, b: Db, o: nat, now: int)
    requires SameOffer(a, b, o)
    ensures HasLapsed(b.capabilities, o, now) <==> HasLapsed(a.capabilities, o, now)
    ensures IsUnsent(b.sends, b.approvals, o, now) <==> IsUnsent(a.sends, a.approvals, o, now)
  {
    hide LinksOf, EmailsOf, HasLapsed, IsUnsent;
    SameLinks(a.capabilities, b.capabilities, o, now);
    SameEmails(a.sends, b.sends, a.approvals, o, now);
  }

  /** The second pass expires an offer exactly if it visits it unsent. */
  lemma {:induction false} SecondPass(db: Db, unsent: seq<nat>, o: nat, now: int)
    requires o in db.orders
    ensures var after := ExpireUnsents(db, unsent, now);
            if o in unsent && db.orders[o].status == SendPending && IsUnsent(db.sends, db.approvals, o, now)
            then ExpiredNow(db, after, o, now) else SameOffer(db, after, o)
  {
    hide ExpireUnsent, SameOffer, ExpiredNow, IsUnsent;
    if unsent == [] {
      SameSelf(db, o);
    } else {
      var q, before := unsent[|unsent| - 1], ExpireUnsents(db, unsent[..|unsent| - 1], now);
      var after := ExpireUnsent(before, q, now);
      SecondPass(db, unsent[..|unsent| - 1], o, now);
      SameHere(db, before, o);
      ExpiredHere(db, before, o, now);
      if q != o { UnsentOther(before, q, o, now); } else { UnsentOwn(before, o, now); }
      if SameOffer(db, before, o) { LapsesAlike(db, before, o, now); }
      if SameOffer(db, before, o) && SameOffer(before, after, o) { SameOfferTrans(db, before, after, o); }
      ExpiredAfterSame(db, before, after, o, now);
      assert unsent == unsent[..|unsent| - 1] + [q];
    }
  }

  // ---------------------------------------------------------------- the sweep

  /** The order's one live review link has run out. */
  ghost predicate LinkRanOut(caps: map<nat, Capability>, o: nat, now: int) {
    exists c :: c in caps && caps[c].order == o && IsLiveReview(caps[c]) && caps[c].expiresAt.Some? && caps[c].expiresAt.value <= now
  }

  lemma TheOneLink(caps: map<nat, Capability>, o: nat, now: int)
    requires OneReview(caps)
    ensures HasLapsed(caps, o, now) <==> LinkRanOut(caps, o, now)
  {
    if LinkRanOut(caps, o, now) {
      var c :| c in caps && caps[c].order == o && IsLiveReview(caps[c]) && caps[c].expiresAt.Some? && caps[c].expiresAt.value <= now;
      MaxIs(LiveReviews(caps, o), c);
    }
    if HasLapsed(caps, o, now) { assert IsLiveReview(caps[MaxOf(LiveReviews(caps, o))]); }
  }

  /** The freelancer's approval of the order's newest approved revision. */
  ghost predicate IsLatestApproval(approvals: map<ApprovalKey, Approval>, o: nat, r: nat) {
    && ApprovalKey(r, Freelancer, Approved) in approvals && approvals[ApprovalKey(r, Freelancer, Approved)].order == o
    && forall q: nat :: ApprovalKey(q, Freelancer, Approved) in approvals && approvals[ApprovalKey(q, Freelancer, Approved)].order == o ==> q <= r
  }

  /** The order's latest email still waits, a day after that approval. */
  ghost predicate NotSentForADay(db: Db, o: nat, now: int) {
    && (exists s :: IsLatestSend(db.sends, o, s) && db.sends[s].action.state in {Actions.Ready, Actions.RetryWait})
    && (exists r :: IsLatestApproval(db.approvals, o, r) && db.approvals[ApprovalKey(r, Freelancer, Approved)].createdAt + 86400 <= now)
  }

  lemma UnsentMeans(db: Db, o: nat, now: int)
    ensures IsUnsent(db.sends, db.approvals, o, now) <==> NotSentForADay(db, o, now)
  {
    hide MaxOf, SendsOf, ApprovedADayAgo, IsLatestSend, IsLatestApproval;
    LatestIsMax(db.sends, o);
    ApprovalMeans(db.approvals, o, now);
  }

  lemma ApprovalMeans(approvals: map<ApprovalKey, Approval>, o: nat, now: int)
    ensures ApprovedADayAgo(approvals, o, now) <==>
              exists r :: IsLatestApproval(approvals, o, r) && approvals[ApprovalKey(r, Freelancer, Approved)].createdAt + 86400 <= now
  {
    if ApprovedADayAgo(approvals, o, now) {
      var k :| k in approvals && approvals[k].order == o && k.actor == Freelancer && k.decision == Approved
        && (forall j :: j in approvals && approvals[j].order == o && j.actor == Freelancer && j.decision == Approved ==> j.revision <= k.revision)
        && approvals[k].createdAt + DAY <= now;
      assert k == ApprovalKey(k.revision, Freelancer, Approved);
      assert IsLatestApproval(approvals, o, k.revision);
    }
    if r :| IsLatestApproval(approvals, o, r) && approvals[ApprovalKey(r, Freelancer, Approved)].createdAt + 86400 <= now {
      var k := ApprovalKey(r, Freelancer, Approved);
      forall j | j in approvals && approvals[j].order == o && j.actor == Freelancer && j.decision == Approved ensures j.revision <= k.revision {
        assert j == ApprovalKey(j.revision, Freelancer, Approved);
      }
    }
  }

  /** The whole sweep, with the rows each pass reads in any order: an offer that was out expires
      exactly if its live review link has run out, or if its email has not left a day after the
      approval; that revokes its links and cancels its email. Any other order is as it was. */
  lemma SweepExpiresIff(db: Db, offers: seq<nat>, unsent: seq<nat>, o: nat, now: int)
    requires Inv(db) && o in db.orders
    requires forall q :: q in offers <==> q in db.orders && IsOut(db.orders[q].status)
    requires var swept := ExpireOffers(db, offers, now);
             forall q :: q in unsent <==> q in swept.orders && swept.orders[q].status == SendPending
    ensures var after := ExpireUnsents(ExpireOffers(db, offers, now), unsent, now);
            if db.orders[o].status in {SendPending, AwaitingClient}
               && (LinkRanOut(db.capabilities, o, now) || (db.orders[o].status == SendPending && NotSentForADay(db, o, now)))
            then ExpiredNow(db, after, o, now) else SameOffer(db, after, o)
  {
    hide Inv, ExpireOffers, ExpireUnsents, SameOffer, ExpiredNow, HasLapsed, IsUnsent, LinkRanOut, NotSentForADay;
    var swept := ExpireOffers(db, offers, now);
    var after := ExpireUnsents(swept, unsent, now);
    OneLink(db);
    TheOneLink(db.capabilities, o, now);
    UnsentMeans(db, o, now);
    FirstPass(db, offers, o, now);
    SameHere(db, swept, o);
    ExpiredHere(db, swept, o, now);
    SecondPass(swept, unsent, o, now);
    ExpiredAfterSame(db, swept, after, o, now);
    if SameOffer(db, swept, o) {
      LapsesAlike(db, swept, o, now);
      if SameOffer(swept, after, o) { SameOfferTrans(db, swept, after, o); }
    }
  }

  lemma OneLink(db: Db)
    requires Inv(db)
    ensures OneReview(db.capabilities)
  {
    hide OneReview;
  }
}
