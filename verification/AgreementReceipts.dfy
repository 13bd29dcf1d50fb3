/** Client sessions, and what an acceptance leaves behind in every table: one agreement, one
    receipt link and one session that opens it. */
module AgreementReceipts {
  import opened Common
  import opened ChangeOrders
  import opened AgreementRules
  import opened AgreementSteps
  import opened AgreementOutcomes
  import Actions

  // ---------------------------------------------------------------- sessions

  /** Exactly one session is new: on link c, with this token, for a day. */
  ghost predicate SessionOpened(a: map<nat, Session>, b: map<nat, Session>, s: nat, c: nat, csrf: nat, now: int) {
    s !in a && b == a[s := Session(c, csrf, now + 86400, None)]
  }

  /** Nothing but that changed. */
  ghost predicate SessionAdded(a: Db, b: Db, c: nat, csrf: nat, now: int) {
    SessionOpened(a.sessions, b.sessions, a.nextId, c, csrf, now) && b == a.(sessions := b.sessions, nextId := a.nextId + 1)
  }

  lemma SessionOutcome(db: Db, csrf: nat, now: int)
    requires Inv(db)
    ensures forall c :: SessionAdded(db, OpenSession(db, c, csrf, now), c, csrf, now)
  {
    hide Inv;
    FreshIds(db);
  }

  lemma FreshIds(db: Db)
    requires Inv(db)
    ensures forall n :: n >= db.nextId ==> n !in db.sessions && n !in db.capabilities
  {}

  predicate IsReceiptOf(cap: Capability, o: nat, r: nat) {
    cap.order == o && cap.revision == r && cap.purpose == Receipt && cap.revokedAt.None?
  }

  /** The newest unrevoked receipt link of a revision. */
  ghost predicate IsLatestReceipt(caps: map<nat, Capability>, o: nat, r: nat, k: nat) {
    k in caps && IsReceiptOf(caps[k], o, r) && forall j :: j in caps && IsReceiptOf(caps[j], o, r) ==> j <= k
  }

  lemma ReceiptIsMax(caps: map<nat, Capability>, o: nat, r: nat)
    ensures forall k :: IsLatestReceipt(caps, o, r, k) <==> k in ReceiptsFor(caps, o, r) && k == MaxOf(ReceiptsFor(caps, o, r))
    ensures forall k :: k in ReceiptsFor(caps, o, r) ==> k in caps && IsReceiptOf(caps[k], o, r)
  {
    forall k ensures IsLatestReceipt(caps, o, r, k) <==> k in ReceiptsFor(caps, o, r) && k == MaxOf(ReceiptsFor(caps, o, r)) {
      assert forall j :: j in ReceiptsFor(caps, o, r) <==> j in caps && IsReceiptOf(caps[j], o, r);
      if IsLatestReceipt(caps, o, r, k) { MaxIs(ReceiptsFor(caps, o, r), k); }
    }
  }

  /** The link may be read at this time. */
  predicate IsActive(cap: Capability, now: int) {
    cap.revokedAt.None? && cap.activatedAt.Some? && cap.expiresAt.Some? && now < cap.expiresAt.value
  }

  /** The link a token exchange opens: the review link itself until it is spent, then the newest
      receipt of the approved order while that lasts. */
  ghost predicate Opens(db: Db, c: nat, k: nat, now: int) {
    && c in db.capabilities && db.capabilities[c].purpose == Review && IsActive(db.capabilities[c], now)
    && if db.capabilities[c].consumedAt.None? then k == c
       else
         && db.capabilities[c].order in db.orders && db.orders[db.capabilities[c].order].status == ClientApproved
         && IsLatestReceipt(db.capabilities, db.capabilities[c].order, db.capabilities[c].revision, k)
         && db.capabilities[k].expiresAt.Some? && now < db.capabilities[k].expiresAt.value
  }

  /** A token is exchanged exactly if it opens a link, and then for a session on that link. */
  lemma ExchangeIff(db: Db, c: nat, csrf: nat, now: int)
    requires Inv(db)
    ensures var reply := Exchange(db, c, csrf, now);
            && (reply.error.None? <==> exists k :: Opens(db, c, k, now))
            && (reply.error.None? ==> exists k :: Opens(db, c, k, now) && SessionAdded(db, reply.db, k, csrf, now))
            && (reply.error.Some? ==> reply == Reply(db, Some(Invalid)))
  {
    hide Inv, ReceiptsFor, MaxOf, IsLatestReceipt, OpenSession;
    SessionOutcome(db, csrf, now);
    if c in db.capabilities {
      var cap := db.capabilities[c];
      ReceiptIsMax(db.capabilities, cap.order, cap.revision);
      var k := if cap.consumedAt.None? then c else MaxOf(ReceiptsFor(db.capabilities, cap.order, cap.revision));
      assert Exchange(db, c, csrf, now).error.None? ==> Opens(db, c, k, now);
    }
  }

  /** A live session is exchanged for a new one on the same link; the old one is revoked. */
  lemma RefreshIff(db: Db, s: nat, csrf: nat, now: int)
    requires Inv(db)
    ensures var reply := Refresh(db, s, csrf, now);
            && (reply.error.None? <==> s in db.sessions && SpeaksFor(db, s, db.sessions[s].csrf, now, db.sessions[s].capability))
            && (reply.error.None? ==> SessionAdded(db.(sessions := db.sessions[s := db.sessions[s].(revokedAt := Some(now))]), reply.db,
                                                   db.sessions[s].capability, csrf, now))
            && (reply.error.Some? ==> reply == Reply(db, Some(Invalid)))
  {
    hide Inv, SpeaksFor;
    if s in db.sessions {
      ScopeIsSession(db, s, db.sessions[s].csrf, now);
      FreshIds(db);
    }
  }

  // ---------------------------------------------------------------- what an agreement writes

  /** An email of the revision that is out with no answer is confirmed by the acceptance. */
  predicate EmailConfirmed(a: map<nat, Send>, b: map<nat, Send>, o: nat, r: nat) {
    && b.Keys == a.Keys
    && forall s :: s in a ==>
         b[s] == if a[s].order == o && a[s].revision == r && a[s].action.state in {Actions.Dispatching, Actions.UnknownOutcome}
                 then a[s].(action := Actions.Action(Actions.ReceiptConfirmed, a[s].action.attempts)) else a[s]
  }

  /** The project moves on to a new version, the child of the offer's baseline with its items. */
  ghost predicate ScopeExtended(a: Db, b: Db, p: nat, r: nat, baseline: ScopeKey) {
    && p in a.projects
    && var next := ScopeKey(p, baseline.number + 1);
    && next !in a.versions && b.versions == a.versions[next := ScopeVersion(Some(baseline), Some(r))]
    && b.projects == a.projects[p := a.projects[p].(current := Some(next))]
    && (forall l :: l in b.links <==> l in a.links || (l.0 == next && (baseline, l.1) in a.links))
    && r !in a.amendments && b.amendments == a.amendments[r := Amendment(p, baseline, next)]
  }

  /** One payment request and one revenue fact with the revision's own amounts. */
  predicate MoneyBooked(a: Db, b: Db, p: nat, o: nat, r: nat, revision: Revision) {
    && r !in a.payments && r !in a.facts && r in b.payments
    && b.payments == a.payments[r := Payment(b.payments[r].id, p, revision.total, revision.tax)]
    && b.facts == a.facts[r := Fact(p, o, revision.total, revision.tax)]
  }

  /** A receipt for thirty days, on which the returned session speaks. */
  ghost predicate ReceiptIssued(a: Db, caps: map<nat, Capability>, b: Db, o: nat, r: nat, csrf: nat, now: int) {
    exists k, s ::
      && k !in a.capabilities && b.capabilities == caps[k := Capability(o, r, Receipt, Some(now), Some(now + 30 * 86400), None, None)]
      && SessionOpened(a.sessions, b.sessions, s, k, csrf, now)
  }

  /** The client's first acceptance on link c. */
  ghost predicate Agreed(a: Db, b: Db, c: nat, key: string, csrf: nat, now: int) {
    && Acceptable(a, c)
    && var o, r := a.capabilities[c].order, a.capabilities[c].revision;
    && var p, revision := a.orders[o].project, a.revisions[r];
    && OrderMoved(a, b, o, ClientApproved)
    && RequestMoved(a, b, o, Resolved)
    && ApprovalAdded(a, b, ApprovalKey(r, Client, Approved), Approval(o, revision.hash, Some(key), now))
    && EmailConfirmed(a.sends, b.sends, o, r)
    && ScopeExtended(a, b, p, r, revision.baseline)
    && MoneyBooked(a, b, p, o, r, revision)
    && ReceiptIssued(a, a.capabilities[c := a.capabilities[c].(consumedAt := Some(now), expiresAt := Some(now + 30 * 86400))], b, o, r, csrf, now)
    && b.revisions == a.revisions && b.items == a.items && b.candidates == a.candidates
  }

  lemma ConfirmOutcome(db: Db, o: nat, r: nat)
    requires SendsOk(db.revisions, db.approvals, db.sends)
    ensures EmailConfirmed(db.sends, ConfirmByReceipt(db.sends, o, r), o, r)
  {
    var found := SendsFor(db.sends, o, r);
    forall s | s in db.sends && db.sends[s].order == o && db.sends[s].revision == r ensures s == MaxOf(found) && s in found {
      assert s in found;
      assert MaxOf(found) in found;
    }
  }

  lemma VersionOutcome(db: Db, b: Db, p: nat, o: nat, r: nat, c: nat)
    requires Inv(db) && Ready(db, c) && o == db.capabilities[c].order && r == db.capabilities[c].revision && p == db.orders[o].project
    requires var next := NextVersion(db.versions, db.revisions[r].baseline, p);
             && b.versions == db.versions[next := ScopeVersion(Some(db.revisions[r].baseline), Some(r))]
             && b.projects == db.projects[p := db.projects[p].(current := Some(next))]
             && b.links == CopyLinks(db.links, db.revisions[r].baseline, next)
             && b.amendments == db.amendments[r := Amendment(p, db.revisions[r].baseline, next)]
    ensures ScopeExtended(db, b, p, r, db.revisions[r].baseline)
  {
    hide Inv, NextVersion;
    NextIsFresh(db, c);
    NoDealYet(db, c);
    var baseline := db.revisions[r].baseline;
    var next := NextVersion(db.versions, baseline, p);
    forall l: (ScopeKey, nat) ensures l in b.links <==> l in db.links || (l.0 == next && (baseline, l.1) in db.links) {
      assert l in NewLinks(next, ItemsOf(db.links, baseline)) <==> l.0 == next && l.1 in ItemsOf(db.links, baseline);
      assert l.1 in ItemsOf(db.links, baseline) <==> (baseline, l.1) in db.links;
    }
  }

  lemma BookOutcome(db: Db, c: nat, key: string, now: int)
    requires Inv(db) && Ready(db, c)
    ensures var b := Book(db, c, key, now);
            var o, r := db.capabilities[c].order, db.capabilities[c].revision;
            var p, revision := db.orders[o].project, db.revisions[r];
            && OrderMoved(db, b, o, ClientApproved) && b.requests == db.requests
            && ApprovalAdded(db, b, ApprovalKey(r, Client, Approved), Approval(o, revision.hash, Some(key), now))
            && EmailConfirmed(db.sends, b.sends, o, r)
            && ScopeExtended(db, b, p, r, revision.baseline)
            && MoneyBooked(db, b, p, o, r, revision)
            && b.capabilities == db.capabilities[c := db.capabilities[c].(consumedAt := Some(now), expiresAt := Some(now + 30 * 86400))]
            && b.sessions == db.sessions && b.nextId == db.nextId + 1
            && b.revisions == db.revisions && b.items == db.items && b.candidates == db.candidates
  {
    hide Inv, NextVersion, ConfirmByReceipt, CopyLinks, ScopeExtended, EmailConfirmed;
    var o, r := db.capabilities[c].order, db.capabilities[c].revision;
    NoDealYet(db, c);
    SendRules(db);
    ConfirmOutcome(db, o, r);
    VersionOutcome(db, Book(db, c, key, now), db.orders[o].project, o, r, c);
  }

  lemma SameScope(a: Db, b: Db, b': Db, p: nat, r: nat, baseline: ScopeKey)
    requires ScopeExtended(a, b, p, r, baseline)
    ensures b'.versions == b.versions && b'.projects == b.projects && b'.links == b.links && b'.amendments == b.amendments ==>
              ScopeExtended(a, b', p, r, baseline)
  {}

  lemma SendRules(db: Db)
    requires Inv(db)
    ensures SendsOk(db.revisions, db.approvals, db.sends)
  {
    hide SendsOk;
  }

  lemma AgreeOutcome(db: Db, c: nat, key: string, csrf: nat, now: int)
    requires Inv(db) && Ready(db, c)
    ensures Agreed(db, Agree(db, c, key, csrf, now), c, key, csrf, now)
  {
    hide Inv, Book, EmailConfirmed, ScopeExtended, WithRequest, IssueReceipt;
    BookOutcome(db, c, key, now);
    FreshIds(db);
    var booked := Book(db, c, key, now);
    var o, r := db.capabilities[c].order, db.capabilities[c].revision;
    var resolved := WithRequest(booked, db.orders[o].request, Resolved);
    RequestOutcome(booked, db.orders[o].request, Resolved);
    IssueWrites(resolved, c, csrf, now);
    var b := Agree(db, c, key, csrf, now);
    SameScope(db, booked, b, db.orders[o].project, r, db.revisions[r].baseline);
    assert SessionOpened(db.sessions, b.sessions, booked.nextId + 1, booked.nextId, csrf, now);
  }

  lemma IssueWrites(db: Db, c: nat, csrf: nat, now: int)
    requires c in db.capabilities
    ensures var receipt := Capability(db.capabilities[c].order, db.capabilities[c].revision, Receipt, Some(now), Some(now + 30 * 86400), None, None);
            IssueReceipt(db, c, csrf, now)
              == db.(capabilities := db.capabilities[db.nextId := receipt],
                     sessions := db.sessions[db.nextId + 1 := Session(db.nextId, csrf, now + 86400, None)], nextId := db.nextId + 2)
  {}

  // ---------------------------------------------------------------- the acceptance

  /** The session speaks for the offer as the caller read it, and the call carries a key. */
  predicate IsOffer(db: Db, s: nat, csrf: nat, o: nat, r: nat, hash: Artifact, key: string, now: int) {
    && s in db.sessions && SpeaksFor(db, s, csrf, now, db.sessions[s].capability)
    && db.capabilities[db.sessions[s].capability].order == o && db.capabilities[db.sessions[s].capability].revision == r
    && r in db.revisions && db.revisions[r].hash == hash && key != ""
  }

  /** The client is asked, or the email is out and its answer has not come. */
  ghost predicate IsOut(db: Db, o: nat, r: nat)
    requires o in db.orders
  {
    || db.orders[o].status == AwaitingClient
    || (db.orders[o].status == SendPending
        && exists s :: s in db.sends && db.sends[s].order == o && db.sends[s].revision == r
                       && db.sends[s].action.state in {Actions.Dispatching, Actions.UnknownOutcome})
  }

  ghost predicate ClientMayAccept(db: Db, s: nat, csrf: nat, o: nat, expected: nat, r: nat, hash: Artifact, key: string, linkReady: bool, now: int) {
    && IsOffer(db, s, csrf, o, r, hash, key, now)
    && db.capabilities[db.sessions[s].capability].consumedAt.None?
    && o in db.orders && db.orders[o].rowVersion == expected && IsOut(db, o, r)
    && db.orders[o].project in db.projects && db.projects[db.orders[o].project].current == Some(db.revisions[r].baseline)
    && linkReady
  }

  predicate ClientMayRepeat(db: Db, s: nat, csrf: nat, o: nat, r: nat, hash: Artifact, key: string, now: int) {
    && IsOffer(db, s, csrf, o, r, hash, key, now)
    && db.capabilities[db.sessions[s].capability].consumedAt.Some?
    && ApprovalKey(r, Client, Approved) in db.approvals && db.approvals[ApprovalKey(r, Client, Approved)].idempotencyKey == Some(key)
  }

  /** A repetition opens the newest receipt again, or issues one if there is none. */
  ghost predicate Reopened(a: Db, b: Db, o: nat, r: nat, csrf: nat, now: int) {
    if exists k :: IsLatestReceipt(a.capabilities, o, r, k)
    then exists k :: IsLatestReceipt(a.capabilities, o, r, k) && SessionAdded(a, b, k, csrf, now)
    else ReceiptIssued(a, a.capabilities, b, o, r, csrf, now) && b == a.(capabilities := b.capabilities, sessions := b.sessions, nextId := b.nextId)
  }

  lemma OutIsMay(db: Db, o: nat, r: nat)
    requires SendsOk(db.revisions, db.approvals, db.sends) && o in db.orders
    ensures MayAccept(db, o, r) <==> IsOut(db, o, r)
    ensures IsOut(db, o, r) ==> db.orders[o].status in {SendPending, AwaitingClient}
  {
    var found := SendsFor(db.sends, o, r);
    forall s | s in db.sends && db.sends[s].order == o && db.sends[s].revision == r ensures s == MaxOf(found) && s in found {
      assert s in found;
      assert MaxOf(found) in found;
    }
  }

  lemma ReopenOutcome(db: Db, c: nat, csrf: nat, now: int)
    requires Inv(db) && c in db.capabilities
    ensures Reopened(db, ReopenReceipt(db, c, csrf, now), db.capabilities[c].order, db.capabilities[c].revision, csrf, now)
  {
    hide Inv, IsLatestReceipt, ReceiptsFor, MaxOf, OpenSession;
    var o, r := db.capabilities[c].order, db.capabilities[c].revision;
    ReceiptIsMax(db.capabilities, o, r);
    SessionOutcome(db, csrf, now);
    IssueOutcome(db, c, csrf, now);
  }

  lemma IssueOutcome(db: Db, c: nat, csrf: nat, now: int)
    requires Inv(db) && c in db.capabilities
    ensures var b := IssueReceipt(db, c, csrf, now);
            && ReceiptIssued(db, db.capabilities, b, db.capabilities[c].order, db.capabilities[c].revision, csrf, now)
            && b == db.(capabilities := b.capabilities, sessions := b.sessions, nextId := b.nextId)
  {
    hide Inv, IssueReceipt;
    FreshIds(db);
    IssueWrites(db, c, csrf, now);
    assert SessionOpened(db.sessions, IssueReceipt(db, c, csrf, now).sessions, db.nextId + 1, db.nextId, csrf, now);
  }

  /** On an approved order only the acceptance can have answered, and it was paid for. */
  lemma OnlyAnswer(db: Db, c: nat, key: string)
    requires Inv(db) && c in db.capabilities && IsLive(db.capabilities[c]) && db.capabilities[c].consumedAt.Some?
    ensures var r := db.capabilities[c].revision; var k := ApprovalKey(r, Client, Approved);
            && r in db.payments
            && (PriorAnswer(db.approvals, r, key) <==> k in db.approvals && db.approvals[k].idempotencyKey == Some(key))
  {
    hide IdsOk, ScopeOk, SealedOk, OneReview, SendsOk, RevisionsOk;
    LinkStage(db, c);
    ScopeIsCurrent(db, c);
    var r := db.capabilities[c].revision;
    forall d | ApprovalKey(r, Client, d) in db.approvals ensures d == Approved {
      assert Allowed(db.orders[db.capabilities[c].order].status, Client, d);
    }
  }

  /** The whole answer of an accept call, and everything it writes: a first acceptance under its
      condition, a repetition of it under its own, and nothing otherwise. */
  lemma AcceptanceIff(db: Db, s: nat, csrf: nat, o: nat, expected: nat, r: nat, hash: Artifact, key: string,
                      linkReady: bool, csrf': nat, now: int)
    requires Inv(db)
    ensures var reply := AcceptClient(db, s, csrf, o, expected, r, hash, key, linkReady, csrf', now);
            && (reply.error.None? <==>
                  || ClientMayAccept(db, s, csrf, o, expected, r, hash, key, linkReady, now)
                  || ClientMayRepeat(db, s, csrf, o, r, hash, key, now))
            && (ClientMayAccept(db, s, csrf, o, expected, r, hash, key, linkReady, now) ==>
                  Agreed(db, reply.db, db.sessions[s].capability, key, csrf', now))
            && (ClientMayRepeat(db, s, csrf, o, r, hash, key, now) ==> Reopened(db, reply.db, o, r, csrf', now))
            && (reply.error.Some? ==> reply.db == db && reply.error.value in {Invalid, Conflict})
            && (reply.error == Some(Invalid) <==>
                  || !(s in db.sessions && SpeaksFor(db, s, csrf, now, db.sessions[s].capability))
                  || (key == "" && IsOffer(db, s, csrf, o, r, hash, "key", now)))
  {
    hide Inv, Agree, ReopenReceipt, IssueReceipt, PriorAnswer, SessionScope, SpeaksFor, Agreed, Reopened, MayAccept, IsOut;
    ScopeIsSession(db, s, csrf, now);
    var scope := SessionScope(db, s, Some(csrf), now);
    if scope.Some? {
      var c := scope.value;
      SessionKnows(db, s, csrf, now, c);
      ScopeIsCurrent(db, c);
      LinkStage(db, c);
      NoClientAnswer(db, db.capabilities[c].order, Approved);
      SendRules(db);
      OutIsMay(db, db.capabilities[c].order, db.capabilities[c].revision);
      if db.capabilities[c].consumedAt.Some? {
        OnlyAnswer(db, c, key);
        ReopenOutcome(db, c, csrf', now);
      } else {
        FirstAnswer(db, c, key, csrf', now);
      }
    }
  }

  lemma FirstAnswer(db: Db, c: nat, key: string, csrf: nat, now: int)
    requires Inv(db) && c in db.capabilities
    ensures Ready(db, c) ==> Agreed(db, Agree(db, c, key, csrf, now), c, key, csrf, now)
    ensures Ready(db, c) ==>
              var r := db.capabilities[c].revision;
              && r !in db.payments && r !in db.facts && r !in db.amendments && ApprovalKey(r, Client, Approved) !in db.approvals
              && db.revisions[r].baseline in db.versions
  {
    hide Inv, Agree, Agreed;
    if Ready(db, c) {
      NoDealYet(db, c);
      NextIsFresh(db, c);
      AgreeOutcome(db, c, key, csrf, now);
    }
  }

  /** The new session reads the receipt of the accepted revision for exactly a day. */
  ghost predicate ReadsReceipt(a: Db, b: Db, n: nat, o: nat, r: nat, csrf: nat, now: int) {
    && n !in a.sessions && n in b.sessions && b.sessions[n].csrf == csrf
    && forall t :: ViewReceipt(b, n, t) == if t < now + 86400 then Some((o, r)) else None
  }

  lemma ReceiptIsRead(a: Db, b: Db, n: nat, k: nat, o: nat, r: nat, csrf: nat, now: int)
    requires SessionOpened(a.sessions, b.sessions, n, k, csrf, now) && k in b.capabilities && IsReceiptOf(b.capabilities[k], o, r)
    requires o in b.orders && b.orders[o].status == ClientApproved && r in b.revisions
    ensures ReadsReceipt(a, b, n, o, r, csrf, now)
  {}

  /** Whoever accepts, or repeats an acceptance, gets a session that reads that receipt. */
  lemma ReceiptOpensForADay(db: Db, s: nat, csrf: nat, o: nat, expected: nat, r: nat, hash: Artifact, key: string,
                            linkReady: bool, csrf': nat, now: int)
    requires Inv(db) && AcceptClient(db, s, csrf, o, expected, r, hash, key, linkReady, csrf', now).error.None?
    ensures exists n :: ReadsReceipt(db, AcceptClient(db, s, csrf, o, expected, r, hash, key, linkReady, csrf', now).db, n, o, r, csrf', now)
  {
    hide Inv, AcceptClient, ReadsReceipt, IsOut, ScopeExtended, MoneyBooked, EmailConfirmed;
    AcceptanceIff(db, s, csrf, o, expected, r, hash, key, linkReady, csrf', now);
    var b := AcceptClient(db, s, csrf, o, expected, r, hash, key, linkReady, csrf', now).db;
    var c := db.sessions[s].capability;
    ScopeIsCurrent(db, c);
    if db.capabilities[c].consumedAt.None? {
      IssuedIsRead(db, b, db.capabilities[c := db.capabilities[c].(consumedAt := Some(now), expiresAt := Some(now + 30 * 86400))], o, r, csrf', now);
    } else {
      LinkStage(db, c);
      ReopenedIsRead(db, b, o, r, csrf', now);
    }
  }

  lemma IssuedIsRead(a: Db, b: Db, caps: map<nat, Capability>, o: nat, r: nat, csrf: nat, now: int)
    requires ReceiptIssued(a, caps, b, o, r, csrf, now)
    requires o in b.orders && b.orders[o].status == ClientApproved && r in b.revisions
    ensures exists n :: ReadsReceipt(a, b, n, o, r, csrf, now)
  {
    hide ReadsReceipt;
    var k, n :|
      && k !in a.capabilities && b.capabilities == caps[k := Capability(o, r, Receipt, Some(now), Some(now + 30 * 86400), None, None)]
      && SessionOpened(a.sessions, b.sessions, n, k, csrf, now);
    ReceiptIsRead(a, b, n, k, o, r, csrf, now);
  }

  lemma ReopenedIsRead(a: Db, b: Db, o: nat, r: nat, csrf: nat, now: int)
    requires Reopened(a, b, o, r, csrf, now)
    requires o in a.orders && a.orders[o].status == ClientApproved && r in a.revisions
    ensures exists n :: ReadsReceipt(a, b, n, o, r, csrf, now)
  {
    hide ReadsReceipt;
    if exists k :: IsLatestReceipt(a.capabilities, o, r, k) {
      var k :| IsLatestReceipt(a.capabilities, o, r, k) && SessionAdded(a, b, k, csrf, now);
      ReceiptIsRead(a, b, a.nextId, k, o, r, csrf, now);
    } else {
      IssuedIsRead(a, b, a.capabilities, o, r, csrf, now);
    }
  }
}
