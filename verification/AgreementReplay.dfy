/** Repeated acceptance: recorded answers, deals and scope versions are never rewritten, so a
    repeated accept call is answered from the first one's rows and adds none of its own. */
module AgreementReplay {
  import opened Common
  import opened ChangeOrders
  import opened AgreementRules
  import opened AgreementSteps
  import opened AgreementRuns
  import opened AgreementStamps
  import Actions

  // ---------------------------------------------------------------- append-only tables

  ghost predicate Kept<K, V>(a: map<K, V>, b: map<K, V>) {
    forall k :: k in a ==> k in b && b[k] == a[k]
  }

  datatype Ledger = Ledger(approvals: map<ApprovalKey, Approval>, payments: map<nat, Payment>, facts: map<nat, Fact>,
                           amendments: map<nat, Amendment>, versions: map<ScopeKey, ScopeVersion>)

  function LedgerOf(db: Db): Ledger { Ledger(db.approvals, db.payments, db.facts, db.amendments, db.versions) }

  ghost predicate Extends(a: Ledger, b: Ledger) {
    && Kept(a.approvals, b.approvals) && Kept(a.payments, b.payments) && Kept(a.facts, b.facts)
    && Kept(a.amendments, b.amendments) && Kept(a.versions, b.versions)
  }

  lemma ExtendsTrans(a: Ledger, b: Ledger, c: Ledger)
    requires Extends(a, b) && Extends(b, c)
    ensures Extends(a, c)
  {}

  lemma ExtendsSelf(a: Ledger)
    ensures Extends(a, a)
  {}

  lemma AnswerExtends(a: Ledger, k: ApprovalKey, row: Approval)
    requires k !in a.approvals
    ensures Extends(a, a.(approvals := a.approvals[k := row]))
  {}

  lemma DealExtends(a: Ledger, k: ApprovalKey, row: Approval, r: nat, p: Payment, f: Fact, m: Amendment, v: ScopeKey, version: ScopeVersion)
    requires k !in a.approvals && r !in a.payments && r !in a.facts && r !in a.amendments && v !in a.versions
    ensures Extends(a, Ledger(a.approvals[k := row], a.payments[r := p], a.facts[r := f], a.amendments[r := m], a.versions[v := version]))
  {}

  lemma VersionExtends(a: Ledger, v: ScopeKey, version: ScopeVersion)
    requires v !in a.versions
    ensures Extends(a, a.(versions := a.versions[v := version]))
  {}

  // ---------------------------------------------------------------- commands that leave them alone

  lemma RetireKeeps(db: Db, o: nat, now: int)
    requires o in db.orders && (db.orders[o].current.Some? ==> db.orders[o].current.value in db.revisions)
    ensures LedgerOf(Retired(db, o, now)) == LedgerOf(db)
  {
    hide Revoke;
  }

  lemma AddKeeps(db: Db, o: nat, order: Order, revision: Revision)
    ensures LedgerOf(WithRevision(db, o, order, revision)) == LedgerOf(db)
  {}

  lemma InstallKeeps(db: Db, o: nat, artifact: Artifact, now: int)
    requires o in db.orders && (db.orders[o].current.Some? ==> db.orders[o].current.value in db.revisions)
    ensures LedgerOf(InstallRevision(db, o, artifact, now)) == LedgerOf(db)
  {
    hide Retired, WithRevision, Drafted, LedgerOf;
    var order := db.orders[o];
    var number := if order.current.Some? then db.revisions[order.current.value].number + 1 else 1;
    RetireKeeps(db, o, now);
    AddKeeps(Retired(db, o, now), o, order, Drafted(o, order.project, number, artifact));
  }

  lemma NewRevisionKeeps(db: Db, o: nat, contact: nat, content: Content, now: int)
    requires o in db.orders
    ensures LedgerOf(NewRevision(db, o, contact, content, now).db) == LedgerOf(db)
  {
    hide InstallRevision, Complete, LedgerOf;
    var order := db.orders[o];
    if NewRevision(db, o, contact, content, now).error.None? {
      InstallKeeps(db, o, Artifact(db.projects[order.project].current.value, db.requests[order.request].version, contact, content), now);
    }
  }

  lemma RequestKeeps(db: Db, q: nat, s: RequestStatus)
    ensures LedgerOf(WithRequest(db, q, s)) == LedgerOf(db)
  {}

  lemma DraftKeeps(db: Db, p: nat, q: nat)
    ensures LedgerOf(WithDraft(db, p, q)) == LedgerOf(db)
  {}

  lemma ProposeKeeps(db: Db, before: Db, o: nat, p: Proposal, now: int)
    requires o in db.orders && p.contact.Some? && p.draft.Some?
    requires LedgerOf(db) == LedgerOf(before)
    ensures LedgerOf(Propose(db, before, o, p, now).db) == LedgerOf(db)
  {
    hide NewRevision, WithRequest, LedgerOf;
    NewRevisionKeeps(db, o, p.contact.value, p.draft.value, now);
    RequestKeeps(NewRevision(db, o, p.contact.value, p.draft.value, now).db, p.request, ProposalOpen);
  }

  lemma AssembleKeeps(db: Db, p: Proposal, pick: nat, now: int)
    ensures LedgerOf(Assemble(db, p, pick, now).db) == LedgerOf(db)
  {
    hide Propose, LedgerOf;
    if AssemblyFault(db, p).None? {
      DraftKeeps(db, p.project, p.request);
      if Matches(db.orders, p.project, p.request) == {} {
        ProposeKeeps(WithDraft(db, p.project, p.request), db, db.nextId, p, now);
      } else if pick in Matches(db.orders, p.project, p.request) {
        ProposeKeeps(db, db, pick, p, now);
      }
    }
  }

  lemma ReviseKeeps(db: Db, o: nat, edits: Edits, now: int)
    ensures LedgerOf(CreateRevision(db, o, edits, now).db) == LedgerOf(db)
  {
    hide NewRevision, LedgerOf, Edited;
    if o in db.orders && HasCurrent(db.orders, db.revisions, o) {
      var current := db.revisions[db.orders[o].current.value];
      NewRevisionKeeps(db, o, current.contact, Edited(current.content, edits), now);
    }
  }

  lemma WithdrawKeeps(db: Db, o: nat, now: int)
    ensures LedgerOf(Withdraw(db, o, now).db) == LedgerOf(db)
  {
    hide WithRequest, SendsOf, CancelPendingSend, Revoke, Moved, MaxOf;
    RequestsKeep();
  }

  lemma RequestsKeep()
    ensures forall db: Db, q: nat, s: RequestStatus :: LedgerOf(WithRequest(db, q, s)) == LedgerOf(db)
  {
    forall db: Db, q: nat, s: RequestStatus ensures LedgerOf(WithRequest(db, q, s)) == LedgerOf(db) {
      RequestKeeps(db, q, s);
    }
  }

  lemma OpenSessionKeeps()
    ensures forall db: Db, c: nat, csrf: nat, now: int :: OpenSession(db, c, csrf, now) ==
              db.(sessions := OpenSession(db, c, csrf, now).sessions, nextId := db.nextId + 1)
  {}

  lemma ExchangeKeeps(db: Db, c: nat, csrf: nat, now: int)
    ensures LedgerOf(Exchange(db, c, csrf, now).db) == LedgerOf(db)
  {
    hide ReceiptsFor, MaxOf, OpenSession;
    OpenSessionKeeps();
  }

  lemma SessionRowsKeep(db: Db, sessions: map<nat, Session>)
    ensures LedgerOf(db.(sessions := sessions)) == LedgerOf(db)
  {}

  lemma OpenKeeps(db: Db, c: nat, csrf: nat, now: int)
    ensures LedgerOf(OpenSession(db, c, csrf, now)) == LedgerOf(db)
  {}

  lemma RefreshKeeps(db: Db, s: nat, csrf: nat, now: int)
    ensures LedgerOf(Refresh(db, s, csrf, now).db) == LedgerOf(db)
  {
    hide OpenSession, SessionScope, LedgerOf;
    var scope := SessionScope(db, s, None, now);
    if scope.Some? {
      ScopeHasSession(db, s, now);
      var sessions := db.sessions[s := db.sessions[s].(revokedAt := Some(now))];
      SessionRowsKeep(db, sessions);
      OpenKeeps(db.(sessions := sessions), scope.value, csrf, now);
    }
  }

  lemma ScopeHasSession(db: Db, s: nat, now: int)
    requires SessionScope(db, s, None, now).Some?
    ensures s in db.sessions
  {}

  lemma ActionKeeps(db: Db, s: nat, a: Actions.Action)
    requires s in db.sends
    ensures LedgerOf(WithAction(db, s, a)) == LedgerOf(db)
  {}

  lemma BeginKeeps(db: Db, s: nat, commits: bool)
    ensures LedgerOf(BeginSend(db, s, commits).db) == LedgerOf(db)
  {
    hide Actions.Apply, WithAction;
    if s in db.sends { ActionKeeps(db, s, Actions.Apply(db.sends[s].action, Actions.Begin).row); }
  }

  lemma SendOpKeeps(db: Db, s: nat, op: Actions.Op, commits: bool)
    ensures LedgerOf(SendOp(db, s, op, commits).db) == LedgerOf(db)
  {
    hide Actions.Apply, WithAction;
    if s in db.sends { ActionKeeps(db, s, Actions.Apply(db.sends[s].action, op).row); }
  }

  lemma DeliveredKeeps(db: Db, o: nat)
    ensures LedgerOf(Delivered(db, o)) == LedgerOf(db)
  {}

  lemma RecordKeeps(db: Db, s: nat, matches: bool, commits: bool)
    ensures LedgerOf(RecordSent(db, s, matches, commits).db) == LedgerOf(db)
  {
    hide Actions.Apply, WithAction, Delivered, LedgerOf;
    if s in db.sends {
      var op := if db.sends[s].action.state == Actions.UnknownOutcome then Actions.LateGmailSuccess else Actions.Complete;
      var a := Actions.Apply(db.sends[s].action, op).row;
      ActionKeeps(db, s, a);
      DeliveredKeeps(WithAction(db, s, a), db.sends[s].payload.order);
    }
  }

  lemma ExpireKeeps(db: Db, o: nat, now: int)
    ensures LedgerOf(ExpireOffer(db, o, now)) == LedgerOf(db)
    ensures LedgerOf(ExpireUnsent(db, o, now)) == LedgerOf(db)
  {
    hide LiveReviews, CancelPendingSend, SendsOf, ApprovedADayAgo, Revoke, MaxOf, Moved;
  }

  lemma {:induction false} SweepKeeps(db: Db, offers: seq<nat>, unsent: seq<nat>, now: int)
    ensures LedgerOf(ExpireUnsents(ExpireOffers(db, offers, now), unsent, now)) == LedgerOf(db)
    decreases |offers| + |unsent|
  {
    hide ExpireOffer, ExpireUnsent, LedgerOf;
    if unsent != [] {
      SweepKeeps(db, offers, unsent[..|unsent| - 1], now);
      ExpireKeeps(ExpireUnsents(ExpireOffers(db, offers, now), unsent[..|unsent| - 1], now), unsent[|unsent| - 1], now);
    } else if offers != [] {
      SweepKeeps(db, offers[..|offers| - 1], [], now);
      ExpireKeeps(ExpireOffers(db, offers[..|offers| - 1], now), offers[|offers| - 1], now);
    }
  }

  // ---------------------------------------------------------------- commands that append

  lemma ApproveExtends(db: Db, o: nat, e: nat, r: nat, h: Artifact, stale: bool, pick: nat, now: int)
    ensures Extends(LedgerOf(db), LedgerOf(ApproveFreelancer(db, o, e, r, h, stale, pick, now).db))
  {
    hide Extends, HasCurrent, LiveFor, SendsFor, Projection, MaxOf, Moved;
    ExtendsSelf(LedgerOf(db));
    var k := ApprovalKey(r, Freelancer, Approved);
    if k !in db.approvals { AnswerExtends(LedgerOf(db), k, Approval(o, h, None, now)); }
  }

  lemma FreelancerExtends(db: Db, o: nat, d: Decision, now: int)
    ensures Extends(LedgerOf(db), LedgerOf(FreelancerDecide(db, o, d, now).db))
  {
    hide Extends, Revoke, Moved, WithRequest;
    ExtendsSelf(LedgerOf(db));
    RequestsKeep();
    if o in db.orders && HasCurrent(db.orders, db.revisions, o) {
      var r := db.orders[o].current.value;
      var k := ApprovalKey(r, Freelancer, d);
      if k !in db.approvals { AnswerExtends(LedgerOf(db), k, Approval(o, db.revisions[r].hash, None, now)); }
    }
  }

  lemma ClientExtends(db: Db, s: nat, csrf: nat, o: nat, e: nat, r: nat, h: Artifact, d: Decision, now: int)
    ensures Extends(LedgerOf(db), LedgerOf(ClientDecide(db, s, csrf, o, e, r, h, d, now).db))
  {
    hide Extends, Revoke, Moved, WithRequest;
    ExtendsSelf(LedgerOf(db));
    RequestsKeep();
    var k := ApprovalKey(r, Client, d);
    if k !in db.approvals { AnswerExtends(LedgerOf(db), k, Approval(o, h, None, now)); }
  }

  /** Everything but capabilities, sessions and the id counter. */
  predicate SameButLinks(a: Db, b: Db) {
    b == a.(capabilities := b.capabilities, sessions := b.sessions, nextId := b.nextId)
  }

  lemma IssueSame(db: Db, c: nat, csrf: nat, now: int)
    requires c in db.capabilities
    ensures SameButLinks(db, IssueReceipt(db, c, csrf, now))
  {}

  lemma ReopenSame(db: Db, c: nat, csrf: nat, now: int)
    requires c in db.capabilities
    ensures SameButLinks(db, ReopenReceipt(db, c, csrf, now))
  {
    hide ReceiptsFor, MaxOf, IssueReceipt, OpenSession;
    OpenSessionKeeps();
    IssueSame(db, c, csrf, now);
  }

  lemma SameLedger(a: Db, b: Db)
    requires SameButLinks(a, b)
    ensures LedgerOf(b) == LedgerOf(a) && b.orders == a.orders
  {}

  /** The rows one acceptance adds. */
  lemma BookRows(db: Db, c: nat, key: string, now: int)
    requires Acceptable(db, c)
    ensures var o, r := db.capabilities[c].order, db.capabilities[c].revision;
            var p, rev := db.orders[o].project, db.revisions[r];
            var next := NextVersion(db.versions, rev.baseline, p);
            LedgerOf(Book(db, c, key, now)) ==
              Ledger(db.approvals[ApprovalKey(r, Client, Approved) := Approval(o, rev.hash, Some(key), now)],
                     db.payments[r := Payment(db.nextId, p, rev.total, rev.tax)],
                     db.facts[r := Fact(p, o, rev.total, rev.tax)],
                     db.amendments[r := Amendment(p, rev.baseline, next)],
                     db.versions[next := ScopeVersion(Some(rev.baseline), Some(r))])
  {
    hide NextVersion, CopyLinks, ConfirmByReceipt, Moved;
  }

  lemma AgreeRows(db: Db, c: nat, key: string, csrf: nat, now: int)
    requires Acceptable(db, c)
    ensures LedgerOf(Agree(db, c, key, csrf, now)) == LedgerOf(Book(db, c, key, now))
  {
    hide Book, IssueReceipt, SameButLinks, WithRequest, LedgerOf;
    var booked := Book(db, c, key, now);
    BookKeepsLink(db, c, key, now);
    var q := db.orders[db.capabilities[c].order].request;
    RequestKeeps(booked, q, Resolved);
    RequestKeepsLinks(booked, q, Resolved);
    IssueSame(WithRequest(booked, q, Resolved), c, csrf, now);
    SameLedger(WithRequest(booked, q, Resolved), IssueReceipt(WithRequest(booked, q, Resolved), c, csrf, now));
  }

  lemma BookKeepsLink(db: Db, c: nat, key: string, now: int)
    requires Acceptable(db, c)
    ensures c in Book(db, c, key, now).capabilities
  {
    hide NextVersion, CopyLinks, ConfirmByReceipt, Moved;
  }

  lemma RequestKeepsLinks(db: Db, q: nat, s: RequestStatus)
    ensures WithRequest(db, q, s).capabilities == db.capabilities
  {}

  lemma AgreeExtends(db: Db, c: nat, key: string, csrf: nat, now: int)
    requires Inv(db) && Ready(db, c)
    ensures Extends(LedgerOf(db), LedgerOf(Agree(db, c, key, csrf, now)))
  {
    hide Inv, Extends, Book, Agree, NextVersion;
    NoDealYet(db, c);
    NextIsFresh(db, c);
    AgreeRows(db, c, key, csrf, now);
    BookRows(db, c, key, now);
    var o, r := db.capabilities[c].order, db.capabilities[c].revision;
    var p, rev := db.orders[o].project, db.revisions[r];
    var next := NextVersion(db.versions, rev.baseline, p);
    DealExtends(LedgerOf(db), ApprovalKey(r, Client, Approved), Approval(o, rev.hash, Some(key), now), r,
      Payment(db.nextId, p, rev.total, rev.tax), Fact(p, o, rev.total, rev.tax), Amendment(p, rev.baseline, next),
      next, ScopeVersion(Some(rev.baseline), Some(r)));
  }

  lemma AcceptExtends(db: Db, s: nat, csrf: nat, o: nat, e: nat, r: nat, h: Artifact, key: string, ready: bool, csrf': nat, now: int)
    requires Inv(db)
    ensures Extends(LedgerOf(db), LedgerOf(AcceptClient(db, s, csrf, o, e, r, h, key, ready, csrf', now).db))
  {
    hide Inv, Extends, AcceptClient, Agree, ReopenReceipt, Ready, LedgerOf, SameButLinks;
    ExtendsSelf(LedgerOf(db));
    AcceptAnswer(db, s, csrf, o, e, r, h, key, ready, csrf', now);
    var reply := AcceptClient(db, s, csrf, o, e, r, h, key, ready, csrf', now);
    if reply.error.None? {
      var c := SessionScope(db, s, Some(csrf), now).value;
      if db.capabilities[c].consumedAt.Some? {
        ReopenSame(db, c, csrf', now);
        SameLedger(db, reply.db);
      } else {
        AgreeExtends(db, c, key, csrf', now);
      }
    }
  }

  lemma ConfirmExtends(db: Db, p: nat, chosen: set<nat>)
    requires Inv(db)
    ensures Extends(LedgerOf(db), LedgerOf(ConfirmScope(db, p, chosen).db))
  {
    hide Inv, Extends, WithScope;
    ExtendsSelf(LedgerOf(db));
    if p in db.projects && forall i :: i in chosen ==> i in db.candidates {
      ScopeAdds(db, p, chosen);
      NewNumber(db, p);
      VersionExtends(LedgerOf(db), ScopeKey(p, MaxOf(NumbersOf(db.versions, p)) + 1), ScopeVersion(db.projects[p].current, None));
    }
  }

  lemma ScopeAdds(db: Db, p: nat, chosen: set<nat>)
    requires p in db.projects && forall i :: i in chosen ==> i in db.candidates
    ensures LedgerOf(WithScope(db, p, chosen)) == LedgerOf(db).(versions :=
              db.versions[ScopeKey(p, MaxOf(NumbersOf(db.versions, p)) + 1) := ScopeVersion(db.projects[p].current, None)])
  {
    hide NumbersOf, MaxOf, NewItems, NewLinks, Confirmed, ItemIds;
  }

  lemma NewNumber(db: Db, p: nat)
    ensures ScopeKey(p, MaxOf(NumbersOf(db.versions, p)) + 1) !in db.versions
  {
    assert forall k :: k in db.versions && k.project == p ==> k.number in NumbersOf(db.versions, p);
  }

  predicate Appends(step: Step) {
    step.ApproveStep? || step.FreelancerStep? || step.ClientStep? || step.AcceptStep? || step.ConfirmScopeStep?
  }

  lemma AppendingStep(db: Db, step: Step)
    requires Inv(db) && Appends(step)
    ensures Extends(LedgerOf(db), LedgerOf(Apply(db, step)))
  {
    hide Inv, Extends, LedgerOf, ApproveFreelancer, FreelancerDecide, ClientDecide, AcceptClient, ConfirmScope;
    match step
    case ApproveStep(o, e, r, h, stale, pick, now) => ApproveExtends(db, o, e, r, h, stale, pick, now);
    case FreelancerStep(o, d, now) => FreelancerExtends(db, o, d, now);
    case ClientStep(s, csrf, o, e, r, h, d, now) => ClientExtends(db, s, csrf, o, e, r, h, d, now);
    case AcceptStep(s, csrf, o, e, r, h, key, ready, csrf', now) => AcceptExtends(db, s, csrf, o, e, r, h, key, ready, csrf', now);
    case ConfirmScopeStep(p, chosen) => ConfirmExtends(db, p, chosen);
  }

  lemma OtherStep(db: Db, step: Step)
    requires !Appends(step)
    ensures LedgerOf(Apply(db, step)) == LedgerOf(db)
  {
    hide Assemble, CreateRevision, Withdraw, RecordSent, ExpireOffers, ExpireUnsents, Exchange, Refresh, BeginSend, SendOp;
    match step
    case AssembleStep(p, pick, now) => AssembleKeeps(db, p, pick, now);
    case ReviseStep(o, edits, now) => ReviseKeeps(db, o, edits, now);
    case WithdrawStep(o, now) => WithdrawKeeps(db, o, now);
    case ExchangeStep(c, csrf, now) => ExchangeKeeps(db, c, csrf, now);
    case RefreshStep(s, csrf, now) => RefreshKeeps(db, s, csrf, now);
    case ExpireStep(offers, unsent, now) => SweepKeeps(db, offers, unsent, now);
    case BeginSendStep(s, commits) => BeginKeeps(db, s, commits);
    case RecordSentStep(s, matches, commits) => RecordKeeps(db, s, matches, commits);
    case SendOpStep(s, op, commits) => SendOpKeeps(db, s, op, commits);
    case _ =>
  }

  lemma StepExtends(db: Db, step: Step)
    requires Inv(db)
    ensures Extends(LedgerOf(db), LedgerOf(Apply(db, step)))
  {
    hide Inv, Extends, LedgerOf, Apply;
    ExtendsSelf(LedgerOf(db));
    if Appends(step) { AppendingStep(db, step); } else { OtherStep(db, step); }
  }

  /** Approvals, payment requests, revenue facts, amendments and scope versions are only ever
      added: in every run a row once written stays as written. */
  lemma {:induction false} LedgerIsAppendOnly(run: seq<Db>, steps: seq<Step>, i: nat, j: nat)
    requires IsRun(run, steps) && i <= j < |run|
    ensures Extends(LedgerOf(run[i]), LedgerOf(run[j]))
  {
    hide Apply, Inv, Extends;
    ExtendsSelf(LedgerOf(run[i]));
    if i < j {
      LedgerIsAppendOnly(run, steps, i, j - 1);
      ReachableInv(run, steps, j - 1);
      StepExtends(run[j - 1], steps[j - 1]);
      ExtendsTrans(LedgerOf(run[i]), LedgerOf(run[j - 1]), LedgerOf(run[j]));
    }
  }

  // ---------------------------------------------------------------- repeated acceptance

  /** The client's recorded answer for a revision and the key it came with. */
  predicate AnsweredWith(db: Db, o: nat, r: nat, h: Artifact, key: string) {
    && ApprovalKey(r, Client, Approved) in db.approvals
    && db.approvals[ApprovalKey(r, Client, Approved)].idempotencyKey == Some(key)
    && db.approvals[ApprovalKey(r, Client, Approved)].hash == h
    && o in db.orders && ApprovedWith(db.orders[o], r)
  }

  lemma OnlyAnswer(orders: map<nat, Order>, revisions: map<nat, Revision>, approvals: map<ApprovalKey, Approval>, r: nat, key: string)
    requires ApprovalsOk(orders, revisions, approvals)
    requires r in revisions && revisions[r].order in orders && ApprovedWith(orders[revisions[r].order], r)
    requires ApprovalKey(r, Client, Approved) in approvals
    requires approvals[ApprovalKey(r, Client, Approved)].idempotencyKey == Some(key)
    ensures revisions[r].hash == approvals[ApprovalKey(r, Client, Approved)].hash
    ensures forall other :: PriorAnswer(approvals, r, other) <==> other == key
  {
    forall other ensures PriorAnswer(approvals, r, other) <==> other == key {
      if d :| ApprovalKey(r, Client, d) in approvals && approvals[ApprovalKey(r, Client, d)].idempotencyKey == Some(other) {
        assert Allowed(orders[revisions[r].order].status, Client, d);
      }
    }
  }

  lemma ApprovedAnswer(db: Db, o: nat, r: nat, h: Artifact, key: string)
    requires Inv(db) && AnsweredWith(db, o, r, h, key)
    ensures r in db.payments && r in db.revisions && db.revisions[r].hash == h && db.orders[o].project in db.projects
    ensures forall other :: PriorAnswer(db.approvals, r, other) <==> other == key
  {
    hide SealedOk, LinksOk, OneReview, ApprovalsOk, ApprovedOk, SendsOk, PaymentsOk, FactsOk, AmendmentsOk,
      NumberedOk, ParentsOk, BaselinesOk, ProvenanceOk, ItemsOk, PriorAnswer;
    assert HasCurrent(db.orders, db.revisions, o);
    OnlyAnswer(db.orders, db.revisions, db.approvals, r, key);
  }

  /** Once an order is approved, a call on its review link is accepted exactly when it repeats
      the recorded key, and then changes nothing but receipt links and sessions. */
  lemma ReplayAnswer(db: Db, s: nat, csrf: nat, o: nat, e: nat, r: nat, h: Artifact, key: string, other: string, ready: bool, csrf': nat, now: int)
    requires Inv(db) && AnsweredWith(db, o, r, h, key) && key != ""
    requires SessionScope(db, s, Some(csrf), now).Some?
    requires var cap := db.capabilities[SessionScope(db, s, Some(csrf), now).value];
             cap.order == o && cap.revision == r && cap.purpose == Review
    ensures var reply := AcceptClient(db, s, csrf, o, e, r, h, other, ready, csrf', now);
            (reply.error.None? <==> other == key) && SameButLinks(db, reply.db)
  {
    hide Inv, MayAccept, ReopenReceipt, IssueReceipt, Agree, PriorAnswer, SameButLinks;
    var c := SessionScope(db, s, Some(csrf), now).value;
    ApprovedAnswer(db, o, r, h, key);
    ScopeIsCurrent(db, c);
    ReviewIsConsumed(db, c);
    ReopenSame(db, c, csrf', now);
    SameSelf(db);
  }

  lemma SameSelf(db: Db)
    ensures SameButLinks(db, db)
  {}

  lemma ReviewIsConsumed(db: Db, c: nat)
    requires Inv(db) && c in db.capabilities && IsLiveReview(db.capabilities[c])
    ensures db.capabilities[c].order in db.orders
    ensures db.orders[db.capabilities[c].order].status == ClientApproved ==> db.capabilities[c].consumedAt.Some?
  {
    assert LinksOk(db.orders, db.capabilities);
  }

  lemma BookOrders(db: Db, c: nat, key: string, now: int)
    requires Acceptable(db, c)
    ensures var o := db.capabilities[c].order;
            Book(db, c, key, now).orders == db.orders[o := Moved(db.orders[o], ClientApproved)]
  {
    hide NextVersion, CopyLinks, ConfirmByReceipt, Moved;
  }

  lemma RequestKeepsOrders(db: Db, q: nat, s: RequestStatus)
    ensures WithRequest(db, q, s).orders == db.orders
  {}

  lemma AgreeOrders(db: Db, c: nat, key: string, csrf: nat, now: int)
    requires Acceptable(db, c)
    ensures Agree(db, c, key, csrf, now).orders == Book(db, c, key, now).orders
  {
    hide Book, IssueReceipt, SameButLinks, WithRequest, LedgerOf;
    var booked := Book(db, c, key, now);
    BookKeepsLink(db, c, key, now);
    var q := db.orders[db.capabilities[c].order].request;
    RequestKeepsLinks(booked, q, Resolved);
    RequestKeepsOrders(booked, q, Resolved);
    IssueSame(WithRequest(booked, q, Resolved), c, csrf, now);
    SameLedger(WithRequest(booked, q, Resolved), IssueReceipt(WithRequest(booked, q, Resolved), c, csrf, now));
  }

  lemma AgreeAnswers(db: Db, c: nat, key: string, csrf: nat, now: int)
    requires Ready(db, c)
    ensures var o, r := db.capabilities[c].order, db.capabilities[c].revision;
            AnsweredWith(Agree(db, c, key, csrf, now), o, r, db.revisions[r].hash, key)
  {
    hide Book, Agree, NextVersion;
    AgreeRows(db, c, key, csrf, now);
    BookRows(db, c, key, now);
    AgreeOrders(db, c, key, csrf, now);
    BookOrders(db, c, key, now);
  }

  lemma PriorIsAnswer(orders: map<nat, Order>, revisions: map<nat, Revision>, approvals: map<ApprovalKey, Approval>, o: nat, r: nat, key: string)
    requires ApprovalsOk(orders, revisions, approvals) && ApprovedOk(orders, approvals)
    requires r in revisions && revisions[r].order == o && o in orders && ApprovedWith(orders[o], r)
    requires PriorAnswer(approvals, r, key)
    ensures ApprovalKey(r, Client, Approved) in approvals
    ensures approvals[ApprovalKey(r, Client, Approved)].idempotencyKey == Some(key)
    ensures approvals[ApprovalKey(r, Client, Approved)].hash == revisions[r].hash
  {
    var d :| ApprovalKey(r, Client, d) in approvals && approvals[ApprovalKey(r, Client, d)].idempotencyKey == Some(key);
    assert Allowed(orders[revisions[r].order].status, Client, d);
  }

  lemma RepeatNeedsPrior(db: Db, s: nat, csrf: nat, o: nat, e: nat, r: nat, h: Artifact, key: string, ready: bool, csrf': nat, now: int)
    requires AcceptClient(db, s, csrf, o, e, r, h, key, ready, csrf', now).error.None?
    ensures SessionScope(db, s, Some(csrf), now).Some? && key != "" && r in db.revisions && db.revisions[r].hash == h
    ensures db.capabilities[SessionScope(db, s, Some(csrf), now).value].consumedAt.Some? ==> PriorAnswer(db.approvals, r, key)
  {
    hide MayAccept, ReopenReceipt, IssueReceipt, Agree, PriorAnswer;
  }

  /** An accepted call leaves its answer on record. */
  lemma AcceptRecords(db: Db, s: nat, csrf: nat, o: nat, e: nat, r: nat, h: Artifact, key: string, ready: bool, csrf': nat, now: int)
    requires Inv(db)
    requires AcceptClient(db, s, csrf, o, e, r, h, key, ready, csrf', now).error.None?
    ensures key != "" && AnsweredWith(AcceptClient(db, s, csrf, o, e, r, h, key, ready, csrf', now).db, o, r, h, key)
  {
    hide SealedOk, LinksOk, OneReview, ApprovalsOk, ApprovedOk, SendsOk, PaymentsOk, FactsOk, AmendmentsOk,
      BookedOk, NumberedOk, ParentsOk, BaselinesOk, ProvenanceOk, ItemsOk;
    hide AcceptClient, Agree, ReopenReceipt, PriorAnswer, SameButLinks, IdsOk, DealsOk, ScopeOk, RevisionsOk, SessionScope;
    RepeatNeedsPrior(db, s, csrf, o, e, r, h, key, ready, csrf', now);
    AcceptAnswer(db, s, csrf, o, e, r, h, key, ready, csrf', now);
    var c := SessionScope(db, s, Some(csrf), now).value;
    var after := AcceptClient(db, s, csrf, o, e, r, h, key, ready, csrf', now).db;
    ScopeIsLive(db, s, csrf, now);
    ScopeIsCurrent(db, c);
    if db.capabilities[c].consumedAt.Some? {
      PriorIsAnswer(db.orders, db.revisions, db.approvals, o, r, key);
      ReopenSame(db, c, csrf', now);
      SameLedger(db, after);
    } else {
      AgreeAnswers(db, c, key, csrf', now);
    }
  }

  lemma ScopeIsLive(db: Db, s: nat, csrf: nat, now: int)
    requires SessionScope(db, s, Some(csrf), now).Some?
    ensures var c := SessionScope(db, s, Some(csrf), now).value; c in db.capabilities && IsLive(db.capabilities[c])
  {}

  /** However much later it is repeated, an acceptance is answered again exactly when its key
      is the first one's, and the repetition adds no approval, payment request, revenue fact,
      amendment, version or item and touches no order, project, request or send. */
  lemma RepeatedAcceptance(run: seq<Db>, steps: seq<Step>, i: nat, j: nat, o: nat, r: nat,
                           s: nat, csrf: nat, e: nat, h: Artifact, other: string, ready: bool, csrf': nat, now: int)
    requires IsRun(run, steps) && i < j < |run|
    requires steps[i].AcceptStep? && steps[i].order == o && steps[i].revision == r && Accepted(run[i], steps[i])
    requires SessionScope(run[j], s, Some(csrf), now).Some?
    requires var cap := run[j].capabilities[SessionScope(run[j], s, Some(csrf), now).value];
             cap.order == o && cap.revision == r && cap.purpose == Review
    requires h == steps[i].hash
    ensures var reply := AcceptClient(run[j], s, csrf, o, e, r, h, other, ready, csrf', now);
            (reply.error.None? <==> other == steps[i].key) && SameButLinks(run[j], reply.db)
  {
    hide Inv, AcceptClient, SessionScope, Extends, Ready, ApprovedWith, SameButLinks;
    var a := steps[i];
    ReachableInv(run, steps, i);
    ReachableInv(run, steps, j);
    AcceptRecords(run[i], a.session, a.csrf, o, a.expected, r, h, a.key, a.linkReady, a.newCsrf, a.now);
    AnswerStays(run, steps, i + 1, j, o, r, h, a.key);
    ReplayAnswer(run[j], s, csrf, o, e, r, h, a.key, other, ready, csrf', now);
  }

  ghost predicate Accepted(db: Db, step: Step)
    requires step.AcceptStep?
  {
    AcceptClient(db, step.session, step.csrf, step.order, step.expected, step.revision, step.hash, step.key,
                 step.linkReady, step.newCsrf, step.now).error.None?
  }

  lemma AnswerStays(run: seq<Db>, steps: seq<Step>, i: nat, j: nat, o: nat, r: nat, h: Artifact, key: string)
    requires IsRun(run, steps) && i <= j < |run|
    requires AnsweredWith(run[i], o, r, h, key)
    ensures AnsweredWith(run[j], o, r, h, key)
  {
    hide Apply;
    LedgerIsAppendOnly(run, steps, i, j);
    FinalForever(run, steps, i, j, o);
  }
}
