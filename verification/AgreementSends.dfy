/** The provider attempts of every email over runs of the agreement: numbered, at most three, and
    never repeated after an uncertain one without an acknowledgement. */
module AgreementSends {
  import opened Common
  import opened ChangeOrders
  import opened AgreementRules
  import opened AgreementSteps
  import opened AgreementRuns
  import opened AgreementReplay
  import Actions

  // ---------------------------------------------------------------- how emails move

  ghost predicate AllOk(sends: map<nat, Send>) { forall s :: s in sends ==> Actions.RowOk(sends[s].action) }

  /** Every email's action moves without an acknowledgement, and new ones are untouched. */
  ghost predicate Follows(a: map<nat, Send>, b: map<nat, Send>) {
    && (forall s :: s in a ==> s in b && Actions.RowOk(b[s].action) && Actions.Unacknowledged(a[s].action, b[s].action))
    && (forall s :: s in b && s !in a ==> b[s].action == Actions.NEW_ACTION)
  }

  lemma SameFollows(a: map<nat, Send>)
    requires AllOk(a)
    ensures Follows(a, a)
  {
    hide Actions.RowOk, Actions.Unacknowledged;
    forall s | s in a ensures Actions.Unacknowledged(a[s].action, a[s].action) { Actions.UnacknowledgedSame(a[s].action); }
  }

  lemma FollowsOk(a: map<nat, Send>, b: map<nat, Send>)
    requires Follows(a, b)
    ensures AllOk(b)
  {
    hide Actions.RowOk, Actions.Unacknowledged;
    Actions.NewActionOk();
  }

  lemma FollowsTrans(a: map<nat, Send>, b: map<nat, Send>, c: map<nat, Send>)
    requires Follows(a, b) && Follows(b, c) && a.Keys == b.Keys
    ensures Follows(a, c)
  {
    hide Actions.RowOk, Actions.Unacknowledged;
    forall s | s in a ensures Actions.Unacknowledged(a[s].action, c[s].action) {
      Actions.UnacknowledgedTrans(a[s].action, b[s].action, c[s].action);
    }
  }

  lemma CallFollows(a: map<nat, Send>, s: nat, op: Actions.Op)
    requires AllOk(a) && s in a && op != Actions.Retry(true)
    ensures Follows(a, a[s := a[s].(action := Actions.Apply(a[s].action, op).row)])
  {
    hide Actions.RowOk, Actions.Unacknowledged, Actions.Apply;
    Actions.CallKeepsRow(a[s].action, op);
    Actions.CallIsUnacknowledged(a[s].action, op);
    forall q | q in a ensures Actions.Unacknowledged(a[q].action, a[q].action) { Actions.UnacknowledgedSame(a[q].action); }
  }

  lemma NewFollows(a: map<nat, Send>, s: nat, send: Send)
    requires AllOk(a) && s !in a && send.action == Actions.NEW_ACTION
    ensures Follows(a, a[s := send])
  {
    hide Actions.RowOk, Actions.Unacknowledged;
    SameFollows(a);
  }

  lemma CancelFollows(a: map<nat, Send>, o: nat)
    requires AllOk(a)
    ensures Follows(a, CancelPendingSend(a, o)) && CancelPendingSend(a, o).Keys == a.Keys
  {
    hide Follows, AllOk, MaxOf, SendsOf, Actions.Apply;
    SameFollows(a);
    var s := MaxOf(SendsOf(a, o));
    InOf(a, o, s);
    if s in SendsOf(a, o) { CallFollows(a, s, Actions.Cancel); }
  }

  lemma InOf(a: map<nat, Send>, o: nat, s: nat)
    ensures s in SendsOf(a, o) ==> s in a
    ensures forall r :: s in SendsFor(a, o, r) ==> s in a
  {}

  lemma ReceiptFollows(a: map<nat, Send>, o: nat, r: nat)
    requires AllOk(a)
    ensures Follows(a, ConfirmByReceipt(a, o, r))
  {
    hide Follows, AllOk, MaxOf, SendsFor, Actions.Apply;
    SameFollows(a);
    var s := MaxOf(SendsFor(a, o, r));
    InOf(a, o, s);
    if s in SendsFor(a, o, r) { CallFollows(a, s, Actions.ClientReceipt); }
  }

  // ---------------------------------------------------------------- commands that send nothing

  lemma InstallSends(db: Db, o: nat, artifact: Artifact, now: int)
    requires o in db.orders && (db.orders[o].current.Some? ==> db.orders[o].current.value in db.revisions)
    ensures InstallRevision(db, o, artifact, now).sends == db.sends
  {
    hide Revoke, Drafted;
  }

  lemma NewRevisionSends(db: Db, o: nat, contact: nat, content: Content, now: int)
    requires o in db.orders
    ensures NewRevision(db, o, contact, content, now).db.sends == db.sends
  {
    hide InstallRevision, Complete;
    var order := db.orders[o];
    if NewRevision(db, o, contact, content, now).error.None? {
      InstallSends(db, o, Artifact(db.projects[order.project].current.value, db.requests[order.request].version, contact, content), now);
    }
  }

  lemma RequestSends(db: Db, q: nat, s: RequestStatus)
    ensures WithRequest(db, q, s).sends == db.sends
  {}

  lemma ProposeSends(db: Db, before: Db, o: nat, p: Proposal, now: int)
    requires o in db.orders && p.contact.Some? && p.draft.Some? && before.sends == db.sends
    ensures Propose(db, before, o, p, now).db.sends == db.sends
  {
    hide NewRevision, WithRequest;
    NewRevisionSends(db, o, p.contact.value, p.draft.value, now);
    RequestSends(NewRevision(db, o, p.contact.value, p.draft.value, now).db, p.request, ProposalOpen);
  }

  lemma DraftSends(db: Db, p: nat, q: nat)
    ensures WithDraft(db, p, q).sends == db.sends
  {}

  lemma AssembleSends(db: Db, p: Proposal, pick: nat, now: int)
    ensures Assemble(db, p, pick, now).db.sends == db.sends
  {
    hide Propose;
    if AssemblyFault(db, p).None? {
      DraftSends(db, p.project, p.request);
      if Matches(db.orders, p.project, p.request) == {} {
        ProposeSends(WithDraft(db, p.project, p.request), db, db.nextId, p, now);
      } else if pick in Matches(db.orders, p.project, p.request) {
        ProposeSends(db, db, pick, p, now);
      }
    }
  }

  lemma ReviseSends(db: Db, o: nat, edits: Edits, now: int)
    ensures CreateRevision(db, o, edits, now).db.sends == db.sends
  {
    hide NewRevision, Edited;
    if o in db.orders && HasCurrent(db.orders, db.revisions, o) {
      var current := db.revisions[db.orders[o].current.value];
      NewRevisionSends(db, o, current.contact, Edited(current.content, edits), now);
    }
  }

  lemma RequestsSend()
    ensures forall db: Db, q: nat, s: RequestStatus :: WithRequest(db, q, s).sends == db.sends
  {
    forall db: Db, q: nat, s: RequestStatus ensures WithRequest(db, q, s).sends == db.sends { RequestSends(db, q, s); }
  }

  lemma FreelancerSends(db: Db, o: nat, d: Decision, now: int)
    ensures FreelancerDecide(db, o, d, now).db.sends == db.sends
  {
    hide Revoke, Moved, WithRequest;
    RequestsSend();
  }

  lemma ClientSends(db: Db, s: nat, csrf: nat, o: nat, e: nat, r: nat, h: Artifact, d: Decision, now: int)
    ensures ClientDecide(db, s, csrf, o, e, r, h, d, now).db.sends == db.sends
  {
    hide Revoke, Moved, WithRequest;
    RequestsSend();
  }

  lemma OpenSends(db: Db, c: nat, csrf: nat, now: int)
    ensures OpenSession(db, c, csrf, now).sends == db.sends
  {}

  lemma ExchangeSends(db: Db, c: nat, csrf: nat, now: int)
    ensures Exchange(db, c, csrf, now).db.sends == db.sends
  {
    hide ReceiptsFor, MaxOf, OpenSession;
    forall k: nat ensures OpenSession(db, k, csrf, now).sends == db.sends { OpenSends(db, k, csrf, now); }
  }

  lemma RefreshSends(db: Db, s: nat, csrf: nat, now: int)
    ensures Refresh(db, s, csrf, now).db.sends == db.sends
  {
    hide OpenSession, SessionScope;
    var scope := SessionScope(db, s, None, now);
    if scope.Some? {
      ScopeHasSession(db, s, now);
      OpenSends(db.(sessions := db.sessions[s := db.sessions[s].(revokedAt := Some(now))]), scope.value, csrf, now);
    }
  }

  lemma ConfirmSends(db: Db, p: nat, chosen: set<nat>)
    ensures ConfirmScope(db, p, chosen).db.sends == db.sends
  {
    hide WithScope;
    if p in db.projects && forall i :: i in chosen ==> i in db.candidates { ScopeSends(db, p, chosen); }
  }

  lemma ScopeSends(db: Db, p: nat, chosen: set<nat>)
    requires p in db.projects && forall i :: i in chosen ==> i in db.candidates
    ensures WithScope(db, p, chosen).sends == db.sends
  {
    hide NumbersOf, MaxOf, NewItems, NewLinks, Confirmed, ItemIds;
  }

  // ---------------------------------------------------------------- commands that touch emails

  lemma ApproveFollows(db: Db, o: nat, e: nat, r: nat, h: Artifact, stale: bool, pick: nat, now: int)
    requires Inv(db) && AllOk(db.sends)
    ensures Follows(db.sends, ApproveFreelancer(db, o, e, r, h, stale, pick, now).db.sends)
  {
    hide Inv, Follows, AllOk, HasCurrent, LiveFor, SendsFor, Projection, MaxOf, WithOffer, WithSend;
    SameFollows(db.sends);
    if o in db.orders && pick in db.capabilities && r in db.revisions {
      OfferSends(db, o, r, h, pick, now);
      FreshSend(db);
      SendFollows(WithOffer(db, o, r, h, pick, now), o, r, Projection(o, r, db.revisions[r]));
    }
    PickIsLink(db, r, pick);
    FaultNeedsRows(db, o, e, r, h, stale);
  }

  lemma OfferSends(db: Db, o: nat, r: nat, h: Artifact, c: nat, now: int)
    requires o in db.orders && c in db.capabilities
    ensures WithOffer(db, o, r, h, c, now).sends == db.sends && WithOffer(db, o, r, h, c, now).nextId == db.nextId
  {}

  lemma SendFollows(db: Db, o: nat, r: nat, payload: Email)
    requires AllOk(db.sends) && db.nextId !in db.sends
    ensures Follows(db.sends, WithSend(db, o, r, payload).sends)
  {
    hide Follows, AllOk, SendsFor;
    SameFollows(db.sends);
    NewFollows(db.sends, db.nextId, Send(o, r, payload, Actions.NEW_ACTION));
  }

  lemma FreshSend(db: Db)
    requires Inv(db)
    ensures db.nextId !in db.sends
  {
    hide ProposalsOk, DealsOk, ScopeOk;
  }

  lemma PickIsLink(db: Db, r: nat, pick: nat)
    ensures pick in LiveFor(db.capabilities, r) ==> pick in db.capabilities
  {}

  lemma FaultNeedsRows(db: Db, o: nat, e: nat, r: nat, h: Artifact, stale: bool)
    ensures ApprovalFault(db, o, e, r, h, stale).None? ==> o in db.orders && r in db.revisions
  {}

  lemma WithdrawFollows(db: Db, o: nat, now: int)
    requires AllOk(db.sends)
    ensures Follows(db.sends, Withdraw(db, o, now).db.sends)
  {
    hide Follows, AllOk, WithRequest, SendsOf, CancelPendingSend, Revoke, Moved, MaxOf;
    SameFollows(db.sends);
    RequestsSend();
    CancelFollows(db.sends, o);
  }

  lemma LapseFollows(db: Db, o: nat, now: int)
    requires AllOk(db.sends)
    ensures Follows(db.sends, ExpireOffer(db, o, now).sends) && ExpireOffer(db, o, now).sends.Keys == db.sends.Keys
  {
    hide Follows, AllOk, LiveReviews, CancelPendingSend, Moved, MaxOf;
    SameFollows(db.sends);
    CancelFollows(db.sends, o);
  }

  lemma UnsentFollows(db: Db, o: nat, now: int)
    requires AllOk(db.sends)
    ensures Follows(db.sends, ExpireUnsent(db, o, now).sends) && ExpireUnsent(db, o, now).sends.Keys == db.sends.Keys
  {
    hide Follows, AllOk, SendsOf, CancelPendingSend, Revoke, Moved, MaxOf, ApprovedADayAgo;
    SameFollows(db.sends);
    CancelFollows(db.sends, o);
  }

  lemma {:induction false} SweepFollows(db: Db, offers: seq<nat>, unsent: seq<nat>, now: int)
    requires AllOk(db.sends)
    ensures var after := ExpireUnsents(ExpireOffers(db, offers, now), unsent, now);
            Follows(db.sends, after.sends) && after.sends.Keys == db.sends.Keys
    decreases |offers| + |unsent|
  {
    hide Follows, AllOk, ExpireOffer, ExpireUnsent;
    SameFollows(db.sends);
    if unsent != [] {
      var before := ExpireUnsents(ExpireOffers(db, offers, now), unsent[..|unsent| - 1], now);
      SweepFollows(db, offers, unsent[..|unsent| - 1], now);
      FollowsOk(db.sends, before.sends);
      UnsentFollows(before, unsent[|unsent| - 1], now);
      FollowsTrans(db.sends, before.sends, ExpireUnsent(before, unsent[|unsent| - 1], now).sends);
    } else if offers != [] {
      var before := ExpireOffers(db, offers[..|offers| - 1], now);
      SweepFollows(db, offers[..|offers| - 1], [], now);
      FollowsOk(db.sends, before.sends);
      LapseFollows(before, offers[|offers| - 1], now);
      FollowsTrans(db.sends, before.sends, ExpireOffer(before, offers[|offers| - 1], now).sends);
    }
  }

  lemma BookSends(db: Db, c: nat, key: string, now: int)
    requires Acceptable(db, c)
    ensures Book(db, c, key, now).sends == ConfirmByReceipt(db.sends, db.capabilities[c].order, db.capabilities[c].revision)
  {
    hide NextVersion, CopyLinks, ConfirmByReceipt, Moved;
  }

  lemma AgreeSends(db: Db, c: nat, key: string, csrf: nat, now: int)
    requires Acceptable(db, c)
    ensures Agree(db, c, key, csrf, now).sends == Book(db, c, key, now).sends
  {
    hide Book, IssueReceipt, SameButLinks, WithRequest;
    var booked := Book(db, c, key, now);
    BookKeepsLink(db, c, key, now);
    var q := db.orders[db.capabilities[c].order].request;
    RequestKeepsLinks(booked, q, Resolved);
    RequestSends(booked, q, Resolved);
    var asked := WithRequest(booked, q, Resolved);
    IssueSame(asked, c, csrf, now);
    LinksKeepSends(asked, IssueReceipt(asked, c, csrf, now));
  }

  lemma LinksKeepSends(a: Db, b: Db)
    requires SameButLinks(a, b)
    ensures b.sends == a.sends
  {}

  lemma AcceptFollows(db: Db, s: nat, csrf: nat, o: nat, e: nat, r: nat, h: Artifact, key: string, ready: bool, csrf': nat, now: int)
    requires Inv(db) && AllOk(db.sends)
    ensures Follows(db.sends, AcceptClient(db, s, csrf, o, e, r, h, key, ready, csrf', now).db.sends)
  {
    hide Inv, Follows, AllOk, AcceptClient, Agree, Book, ReopenReceipt, SameButLinks, ConfirmByReceipt;
    SameFollows(db.sends);
    AcceptAnswer(db, s, csrf, o, e, r, h, key, ready, csrf', now);
    var reply := AcceptClient(db, s, csrf, o, e, r, h, key, ready, csrf', now);
    if reply.error.None? {
      var c := SessionScope(db, s, Some(csrf), now).value;
      if db.capabilities[c].consumedAt.Some? {
        ReopenSame(db, c, csrf', now);
        LinksKeepSends(db, reply.db);
      } else {
        AgreeSends(db, c, key, csrf', now);
        BookSends(db, c, key, now);
        ReceiptFollows(db.sends, o, r);
      }
    }
  }

  lemma WithActionSends(db: Db, s: nat, op: Actions.Op)
    requires s in db.sends && AllOk(db.sends) && op != Actions.Retry(true)
    ensures Follows(db.sends, WithAction(db, s, Actions.Apply(db.sends[s].action, op).row).sends)
  {
    hide Follows, AllOk, Actions.Apply;
    CallFollows(db.sends, s, op);
  }

  lemma BeginFollows(db: Db, s: nat, commits: bool)
    requires AllOk(db.sends)
    ensures Follows(db.sends, BeginSend(db, s, commits).db.sends)
  {
    hide Follows, AllOk, Actions.Apply, WithAction;
    SameFollows(db.sends);
    if s in db.sends { WithActionSends(db, s, Actions.Begin); }
  }

  lemma SendOpFollows(db: Db, s: nat, op: Actions.Op, commits: bool)
    requires AllOk(db.sends) && op != Actions.Retry(true)
    ensures Follows(db.sends, SendOp(db, s, op, commits).db.sends)
  {
    hide Follows, AllOk, Actions.Apply, WithAction;
    SameFollows(db.sends);
    if s in db.sends { WithActionSends(db, s, op); }
  }

  lemma DeliveredSends(db: Db, o: nat)
    ensures Delivered(db, o).sends == db.sends
  {}

  lemma RecordFollows(db: Db, s: nat, matches: bool, commits: bool)
    requires AllOk(db.sends)
    ensures Follows(db.sends, RecordSent(db, s, matches, commits).db.sends)
  {
    hide Follows, AllOk, Actions.Apply, WithAction, Delivered;
    SameFollows(db.sends);
    if s in db.sends {
      var op := if db.sends[s].action.state == Actions.UnknownOutcome then Actions.LateGmailSuccess else Actions.Complete;
      WithActionSends(db, s, op);
      DeliveredSends(WithAction(db, s, Actions.Apply(db.sends[s].action, op).row), db.sends[s].payload.order);
    }
  }

  // ---------------------------------------------------------------- runs

  predicate IsAcknowledgement(step: Step) { step.SendOpStep? && step.op == Actions.Retry(true) }

  predicate TouchesEmails(step: Step) {
    step.ApproveStep? || step.WithdrawStep? || step.AcceptStep? || step.ExpireStep? || step.BeginSendStep? || step.RecordSentStep? || step.SendOpStep?
  }

  lemma TouchingStep(db: Db, step: Step)
    requires Inv(db) && AllOk(db.sends) && TouchesEmails(step) && !IsAcknowledgement(step)
    ensures Follows(db.sends, Apply(db, step).sends)
  {
    hide Inv, Follows, AllOk, ApproveFreelancer, Withdraw, AcceptClient, ExpireOffers, ExpireUnsents, BeginSend, RecordSent, SendOp;
    match step
    case ApproveStep(o, e, r, h, stale, pick, now) => ApproveFollows(db, o, e, r, h, stale, pick, now);
    case WithdrawStep(o, now) => WithdrawFollows(db, o, now);
    case AcceptStep(s, csrf, o, e, r, h, key, ready, csrf', now) => AcceptFollows(db, s, csrf, o, e, r, h, key, ready, csrf', now);
    case ExpireStep(offers, unsent, now) => SweepFollows(db, offers, unsent, now);
    case BeginSendStep(s, commits) => BeginFollows(db, s, commits);
    case RecordSentStep(s, matches, commits) => RecordFollows(db, s, matches, commits);
    case SendOpStep(s, op, commits) => SendOpFollows(db, s, op, commits);
  }

  lemma SilentStep(db: Db, step: Step)
    requires !TouchesEmails(step)
    ensures Apply(db, step).sends == db.sends
  {
    hide Assemble, CreateRevision, FreelancerDecide, Exchange, Refresh, ClientDecide, ConfirmScope;
    match step
    case AssembleStep(p, pick, now) => AssembleSends(db, p, pick, now);
    case ReviseStep(o, edits, now) => ReviseSends(db, o, edits, now);
    case FreelancerStep(o, d, now) => FreelancerSends(db, o, d, now);
    case ExchangeStep(c, csrf, now) => ExchangeSends(db, c, csrf, now);
    case RefreshStep(s, csrf, now) => RefreshSends(db, s, csrf, now);
    case ClientStep(s, csrf, o, e, r, h, d, now) => ClientSends(db, s, csrf, o, e, r, h, d, now);
    case ConfirmScopeStep(p, chosen) => ConfirmSends(db, p, chosen);
    case _ =>
  }

  lemma StepFollows(db: Db, step: Step)
    requires Inv(db) && AllOk(db.sends) && !IsAcknowledgement(step)
    ensures Follows(db.sends, Apply(db, step).sends)
  {
    hide Inv, Follows, AllOk, Apply;
    SameFollows(db.sends);
    if TouchesEmails(step) { TouchingStep(db, step); } else { SilentStep(db, step); }
  }

  lemma RetrySends(db: Db, s: nat, commits: bool)
    ensures var after := SendOp(db, s, Actions.Retry(true), commits).db.sends;
            || after == db.sends
            || (s in db.sends && after == db.sends[s := db.sends[s].(action := Actions.Apply(db.sends[s].action, Actions.Retry(true)).row)])
  {
    hide Actions.Apply;
  }

  lemma RetryStep(db: Db, step: Step)
    requires IsAcknowledgement(step)
    ensures Apply(db, step).sends == SendOp(db, step.send, Actions.Retry(true), step.commitsFailure).db.sends
  {
    hide SendOp;
  }

  lemma RetryRow(a: Actions.Action)
    ensures Actions.Apply(a, Actions.Retry(true)).row == a
            || (Actions.IsUncertain(a.state) && Actions.Apply(a, Actions.Retry(true)).row == a.(state := Actions.RetryWait))
  {}

  /** An acknowledgement changes no attempt, and only its own email. */
  lemma AcknowledgementStep(db: Db, step: Step)
    requires IsAcknowledgement(step)
    ensures var after := Apply(db, step).sends;
            && after.Keys == db.sends.Keys
            && (forall s :: s in after && s != step.send ==> after[s] == db.sends[s])
            && (step.send in after ==>
                  && after[step.send].action.attempts == db.sends[step.send].action.attempts
                  && (after[step.send] == db.sends[step.send] || Actions.IsUncertain(db.sends[step.send].action.state)))
  {
    hide Apply, SendOp, Actions.Apply;
    RetryStep(db, step);
    RetrySends(db, step.send, step.commitsFailure);
    if step.send in db.sends { RetryRow(db.sends[step.send].action); }
  }

  lemma RetryKeepsOk(db: Db, step: Step)
    requires AllOk(db.sends) && IsAcknowledgement(step)
    ensures AllOk(Apply(db, step).sends)
  {
    hide Apply, SendOp, Actions.RowOk, Actions.Apply;
    RetryStep(db, step);
    RetrySends(db, step.send, step.commitsFailure);
    if step.send in db.sends { Actions.CallKeepsRow(db.sends[step.send].action, step.op); }
  }

  lemma {:induction false} EmailsOk(run: seq<Db>, steps: seq<Step>, i: nat)
    requires IsRun(run, steps) && i < |run|
    ensures AllOk(run[i].sends)
  {
    hide Apply, Inv, AllOk, Follows;
    if i == 0 {
      NoEmails();
    } else {
      EmailsOk(run, steps, i - 1);
      ReachableInv(run, steps, i - 1);
      if IsAcknowledgement(steps[i - 1]) {
        RetryKeepsOk(run[i - 1], steps[i - 1]);
      } else {
        StepFollows(run[i - 1], steps[i - 1]);
        FollowsOk(run[i - 1].sends, run[i].sends);
      }
    }
  }

  lemma NoEmails()
    ensures AllOk(EMPTY.sends)
  {}

  /** An operator acknowledged the risk of repeating attempt n of the email, at a step before j at
      which that attempt was the latest and the action uncertain. */
  ghost predicate WasAcknowledged(run: seq<Db>, steps: seq<Step>, j: nat, s: nat, n: nat)
    requires IsRun(run, steps) && j < |run|
  {
    exists m: nat :: m < j && IsAcknowledgement(steps[m]) && steps[m].send == s && s in run[m].sends
      && Actions.IsUncertain(run[m].sends[s].action.state) && MaxKey(run[m].sends[s].action.attempts) == n
  }

  /** In every run an email's attempts are numbered 1..n with n at most three, only the last can
      have succeeded, and each one recorded as uncertain that was followed by another had been
      acknowledged before that. */
  lemma EmailAttempts(run: seq<Db>, steps: seq<Step>, j: nat, s: nat)
    requires IsRun(run, steps) && j < |run| && s in run[j].sends
    ensures var row := run[j].sends[s].action; var n := MaxKey(row.attempts);
            && n <= 3 && (forall m: nat :: m in row.attempts <==> 1 <= m <= n)
            && (forall m :: m in row.attempts && row.attempts[m] == Actions.Succeeded ==> m == n)
            && (forall m :: m in row.attempts && m < n && Actions.IsUncertain(row.attempts[m]) ==> WasAcknowledged(run, steps, j, s, m))
  {
    hide Apply, IsRun, WasAcknowledged;
    EmailsOk(run, steps, j);
    PassedWasAcknowledged(run, steps, j, s);
    var row := run[j].sends[s].action;
    forall m | m in row.attempts && m < MaxKey(row.attempts) && Actions.IsUncertain(row.attempts[m])
      ensures WasAcknowledged(run, steps, j, s, m) {
      assert Actions.IsPassed(row, m);
    }
  }

  lemma {:induction false} PassedWasAcknowledged(run: seq<Db>, steps: seq<Step>, j: nat, s: nat)
    requires IsRun(run, steps) && j < |run| && s in run[j].sends
    ensures forall n :: Actions.IsPassed(run[j].sends[s].action, n) ==> WasAcknowledged(run, steps, j, s, n)
    ensures Actions.IsCleared(run[j].sends[s].action) ==> WasAcknowledged(run, steps, j, s, MaxKey(run[j].sends[s].action.attempts))
  {
    hide Apply, Inv, AllOk, Actions.IsPassed, Actions.IsCleared, Actions.RowOk, WasAcknowledged;
    if j > 0 {
      var i, step := j - 1, steps[j - 1];
      ReachableInv(run, steps, i);
      EmailsOk(run, steps, i);
      if s in run[i].sends { PassedWasAcknowledged(run, steps, i, s); Earlier(run, steps, i, s); }
      if IsAcknowledgement(step) {
        AcknowledgementStep(run[i], step);
        SamePassed(run[i].sends[s].action, run[j].sends[s].action);
        if run[j].sends[s] != run[i].sends[s] { Acknowledges(run, steps, i, s); }
      } else {
        StepFollows(run[i], step);
        if s !in run[i].sends { NewIsClear(); }
      }
    }
  }

  lemma Earlier(run: seq<Db>, steps: seq<Step>, i: nat, s: nat)
    requires IsRun(run, steps) && i + 1 < |run|
    ensures forall n: nat :: WasAcknowledged(run, steps, i, s, n) ==> WasAcknowledged(run, steps, i + 1, s, n)
  {
    hide IsRun;
  }

  lemma Acknowledges(run: seq<Db>, steps: seq<Step>, i: nat, s: nat)
    requires IsRun(run, steps) && i + 1 < |run| && IsAcknowledgement(steps[i]) && steps[i].send == s && s in run[i].sends
    requires Actions.IsUncertain(run[i].sends[s].action.state)
    ensures WasAcknowledged(run, steps, i + 1, s, MaxKey(run[i].sends[s].action.attempts))
  {
    hide IsRun;
  }

  lemma SamePassed(a: Actions.Action, b: Actions.Action)
    requires a.attempts == b.attempts
    ensures forall n :: Actions.IsPassed(b, n) ==> Actions.IsPassed(a, n)
  {}

  lemma NewIsClear()
    ensures !Actions.IsCleared(Actions.NEW_ACTION) && forall n :: !Actions.IsPassed(Actions.NEW_ACTION, n)
  {}
}
