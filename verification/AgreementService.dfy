/** The commands as the service runs them: row by row, in place. Each method is proved against
    the command of the same name on the tables it found. */
module AgreementService {
  import opened Common
  import opened ChangeOrders
  import Actions

  /** One unit of work over the tables. */
  class Service {
    var db: Db

    constructor ()
      ensures db == EMPTY
    {
      db := EMPTY;
    }

    // -------------------------------------------------------------- shared row updates

    method RevokeCapabilities(o: nat, now: int, consume: bool)
      modifies this
      ensures db == old(db).(capabilities := Revoke(old(db).capabilities, o, now, consume))
    {
      var caps := db.capabilities;
      var left := caps.Keys;
      while left != {}
        invariant left <= caps.Keys == db.capabilities.Keys
        invariant forall c :: c in caps ==> caps[c] == if c in left then db.capabilities[c] else Revoke(db.capabilities, o, now, consume)[c]
      {
        var c :| c in left;
        var cap := caps[c];
        if cap.order == o && cap.revokedAt.None? {
          caps := caps[c := cap.(revokedAt := Some(now), consumedAt := if consume then Some(now) else cap.consumedAt)];
        }
        left := left - {c};
      }
      assert caps == Revoke(db.capabilities, o, now, consume);
      db := db.(capabilities := caps);
    }

    method MoveOrder(o: nat, s: OrderStatus)
      requires o in db.orders
      modifies this
      ensures db == old(db).(orders := old(db).orders[o := Moved(old(db).orders[o], s)])
    {
      var order := db.orders[o];
      order := order.(status := s);
      order := order.(rowVersion := order.rowVersion + 1);
      db := db.(orders := db.orders[o := order]);
    }

    method MoveRequest(q: nat, s: RequestStatus)
      modifies this
      ensures db == WithRequest(old(db), q, s)
    {
      if q in db.requests {
        var row := db.requests[q];
        row := row.(status := s);
        row := row.(rowVersion := row.rowVersion + 1);
        db := db.(requests := db.requests[q := row]);
      }
    }

    method StartSession(c: nat, csrf: nat, now: int)
      modifies this
      ensures db == OpenSession(old(db), c, csrf, now)
    {
      db := db.(sessions := db.sessions[db.nextId := Session(c, csrf, now + DAY, None)]);
      db := db.(nextId := db.nextId + 1);
    }

    /** Runs one action call on a send's action row. */
    method ActOn(s: nat, op: Actions.Op) returns (ok: bool)
      requires s in db.sends
      modifies this
      ensures var r := Actions.Apply(old(db).sends[s].action, op);
              ok == r.Done? && db == WithAction(old(db), s, r.row)
    {
      var row;
      ok, row := Actions.Perform(db.sends[s].action, op);
      db := db.(sends := db.sends[s := db.sends[s].(action := row)]);
    }

    method CancelSend(o: nat)
      modifies this
      ensures db == old(db).(sends := CancelPendingSend(old(db).sends, o))
    {
      var found := SendsOf(db.sends, o);
      var s := Latest(found);
      if s in found && db.sends[s].action.state in {Actions.Ready, Actions.RetryWait} {
        var ok := ActOn(s, Actions.Cancel);
      }
    }

    // -------------------------------------------------------------- proposals

    method AddRevision(o: nat, contact: nat, content: Content, now: int) returns (error: Option<Error>)
      requires o in db.orders
      modifies this
      ensures Reply(db, error) == NewRevision(old(db), o, contact, content, now)
    {
      var order := db.orders[o];
      if order.project !in db.projects || order.request !in db.requests { return Some(NotFound); }
      if db.projects[order.project].current.None? { return Some(Conflict); }
      if !Complete(content) { return Some(Invalid); }
      if order.current.Some? && !HasCurrent(db.orders, db.revisions, o) { return Some(Conflict); }
      var artifact := Artifact(db.projects[order.project].current.value, db.requests[order.request].version, contact, content);
      Install(o, artifact, now);
      return None;
    }

    /** Adds the new revision with its fresh review link and points the order at it. */
    method Install(o: nat, artifact: Artifact, now: int)
      requires o in db.orders
      requires db.orders[o].current.Some? ==> db.orders[o].current.value in db.revisions
      modifies this
      ensures db == InstallRevision(old(db), o, artifact, now)
    {
      hide Retired, WithRevision, Drafted;
      var order := db.orders[o];
      var number := 1;
      if order.current.Some? { number := db.revisions[order.current.value].number + 1; }
      Retire(o, now);
      AddDrafted(o, order, Drafted(o, order.project, number, artifact));
    }

    method AddDrafted(o: nat, order: Order, revision: Revision)
      modifies this
      ensures db == WithRevision(old(db), o, order, revision)
    {
      var r, c := db.nextId, db.nextId + 1;
      db := db.(revisions := db.revisions[r := revision], nextId := c + 1);
      var updated := order.(current := Some(r), status := AwaitingFreelancer, rowVersion := order.rowVersion + 1);
      db := db.(orders := db.orders[o := updated]);
      db := db.(capabilities := db.capabilities[c := Capability(o, r, Review, None, None, None, None)]);
    }

    method Retire(o: nat, now: int)
      requires o in db.orders
      requires db.orders[o].current.Some? ==> db.orders[o].current.value in db.revisions
      modifies this
      ensures db == Retired(old(db), o, now)
    {
      hide Revoke;
      var current := db.orders[o].current;
      if current.Some? {
        db := db.(revisions := db.revisions[current.value := db.revisions[current.value].(superseded := true)]);
        RevokeCapabilities(o, now, true);
      }
    }

    method CheckAssembly(p: Proposal) returns (error: Option<Error>)
      ensures error == AssemblyFault(db, p)
    {
      if !p.reviewable { return Some(Invalid); }
      if p.draft.None? { return Some(Conflict); }
      if p.project !in db.projects { return Some(NotFound); }
      if p.request !in db.requests || db.requests[p.request].project != p.project { return Some(Conflict); }
      if db.requests[p.request].status != Open && db.requests[p.request].status != ProposalOpen { return Some(Conflict); }
      if db.projects[p.project].current.None? { return Some(Conflict); }
      if p.contact.None? { return Some(Invalid); }
      return None;
    }

    method AssembleOrder(p: Proposal, pick: nat, now: int) returns (error: Option<Error>)
      modifies this
      ensures Reply(db, error) == Assemble(old(db), p, pick, now)
    {
      error := CheckAssembly(p);
      if error.Some? { return; }
      var saved := db;
      var found := Matches(db.orders, p.project, p.request);
      var o := pick;
      if found == {} {
        o := db.nextId;
        db := WithDraft(db, p.project, p.request);
      } else if pick !in found {
        return Some(NotFound);
      }
      error := ProposeOn(o, p, now, saved);
    }

    method ProposeOn(o: nat, p: Proposal, now: int, saved: Db) returns (error: Option<Error>)
      requires o in db.orders && p.contact.Some? && p.draft.Some?
      modifies this
      ensures Reply(db, error) == Propose(old(db), saved, o, p, now)
    {
      error := AddRevision(o, p.contact.value, p.draft.value, now);
      if error.None? {
        MoveRequest(p.request, ProposalOpen);
        if p.notify == "" { error := Some(Invalid); }
      }
      if error.Some? { db := saved; }
    }

    method ReviseOrder(o: nat, edits: Edits, now: int) returns (error: Option<Error>)
      modifies this
      ensures Reply(db, error) == CreateRevision(old(db), o, edits, now)
    {
      if o !in db.orders { return Some(NotFound); }
      if db.orders[o].status in {ClientApproved, Withdrawn} { return Some(Conflict); }
      if !HasCurrent(db.orders, db.revisions, o) { return Some(Conflict); }
      if db.orders[o].project !in db.projects { return Some(NotFound); }
      if db.orders[o].request !in db.requests { return Some(Conflict); }
      var current := db.revisions[db.orders[o].current.value];
      error := AddRevision(o, current.contact, Edited(current.content, edits), now);
    }

    // -------------------------------------------------------------- decisions

    method DecideAsFreelancer(o: nat, decision: Decision, now: int) returns (error: Option<Error>)
      modifies this
      ensures Reply(db, error) == FreelancerDecide(old(db), o, decision, now)
    {
      if decision !in {Rejected, Waive} { return Some(Invalid); }
      if o !in db.orders { return Some(NotFound); }
      if db.orders[o].status != AwaitingFreelancer { return Some(Conflict); }
      if !HasCurrent(db.orders, db.revisions, o) { return Some(Conflict); }
      var k := ApprovalKey(db.orders[o].current.value, Freelancer, decision);
      if k in db.approvals { return Some(Integrity); }
      db := db.(approvals := db.approvals[k := Approval(o, db.revisions[k.revision].hash, None, now)]);
      MoveOrder(o, if decision == Rejected then RejectedByFreelancer else Withdrawn);
      RevokeCapabilities(o, now, false);
      MoveRequest(db.orders[o].request, if decision == Rejected then Declined else Waived);
      return None;
    }

    method WithdrawOrder(o: nat, now: int) returns (error: Option<Error>)
      modifies this
      ensures Reply(db, error) == Withdraw(old(db), o, now)
    {
      hide Revoke, CancelPendingSend, WithRequest, MaxOf;
      if o !in db.orders { return Some(NotFound); }
      if db.orders[o].status in {ClientApproved, Withdrawn, Expired, RejectedByClient, RejectedByFreelancer} { return Some(Conflict); }
      var found := SendsOf(db.sends, o);
      var s := Latest(found);
      if s in found && db.sends[s].action.state in {Actions.Dispatching, Actions.UnknownOutcome} { return Some(Conflict); }
      MoveOrder(o, Withdrawn);
      CancelSend(o);
      RevokeCapabilities(o, now, false);
      MoveRequest(db.orders[o].request, Declined);
      return None;
    }

    /** Prepares the send action of one revision; an existing one must carry the same email. */
    method PrepareSend(o: nat, r: nat, payload: Email) returns (ok: bool)
      modifies this
      ensures var existing := SendsFor(old(db).sends, o, r);
              ok == (existing == {} || old(db).sends[MaxOf(existing)].payload == payload)
      ensures db == WithSend(old(db), o, r, payload)
    {
      var existing := SendsFor(db.sends, o, r);
      if existing == {} {
        var action := new Actions.ExternalAction();
        db := db.(sends := db.sends[db.nextId := Send(o, r, payload, Actions.Action(action.state, action.attempts))]);
        db := db.(nextId := db.nextId + 1);
        return true;
      }
      var latest := Latest(existing);
      ok := db.sends[latest].payload == payload;
    }

    method OpenOffer(o: nat, r: nat, hash: Artifact, c: nat, now: int)
      requires o in db.orders && c in db.capabilities
      modifies this
      ensures db == WithOffer(old(db), o, r, hash, c, now)
    {
      hide Moved;
      db := db.(approvals := db.approvals[ApprovalKey(r, Freelancer, Approved) := Approval(o, hash, None, now)]);
      var cap := db.capabilities[c];
      cap := cap.(activatedAt := Some(now));
      cap := cap.(expiresAt := Some(now + 7 * DAY));
      db := db.(capabilities := db.capabilities[c := cap]);
      MoveOrder(o, SendPending);
    }

    method CheckApproval(o: nat, expected: nat, r: nat, hash: Artifact, evidenceStale: bool) returns (error: Option<Error>)
      ensures error == ApprovalFault(db, o, expected, r, hash, evidenceStale)
    {
      if o !in db.orders || db.orders[o].project !in db.projects { return Some(NotFound); }
      var order := db.orders[o];
      if order.rowVersion != expected { return Some(Conflict); }
      if !HasCurrent(db.orders, db.revisions, o) { return Some(Conflict); }
      if order.current != Some(r) || db.revisions[r].hash != hash { return Some(Conflict); }
      if order.status != AwaitingFreelancer { return Some(Conflict); }
      if order.request !in db.requests || db.requests[order.request].version != db.revisions[r].requestVersion { return Some(Conflict); }
      if db.projects[order.project].current != Some(db.revisions[r].baseline) { return Some(Conflict); }
      if evidenceStale { return Some(Conflict); }
      return None;
    }

    method Approve(o: nat, expected: nat, r: nat, hash: Artifact, evidenceStale: bool, pick: nat, now: int) returns (error: Option<Error>)
      modifies this
      ensures Reply(db, error) == ApproveFreelancer(old(db), o, expected, r, hash, evidenceStale, pick, now)
    {
      hide MaxOf, Projection, WithSend;
      error := CheckApproval(o, expected, r, hash, evidenceStale);
      if error.Some? { return; }
      if pick !in LiveFor(db.capabilities, r) { return Some(Conflict); }
      if ApprovalKey(r, Freelancer, Approved) in db.approvals { return Some(Integrity); }
      var saved := db;
      OpenOffer(o, r, hash, pick, now);
      var ok := PrepareSend(o, r, Projection(o, r, db.revisions[r]));
      if !ok {
        db := saved;
        error := Some(Conflict);
      }
    }

    // -------------------------------------------------------------- client sessions

    method ExchangeToken(c: nat, csrf: nat, now: int) returns (error: Option<Error>)
      modifies this
      ensures Reply(db, error) == Exchange(old(db), c, csrf, now)
    {
      hide OpenSession;
      if c !in db.capabilities { return Some(Invalid); }
      var cap := db.capabilities[c];
      if cap.purpose != Review || cap.activatedAt.None? || cap.revokedAt.Some? || cap.expiresAt.None? || cap.expiresAt.value <= now {
        return Some(Invalid);
      }
      var target := c;
      if cap.consumedAt.Some? {
        if cap.order !in db.orders || db.orders[cap.order].status != ClientApproved { return Some(Invalid); }
        var receipts := ReceiptsFor(db.capabilities, cap.order, cap.revision);
        target := Latest(receipts);
        if target !in receipts || db.capabilities[target].expiresAt.None? || db.capabilities[target].expiresAt.value <= now {
          return Some(Invalid);
        }
      }
      StartSession(target, csrf, now);
      return None;
    }

    method RefreshSession(s: nat, csrf: nat, now: int) returns (error: Option<Error>)
      modifies this
      ensures Reply(db, error) == Refresh(old(db), s, csrf, now)
    {
      hide OpenSession;
      var scope := SessionScope(db, s, None, now);
      if scope.None? { return Some(Invalid); }
      db := db.(sessions := db.sessions[s := db.sessions[s].(revokedAt := Some(now))]);
      StartSession(scope.value, csrf, now);
      return None;
    }

    method DecideAsClient(s: nat, csrf: nat, o: nat, expected: nat, r: nat, hash: Artifact, decision: Decision, now: int)
      returns (error: Option<Error>)
      modifies this
      ensures Reply(db, error) == ClientDecide(old(db), s, csrf, o, expected, r, hash, decision, now)
    {
      hide Revoke, WithRequest;
      if decision !in {RequestChanges, Rejected} { return Some(Invalid); }
      var scope := SessionScope(db, s, Some(csrf), now);
      if scope.None? { return Some(Invalid); }
      var c := scope.value;
      var cap := db.capabilities[c];
      if cap.purpose != Review || cap.consumedAt.Some? || cap.order != o || cap.revision != r || db.revisions[r].hash != hash {
        return Some(Conflict);
      }
      if db.orders[o].project !in db.projects { return Some(Conflict); }
      if db.orders[o].rowVersion != expected { return Some(Conflict); }
      if db.orders[o].status != AwaitingClient { return Some(Conflict); }
      if ApprovalKey(r, Client, decision) in db.approvals { return Some(Integrity); }
      db := db.(capabilities := db.capabilities[c := cap.(consumedAt := Some(now))],
                approvals := db.approvals[ApprovalKey(r, Client, decision) := Approval(o, hash, None, now)]);
      MoveOrder(o, if decision == RequestChanges then RevisionRequested else RejectedByClient);
      RevokeCapabilities(o, now, false);
      MoveRequest(db.orders[o].request, if decision == RequestChanges then ProposalOpen else Declined);
      return None;
    }

    // -------------------------------------------------------------- acceptance

    method GiveReceipt(c: nat, csrf: nat, now: int)
      requires c in db.capabilities
      modifies this
      ensures db == IssueReceipt(old(db), c, csrf, now)
    {
      hide OpenSession;
      var source := db.capabilities[c];
      var k := db.nextId;
      var receipt := Capability(source.order, source.revision, Receipt, Some(now), Some(now + 30 * DAY), None, None);
      db := db.(capabilities := db.capabilities[k := receipt], nextId := k + 1);
      StartSession(k, csrf, now);
    }

    method ReturnReceipt(c: nat, csrf: nat, now: int)
      requires c in db.capabilities
      modifies this
      ensures db == ReopenReceipt(old(db), c, csrf, now)
    {
      hide OpenSession, IssueReceipt;
      var receipts := ReceiptsFor(db.capabilities, db.capabilities[c].order, db.capabilities[c].revision);
      var k := Latest(receipts);
      if k in receipts {
        StartSession(k, csrf, now);
      } else {
        GiveReceipt(c, csrf, now);
      }
    }

    /** Looks for a client answer to the revision with this key, row by row. */
    method FindAnswer(r: nat, key: string) returns (found: bool)
      ensures found == PriorAnswer(db.approvals, r, key)
    {
      found := false;
      var left := db.approvals.Keys;
      while left != {} && !found
        invariant left <= db.approvals.Keys
        invariant found ==> PriorAnswer(db.approvals, r, key)
        invariant !found ==> forall k :: k in db.approvals && k !in left ==>
                    !(k.revision == r && k.actor == Client && db.approvals[k].idempotencyKey == Some(key))
      {
        var k :| k in left;
        left := left - {k};
        found := k.revision == r && k.actor == Client && db.approvals[k].idempotencyKey == Some(key);
        assert found ==> k == ApprovalKey(r, Client, k.decision);
      }
    }

    method OfferCanBeAccepted(o: nat, r: nat) returns (ok: bool)
      requires o in db.orders
      ensures ok == MayAccept(db, o, r)
    {
      var found := SendsFor(db.sends, o, r);
      var a := Latest(found);
      ok := db.orders[o].status == AwaitingClient
            || (db.orders[o].status == SendPending && a in found
                && db.sends[a].action.state in {Actions.Dispatching, Actions.UnknownOutcome});
    }

    /** The client's answer: the approval, the spent link, the receipt of the email and the
        order's last status. */
    method RecordAnswer(c: nat, key: string, now: int)
      requires Acceptable(db, c)
      modifies this
      ensures db == WithAnswer(old(db), c, key, now)
    {
      hide Moved;
      var cap := db.capabilities[c];
      var o, r := cap.order, cap.revision;
      db := db.(approvals := db.approvals[ApprovalKey(r, Client, Approved) := Approval(o, db.revisions[r].hash, Some(key), now)]);
      cap := cap.(consumedAt := Some(now), expiresAt := Some(now + 30 * DAY));
      db := db.(capabilities := db.capabilities[c := cap]);
      ConfirmEmail(o, r);
      MoveOrder(o, ClientApproved);
    }

    method ConfirmEmail(o: nat, r: nat)
      modifies this
      ensures db == old(db).(sends := ConfirmByReceipt(old(db).sends, o, r))
    {
      var found := SendsFor(db.sends, o, r);
      var a := Latest(found);
      if a in found && db.sends[a].action.state in {Actions.Dispatching, Actions.UnknownOutcome} {
        var ok := ActOn(a, Actions.ClientReceipt);
      }
    }

    /** Adds the accepted version: a child of the baseline with the baseline's items. */
    method ExtendScope(p: nat, baseline: ScopeKey, r: nat) returns (next: ScopeKey)
      requires p in db.projects
      modifies this
      ensures next == NextVersion(old(db).versions, baseline, p)
      ensures db == WithVersion(old(db), p, baseline, next, r)
    {
      var top := Latest(NumbersOf(db.versions, p));
      next := ScopeKey(p, (if top == 0 then baseline.number else top) + 1);
      db := db.(versions := db.versions[next := ScopeVersion(Some(baseline), Some(r))]);
      CopyItems(baseline, next);
      db := db.(projects := db.projects[p := db.projects[p].(current := Some(next))]);
    }

    method CopyItems(from: ScopeKey, to: ScopeKey)
      modifies this
      ensures db == old(db).(links := CopyLinks(old(db).links, from, to))
    {
      var all := ItemsOf(db.links, from);
      var left, links := all, db.links;
      while left != {}
        invariant left <= all
        invariant links == db.links + NewLinks(to, all - left)
      {
        var i :| i in left;
        links := links + {(to, i)};
        left := left - {i};
      }
      assert all - left == all;
      db := db.(links := links);
    }

    method RecordDeal(p: nat, o: nat, r: nat, next: ScopeKey)
      requires r in db.revisions
      modifies this
      ensures db == WithDeal(old(db), p, o, r, next)
    {
      var rev := db.revisions[r];
      db := db.(amendments := db.amendments[r := Amendment(p, rev.baseline, next)]);
      db := db.(payments := db.payments[r := Payment(db.nextId, p, rev.total, rev.tax)], nextId := db.nextId + 1);
      db := db.(facts := db.facts[r := Fact(p, o, rev.total, rev.tax)]);
    }

    method AgreeOn(c: nat, key: string, csrf: nat, now: int)
      requires Acceptable(db, c)
      modifies this
      ensures db == Agree(old(db), c, key, csrf, now)
    {
      hide IssueReceipt, WithRequest, NextVersion, WithAnswer, WithVersion, WithDeal;
      var o, r := db.capabilities[c].order, db.capabilities[c].revision;
      var p, rev := db.orders[o].project, db.revisions[r];
      AnswerLeaves(db, c, key, now);
      RecordAnswer(c, key, now);
      VersionLeaves(db, p, rev.baseline, NextVersion(db.versions, rev.baseline, p), r);
      var next := ExtendScope(p, rev.baseline, r);
      DealLeaves(db, p, o, r, next);
      RecordDeal(p, o, r, next);
      RequestLeaves(db, db.orders[o].request, Resolved);
      MoveRequest(db.orders[o].request, Resolved);
      GiveReceipt(c, csrf, now);
    }

    method AcceptOffer(s: nat, csrf: nat, o: nat, expected: nat, r: nat, hash: Artifact, key: string, linkReady: bool, newCsrf: nat, now: int)
      returns (error: Option<Error>)
      modifies this
      ensures Reply(db, error) == AcceptClient(old(db), s, csrf, o, expected, r, hash, key, linkReady, newCsrf, now)
    {
      hide ReopenReceipt, IssueReceipt, Agree, MayAccept, PriorAnswer;
      var scope := SessionScope(db, s, Some(csrf), now);
      if scope.None? { return Some(Invalid); }
      var c := scope.value;
      var cap := db.capabilities[c];
      if cap.order != o || cap.revision != r || db.revisions[r].hash != hash { return Some(Conflict); }
      if key == "" { return Some(Invalid); }
      if db.orders[o].project !in db.projects { return Some(Conflict); }
      if cap.consumedAt.Some? {
        var answered := FindAnswer(r, key);
        if !answered || r !in db.payments { return Some(Conflict); }
        ReturnReceipt(c, newCsrf, now);
        return None;
      }
      if db.orders[o].rowVersion != expected { return Some(Conflict); }
      var eligible := OfferCanBeAccepted(o, r);
      if !eligible { return Some(Conflict); }
      if db.projects[db.orders[o].project].current != Some(db.revisions[r].baseline) { return Some(Conflict); }
      if r in db.payments {
        GiveReceipt(c, newCsrf, now);
        return None;
      }
      if ApprovalKey(r, Client, Approved) in db.approvals || r in db.facts || r in db.amendments { return Some(Integrity); }
      if db.revisions[r].baseline !in db.versions { return Some(Conflict); }
      var saved := db;
      AgreeOn(c, key, newCsrf, now);
      if !linkReady {
        db := saved;
        return Some(Conflict);
      }
      return None;
    }

    // -------------------------------------------------------------- expiry sweep

    method ExpireLapsed(o: nat, now: int)
      requires o in db.orders && db.orders[o].status in {SendPending, AwaitingClient}
      modifies this
      ensures db == ExpireOffer(old(db), o, now)
      ensures SameOthers(old(db).orders, db.orders, o)
    {
      hide CancelPendingSend, Moved;
      var live := LiveReviews(db.capabilities, o);
      var c := Latest(live);
      if c !in live || db.capabilities[c].expiresAt.None? || db.capabilities[c].expiresAt.value > now { return; }
      MoveOrder(o, Expired);
      db := db.(capabilities := db.capabilities[c := db.capabilities[c].(revokedAt := Some(now))]);
      CancelSend(o);
    }

    method ExpireNeverSent(o: nat, now: int)
      requires o in db.orders && db.orders[o].status == SendPending
      modifies this
      ensures db == ExpireUnsent(old(db), o, now)
      ensures SameOthers(old(db).orders, db.orders, o)
    {
      hide CancelPendingSend, Moved, ApprovedADayAgo, Revoke;
      var found := SendsOf(db.sends, o);
      var s := Latest(found);
      if s !in found || db.sends[s].action.state !in {Actions.Ready, Actions.RetryWait} { return; }
      var due := WasApprovedADayAgo(o, now);
      if !due { return; }
      MoveOrder(o, Expired);
      CancelSend(o);
      RevokeCapabilities(o, now, false);
    }

    /** Reads the order's latest freelancer approval. */
    method WasApprovedADayAgo(o: nat, now: int) returns (due: bool)
      ensures due == ApprovedADayAgo(db.approvals, o, now)
    {
      var yes := OwnApprovals(db.approvals, o);
      var r := Latest(yes);
      if r !in yes {
        NeverApproved(db.approvals, o, now);
        return false;
      }
      var k := ApprovalKey(r, Freelancer, Approved);
      due := db.approvals[k].createdAt + DAY <= now;
      ApprovalIsLatest(db.approvals, o, k, now);
    }

    /** First pass: every offer whose link ran out. The sequence records the order in which the
        rows were read. */
    method ExpireLapsedOffers(now: int) returns (ghost offers: seq<nat>)
      modifies this
      ensures forall o :: o in offers <==> o in old(db).orders && old(db).orders[o].status in {SendPending, AwaitingClient}
      ensures db == ExpireOffers(old(db), offers, now)
    {
      hide ExpireOffer;
      offers := [];
      var due := set o | o in db.orders && db.orders[o].status in {SendPending, AwaitingClient};
      var left := due;
      while left != {}
        invariant left <= due
        invariant db == ExpireOffers(old(db), offers, now)
        invariant forall o :: o in due <==> o in left || o in offers
        invariant forall o :: o in left ==> o in db.orders && db.orders[o] == old(db).orders[o]
      {
        var o :| o in left;
        ExpireLapsed(o, now);
        assert (offers + [o])[..|offers|] == offers;
        offers := offers + [o];
        left := left - {o};
      }
    }

    /** Second pass: every approved offer that was never sent. */
    method ExpireUnsentOffers(now: int) returns (ghost unsent: seq<nat>)
      modifies this
      ensures forall o :: o in unsent <==> o in old(db).orders && old(db).orders[o].status == SendPending
      ensures db == ExpireUnsents(old(db), unsent, now)
    {
      hide ExpireUnsent;
      unsent := [];
      var due := set o | o in db.orders && db.orders[o].status == SendPending;
      var left := due;
      while left != {}
        invariant left <= due
        invariant db == ExpireUnsents(old(db), unsent, now)
        invariant forall o :: o in due <==> o in left || o in unsent
        invariant forall o :: o in left ==> o in db.orders && db.orders[o] == old(db).orders[o]
      {
        var o :| o in left;
        ExpireNeverSent(o, now);
        assert (unsent + [o])[..|unsent|] == unsent;
        unsent := unsent + [o];
        left := left - {o};
      }
    }

    method ExpireStaleOffers(now: int) returns (ghost offers: seq<nat>, ghost unsent: seq<nat>)
      modifies this
      ensures db == ExpireUnsents(ExpireOffers(old(db), offers, now), unsent, now)
      ensures forall o :: o in offers <==> o in old(db).orders && old(db).orders[o].status in {SendPending, AwaitingClient}
      ensures forall o :: o in unsent <==> (var swept := ExpireOffers(old(db), offers, now);
                                            o in swept.orders && swept.orders[o].status == SendPending)
    {
      hide ExpireOffers, ExpireUnsents;
      offers := ExpireLapsedOffers(now);
      unsent := ExpireUnsentOffers(now);
    }

    // -------------------------------------------------------------- sending

    /** A worker commits what a failing call left behind when `commitsFailure`. */
    method BeginGmailSend(s: nat, commitsFailure: bool) returns (error: Option<Error>)
      modifies this
      ensures Reply(db, error) == BeginSend(old(db), s, commitsFailure)
    {
      hide WithAction, Actions.Apply;
      if s !in db.sends { return Some(NotFound); }
      var o := db.sends[s].payload.order;
      if o !in db.orders || db.orders[o].status != SendPending { return Some(Conflict); }
      error := Attempt(s, Actions.Begin, commitsFailure);
    }

    method Attempt(s: nat, op: Actions.Op, commitsFailure: bool) returns (error: Option<Error>)
      requires s in db.sends
      modifies this
      ensures var r := Actions.Apply(old(db).sends[s].action, op);
              && (error == if r.Done? then None else Some(Conflict))
              && db == if r.Done? || commitsFailure then WithAction(old(db), s, r.row) else old(db)
    {
      hide WithAction, Actions.Apply;
      var saved := db;
      var ok := ActOn(s, op);
      if !ok && !commitsFailure { db := saved; }
      error := if ok then None else Some(Conflict);
    }

    method RecordGmailSuccess(s: nat, contentMatches: bool, commitsFailure: bool) returns (error: Option<Error>)
      modifies this
      ensures Reply(db, error) == RecordSent(old(db), s, contentMatches, commitsFailure)
    {
      hide WithAction, Actions.Apply;
      if s !in db.sends { return Some(NotFound); }
      if !contentMatches { return Some(Invalid); }
      var state := db.sends[s].action.state;
      if state == Actions.ReceiptConfirmed { return None; }
      if state !in {Actions.Dispatching, Actions.UnknownOutcome} { return Some(Conflict); }
      var o := db.sends[s].payload.order;
      error := Attempt(s, if state == Actions.UnknownOutcome then Actions.LateGmailSuccess else Actions.Complete, commitsFailure);
      if error.Some? { return; }
      if o in db.orders && db.orders[o].status == SendPending { MoveOrder(o, AwaitingClient); }
    }

    // -------------------------------------------------------------- scope confirmation

    method ConfirmCandidates(p: nat, chosen: set<nat>) returns (error: Option<Error>)
      modifies this
      ensures Reply(db, error) == ConfirmScope(old(db), p, chosen)
    {
      hide WithScope;
      if p !in db.projects { return Some(NotFound); }
      if chosen == {} { return Some(Invalid); }
      if exists i :: i in chosen && (i !in db.candidates || db.candidates[i].project != p) { return Some(Unauthorized); }
      if exists i :: i in chosen && db.candidates[i].rejected { return Some(Conflict); }
      GrowScope(p, chosen);
      return None;
    }

    /** One item row per chosen candidate, one new version linking exactly those items. */
    method GrowScope(p: nat, chosen: set<nat>)
      requires p in db.projects && forall i :: i in chosen ==> i in db.candidates
      modifies this
      ensures db == WithScope(old(db), p, chosen)
    {
      hide NewItems, NewLinks, ItemIds, Confirmed;
      var top := Latest(NumbersOf(db.versions, p));
      var next := ScopeKey(p, top + 1);
      var last := Latest(chosen);
      var base := db.nextId;
      var items, ids := BuildItems(p, chosen);
      db := db.(items := db.items + items, nextId := base + last + 1);
      db := db.(versions := db.versions[next := ScopeVersion(db.projects[p].current, None)]);
      var added := LinkItems(next, ids);
      db := db.(links := db.links + added);
      var confirmed := ConfirmRows(chosen);
      db := db.(candidates := confirmed, projects := db.projects[p := Project(Some(next), true)]);
    }

    method BuildItems(p: nat, chosen: set<nat>) returns (items: map<nat, ScopeItem>, ids: set<nat>)
      requires forall i :: i in chosen ==> i in db.candidates
      ensures items == NewItems(db.candidates, p, chosen, db.nextId)
      ensures ids == ItemIds(chosen, db.nextId)
    {
      var left := chosen;
      items, ids := map[], {};
      while left != {}
        invariant left <= chosen
        invariant forall j :: j in ids <==> j - db.nextId in chosen - left
        invariant items == NewItems(db.candidates, p, chosen - left, db.nextId)
      {
        var i :| i in left;
        assert chosen - (left - {i}) == chosen - left + {i};
        left := left - {i};
        items := items[db.nextId + i := ItemFrom(p, i, db.candidates[i])];
        ids := ids + {db.nextId + i};
      }
      assert chosen - left == chosen;
    }

    method LinkItems(to: ScopeKey, ids: set<nat>) returns (added: set<(ScopeKey, nat)>)
      ensures added == NewLinks(to, ids)
    {
      var left := ids;
      added := {};
      while left != {}
        invariant left <= ids
        invariant added == NewLinks(to, ids - left)
      {
        var i :| i in left;
        left := left - {i};
        added := added + {(to, i)};
      }
      assert ids - left == ids;
    }

    method ConfirmRows(chosen: set<nat>) returns (rows: map<nat, Candidate>)
      requires forall i :: i in chosen ==> i in db.candidates
      ensures rows == Confirmed(db.candidates, chosen)
    {
      var left := chosen;
      rows := db.candidates;
      while left != {}
        invariant left <= chosen
        invariant rows == Confirmed(db.candidates, chosen - left)
      {
        var i :| i in left;
        left := left - {i};
        rows := rows[i := rows[i].(confirmed := true)];
      }
      assert chosen - left == chosen;
    }
  }

  function OwnApprovals(approvals: map<ApprovalKey, Approval>, o: nat): set<nat> {
    set k | k in approvals && approvals[k].order == o && k.actor == Freelancer && k.decision == Approved :: k.revision
  }

  lemma NeverApproved(approvals: map<ApprovalKey, Approval>, o: nat, now: int)
    requires OwnApprovals(approvals, o) == {}
    ensures !ApprovedADayAgo(approvals, o, now)
  {
    assert forall k :: k in approvals && approvals[k].order == o && k.actor == Freelancer && k.decision == Approved ==>
        k.revision in OwnApprovals(approvals, o);
  }

  lemma ApprovalIsLatest(approvals: map<ApprovalKey, Approval>, o: nat, k: ApprovalKey, now: int)
    requires k.actor == Freelancer && k.decision == Approved
    requires k.revision in OwnApprovals(approvals, o) && forall j :: j in OwnApprovals(approvals, o) ==> j <= k.revision
    ensures k in approvals && (ApprovedADayAgo(approvals, o, now) <==> approvals[k].createdAt + DAY <= now)
  {
    forall j | j in approvals && approvals[j].order == o && j.actor == Freelancer && j.decision == Approved ensures j.revision <= k.revision {
      assert j.revision in OwnApprovals(approvals, o);
    }
  }

  /** Nothing but order o may differ. */
  predicate SameOthers(a: map<nat, Order>, b: map<nat, Order>, o: nat) {
    forall q :: q in a && q != o ==> q in b && b[q] == a[q]
  }

  lemma RequestLeaves(db: Db, q: nat, s: RequestStatus)
    ensures WithRequest(db, q, s).capabilities == db.capabilities
  {}

  /** What the first parts of an acceptance leave for the later ones. */
  lemma AnswerLeaves(db: Db, c: nat, key: string, now: int)
    requires Acceptable(db, c)
    ensures var a := WithAnswer(db, c, key, now);
            && a.projects == db.projects && a.revisions == db.revisions && a.versions == db.versions && a.links == db.links
            && a.orders == db.orders[db.capabilities[c].order := Moved(db.orders[db.capabilities[c].order], ClientApproved)]
            && c in a.capabilities
            && a.requests == db.requests
  {
    hide ConfirmByReceipt;
  }

  lemma VersionLeaves(db: Db, p: nat, baseline: ScopeKey, next: ScopeKey, r: nat)
    requires p in db.projects
    ensures var a := WithVersion(db, p, baseline, next, r);
            a.revisions == db.revisions && a.orders == db.orders && a.capabilities == db.capabilities && a.requests == db.requests
  {
    hide CopyLinks;
  }

  lemma DealLeaves(db: Db, p: nat, o: nat, r: nat, next: ScopeKey)
    requires r in db.revisions
    ensures var a := WithDeal(db, p, o, r, next);
            a.orders == db.orders && a.capabilities == db.capabilities && a.requests == db.requests
  {}
}
