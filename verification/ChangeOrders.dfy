/** The change-order agreement tables and what each command does to them.

    Rows are keyed by ids taken from one increasing counter, so a larger id is a later row.
    Approvals, payment requests, revenue facts and amendments are keyed by the columns of
    their unique constraints. A digest is identified with the payload it hashes. */
module ChangeOrders {
  import opened Common
  import Actions

  // ---------------------------------------------------------------- rows

  datatype OrderStatus =
    | Draft | AwaitingFreelancer | SendPending | AwaitingClient | RevisionRequested
    | ClientApproved | RejectedByFreelancer | RejectedByClient | Withdrawn | Expired

  datatype RequestStatus =
    | Open | ClarificationRequired | Covered | ProposalOpen | Waived | Declined | Merged | Resolved

  datatype Terms = Terms(total: int, tax: int, preference: nat)

  datatype Content = Content(
    title: string, requestedChange: string, deliverables: seq<string>, exclusions: seq<string>,
    assumptions: seq<string>, clientExplanation: string, subject: string, plainText: string,
    html: string, recipient: string, attachments: seq<string>, evidence: seq<nat>, terms: Terms)

  /** The scope version `number` of a project: the unique key of the version table. */
  datatype ScopeKey = ScopeKey(project: nat, number: nat)

  /** The canonical payload a revision freezes; its digest is the revision's content hash. */
  datatype Artifact = Artifact(baseline: ScopeKey, requestVersion: nat, contact: nat, content: Content)

  datatype Project = Project(current: Option<ScopeKey>, active: bool)
  datatype Request = Request(project: nat, status: RequestStatus, version: nat, rowVersion: nat)
  datatype Order = Order(project: nat, request: nat, current: Option<nat>, status: OrderStatus, rowVersion: nat)
  datatype Revision = Revision(
    order: nat, project: nat, number: nat, baseline: ScopeKey, requestVersion: nat, contact: nat,
    total: int, tax: int, content: Content, hash: Artifact, superseded: bool)

  datatype Actor = Freelancer | Client
  datatype Decision = Approved | Rejected | RequestChanges | Waive
  datatype ApprovalKey = ApprovalKey(revision: nat, actor: Actor, decision: Decision)
  datatype Approval = Approval(order: nat, hash: Artifact, idempotencyKey: Option<string>, createdAt: int)

  datatype Purpose = Review | Receipt
  datatype Capability = Capability(
    order: nat, revision: nat, purpose: Purpose, activatedAt: Option<int>, expiresAt: Option<int>,
    consumedAt: Option<int>, revokedAt: Option<int>)
  datatype Session = Session(capability: nat, csrf: nat, expiresAt: int, revokedAt: Option<int>)

  /** What the send action is approved to dispatch. */
  datatype Email = Email(
    order: nat, revision: nat, recipient: string, subject: string, plainText: string, html: string,
    attachments: seq<string>, hash: Artifact)
  datatype Send = Send(order: nat, revision: nat, payload: Email, action: Actions.Action)

  datatype Payment = Payment(id: nat, project: nat, total: int, tax: int)
  datatype Fact = Fact(project: nat, order: nat, amount: int, tax: int)
  datatype Amendment = Amendment(project: nat, previous: ScopeKey, resulting: ScopeKey)

  datatype ScopeVersion = ScopeVersion(parent: Option<ScopeKey>, source: Option<nat>)
  datatype Candidate = Candidate(project: nat, itemKey: string, itemType: string, text: string, rejected: bool, confirmed: bool)
  datatype ScopeItem = ScopeItem(project: nat, candidate: nat, itemKey: string, itemType: string, text: string)

  datatype Db = Db(
    projects: map<nat, Project>, requests: map<nat, Request>, orders: map<nat, Order>,
    revisions: map<nat, Revision>, approvals: map<ApprovalKey, Approval>,
    capabilities: map<nat, Capability>, sessions: map<nat, Session>, sends: map<nat, Send>,
    payments: map<nat, Payment>, facts: map<nat, Fact>, amendments: map<nat, Amendment>,
    versions: map<ScopeKey, ScopeVersion>, items: map<nat, ScopeItem>, links: set<(ScopeKey, nat)>,
    candidates: map<nat, Candidate>, nextId: nat)

  const EMPTY := Db(map[], map[], map[], map[], map[], map[], map[], map[], map[], map[], map[],
                    map[], map[], {}, map[], 0)

  datatype Error = NotFound | Conflict | Invalid | Unauthorized | Integrity

  /** The tables after a command, and why it was refused if it was. */
  datatype Reply = Reply(db: Db, error: Option<Error>)

  function Refuse(db: Db, e: Error): Reply { Reply(db, Some(e)) }
  function Accept(db: Db): Reply { Reply(db, None) }

  const DAY: int := 86400
  const MAX_TOTAL: int := 100_000_000

  // ---------------------------------------------------------------- revisions

  /** The proposal checks: a bounded total, a tax within it and no empty required field. */
  predicate Complete(c: Content) {
    && 0 < c.terms.total <= MAX_TOTAL
    && 0 <= c.terms.tax <= c.terms.total
    && c.title != "" && c.requestedChange != "" && c.deliverables != [] && c.clientExplanation != ""
    && c.subject != "" && c.plainText != "" && c.html != "" && c.recipient != "" && c.evidence != []
  }

  predicate HasCurrent(orders: map<nat, Order>, revisions: map<nat, Revision>, o: nat)
    requires o in orders
  {
    && orders[o].current.Some?
    && orders[o].current.value in revisions
    && revisions[orders[o].current.value].order == o
    && !revisions[orders[o].current.value].superseded
  }

  /** Revokes every unrevoked capability of an order; a new revision also consumes them. */
  function Revoke(caps: map<nat, Capability>, o: nat, now: int, consume: bool): map<nat, Capability> {
    map c | c in caps ::
      if caps[c].order == o && caps[c].revokedAt.None? then
        caps[c].(revokedAt := Some(now), consumedAt := if consume then Some(now) else caps[c].consumedAt)
      else caps[c]
  }

  function Drafted(o: nat, project: nat, number: nat, a: Artifact): Revision {
    Revision(o, project, number, a.baseline, a.requestVersion, a.contact, a.content.terms.total,
             a.content.terms.tax, a.content, a, false)
  }

  /** Adds a revision to an existing order row: supersedes the current one, revokes every old
      link and issues a fresh, inactive review capability. */
  function NewRevision(db: Db, o: nat, contact: nat, content: Content, now: int): Reply
    requires o in db.orders
  {
    var order := db.orders[o];
    if order.project !in db.projects || order.request !in db.requests then Refuse(db, NotFound)
    else if db.projects[order.project].current.None? then Refuse(db, Conflict)
    else if !Complete(content) then Refuse(db, Invalid)
    else if order.current.Some? && !HasCurrent(db.orders, db.revisions, o) then Refuse(db, Conflict)
    else
      var artifact := Artifact(db.projects[order.project].current.value, db.requests[order.request].version, contact, content);
      Accept(InstallRevision(db, o, artifact, now))
  }

  /** Supersedes the current revision, if any, and revokes every old link. */
  function Retired(db: Db, o: nat, now: int): Db
    requires o in db.orders
    requires db.orders[o].current.Some? ==> db.orders[o].current.value in db.revisions
  {
    var current := db.orders[o].current;
    if current.None? then db
    else db.(revisions := db.revisions[current.value := db.revisions[current.value].(superseded := true)],
             capabilities := Revoke(db.capabilities, o, now, true))
  }

  function InstallRevision(db: Db, o: nat, artifact: Artifact, now: int): Db
    requires o in db.orders
    requires db.orders[o].current.Some? ==> db.orders[o].current.value in db.revisions
  {
    var order := db.orders[o];
    var number := if order.current.Some? then db.revisions[order.current.value].number + 1 else 1;
    WithRevision(Retired(db, o, now), o, order, Drafted(o, order.project, number, artifact))
  }

  /** The new revision row, its review link, and the order row that points at it. */
  function WithRevision(db: Db, o: nat, order: Order, revision: Revision): Db {
    var r, c := db.nextId, db.nextId + 1;
    db.(revisions := db.revisions[r := revision],
        orders := db.orders[o := order.(current := Some(r), status := AwaitingFreelancer, rowVersion := order.rowVersion + 1)],
        capabilities := db.capabilities[c := Capability(o, r, Review, None, None, None, None)],
        nextId := db.nextId + 2)
  }

  /** Orders an assembled proposal may be added to. */
  predicate Reusable(order: Order, project: nat, request: nat) {
    order.project == project && order.request == request && order.status !in {ClientApproved, Withdrawn, Expired}
  }

  /** What the decision and the contact lookup supply. */
  datatype Proposal = Proposal(
    reviewable: bool, draft: Option<Content>, project: nat, request: nat, contact: Option<nat>, notify: string)

  /** Why an assembled decision cannot become an offer, if it cannot. */
  function AssemblyFault(db: Db, p: Proposal): Option<Error> {
    if !p.reviewable then Some(Invalid)
    else if p.draft.None? then Some(Conflict)
    else if p.project !in db.projects then Some(NotFound)
    else if p.request !in db.requests || db.requests[p.request].project != p.project
            || (db.requests[p.request].status != Open && db.requests[p.request].status != ProposalOpen) then Some(Conflict)
    else if db.projects[p.project].current.None? then Some(Conflict)
    else if p.contact.None? then Some(Invalid)
    else None
  }

  /** A new draft order, still without a revision. */
  function WithDraft(db: Db, project: nat, request: nat): Db {
    db.(orders := db.orders[db.nextId := Order(project, request, None, Draft, 1)], nextId := db.nextId + 1)
  }

  /** `pick` is the row the unordered order query returns when several match. */
  function Assemble(db: Db, p: Proposal, pick: nat, now: int): Reply {
    var fault := AssemblyFault(db, p);
    if fault.Some? then Refuse(db, fault.value)
    else if Matches(db.orders, p.project, p.request) == {} then
      Propose(WithDraft(db, p.project, p.request), db, db.nextId, p, now)
    else if pick !in Matches(db.orders, p.project, p.request) then Refuse(db, NotFound)
    else Propose(db, db, pick, p, now)
  }

  function Matches(orders: map<nat, Order>, project: nat, request: nat): set<nat> {
    set o | o in orders && Reusable(orders[o], project, request)
  }

  /** Adds the drafted revision to the chosen order; any failure rolls back to `before`. */
  function Propose(db: Db, before: Db, o: nat, p: Proposal, now: int): Reply
    requires o in db.orders && p.contact.Some? && p.draft.Some?
  {
    var r := NewRevision(db, o, p.contact.value, p.draft.value, now);
    if r.error.Some? then Refuse(before, r.error.value)
    else if p.notify == "" then Refuse(before, Invalid)
    else Accept(WithRequest(r.db, p.request, ProposalOpen))
  }

  /** Sets a request's status and counts the change, if the request exists. */
  function WithRequest(db: Db, q: nat, status: RequestStatus): Db {
    if q in db.requests
    then db.(requests := db.requests[q := db.requests[q].(status := status, rowVersion := db.requests[q].rowVersion + 1)])
    else db
  }

  /** Field replacements of an edit; a missing field keeps the current text. Attachments are
      not carried over to the edited revision. */
  datatype Edits = Edits(
    title: Option<string>, requestedChange: Option<string>, deliverables: Option<seq<string>>,
    exclusions: Option<seq<string>>, assumptions: Option<seq<string>>, clientExplanation: Option<string>,
    subject: Option<string>, plainText: Option<string>, html: Option<string>)

  function Or<T>(o: Option<T>, d: T): T { if o.Some? then o.value else d }

  function Edited(c: Content, e: Edits): Content {
    Content(Or(e.title, c.title), Or(e.requestedChange, c.requestedChange), Or(e.deliverables, c.deliverables),
            Or(e.exclusions, c.exclusions), Or(e.assumptions, c.assumptions), Or(e.clientExplanation, c.clientExplanation),
            Or(e.subject, c.subject), Or(e.plainText, c.plainText), Or(e.html, c.html), c.recipient, [], c.evidence, c.terms)
  }

  function CreateRevision(db: Db, o: nat, edits: Edits, now: int): Reply {
    if o !in db.orders then Refuse(db, NotFound)
    else if db.orders[o].status in {ClientApproved, Withdrawn} then Refuse(db, Conflict)
    else if !HasCurrent(db.orders, db.revisions, o) then Refuse(db, Conflict)
    else if db.orders[o].project !in db.projects then Refuse(db, NotFound)
    else if db.orders[o].request !in db.requests then Refuse(db, Conflict)
    else
      var current := db.revisions[db.orders[o].current.value];
      NewRevision(db, o, current.contact, Edited(current.content, edits), now)
  }

  // ---------------------------------------------------------------- freelancer decisions

  function Projection(o: nat, r: nat, revision: Revision): Email {
    Email(o, r, revision.content.recipient, revision.content.subject, revision.content.plainText,
          revision.content.html, revision.content.attachments, revision.hash)
  }

  function SendsOf(sends: map<nat, Send>, o: nat): set<nat> {
    set s | s in sends && sends[s].order == o
  }

  /** The rows with action key `change-order-send:{o}:{r}`. */
  function SendsFor(sends: map<nat, Send>, o: nat, r: nat): set<nat> {
    set s | s in sends && sends[s].order == o && sends[s].revision == r
  }

  function LiveFor(caps: map<nat, Capability>, r: nat): set<nat> {
    set c | c in caps && caps[c].revision == r && caps[c].revokedAt.None?
  }

  /** Why the freelancer's approval is stale or out of turn, if it is. */
  function ApprovalFault(db: Db, o: nat, expected: nat, r: nat, hash: Artifact, evidenceStale: bool): Option<Error> {
    if o !in db.orders || db.orders[o].project !in db.projects then Some(NotFound)
    else if db.orders[o].rowVersion != expected then Some(Conflict)
    else if !HasCurrent(db.orders, db.revisions, o) then Some(Conflict)
    else if db.orders[o].current != Some(r) || db.revisions[r].hash != hash then Some(Conflict)
    else if db.orders[o].status != AwaitingFreelancer then Some(Conflict)
    else if db.orders[o].request !in db.requests
            || db.requests[db.orders[o].request].version != db.revisions[r].requestVersion then Some(Conflict)
    else if db.projects[db.orders[o].project].current != Some(db.revisions[r].baseline) then Some(Conflict)
    else if evidenceStale then Some(Conflict)
    else None
  }

  /** The approval row, the link opened for a week, and the order on its way. */
  function WithOffer(db: Db, o: nat, r: nat, hash: Artifact, c: nat, now: int): Db
    requires o in db.orders && c in db.capabilities
  {
    db.(
      approvals := db.approvals[ApprovalKey(r, Freelancer, Approved) := Approval(o, hash, None, now)],
      capabilities := db.capabilities[c := db.capabilities[c].(activatedAt := Some(now), expiresAt := Some(now + 7 * DAY))],
      orders := db.orders[o := Moved(db.orders[o], SendPending)])
  }

  /** The send action of one revision, created on its first approval. */
  function WithSend(db: Db, o: nat, r: nat, payload: Email): Db {
    if SendsFor(db.sends, o, r) != {} then db
    else db.(sends := db.sends[db.nextId := Send(o, r, payload, Actions.NEW_ACTION)], nextId := db.nextId + 1)
  }

  /** `pick` is the row the unordered capability query returns. */
  ghost function ApproveFreelancer(db: Db, o: nat, expected: nat, r: nat, hash: Artifact, evidenceStale: bool, pick: nat, now: int): Reply {
    var fault := ApprovalFault(db, o, expected, r, hash, evidenceStale);
    if fault.Some? then Refuse(db, fault.value)
    else if pick !in LiveFor(db.capabilities, r) then Refuse(db, Conflict)
    else if ApprovalKey(r, Freelancer, Approved) in db.approvals then Refuse(db, Integrity)
    else
      var payload := Projection(o, r, db.revisions[r]);
      var existing := SendsFor(db.sends, o, r);
      if existing != {} && db.sends[MaxOf(existing)].payload != payload then Refuse(db, Conflict)
      else Accept(WithSend(WithOffer(db, o, r, hash, pick, now), o, r, payload))
  }

  /** Every status change counts one row version. */
  function Moved(order: Order, status: OrderStatus): Order {
    order.(status := status, rowVersion := order.rowVersion + 1)
  }

  function FreelancerDecide(db: Db, o: nat, decision: Decision, now: int): Reply {
    if decision !in {Rejected, Waive} then Refuse(db, Invalid)
    else if o !in db.orders then Refuse(db, NotFound)
    else if db.orders[o].status != AwaitingFreelancer then Refuse(db, Conflict)
    else if !HasCurrent(db.orders, db.revisions, o) then Refuse(db, Conflict)
    else
      var r := db.orders[o].current.value;
      if ApprovalKey(r, Freelancer, decision) in db.approvals then Refuse(db, Integrity)
      else
        var decided := db.(
          approvals := db.approvals[ApprovalKey(r, Freelancer, decision) := Approval(o, db.revisions[r].hash, None, now)],
          orders := db.orders[o := Moved(db.orders[o], if decision == Rejected then RejectedByFreelancer else Withdrawn)],
          capabilities := Revoke(db.capabilities, o, now, false));
        Accept(WithRequest(decided, db.orders[o].request, if decision == Rejected then Declined else Waived))
  }

  /** Cancels the order's latest send action while it has not left. */
  ghost function CancelPendingSend(sends: map<nat, Send>, o: nat): map<nat, Send> {
    var s := MaxOf(SendsOf(sends, o));
    if s in SendsOf(sends, o) && sends[s].action.state in {Actions.Ready, Actions.RetryWait}
    then sends[s := sends[s].(action := Actions.Apply(sends[s].action, Actions.Cancel).row)]
    else sends
  }

  ghost function Withdraw(db: Db, o: nat, now: int): Reply {
    if o !in db.orders then Refuse(db, NotFound)
    else if db.orders[o].status in {ClientApproved, Withdrawn, Expired, RejectedByClient, RejectedByFreelancer} then Refuse(db, Conflict)
    else
      var s := MaxOf(SendsOf(db.sends, o));
      if s in SendsOf(db.sends, o) && db.sends[s].action.state in {Actions.Dispatching, Actions.UnknownOutcome}
      then Refuse(db, Conflict)
      else
        var withdrawn := db.(
          orders := db.orders[o := Moved(db.orders[o], Withdrawn)],
          sends := CancelPendingSend(db.sends, o),
          capabilities := Revoke(db.capabilities, o, now, false));
        Accept(WithRequest(withdrawn, db.orders[o].request, Declined))
  }

  // ---------------------------------------------------------------- client sessions

  /** Exchanges a capability token for a session. A consumed token only opens the receipt of
      an approved order. */
  ghost function Exchange(db: Db, c: nat, csrf: nat, now: int): Reply {
    if c !in db.capabilities then Refuse(db, Invalid)
    else
      var cap := db.capabilities[c];
      if cap.purpose != Review || cap.activatedAt.None? || cap.revokedAt.Some? || cap.expiresAt.None? || cap.expiresAt.value <= now
      then Refuse(db, Invalid)
      else if cap.consumedAt.None? then Accept(OpenSession(db, c, csrf, now))
      else if cap.order !in db.orders || db.orders[cap.order].status != ClientApproved then Refuse(db, Invalid)
      else
        var receipts := ReceiptsFor(db.capabilities, cap.order, cap.revision);
        var k := MaxOf(receipts);
        if k !in receipts || db.capabilities[k].expiresAt.None? || db.capabilities[k].expiresAt.value <= now
        then Refuse(db, Invalid)
        else Accept(OpenSession(db, k, csrf, now))
  }

  function OpenSession(db: Db, c: nat, csrf: nat, now: int): Db {
    db.(sessions := db.sessions[db.nextId := Session(c, csrf, now + DAY, None)], nextId := db.nextId + 1)
  }

  function ReceiptsFor(caps: map<nat, Capability>, o: nat, r: nat): set<nat> {
    set c | c in caps && caps[c].order == o && caps[c].revision == r && caps[c].purpose == Receipt && caps[c].revokedAt.None?
  }

  /** The capability a live session speaks for. */
  function SessionScope(db: Db, s: nat, csrf: Option<nat>, now: int): Option<nat> {
    if s !in db.sessions then None
    else
      var row := db.sessions[s];
      if row.revokedAt.Some? || row.expiresAt <= now then None
      else if csrf.Some? && csrf.value != row.csrf then None
      else if row.capability !in db.capabilities || db.capabilities[row.capability].revokedAt.Some? then None
      else if db.capabilities[row.capability].order !in db.orders
              || db.capabilities[row.capability].revision !in db.revisions then None
      else Some(row.capability)
  }

  function Refresh(db: Db, s: nat, csrf: nat, now: int): Reply {
    var scope := SessionScope(db, s, None, now);
    if scope.None? then Refuse(db, Invalid)
    else Accept(OpenSession(db.(sessions := db.sessions[s := db.sessions[s].(revokedAt := Some(now))]), scope.value, csrf, now))
  }

  /** The order and revision a receipt session may read. */
  function ViewReceipt(db: Db, s: nat, now: int): Option<(nat, nat)> {
    var scope := SessionScope(db, s, None, now);
    if scope.None? then None
    else
      var cap := db.capabilities[scope.value];
      if cap.purpose != Receipt || db.orders[cap.order].status != ClientApproved then None else Some((cap.order, cap.revision))
  }

  function ClientDecide(db: Db, s: nat, csrf: nat, o: nat, expected: nat, r: nat, hash: Artifact, decision: Decision, now: int): Reply {
    if decision !in {RequestChanges, Rejected} then Refuse(db, Invalid)
    else
      var scope := SessionScope(db, s, Some(csrf), now);
      if scope.None? then Refuse(db, Invalid)
      else
        var c := scope.value;
        var cap := db.capabilities[c];
        if cap.purpose != Review || cap.consumedAt.Some? || cap.order != o || cap.revision != r || db.revisions[r].hash != hash
        then Refuse(db, Conflict)
        else if db.orders[o].project !in db.projects then Refuse(db, Conflict)
        else if db.orders[o].rowVersion != expected then Refuse(db, Conflict)
        else if db.orders[o].status != AwaitingClient then Refuse(db, Conflict)
        else if ApprovalKey(r, Client, decision) in db.approvals then Refuse(db, Integrity)
        else
          var decided := db.(
            approvals := db.approvals[ApprovalKey(r, Client, decision) := Approval(o, hash, None, now)],
            orders := db.orders[o := Moved(db.orders[o], if decision == RequestChanges then RevisionRequested else RejectedByClient)],
            capabilities := Revoke(db.capabilities[c := cap.(consumedAt := Some(now))], o, now, false));
          Accept(WithRequest(decided, db.orders[o].request, if decision == RequestChanges then ProposalOpen else Declined))
  }

  // ---------------------------------------------------------------- acceptance

  predicate PriorAnswer(approvals: map<ApprovalKey, Approval>, r: nat, key: string) {
    exists d :: ApprovalKey(r, Client, d) in approvals && approvals[ApprovalKey(r, Client, d)].idempotencyKey == Some(key)
  }

  /** Issues a receipt capability and opens a session on it. */
  function IssueReceipt(db: Db, c: nat, csrf: nat, now: int): Db
    requires c in db.capabilities
  {
    var source := db.capabilities[c];
    OpenSession(
      db.(capabilities := db.capabilities[db.nextId := Capability(source.order, source.revision, Receipt, Some(now), Some(now + 30 * DAY), None, None)],
          nextId := db.nextId + 1),
      db.nextId, csrf, now)
  }

  ghost function ReopenReceipt(db: Db, c: nat, csrf: nat, now: int): Db
    requires c in db.capabilities
  {
    var receipts := ReceiptsFor(db.capabilities, db.capabilities[c].order, db.capabilities[c].revision);
    if MaxOf(receipts) in receipts then OpenSession(db, MaxOf(receipts), csrf, now)
    else IssueReceipt(db, c, csrf, now)
  }

  ghost function AcceptClient(db: Db, s: nat, csrf: nat, o: nat, expected: nat, r: nat, hash: Artifact, key: string,
                              linkReady: bool, newCsrf: nat, now: int): Reply {
    var scope := SessionScope(db, s, Some(csrf), now);
    if scope.None? then Refuse(db, Invalid)
    else
      var c := scope.value;
      var cap := db.capabilities[c];
      if cap.order != o || cap.revision != r || db.revisions[r].hash != hash then Refuse(db, Conflict)
      else if key == "" then Refuse(db, Invalid)
      else if db.orders[o].project !in db.projects then Refuse(db, Conflict)
      else if cap.consumedAt.Some? then
        if PriorAnswer(db.approvals, r, key) && r in db.payments then Accept(ReopenReceipt(db, c, newCsrf, now))
        else Refuse(db, Conflict)
      else if db.orders[o].rowVersion != expected then Refuse(db, Conflict)
      else if !MayAccept(db, o, r) then Refuse(db, Conflict)
      else if db.projects[db.orders[o].project].current != Some(db.revisions[r].baseline) then Refuse(db, Conflict)
      else if r in db.payments then Accept(IssueReceipt(db, c, newCsrf, now))
      else if ApprovalKey(r, Client, Approved) in db.approvals || r in db.facts || r in db.amendments then Refuse(db, Integrity)
      else if db.revisions[r].baseline !in db.versions then Refuse(db, Conflict)
      else if !linkReady then Refuse(db, Conflict)
      else Accept(Agree(db, c, key, newCsrf, now))
  }

  /** The offer awaits the client, or its exact email is on the way with no answer yet. */
  ghost predicate MayAccept(db: Db, o: nat, r: nat)
    requires o in db.orders
  {
    var found := SendsFor(db.sends, o, r);
    var action := MaxOf(found);
    || db.orders[o].status == AwaitingClient
    || (db.orders[o].status == SendPending && action in found
        && db.sends[action].action.state in {Actions.Dispatching, Actions.UnknownOutcome})
  }

  function NumbersOf(versions: map<ScopeKey, ScopeVersion>, p: nat): set<nat> {
    set k | k in versions && k.project == p :: k.number
  }

  /** The next free version number of the project. */
  ghost function NextVersion(versions: map<ScopeKey, ScopeVersion>, previous: ScopeKey, p: nat): ScopeKey {
    var top := MaxOf(NumbersOf(versions, p));
    ScopeKey(p, (if top == 0 then previous.number else top) + 1)
  }

  function ItemsOf(links: set<(ScopeKey, nat)>, k: ScopeKey): set<nat> {
    set l | l in links && l.0 == k :: l.1
  }

  function CopyLinks(links: set<(ScopeKey, nat)>, from: ScopeKey, to: ScopeKey): set<(ScopeKey, nat)> {
    links + NewLinks(to, ItemsOf(links, from))
  }

  ghost function ConfirmByReceipt(sends: map<nat, Send>, o: nat, r: nat): map<nat, Send> {
    var found := SendsFor(sends, o, r);
    var a := MaxOf(found);
    if a in found && sends[a].action.state in {Actions.Dispatching, Actions.UnknownOutcome}
    then sends[a := sends[a].(action := Actions.Apply(sends[a].action, Actions.ClientReceipt).row)]
    else sends
  }

  predicate Acceptable(db: Db, c: nat) {
    && c in db.capabilities
    && db.capabilities[c].order in db.orders
    && db.capabilities[c].revision in db.revisions
    && db.orders[db.capabilities[c].order].project in db.projects
  }

  /** One transaction: the approval, the consumed capability, the new effective scope, the
      amendment, the payment request, the revenue fact and the receipt. */
  ghost function Agree(db: Db, c: nat, key: string, csrf: nat, now: int): Db
    requires Acceptable(db, c)
  {
    IssueReceipt(WithRequest(Book(db, c, key, now), db.orders[db.capabilities[c].order].request, Resolved), c, csrf, now)
  }

  /** The client's answer: the approval, the spent link, the email's receipt and the status. */
  ghost function WithAnswer(db: Db, c: nat, key: string, now: int): Db
    requires Acceptable(db, c)
  {
    var o, r := db.capabilities[c].order, db.capabilities[c].revision;
    db.(
      approvals := db.approvals[ApprovalKey(r, Client, Approved) := Approval(o, db.revisions[r].hash, Some(key), now)],
      capabilities := db.capabilities[c := db.capabilities[c].(consumedAt := Some(now), expiresAt := Some(now + 30 * DAY))],
      sends := ConfirmByReceipt(db.sends, o, r),
      orders := db.orders[o := Moved(db.orders[o], ClientApproved)])
  }

  /** The accepted version, with the items of the baseline, becomes the project's scope. */
  function WithVersion(db: Db, p: nat, baseline: ScopeKey, next: ScopeKey, r: nat): Db
    requires p in db.projects
  {
    db.(
      versions := db.versions[next := ScopeVersion(Some(baseline), Some(r))],
      links := CopyLinks(db.links, baseline, next),
      projects := db.projects[p := db.projects[p].(current := Some(next))])
  }

  function WithDeal(db: Db, p: nat, o: nat, r: nat, next: ScopeKey): Db
    requires r in db.revisions
  {
    var rev := db.revisions[r];
    db.(
      amendments := db.amendments[r := Amendment(p, rev.baseline, next)],
      payments := db.payments[r := Payment(db.nextId, p, rev.total, rev.tax)],
      facts := db.facts[r := Fact(p, o, rev.total, rev.tax)],
      nextId := db.nextId + 1)
  }

  ghost function Book(db: Db, c: nat, key: string, now: int): Db
    requires Acceptable(db, c)
  {
    var o, r := db.capabilities[c].order, db.capabilities[c].revision;
    var p, rev := db.orders[o].project, db.revisions[r];
    var next := NextVersion(db.versions, rev.baseline, p);
    WithDeal(WithVersion(WithAnswer(db, c, key, now), p, rev.baseline, next, r), p, o, r, next)
  }

  // ---------------------------------------------------------------- expiry sweep

  function LiveReviews(caps: map<nat, Capability>, o: nat): set<nat> {
    set c | c in caps && caps[c].order == o && caps[c].purpose == Review && caps[c].revokedAt.None?
  }

  /** First pass over one offer: its latest live review link has run out. Only that one
      capability is revoked. */
  ghost function ExpireOffer(db: Db, o: nat, now: int): Db {
    var live := LiveReviews(db.capabilities, o);
    var c := MaxOf(live);
    if o !in db.orders || db.orders[o].status !in {SendPending, AwaitingClient} then db
    else if c !in live || db.capabilities[c].expiresAt.None? || db.capabilities[c].expiresAt.value > now then db
    else db.(orders := db.orders[o := Moved(db.orders[o], Expired)],
             capabilities := db.capabilities[c := db.capabilities[c].(revokedAt := Some(now))],
             sends := CancelPendingSend(db.sends, o))
  }

  /** The latest freelancer approval of the order was recorded a day ago or earlier. */
  ghost predicate ApprovedADayAgo(approvals: map<ApprovalKey, Approval>, o: nat, now: int) {
    exists k :: k in approvals && approvals[k].order == o && k.actor == Freelancer && k.decision == Approved
      && (forall j :: j in approvals && approvals[j].order == o && j.actor == Freelancer && j.decision == Approved
            ==> j.revision <= k.revision)
      && approvals[k].createdAt + DAY <= now
  }

  /** Second pass: approved a day ago and never sent. */
  ghost function ExpireUnsent(db: Db, o: nat, now: int): Db {
    var s := MaxOf(SendsOf(db.sends, o));
    if o !in db.orders || db.orders[o].status != SendPending then db
    else if s !in SendsOf(db.sends, o) || db.sends[s].action.state !in {Actions.Ready, Actions.RetryWait} then db
    else if !ApprovedADayAgo(db.approvals, o, now) then db
    else db.(orders := db.orders[o := Moved(db.orders[o], Expired)],
             sends := CancelPendingSend(db.sends, o),
             capabilities := Revoke(db.capabilities, o, now, false))
  }

  ghost function ExpireOffers(db: Db, ids: seq<nat>, now: int): Db {
    if ids == [] then db else ExpireOffer(ExpireOffers(db, ids[..|ids| - 1], now), ids[|ids| - 1], now)
  }

  ghost function ExpireUnsents(db: Db, ids: seq<nat>, now: int): Db {
    if ids == [] then db else ExpireUnsent(ExpireUnsents(db, ids[..|ids| - 1], now), ids[|ids| - 1], now)
  }

  // ---------------------------------------------------------------- sending

  /** Starts the provider call. Only the order's status is checked, not which revision the
      action belongs to. */
  ghost function BeginSend(db: Db, s: nat, commitsFailure: bool): Reply {
    if s !in db.sends then Refuse(db, NotFound)
    else if db.sends[s].payload.order !in db.orders || db.orders[db.sends[s].payload.order].status != SendPending then Refuse(db, Conflict)
    else
      var r := Actions.Apply(db.sends[s].action, Actions.Begin);
      if r.Done? then Accept(WithAction(db, s, r.row))
      else Refuse(if commitsFailure then WithAction(db, s, r.row) else db, Conflict)
  }

  function WithAction(db: Db, s: nat, a: Actions.Action): Db
    requires s in db.sends
  {
    db.(sends := db.sends[s := db.sends[s].(action := a)])
  }

  ghost function RecordSent(db: Db, s: nat, contentMatches: bool, commitsFailure: bool): Reply {
    if s !in db.sends then Refuse(db, NotFound)
    else if !contentMatches then Refuse(db, Invalid)
    else if db.sends[s].action.state == Actions.ReceiptConfirmed then Accept(db)
    else if db.sends[s].action.state !in {Actions.Dispatching, Actions.UnknownOutcome} then Refuse(db, Conflict)
    else
      var op := if db.sends[s].action.state == Actions.UnknownOutcome then Actions.LateGmailSuccess else Actions.Complete;
      var r := Actions.Apply(db.sends[s].action, op);
      if r.Raised? then Refuse(if commitsFailure then WithAction(db, s, r.row) else db, Conflict)
      else Accept(Delivered(WithAction(db, s, r.row), db.sends[s].payload.order))
  }

  /** The order now awaits the client, if it was still waiting for its email to leave. */
  function Delivered(db: Db, o: nat): Db {
    if o in db.orders && db.orders[o].status == SendPending
    then db.(orders := db.orders[o := Moved(db.orders[o], AwaitingClient)])
    else db
  }

  /** Any other action call on a send: provider answers, operator decisions, recovery. */
  ghost function SendOp(db: Db, s: nat, op: Actions.Op, commitsFailure: bool): Reply {
    if s !in db.sends || op.Begin? then Refuse(db, NotFound)
    else
      var r := Actions.Apply(db.sends[s].action, op);
      if r.Done? then Accept(WithAction(db, s, r.row))
      else Refuse(if commitsFailure then WithAction(db, s, r.row) else db, Conflict)
  }

  // ---------------------------------------------------------------- scope confirmation

  /** Candidate i becomes item base + i: one block of ids no other row has. */
  function ItemIds(chosen: set<nat>, base: nat): set<nat> {
    set i | i in chosen :: base + i
  }

  function NewItems(candidates: map<nat, Candidate>, p: nat, chosen: set<nat>, base: nat): map<nat, ScopeItem>
    requires forall i :: i in chosen ==> i in candidates
  {
    map j | j in ItemIds(chosen, base) :: ItemFrom(p, j - base, candidates[j - base])
  }

  function ItemFrom(p: nat, i: nat, c: Candidate): ScopeItem {
    ScopeItem(p, i, c.itemKey, c.itemType, c.text)
  }

  function NewLinks(to: ScopeKey, ids: set<nat>): set<(ScopeKey, nat)> {
    set j | j in ids :: (to, j)
  }

  function Confirmed(candidates: map<nat, Candidate>, chosen: set<nat>): map<nat, Candidate> {
    map i | i in candidates :: if i in chosen then candidates[i].(confirmed := true) else candidates[i]
  }

  ghost function ConfirmScope(db: Db, p: nat, chosen: set<nat>): Reply {
    if p !in db.projects then Refuse(db, NotFound)
    else if chosen == {} then Refuse(db, Invalid)
    else if exists i :: i in chosen && (i !in db.candidates || db.candidates[i].project != p) then Refuse(db, Unauthorized)
    else if exists i :: i in chosen && db.candidates[i].rejected then Refuse(db, Conflict)
    else Accept(WithScope(db, p, chosen))
  }

  /** One new scope version of exactly the chosen candidates. */
  ghost function WithScope(db: Db, p: nat, chosen: set<nat>): Db
    requires p in db.projects && forall i :: i in chosen ==> i in db.candidates
  {
    var next := ScopeKey(p, MaxOf(NumbersOf(db.versions, p)) + 1);
    db.(
      items := db.items + NewItems(db.candidates, p, chosen, db.nextId),
      versions := db.versions[next := ScopeVersion(db.projects[p].current, None)],
      links := db.links + NewLinks(next, ItemIds(chosen, db.nextId)),
      candidates := Confirmed(db.candidates, chosen),
      projects := db.projects[p := Project(Some(next), true)],
      nextId := db.nextId + MaxOf(chosen) + 1)
  }
}
