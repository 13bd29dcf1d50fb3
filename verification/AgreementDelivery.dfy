/** What starting and recording an email changes, and exactly when it goes through. */
module AgreementDelivery {
  import opened Common
  import opened ChangeOrders
  import opened AgreementRules
  import opened AgreementOutcomes
  import Actions

  /** Only this send's action changed. */
  predicate ActionMoved(a: Db, b: Db, s: nat, action: Actions.Action) {
    s in a.sends && b == a.(sends := a.sends[s := Send(a.sends[s].order, a.sends[s].revision, a.sends[s].payload, action)])
  }

  predicate IsPending(db: Db, o: nat) { o in db.orders && db.orders[o].status == SendPending }

  lemma PayloadNamesOrder(db: Db, s: nat)
    requires Inv(db) && s in db.sends
    ensures db.sends[s].payload.order == db.sends[s].order && db.sends[s].order in db.orders
  {}

  /** An email starts to leave exactly while its order is pending, it waits, and one of its three
      attempts is left; that starts the next attempt. A committed failure for want of attempts
      leaves the action dispatching without one. */
  lemma BeginSendIff(db: Db, s: nat, commitsFailure: bool)
    requires Inv(db)
    ensures var reply := BeginSend(db, s, commitsFailure);
            && (reply.error.None? <==>
                  && s in db.sends && IsPending(db, db.sends[s].order) && db.sends[s].action.state in {Actions.Ready, Actions.RetryWait}
                  && MaxKey(db.sends[s].action.attempts) < 3)
            && (reply.error.None? ==>
                  var attempts := db.sends[s].action.attempts;
                  ActionMoved(db, reply.db, s, Actions.Action(Actions.Dispatching, attempts[MaxKey(attempts) + 1 := Actions.Dispatching])))
            && (reply.error.Some? ==>
                  if commitsFailure && s in db.sends && IsPending(db, db.sends[s].order) && db.sends[s].action.state in {Actions.Ready, Actions.RetryWait}
                  then ActionMoved(db, reply.db, s, Actions.Action(Actions.Dispatching, db.sends[s].action.attempts))
                  else reply.db == db)
            && (reply.error.Some? ==> reply.error.value == if s in db.sends then Conflict else NotFound)
  {
    hide Inv, MaxKey;
    if s in db.sends { PayloadNamesOrder(db, s); }
  }

  /** A delivery is recorded exactly if it is the approved content and its outcome is open, or the
      client has confirmed it already; then the order awaits the client if it was pending. */
  lemma DeliveryIff(db: Db, s: nat, contentMatches: bool, commitsFailure: bool)
    requires Inv(db)
    ensures var reply := RecordSent(db, s, contentMatches, commitsFailure);
            && (reply.error.None? <==>
                  && s in db.sends && contentMatches
                  && (db.sends[s].action.state in {Actions.ReceiptConfirmed, Actions.UnknownOutcome}
                      || (db.sends[s].action.state == Actions.Dispatching && db.sends[s].action.attempts != map[])))
            && (reply.error.None? ==>
                  if db.sends[s].action.state == Actions.ReceiptConfirmed then reply.db == db else Recorded(db, reply.db, s))
            && (reply.error.Some? && !commitsFailure ==> reply.db == db)
            && (reply.error.Some? ==> reply.error.value == if s !in db.sends then NotFound else if !contentMatches then Invalid else Conflict)
  {
    hide Inv, Actions.Apply, Recorded, Delivered, Delivers;
    if s in db.sends {
      var a := db.sends[s].action;
      AnswerOutcome(a);
      PayloadNamesOrder(db, s);
      if a.state == Actions.UnknownOutcome { RecordOutcome(db, s, Actions.Apply(a, Actions.LateGmailSuccess).row); }
      if a.state == Actions.Dispatching && a.attempts != map[] { RecordOutcome(db, s, Actions.Apply(a, Actions.Complete).row); }
    }
  }

  /** The action delivered, and the order moved on if it was pending. */
  predicate Recorded(a: Db, b: Db, s: nat) {
    && s in a.sends && s in b.sends && Delivers(a.sends[s].action, b.sends[s].action)
    && b.sends == a.sends[s := Send(a.sends[s].order, a.sends[s].revision, a.sends[s].payload, b.sends[s].action)]
    && (if IsPending(a, a.sends[s].order) then OrderMoved(a, b, a.sends[s].order, AwaitingClient) else b.orders == a.orders)
    && b == a.(orders := b.orders, sends := b.sends)
  }

  lemma RecordOutcome(db: Db, s: nat, row: Actions.Action)
    requires s in db.sends && db.sends[s].payload.order == db.sends[s].order && Delivers(db.sends[s].action, row)
    ensures Recorded(db, ChangeOrders.Delivered(WithAction(db, s, row), db.sends[s].payload.order), s)
  {
    hide Delivers;
  }

  /** The provider's answer, in time or late. */
  lemma AnswerOutcome(a: Actions.Action)
    ensures a.state == Actions.UnknownOutcome ==>
              Actions.Apply(a, Actions.LateGmailSuccess).Done? && Delivers(a, Actions.Apply(a, Actions.LateGmailSuccess).row)
    ensures a.state == Actions.Dispatching ==>
              && (Actions.Apply(a, Actions.Complete).Done? <==> a.attempts != map[])
              && (a.attempts != map[] ==> Delivers(a, Actions.Apply(a, Actions.Complete).row))
  {
    hide MaxKey;
    var n := MaxKey(a.attempts);
    assert a.attempts != map[] <==> n in a.attempts;
  }

  /** The action succeeded and so did its latest attempt, if it has one. */
  predicate Delivers(was: Actions.Action, after: Actions.Action) {
    && after.state == Actions.Succeeded && after.attempts.Keys == was.attempts.Keys
    && forall n :: n in was.attempts ==>
         after.attempts[n] == if forall m :: m in was.attempts ==> m <= n then Actions.Succeeded else was.attempts[n]
  }
}
