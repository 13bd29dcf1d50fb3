/** External provider actions: the transition table, numbered dispatch attempts, and the
    direct state writes other services make outside that table. */
module Actions {
  import opened Common

  datatype ActionState =
    | Ready | Dispatching | RetryWait | Succeeded
    | UnknownOutcome | ReviewRequired | ReceiptConfirmed | Cancelled

  const MAX_ATTEMPTS: nat := 3

  /** The legal targets of each state. */
  function Edges(s: ActionState): set<ActionState> {
    match s
    case Ready => {Dispatching, Cancelled}
    case Dispatching => {Succeeded, RetryWait, UnknownOutcome, ReviewRequired}
    case RetryWait => {Dispatching, Cancelled}
    case Succeeded => {ReceiptConfirmed}
    case UnknownOutcome => {ReceiptConfirmed, ReviewRequired, RetryWait}
    case ReviewRequired => {ReceiptConfirmed, RetryWait, Cancelled}
    case ReceiptConfirmed => {}
    case Cancelled => {}
  }

  /** An action row with its attempt rows, keyed by attempt number. */
  datatype Action = Action(state: ActionState, attempts: map<nat, ActionState>)

  const NEW_ACTION := Action(Ready, map[])

  /** How a call ends. `Raised` carries the row as the session holds it when the exception
      leaves: a worker that commits after the failure makes those writes durable. */
  datatype Outcome = Done(row: Action) | Raised(row: Action)

  datatype Op =
    | Begin
    | Complete
    | MarkReview
    | MarkUnknown
    | MarkRetry
    | Retry(acknowledged: bool)
    | Confirm
    | Cancel
    | ClientReceipt      // acceptance reached us before the provider's answer
    | LateGmailSuccess   // the provider's answer arrives after the action went uncertain
    | LateSesSuccess
    | AmbiguousMatches   // reconciliation found several exact provider messages

  /** Overwrites the state of the latest attempt, if there is one. */
  ghost function SetLast(attempts: map<nat, ActionState>, s: ActionState): map<nat, ActionState> {
    var n := MaxKey(attempts);
    if n in attempts then attempts[n := s] else attempts
  }

  ghost function Transition(a: Action, target: ActionState): Outcome {
    if target in Edges(a.state) then Done(a.(state := target)) else Raised(a)
  }

  ghost function BeginDispatch(a: Action): Outcome {
    var t := Transition(a, Dispatching);
    if t.Raised? then t
    else
      var n := MaxKey(a.attempts) + 1;
      if n > MAX_ATTEMPTS then Raised(t.row)
      else Done(t.row.(attempts := t.row.attempts[n := Dispatching]))
  }

  ghost function Apply(a: Action, op: Op): Outcome {
    match op
    case Begin => BeginDispatch(a)
    case Complete =>
      var t := Transition(a, Succeeded);
      if t.Raised? then t
      else if a.attempts == map[] then Raised(t.row)
      else Done(t.row.(attempts := SetLast(t.row.attempts, Succeeded)))
    case MarkReview =>
      var t := Transition(a, ReviewRequired);
      if t.Raised? then t else Done(t.row.(attempts := SetLast(t.row.attempts, ReviewRequired)))
    case MarkUnknown =>
      var t := Transition(a, UnknownOutcome);
      if t.Raised? then t else Done(t.row.(attempts := SetLast(t.row.attempts, UnknownOutcome)))
    case MarkRetry =>
      var t := Transition(a, RetryWait);
      if t.Raised? then t else Done(t.row.(attempts := SetLast(t.row.attempts, RetryWait)))
    case Retry(acknowledged) =>
      if a.state !in {UnknownOutcome, ReviewRequired} || !acknowledged then Raised(a)
      else Transition(a, RetryWait)
    case Confirm => Transition(a, ReceiptConfirmed)
    case Cancel => Transition(a, Cancelled)
    case ClientReceipt =>
      if a.state in {Dispatching, UnknownOutcome} then Done(a.(state := ReceiptConfirmed)) else Raised(a)
    case LateGmailSuccess =>
      if a.state == UnknownOutcome then Done(Action(Succeeded, SetLast(a.attempts, Succeeded))) else Raised(a)
    case LateSesSuccess =>
      if a.state == UnknownOutcome then Done(a.(state := Succeeded)) else Raised(a)
    case AmbiguousMatches =>
      if a.state == UnknownOutcome then Transition(a, ReviewRequired) else Raised(a)
  }

  // ---------------------------------------------------------------- histories

  /** What an outside observer can say happened to an action. */
  datatype Event =
    | Began(number: nat)       // attempt `number` started dispatching
    | Uncertain(number: nat)   // attempt `number` was marked unknown or review-required
    | Acked(number: nat)       // an operator accepted the duplicate risk after attempt `number`

  datatype History = History(row: Action, log: seq<Event>)

  const NEW_HISTORY := History(NEW_ACTION, [])

  ghost function EventsOf(a: Action, op: Op): seq<Event> {
    var n := MaxKey(a.attempts);
    match op
    case Begin => [Began(n + 1)]
    case MarkReview => [Uncertain(n)]
    case MarkUnknown => [Uncertain(n)]
    case Retry(_) => [Acked(n)]
    case _ => []
  }

  /** One call. A raising call leaves the row alone when the caller rolls back, and leaves the
      session's row behind when the caller commits anyway. */
  ghost function Step(h: History, op: Op, commitsFailure: bool): History {
    match Apply(h.row, op)
    case Done(row) => History(row, h.log + EventsOf(h.row, op))
    case Raised(row) => if commitsFailure then h.(row := row) else h
  }

  datatype Call = Call(op: Op, commitsFailure: bool)

  ghost predicate IsRun(run: seq<History>, calls: seq<Call>) {
    && |run| == |calls| + 1
    && run[0] == NEW_HISTORY
    && forall i :: 0 <= i < |calls| ==> run[i + 1] == Step(run[i], calls[i].op, calls[i].commitsFailure)
  }

  predicate IsUncertain(s: ActionState) { s in {UnknownOutcome, ReviewRequired} }

  /** Events carry the number of the latest attempt, and a start is later than every event of
      the attempts before it. */
  ghost predicate Chronological(log: seq<Event>, n: nat) {
    && (forall i :: 0 <= i < |log| ==> 1 <= log[i].number <= n)
    && (forall i, j :: 0 <= i < j < |log| ==> log[i].number <= log[j].number)
    && (forall i, j :: 0 <= i < j < |log| && log[j].Began? ==> log[i].number < log[j].number)
  }

  /** Attempts are numbered 1..n without gaps. */
  ghost predicate Numbered(a: Action) {
    forall k: nat :: k in a.attempts <==> 1 <= k <= MaxKey(a.attempts)
  }

  ghost predicate RowOk(a: Action) {
    var n := MaxKey(a.attempts);
    && Numbered(a)
    && n <= MAX_ATTEMPTS
    && (a.state == Ready ==> n == 0)
    && (a.state !in {Ready, Cancelled} ==> n >= 1)
    && (forall k :: k in a.attempts && a.attempts[k] == Succeeded ==> k == n && a.state in {Succeeded, ReceiptConfirmed})
    && (forall k :: k in a.attempts && k < n ==> a.attempts[k] == RetryWait || IsUncertain(a.attempts[k]))
    && (a.state == Dispatching && n < MAX_ATTEMPTS ==> a.attempts[n] == Dispatching)
    && (a.state == RetryWait ==> a.attempts[n] == RetryWait || IsUncertain(a.attempts[n]))
    && (IsUncertain(a.state) ==> IsUncertain(a.attempts[n]))
  }

  ghost predicate LogOk(a: Action, log: seq<Event>) {
    var n := MaxKey(a.attempts);
    && Chronological(log, n)
    && (forall k: nat :: 1 <= k <= n ==> Began(k) in log)
    && (forall k :: k in a.attempts && IsUncertain(a.attempts[k]) && (k < n || a.state == RetryWait) ==> Acked(k) in log)
  }

  ghost predicate Invariant(h: History) { RowOk(h.row) && LogOk(h.row, h.log) }

  lemma SetLastKeepsNumbers(attempts: map<nat, ActionState>, s: ActionState)
    ensures SetLast(attempts, s).Keys == attempts.Keys
    ensures MaxKey(SetLast(attempts, s)) == MaxKey(attempts)
  {
    if attempts != map[] { MaxKeyIs(SetLast(attempts, s), MaxKey(attempts)); }
  }

  lemma BeginKeepsRow(a: Action)
    requires RowOk(a)
    ensures RowOk(BeginDispatch(a).row)
    ensures BeginDispatch(a).Done? ==> MaxKey(BeginDispatch(a).row.attempts) == MaxKey(a.attempts) + 1
  {
    var r := BeginDispatch(a);
    if r.Done? {
      MaxKeyIs(r.row.attempts, MaxKey(a.attempts) + 1);
    }
  }

  /** Rewriting the latest attempt together with the state. */
  lemma RelabelKeepsRow(a: Action, t: ActionState, s: ActionState)
    requires RowOk(a) && t !in {Ready, Dispatching, Cancelled} && a.attempts != map[]
    requires (t == RetryWait ==> s == RetryWait) && (IsUncertain(t) ==> s == t) && (s == Succeeded ==> t == Succeeded)
    ensures RowOk(Action(t, SetLast(a.attempts, s)))
  {
    SetLastKeepsNumbers(a.attempts, s);
  }

  /** Changing the state alone. */
  lemma RestateKeepsRow(a: Action, t: ActionState)
    requires RowOk(a) && t !in {Ready, Dispatching} && (t == Cancelled || a.attempts != map[])
    requires t in {RetryWait, ReviewRequired, UnknownOutcome} ==> IsUncertain(a.state)
    requires a.state in {Succeeded, ReceiptConfirmed} ==> t == ReceiptConfirmed
    ensures RowOk(a.(state := t))
  {}

  lemma OpKeepsNumbers(a: Action, op: Op)
    requires !op.Begin?
    ensures MaxKey(Apply(a, op).row.attempts) == MaxKey(a.attempts)
    ensures forall k :: k in a.attempts && k < MaxKey(a.attempts) ==>
              k in Apply(a, op).row.attempts && Apply(a, op).row.attempts[k] == a.attempts[k]
    ensures Apply(a, op).row.attempts.Keys == a.attempts.Keys
    ensures Apply(a, op).Raised? ==> Apply(a, op).row.attempts == a.attempts
  {
    forall s { SetLastKeepsNumbers(a.attempts, s); }
  }

  lemma HasAttempt(a: Action)
    requires RowOk(a)
    ensures a.state !in {Ready, Cancelled} ==> a.attempts != map[]
    ensures a.state == Ready ==> a.attempts == map[]
  {}

  lemma OpKeepsRow(a: Action, op: Op)
    requires RowOk(a) && !op.Begin?
    ensures RowOk(Apply(a, op).row)
    ensures MaxKey(Apply(a, op).row.attempts) == MaxKey(a.attempts)
    ensures forall k :: k in a.attempts && k < MaxKey(a.attempts) ==>
              k in Apply(a, op).row.attempts && Apply(a, op).row.attempts[k] == a.attempts[k]
    ensures Apply(a, op).Raised? ==> Apply(a, op).row == a
  {
    hide RowOk, SetLast;
    HasAttempt(a);
    OpKeepsNumbers(a, op);
    if Apply(a, op).Done? {
      var t := Apply(a, op).row.state;
      match op
      case Complete => RelabelKeepsRow(a, Succeeded, Succeeded);
      case MarkReview => RelabelKeepsRow(a, ReviewRequired, ReviewRequired);
      case MarkUnknown => RelabelKeepsRow(a, UnknownOutcome, UnknownOutcome);
      case MarkRetry => RelabelKeepsRow(a, RetryWait, RetryWait);
      case LateGmailSuccess => RelabelKeepsRow(a, Succeeded, Succeeded);
      case _ => RestateKeepsRow(a, t);
    }
  }

  lemma AppendKeepsOrder(log: seq<Event>, n: nat, e: Event, n': nat)
    requires Chronological(log, n)
    requires n <= n' && 1 <= e.number == n' && (e.Began? ==> n < n')
    ensures Chronological(log + [e], n')
  {}

  lemma InAppend(log: seq<Event>, more: seq<Event>)
    ensures forall x :: x in log + more <==> x in log || x in more
  {}

  lemma BeginKeepsAcks(a: Action, a': Action)
    requires RowOk(a) && BeginDispatch(a) == Done(a')
    ensures forall k :: k in a'.attempts && IsUncertain(a'.attempts[k]) ==>
              k in a.attempts && a'.attempts[k] == a.attempts[k] && (k < MaxKey(a.attempts) || a.state == RetryWait)
  {}

  lemma BeginKeepsLog(a: Action, a': Action, log: seq<Event>)
    requires RowOk(a) && LogOk(a, log) && BeginDispatch(a) == Done(a')
    ensures LogOk(a', log + [Began(MaxKey(a.attempts) + 1)])
  {
    hide MaxKey, Chronological;
    var n := MaxKey(a.attempts);
    BeginKeepsRow(a);
    BeginKeepsAcks(a, a');
    AppendKeepsOrder(log, n, Began(n + 1), n + 1);
    InAppend(log, [Began(n + 1)]);
  }

  /** An operation that starts no attempt: only the latest attempt may change, and entering
      the retry state with an uncertain attempt must come with its acknowledgement. */
  lemma OpKeepsLog(a: Action, a': Action, log: seq<Event>, more: seq<Event>)
    requires LogOk(a, log) && MaxKey(a'.attempts) == MaxKey(a.attempts)
    requires a'.attempts.Keys == a.attempts.Keys
    requires forall k :: k in a.attempts && k < MaxKey(a.attempts) ==> a'.attempts[k] == a.attempts[k]
    requires more == [] || (|more| == 1 && !more[0].Began? && more[0].number == MaxKey(a.attempts) >= 1)
    requires var n := MaxKey(a.attempts);
             a'.state == RetryWait && n in a'.attempts && IsUncertain(a'.attempts[n]) ==> Acked(n) in log + more
    ensures LogOk(a', log + more)
  {
    var n := MaxKey(a.attempts);
    if more == [] {
      assert log + more == log;
    } else {
      AppendKeepsOrder(log, n, more[0], n);
      assert more == [more[0]];
    }
    InAppend(log, more);
  }

  lemma BeginKeepsInvariant(h: History, commitsFailure: bool)
    requires Invariant(h)
    ensures Invariant(Step(h, Begin, commitsFailure))
  {
    hide MaxKey, RowOk, LogOk;
    BeginKeepsRow(h.row);
    var r := Apply(h.row, Begin);
    if r.Done? { BeginKeepsLog(h.row, r.row, h.log); } else { AttemptsStay(h.row, r.row, h.log); }
  }

  /** A start that is refused for want of attempts changes the state alone. */
  lemma AttemptsStay(a: Action, a': Action, log: seq<Event>)
    requires LogOk(a, log) && a'.attempts == a.attempts && (a'.state == RetryWait ==> a.state == RetryWait)
    ensures LogOk(a', log)
  {}

  lemma OpKeepsInvariant(h: History, op: Op, commitsFailure: bool)
    requires Invariant(h) && !op.Begin?
    ensures Invariant(Step(h, op, commitsFailure))
  {
    hide MaxKey, LogOk;
    OpKeepsRow(h.row, op);
    var r := Apply(h.row, op);
    if r.Done? {
      OpKeepsNumbers(h.row, op);
      OpKeepsLog(h.row, r.row, h.log, EventsOf(h.row, op));
    }
  }

  lemma StepKeepsInvariant(h: History, op: Op, commitsFailure: bool)
    requires Invariant(h)
    ensures Invariant(Step(h, op, commitsFailure))
  {
    hide Invariant, Step;
    if op.Begin? { BeginKeepsInvariant(h, commitsFailure); } else { OpKeepsInvariant(h, op, commitsFailure); }
  }

  lemma {:induction false} RunKeepsInvariant(run: seq<History>, calls: seq<Call>, i: nat)
    requires IsRun(run, calls) && i < |run|
    ensures Invariant(run[i])
  {
    if i > 0 {
      RunKeepsInvariant(run, calls, i - 1);
      StepKeepsInvariant(run[i - 1], calls[i - 1].op, calls[i - 1].commitsFailure);
    }
  }

  // ---------------------------------------------------------------- what every run keeps

  /** In every run, attempts are numbered 1..n with n at most three, only the last one can be
      recorded as succeeded, and a later attempt follows a recorded uncertain one only if the
      operator's own acknowledgement lies between the two starts. */
  lemma AttemptDiscipline(run: seq<History>, calls: seq<Call>, i: nat)
    requires IsRun(run, calls) && i < |run|
    ensures var row, log := run[i].row, run[i].log;
            var n := MaxKey(row.attempts);
            && n <= 3
            && (forall k: nat :: k in row.attempts <==> 1 <= k <= n)
            && (forall k :: k in row.attempts && row.attempts[k] == Succeeded ==> k == n)
            && (forall k :: k in row.attempts && k < n && IsUncertain(row.attempts[k]) ==> AckedBetween(log, k))
  {
    RunKeepsInvariant(run, calls, i);
    var row, log := run[i].row, run[i].log;
    forall k | k in row.attempts && k < MaxKey(row.attempts) && IsUncertain(row.attempts[k])
      ensures AckedBetween(log, k)
    {
      LocateAck(log, MaxKey(row.attempts), k);
    }
  }

  /** Some acknowledgement of attempt k lies between the starts of attempts k and k + 1. */
  ghost predicate AckedBetween(log: seq<Event>, k: nat) {
    exists i, j, l ::
      0 <= i < j < l < |log| && log[i] == Began(k) && log[j] == Acked(k) && log[l] == Began(k + 1)
  }

  lemma LocateAck(log: seq<Event>, n: nat, k: nat)
    requires Chronological(log, n)
    requires Began(k) in log && Acked(k) in log && Began(k + 1) in log
    ensures AckedBetween(log, k)
  {
    var i :| 0 <= i < |log| && log[i] == Began(k);
    var j :| 0 <= j < |log| && log[j] == Acked(k);
    var l :| 0 <= l < |log| && log[l] == Began(k + 1);
    assert i != j && j != l;
    assert i < j < l;
  }

  predicate IsSettled(s: ActionState) { s in {Succeeded, ReceiptConfirmed} }

  lemma SettledStep(h: History, op: Op, commitsFailure: bool)
    requires IsSettled(h.row.state)
    ensures var h' := Step(h, op, commitsFailure);
            IsSettled(h'.row.state) && h'.row.attempts == h.row.attempts && h'.log == h.log
  {}

  /** A settled action stays settled, and no attempt is ever added or rewritten again. */
  lemma {:induction false} SettledNeverDispatchesAgain(run: seq<History>, calls: seq<Call>, i: nat, j: nat)
    requires IsRun(run, calls) && i <= j < |run|
    requires IsSettled(run[i].row.state)
    ensures IsSettled(run[j].row.state)
    ensures run[j].row.attempts == run[i].row.attempts && run[j].log == run[i].log
  {
    if i < j {
      SettledNeverDispatchesAgain(run, calls, i, j - 1);
      SettledStep(run[j - 1], calls[j - 1].op, calls[j - 1].commitsFailure);
    }
  }

  // ---------------------------------------------------------------- retries without a provider answer

  /** `mark_action_retry` only checks the table, so it also frees an uncertain action: it skips
      the acknowledgement exactly when the action is not dispatching. */
  lemma MarkRetrySkipsAcknowledgementIff(a: Action)
    ensures Apply(a, MarkRetry).Done? <==> a.state == Dispatching || IsUncertain(a.state)
    ensures Apply(a, MarkRetry).Done? ==>
              (Apply(a, Retry(false)).Raised? && Apply(a, Retry(true)).Done? <==> a.state != Dispatching)
  {}

  /** The dispatchers call `mark_action_retry` only while they are dispatching. */
  ghost predicate Disciplined(run: seq<History>, calls: seq<Call>)
    requires IsRun(run, calls)
  {
    forall i :: 0 <= i < |calls| && calls[i].op == MarkRetry ==> run[i].row.state == Dispatching
  }

  /** Every attempt ever marked uncertain is acknowledged before the action can move on. */
  ghost predicate UncertaintyOk(h: History) {
    var n := MaxKey(h.row.attempts);
    forall k: nat :: Uncertain(k) in h.log && (k < n || h.row.state in {Dispatching, RetryWait}) ==> Acked(k) in h.log
  }

  lemma DisciplinedBegin(h: History, commitsFailure: bool)
    requires Invariant(h) && UncertaintyOk(h)
    ensures UncertaintyOk(Step(h, Begin, commitsFailure))
  {
    BeginKeepsRow(h.row);
    if Apply(h.row, Begin).Done? { InAppend(h.log, EventsOf(h.row, Begin)); }
  }

  /** What a call other than a start does to the state and to the log of acknowledgements. */
  lemma DisciplinedOp(h: History, op: Op, commitsFailure: bool)
    requires Invariant(h) && UncertaintyOk(h) && !op.Begin?
    requires op == MarkRetry ==> h.row.state == Dispatching
    ensures UncertaintyOk(Step(h, op, commitsFailure))
  {
    OpKeepsNumbers(h.row, op);
    if Apply(h.row, op).Done? { InAppend(h.log, EventsOf(h.row, op)); }
  }

  lemma DisciplinedStep(h: History, op: Op, commitsFailure: bool)
    requires Invariant(h) && UncertaintyOk(h)
    requires op == MarkRetry ==> h.row.state == Dispatching
    ensures UncertaintyOk(Step(h, op, commitsFailure))
  {
    hide Invariant, UncertaintyOk, Step;
    if op.Begin? { DisciplinedBegin(h, commitsFailure); } else { DisciplinedOp(h, op, commitsFailure); }
  }

  /** In a disciplined run, no attempt follows one that was ever marked unknown or
      review-required without that attempt's own acknowledgement in between. */
  lemma {:induction false} NoBlindResend(run: seq<History>, calls: seq<Call>, i: nat)
    requires IsRun(run, calls) && Disciplined(run, calls) && i < |run|
    ensures UncertaintyOk(run[i])
    ensures forall k: nat :: Uncertain(k) in run[i].log && Began(k + 1) in run[i].log ==> AckedBetween(run[i].log, k)
  {
    if i > 0 {
      NoBlindResend(run, calls, i - 1);
      RunKeepsInvariant(run, calls, i - 1);
      DisciplinedStep(run[i - 1], calls[i - 1].op, calls[i - 1].commitsFailure);
    }
    RunKeepsInvariant(run, calls, i);
    var log := run[i].log;
    forall k: nat | Uncertain(k) in log && Began(k + 1) in log ensures AckedBetween(log, k) {
      assert 1 <= Uncertain(k).number && Began(k + 1).number <= MaxKey(run[i].row.attempts);
      LocateAck(log, MaxKey(run[i].row.attempts), k);
    }
  }

  lemma {:induction false} LogGrows(run: seq<History>, calls: seq<Call>, i: nat, j: nat)
    requires IsRun(run, calls) && i <= j < |run|
    ensures forall e :: e in run[i].log ==> e in run[j].log
  {
    hide Apply;
    if i < j {
      LogGrows(run, calls, i, j - 1);
      InAppend(run[j - 1].log, EventsOf(run[j - 1].row, calls[j - 1].op));
    }
  }

  /** In a disciplined run, an action that was once marked uncertain at attempt n starts no
      further attempt before that attempt's own acknowledgement. */
  lemma UncertainWaitsForAcknowledgement(run: seq<History>, calls: seq<Call>, i: nat, j: nat, n: nat)
    requires IsRun(run, calls) && Disciplined(run, calls) && i <= j < |run|
    requires Uncertain(n) in run[i].log && MaxKey(run[j].row.attempts) > n
    ensures AckedBetween(run[j].log, n)
  {
    hide IsRun, Disciplined, AckedBetween;
    LogGrows(run, calls, i, j);
    RunKeepsInvariant(run, calls, j);
    NoBlindResend(run, calls, j);
  }

  /** The log misses nothing: it has the start of every attempt, every attempt that was recorded
      as uncertain, and an acknowledgement for each call that gave one. */
  lemma {:induction false} LogIsComplete(run: seq<History>, calls: seq<Call>, i: nat)
    requires IsRun(run, calls) && i < |run|
    ensures forall k :: k in run[i].row.attempts ==> Began(k) in run[i].log
    ensures forall k :: k in run[i].row.attempts && IsUncertain(run[i].row.attempts[k]) ==> Uncertain(k) in run[i].log
    ensures i > 0 && calls[i - 1].op.Retry? && Apply(run[i - 1].row, calls[i - 1].op).Done? ==>
              run[i].log == run[i - 1].log + [Acked(MaxKey(run[i].row.attempts))]
  {
    RunKeepsInvariant(run, calls, i);
    if i > 0 {
      hide IsRun;
      LogIsComplete(run, calls, i - 1);
      RunKeepsInvariant(run, calls, i - 1);
      UncertainIsLogged(run[i - 1], calls[i - 1].op, calls[i - 1].commitsFailure);
    }
  }

  lemma UncertainIsLogged(h: History, op: Op, commitsFailure: bool)
    requires Invariant(h) && forall k :: k in h.row.attempts && IsUncertain(h.row.attempts[k]) ==> Uncertain(k) in h.log
    ensures var h' := Step(h, op, commitsFailure);
            forall k :: k in h'.row.attempts && IsUncertain(h'.row.attempts[k]) ==> Uncertain(k) in h'.log
    ensures op.Retry? && Apply(h.row, op).Done? ==> Step(h, op, commitsFailure).log == h.log + [Acked(MaxKey(Step(h, op, commitsFailure).row.attempts))]
  {
    hide RowOk, LogOk, MaxKey;
    CallTable(h.row, op);
    if !op.Begin? { OpKeepsNumbers(h.row, op); }
    if Apply(h.row, op).Done? { InAppend(h.log, EventsOf(h.row, op)); }
  }

  const ONE_BEGUN := Action(Dispatching, map[1 := Dispatching])
  const ONE_UNKNOWN := Action(UnknownOutcome, map[1 := UnknownOutcome])
  const ONE_WAITING := Action(RetryWait, map[1 := RetryWait])
  const TWO_BEGUN := Action(Dispatching, map[1 := RetryWait, 2 := Dispatching])

  lemma FirstCalls()
    ensures MaxKey(NEW_ACTION.attempts) == 0 && Apply(NEW_ACTION, Begin) == Done(ONE_BEGUN)
    ensures MaxKey(ONE_BEGUN.attempts) == 1 && Apply(ONE_BEGUN, MarkUnknown) == Done(ONE_UNKNOWN)
  {
    MaxKeyIs(ONE_BEGUN.attempts, 1);
  }

  lemma NextCalls()
    ensures Apply(ONE_UNKNOWN, MarkRetry) == Done(ONE_WAITING)
    ensures MaxKey(ONE_WAITING.attempts) == 1 && Apply(ONE_WAITING, Begin) == Done(TWO_BEGUN)
  {
    MaxKeyIs(ONE_UNKNOWN.attempts, 1);
    MaxKeyIs(ONE_WAITING.attempts, 1);
  }

  /** Without that discipline it may: begun, marked unknown, marked for retry, begun again. */
  lemma UndisciplinedResend() returns (run: seq<History>, calls: seq<Call>)
    ensures IsRun(run, calls) && !Disciplined(run, calls)
    ensures calls == [Call(Begin, false), Call(MarkUnknown, false), Call(MarkRetry, false), Call(Begin, false)]
    ensures run[4].log == [Began(1), Uncertain(1), Began(2)] && !AckedBetween(run[4].log, 1)
  {
    hide Apply, MaxKey;
    FirstCalls();
    NextCalls();
    calls := [Call(Begin, false), Call(MarkUnknown, false), Call(MarkRetry, false), Call(Begin, false)];
    run := [NEW_HISTORY, History(ONE_BEGUN, [Began(1)]), History(ONE_UNKNOWN, [Began(1), Uncertain(1)]),
            History(ONE_WAITING, [Began(1), Uncertain(1)]), History(TWO_BEGUN, [Began(1), Uncertain(1), Began(2)])];
    assert calls[2].op == MarkRetry && run[2].row.state == UnknownOutcome;
  }

  // ---------------------------------------------------------------- what a caller of these operations may rely on

  lemma CallKeepsRow(a: Action, op: Op)
    requires RowOk(a)
    ensures RowOk(Apply(a, op).row)
  {
    hide RowOk;
    if op.Begin? { BeginKeepsRow(a); } else { OpKeepsRow(a, op); }
  }

  lemma NewActionOk()
    ensures RowOk(NEW_ACTION)
  {}

  /** The last attempt is uncertain and the action may nevertheless be dispatched: its
      acknowledgement was given. */
  ghost predicate IsCleared(a: Action) {
    a.state == RetryWait && MaxKey(a.attempts) in a.attempts && IsUncertain(a.attempts[MaxKey(a.attempts)])
  }

  /** An attempt that was uncertain and was followed by another one. */
  ghost predicate IsPassed(a: Action, k: nat) {
    k in a.attempts && k < MaxKey(a.attempts) && IsUncertain(a.attempts[k])
  }

  /** Between the two rows no acknowledgement was given: an uncertain attempt was passed only if
      it was already, or if it had been cleared before. */
  ghost predicate Unacknowledged(a: Action, b: Action) {
    && (forall k :: IsPassed(b, k) ==> IsPassed(a, k) || (IsCleared(a) && k == MaxKey(a.attempts)))
    && (IsCleared(b) ==> IsCleared(a) && MaxKey(b.attempts) == MaxKey(a.attempts))
  }

  lemma UnacknowledgedTrans(a: Action, b: Action, c: Action)
    requires Unacknowledged(a, b) && Unacknowledged(b, c)
    ensures Unacknowledged(a, c)
  {
    hide IsPassed, IsCleared;
  }

  lemma UnacknowledgedSame(a: Action)
    ensures Unacknowledged(a, a)
  {}

  /** Only an acknowledged retry acknowledges. */
  lemma CallIsUnacknowledged(a: Action, op: Op)
    requires RowOk(a) && op != Retry(true)
    ensures Unacknowledged(a, Apply(a, op).row)
  {
    var b := Apply(a, op).row;
    if op.Begin? {
      BeginKeepsRow(a);
    } else {
      OpKeepsNumbers(a, op);
    }
  }

  // ---------------------------------------------------------------- what each call does, call by call

  /** The states from which a call goes through. */
  predicate Allows(s: ActionState, op: Op) {
    match op
    case Begin => s in {Ready, RetryWait}
    case Complete => s == Dispatching
    case MarkReview => s in {Dispatching, UnknownOutcome}
    case MarkUnknown => s == Dispatching
    case MarkRetry => s in {Dispatching, UnknownOutcome, ReviewRequired}
    case Retry(acknowledged) => acknowledged && s in {UnknownOutcome, ReviewRequired}
    case Confirm => s in {Succeeded, UnknownOutcome, ReviewRequired}
    case Cancel => s in {Ready, RetryWait, ReviewRequired}
    case ClientReceipt => s in {Dispatching, UnknownOutcome}
    case LateGmailSuccess => s == UnknownOutcome
    case LateSesSuccess => s == UnknownOutcome
    case AmbiguousMatches => s == UnknownOutcome
  }

  /** The state it leads to. */
  function Target(op: Op): ActionState {
    match op
    case Begin => Dispatching
    case Complete => Succeeded
    case MarkReview => ReviewRequired
    case MarkUnknown => UnknownOutcome
    case MarkRetry => RetryWait
    case Retry(_) => RetryWait
    case Confirm => ReceiptConfirmed
    case Cancel => Cancelled
    case ClientReceipt => ReceiptConfirmed
    case LateGmailSuccess => Succeeded
    case LateSesSuccess => Succeeded
    case AmbiguousMatches => ReviewRequired
  }

  /** The calls that also answer the latest attempt, with the state they lead to. */
  predicate Answers(op: Op) {
    op.Complete? || op.MarkReview? || op.MarkUnknown? || op.MarkRetry? || op.LateGmailSuccess?
  }

  /** A start adds the next attempt, an answer rewrites the latest one, any other call leaves the
      attempts alone. */
  ghost predicate AttemptsFollow(was: map<nat, ActionState>, after: map<nat, ActionState>, op: Op) {
    var n := MaxKey(was);
    if op.Begin? then after == was[n + 1 := Dispatching]
    else after.Keys == was.Keys && forall k :: k in was ==> after[k] == if Answers(op) && k == n then Target(op) else was[k]
  }

  /** Every call on every row: it goes through exactly from those states, and a start only while
      one of three attempts is left. A refused call changes nothing, but for a start without an
      attempt left: that leaves the row dispatching. */
  lemma CallTable(a: Action, op: Op)
    requires RowOk(a)
    ensures Apply(a, op).Done? <==> Allows(a.state, op) && (op.Begin? ==> MaxKey(a.attempts) < 3)
    ensures Apply(a, op).Done? ==> Apply(a, op).row.state == Target(op) && AttemptsFollow(a.attempts, Apply(a, op).row.attempts, op)
    ensures Apply(a, op).Raised? ==>
              Apply(a, op).row == if op.Begin? && Allows(a.state, op) then Action(Dispatching, a.attempts) else a
  {
    hide RowOk, MaxKey;
    HasAttempt(a);
    if !op.Begin? { OpKeepsNumbers(a, op); }
  }

  // ---------------------------------------------------------------- the row the services update

  class ExternalAction {
    var state: ActionState
    var attempts: map<nat, ActionState>

    ghost function Row(): Action reads this { Action(state, attempts) }

    constructor ()
      ensures Row() == NEW_ACTION
    {
      state, attempts := Ready, map[];
    }

    /** Loads a stored row. */
    constructor Of(row: Action)
      ensures Row() == row
    {
      state, attempts := row.state, row.attempts;
    }

    /** The table check every listed transition goes through. */
    method Move(target: ActionState) returns (ok: bool)
      modifies this`state
      ensures ok == (target in Edges(old(state)))
      ensures state == if ok then target else old(state)
    {
      ok := target in Edges(state);
      if ok { state := target; }
    }

    method MarkLatest(s: ActionState)
      modifies this`attempts
      ensures attempts == SetLast(old(attempts), s)
    {
      var n := Latest(attempts.Keys);
      if n in attempts { attempts := attempts[n := s]; }
    }

    method BeginDispatch() returns (ok: bool)
      modifies this
      ensures Apply(old(Row()), Begin) == if ok then Done(Row()) else Raised(Row())
    {
      ok := Move(Dispatching);
      if !ok { return; }
      var latest := Latest(attempts.Keys);
      var number := latest + 1;
      if number > MAX_ATTEMPTS { return false; }
      attempts := attempts[number := Dispatching];
    }

    method Complete() returns (ok: bool)
      modifies this
      ensures Apply(old(Row()), Op.Complete) == if ok then Done(Row()) else Raised(Row())
    {
      ok := Move(Succeeded);
      if !ok { return; }
      var n := Latest(attempts.Keys);
      if n !in attempts { return false; }
      attempts := attempts[n := Succeeded];
    }

    method MarkReviewRequired() returns (ok: bool)
      modifies this
      ensures Apply(old(Row()), MarkReview) == if ok then Done(Row()) else Raised(Row())
    {
      ok := Move(ReviewRequired);
      if ok { MarkLatest(ReviewRequired); }
    }

    method MarkUnknown() returns (ok: bool)
      modifies this
      ensures Apply(old(Row()), Op.MarkUnknown) == if ok then Done(Row()) else Raised(Row())
    {
      ok := Move(UnknownOutcome);
      if ok { MarkLatest(UnknownOutcome); }
    }

    method MarkRetry() returns (ok: bool)
      modifies this
      ensures Apply(old(Row()), Op.MarkRetry) == if ok then Done(Row()) else Raised(Row())
    {
      ok := Move(RetryWait);
      if ok { MarkLatest(RetryWait); }
    }

    method Retry(allowDuplicateRisk: bool) returns (ok: bool)
      modifies this
      ensures Apply(old(Row()), Op.Retry(allowDuplicateRisk)) == if ok then Done(Row()) else Raised(Row())
    {
      if state !in {UnknownOutcome, ReviewRequired} { return false; }
      if !allowDuplicateRisk { return false; }
      ok := Move(RetryWait);
    }

    method ConfirmReceipt() returns (ok: bool)
      modifies this
      ensures Apply(old(Row()), Confirm) == if ok then Done(Row()) else Raised(Row())
    {
      ok := Move(ReceiptConfirmed);
    }

    method Cancel() returns (ok: bool)
      modifies this
      ensures Apply(old(Row()), Op.Cancel) == if ok then Done(Row()) else Raised(Row())
    {
      ok := Move(Cancelled);
    }

    /** The late provider answer of `record_gmail_send_success`, written outside the table. */
    method RecordLateSuccess() returns (ok: bool)
      modifies this
      ensures Apply(old(Row()), LateGmailSuccess) == if ok then Done(Row()) else Raised(Row())
    {
      ok := state == UnknownOutcome;
      if ok {
        state := Succeeded;
        MarkLatest(Succeeded);
      }
    }

    /** A client's receipt, written outside the table by the acceptance. */
    method RecordClientReceipt() returns (ok: bool)
      modifies this
      ensures Apply(old(Row()), ClientReceipt) == if ok then Done(Row()) else Raised(Row())
    {
      ok := state in {Dispatching, UnknownOutcome};
      if ok { state := ReceiptConfirmed; }
    }

    /** The late answer `record_ses_success` writes: the attempt row is left as it is. */
    method RecordLateSesSuccess() returns (ok: bool)
      modifies this
      ensures Apply(old(Row()), LateSesSuccess) == if ok then Done(Row()) else Raised(Row())
    {
      ok := state == UnknownOutcome;
      if ok { state := Succeeded; }
    }

    /** Reconciliation found more than one exact message. */
    method RecordAmbiguity() returns (ok: bool)
      modifies this
      ensures Apply(old(Row()), AmbiguousMatches) == if ok then Done(Row()) else Raised(Row())
    {
      if state != UnknownOutcome { return false; }
      ok := Move(ReviewRequired);
    }
  }

  /** Runs one call on a stored row. */
  method Perform(row: Action, op: Op) returns (ok: bool, after: Action)
    ensures Apply(row, op) == if ok then Done(after) else Raised(after)
  {
    var a := new ExternalAction.Of(row);
    match op {
      case Begin => ok := a.BeginDispatch();
      case Complete => ok := a.Complete();
      case MarkReview => ok := a.MarkReviewRequired();
      case MarkUnknown => ok := a.MarkUnknown();
      case MarkRetry => ok := a.MarkRetry();
      case Retry(acknowledged) => ok := a.Retry(acknowledged);
      case Confirm => ok := a.ConfirmReceipt();
      case Cancel => ok := a.Cancel();
      case ClientReceipt => ok := a.RecordClientReceipt();
      case LateGmailSuccess => ok := a.RecordLateSuccess();
      case LateSesSuccess => ok := a.RecordLateSesSuccess();
      case AmbiguousMatches => ok := a.RecordAmbiguity();
    }
    after := Action(a.state, a.attempts);
  }
}
