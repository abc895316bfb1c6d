/**
 The system invariant, and the proof that every single step of every actor keeps it.

 Nothing here assumes an order of steps: it is the interleaved granularity, with crashes.
*/
module Invariant {
  import opened Options
  import opened StateMachine
  import opened Rows
  import opened Listing
  import opened Payments

  // ---- one row ----

  /** The status an event announces, read from the event and the immutable amount alone. */
  function EventTarget(event: Event, amount: int): Status {
    match event
    case CreatedEvent => Pending
    case ProviderEvent(reported) => MapProviderStatus(reported)
    case WebhookEvent(reported) => (match StatusMap(reported) case Some(to) => to case None => Pending)
    case ReconciledEvent(_, to) => to
    case RefundedEvent(refunded) => if refunded != 0 && refunded < amount then PartiallyRefunded else Refunded
  }

  function RefundEvents(events: seq<Event>): nat {
    if events == [] then 0
    else RefundEvents(events[..|events| - 1]) + (if events[|events| - 1].RefundedEvent? then 1 else 0)
  }

  /** One more stored status neither returns to Pending nor refunds what was never captured. */
  predicate MayFollow(history: seq<Status>, next: Status)
    requires |history| > 0
  {
    && (next == Pending ==> history[|history| - 1] == Pending)
    && (next == Refunded || next == PartiallyRefunded ==> Captured in history)
  }

  predicate HistoryOk(history: seq<Status>) {
    var n := |history|;
    n > 0 && if n == 1 then history == [Pending]
             else HistoryOk(history[..n - 1]) && MayFollow(history[..n - 1], history[n - 1])
  }

  /** A row the provider's answer has not reached: untouched, or failed by the catch block. */
  predicate Unsettled(p: Payment) {
    && p.externalId.None? && p.events == [CreatedEvent] && p.refunds == [] && p.refundCalls == 0
    && if p.failureCode.None? then p.status == Pending && p.history == [Pending]
       else p.status == Failed && p.history == [Pending, Failed]
  }

  predicate Settled(p: Payment) {
    && p.externalId.Some? && p.failureCode.None? && |p.events| >= 2
    && p.status == EventTarget(p.events[|p.events| - 1], p.amount)
  }

  predicate RowOk(p: Payment) {
    && p.tenant == p.org && |p.events| > 0 && p.events[0] == CreatedEvent
    && (Unsettled(p) || Settled(p))
    && HistoryOk(p.history) && p.history[|p.history| - 1] == p.status
    && |p.refunds| == RefundEvents(p.events)
    && (p.refunds != [] ==> Captured in p.history)
  }

  // ---- one call in flight ----

  predicate Creating(c: Proc) {
    c.Inserted? || c.Charged? || c.Failing?
  }

  /** A status that some read of a settled row may have returned. */
  predicate Seen(p: Payment, status: Status) {
    p.externalId.Some? && status in p.history
  }

  predicate ProcOk(payments: map<PaymentId, Payment>, c: Proc) {
    match c
    case Inserted(org, key, id) => Matches(payments, id, org, key) && Untouched(payments[id])
    case Charged(org, key, id, _, _) => Matches(payments, id, org, key) && Untouched(payments[id])
    case Failing(org, key, id) => Matches(payments, id, org, key) && Untouched(payments[id])
    case RefundChecked(org, id, from, total, _) => MayRefund(payments, org, id, from, total)
    case RefundPaid(org, id, from, total, _) => MayRefund(payments, org, id, from, total)
    case WebhookChecked(hook, id, from, to, job) =>
      && id in payments && Seen(payments[id], from) && Edge(from, to)
      && HookOf(payments[id]) == Some(hook) && StatusMap(job.reported) == Some(to)
    case ReconcileRead(id, from) => id in payments && Seen(payments[id], from)
    case ReconcileChecked(id, from, to) => id in payments && Seen(payments[id], from) && Edge(from, to)
    case _ => true
  }

  predicate Untouched(p: Payment) {
    p.externalId.None? && p.status == Pending
  }

  predicate MayRefund(payments: map<PaymentId, Payment>, org: OrgId, id: PaymentId, from: Status, total: int) {
    && id in payments && payments[id].org == org && payments[id].amount == total
    && Seen(payments[id], from) && PhaseOf(from) == Paid
  }

  // ---- the whole state ----

  ghost predicate RowsOk(payments: map<PaymentId, Payment>) {
    forall id :: id in payments ==> RowOk(payments[id])
  }

  ghost predicate KeysUnique(payments: map<PaymentId, Payment>) {
    forall a, b | a in payments && b in payments && payments[a].org == payments[b].org
                  && payments[a].key == payments[b].key :: a == b
  }

  ghost predicate ProcsOk(payments: map<PaymentId, Payment>, procs: map<ProcId, Proc>) {
    && (forall pr :: pr in procs ==> ProcOk(payments, procs[pr]))
    && (forall a, b | a in procs && b in procs && Creating(procs[a]) && Creating(procs[b])
                      && procs[a].id == procs[b].id :: a == b)
  }

  /** At most one charge for a key, only for a stored row, and none while its row awaits the call. */
  ghost predicate ChargesOk(s: State) {
    && (forall org, key :: s.charged[(org, key)] <= 1)
    && (forall org, key :: s.charged[(org, key)] > 0 ==> exists id :: Matches(s.payments, id, org, key))
    && (forall pr :: pr in s.procs && s.procs[pr].Inserted? ==> s.charged[(s.procs[pr].org, s.procs[pr].key)] == 0)
  }

  ghost predicate AnswersOk(s: State) {
    forall i :: 0 <= i < |s.answers| && s.answers[i].CreatedAnswer?
      ==> Matches(s.payments, s.answers[i].id, s.answers[i].org, s.answers[i].key)
  }

  ghost predicate Inv(s: State) {
    RowsOk(s.payments) && KeysUnique(s.payments) && ProcsOk(s.payments, s.procs) && ChargesOk(s) && AnswersOk(s)
  }

  // ---- how rows evolve ----

  /** What no later write changes, and what it may only extend. */
  predicate Evolves(p: Payment, q: Payment) {
    && q.org == p.org && q.tenant == p.tenant && q.key == p.key && q.amount == p.amount
    && q.provider == p.provider && q.createdAt == p.createdAt
    && (p.externalId.Some? ==> q.externalId == p.externalId)
    && p.history <= q.history && p.events <= q.events && p.refunds <= q.refunds && p.refundCalls <= q.refundCalls
  }

  lemma Appended<T>(xs: seq<T>, x: T)
    ensures (xs + [x])[..|xs|] == xs
    ensures forall y :: y in xs ==> y in xs + [x]
  {
  }

  /** Every checked write keeps the row well formed, whatever the row holds by now. */
  lemma WriteKeepsRow(p: Payment, from: Status, to: Status, event: Event)
    requires RowOk(p) && Seen(p, from) && Edge(from, to)
    requires EventTarget(event, p.amount) == to && !event.RefundedEvent?
    ensures RowOk(Write(p, to, event)) && Evolves(p, Write(p, to, event))
  {
    Appended(p.history, to);
    Appended(p.events, event);
    PaidWasCaptured(p.history);
  }

  lemma RefundKeepsRow(p: Payment, from: Status, asked: Option<int>)
    requires RowOk(p) && Seen(p, from) && PhaseOf(from) == Paid
    ensures RowOk(RecordRefund(p, asked, p.amount)) && Evolves(p, RecordRefund(p, asked, p.amount))
  {
    Appended(p.history, RefundTarget(asked, p.amount));
    Appended(p.events, RefundedEvent(RefundPayload(asked, p.amount)));
    PaidWasCaptured(p.history);
  }

  lemma SettleKeepsRow(p: Payment, externalId: nat, reported: ProviderStatus)
    requires RowOk(p) && Untouched(p)
    ensures RowOk(SettleCharge(p, externalId, reported)) && Evolves(p, SettleCharge(p, externalId, reported))
  {
    Appended(p.history, MapProviderStatus(reported));
    Appended(p.events, ProviderEvent(reported));
  }

  lemma FailKeepsRow(p: Payment)
    requires RowOk(p) && Untouched(p)
    ensures RowOk(FailCharge(p)) && Evolves(p, FailCharge(p))
  {
    assert FailCharge(p).history == [Pending, Failed];
    Appended(p.history, Failed);
  }

  /** Whatever was ever refunded had been captured before. */
  lemma {:induction false} PaidWasCaptured(history: seq<Status>)
    requires HistoryOk(history)
    ensures Refunded in history || PartiallyRefunded in history ==> Captured in history
  {
    var n := |history|;
    if n > 1 { PaidWasCaptured(history[..n - 1]); }
  }

  // ---- frames ----

  /** One call in flight does not notice a write to a row that it does not own. */
  lemma ProcUndisturbed(payments: map<PaymentId, Payment>, c: Proc, id: PaymentId, q: Payment)
    requires ProcOk(payments, c) && id in payments && Evolves(payments[id], q)
    requires Creating(c) ==> c.id != id
    ensures ProcOk(payments[id := q], c)
  {
  }

  lemma PutKeepsKeys(payments: map<PaymentId, Payment>, id: PaymentId, q: Payment)
    requires id in payments && Evolves(payments[id], q) && RowOk(q)
    requires RowsOk(payments) && KeysUnique(payments)
    ensures RowsOk(payments[id := q]) && KeysUnique(payments[id := q])
    ensures forall i, org, key :: Matches(payments[id := q], i, org, key) <==> Matches(payments, i, org, key)
  {
  }

  /** Replacing a settled row by one that evolves from it disturbs no call in flight. */
  lemma PutSettled(s: State, id: PaymentId, q: Payment)
    requires Inv(s) && id in s.payments && s.payments[id].externalId.Some?
    requires RowOk(q) && Evolves(s.payments[id], q)
    ensures Inv(Put(s, id, q))
  {
    PutKeepsKeys(s.payments, id, q);
    forall pr | pr in s.procs ensures ProcOk(s.payments[id := q], s.procs[pr]) {
      ProcUndisturbed(s.payments, s.procs[pr], id, q);
    }
  }

  /** The same for a row still owned by one creating call, which ends with the write. */
  lemma PutCreated(s: State, pr: ProcId, q: Payment)
    requires Inv(s) && pr in s.procs && Creating(s.procs[pr])
    requires var id := s.procs[pr].id; RowOk(q) && Evolves(s.payments[id], q)
    ensures Inv(Done(Put(s, s.procs[pr].id, q), pr))
  {
    var id := s.procs[pr].id;
    PutKeepsKeys(s.payments, id, q);
    PutCreatedProcs(s.payments, s.procs, pr, q);
  }

  lemma PutCreatedProcs(payments: map<PaymentId, Payment>, procs: map<ProcId, Proc>, pr: ProcId, q: Payment)
    requires ProcsOk(payments, procs) && pr in procs && Creating(procs[pr])
    requires procs[pr].id in payments && Evolves(payments[procs[pr].id], q)
    ensures ProcsOk(payments[procs[pr].id := q], procs - {pr})
  {
    forall other | other in procs && other != pr ensures ProcOk(payments[procs[pr].id := q], procs[other]) {
      ProcUndisturbed(payments, procs[other], procs[pr].id, q);
    }
  }

  lemma GotoKeeps(s: State, pr: ProcId, c: Proc)
    requires Inv(s) && ProcOk(s.payments, c) && !Creating(c)
    ensures Inv(Goto(s, pr, c))
  {
  }

  lemma DoneKeeps(s: State, pr: ProcId)
    requires Inv(s)
    ensures Inv(Done(s, pr))
  {
  }

  lemma AnswerKeeps(s: State, answer: Answer)
    requires Inv(s)
    requires answer.CreatedAnswer? ==> Matches(s.payments, answer.id, answer.org, answer.key)
    ensures Inv(Reply1(s, answer))
  {
  }

  lemma DoneWithAnswer(s: State, pr: ProcId, answer: Answer)
    requires Inv(s) && !answer.CreatedAnswer?
    ensures Inv(Reply1(Done(s, pr), answer))
  {
    DoneKeeps(s, pr);
    AnswerKeeps(Done(s, pr), answer);
  }

  // ---- the steps ----

  lemma NewRowOk(org: OrgId, key: Key, amount: int, provider: nat, now: int)
    ensures RowOk(NewPayment(org, key, amount, provider, now)) && Untouched(NewPayment(org, key, amount, provider, now))
  {
    assert RefundEvents([CreatedEvent]) == RefundEvents([]);
  }

  lemma InsertKeepsKeys(payments: map<PaymentId, Payment>, id: PaymentId, q: Payment)
    requires RowsOk(payments) && KeysUnique(payments) && id !in payments
    requires RowOk(q) && !KeyTaken(payments, q.org, q.key)
    ensures RowsOk(payments[id := q]) && KeysUnique(payments[id := q])
    ensures forall i :: !Matches(payments, i, q.org, q.key)
    ensures forall i, org, key :: Matches(payments, i, org, key) ==> Matches(payments[id := q], i, org, key)
  {
    forall i | i in payments ensures !(payments[i].org == q.org && payments[i].key == q.key) {
      assert RowOk(payments[i]);
    }
  }

  lemma InsertKeeps(s: State, pr: ProcId, id: PaymentId, q: Payment)
    requires Inv(s) && pr in s.procs && !Creating(s.procs[pr]) && id !in s.payments
    requires RowOk(q) && Untouched(q) && !KeyTaken(s.payments, q.org, q.key)
    ensures Inv(Goto(Put(s, id, q), pr, Inserted(q.org, q.key, id)))
  {
    InsertKeepsKeys(s.payments, id, q);
    InsertKeepsProcs(s, pr, id, q);
    InsertKeepsCharges(s, pr, id, q);
  }

  lemma InsertKeepsCharges(s: State, pr: ProcId, id: PaymentId, q: Payment)
    requires ChargesOk(s) && id !in s.payments && forall i :: !Matches(s.payments, i, q.org, q.key)
    ensures ChargesOk(Goto(Put(s, id, q), pr, Inserted(q.org, q.key, id)))
  {
    assert s.charged[(q.org, q.key)] == 0;
    forall i, org, key | Matches(s.payments, i, org, key) ensures Matches(s.payments[id := q], i, org, key) {
    }
  }

  lemma InsertKeepsProcs(s: State, pr: ProcId, id: PaymentId, q: Payment)
    requires ProcsOk(s.payments, s.procs) && !(pr in s.procs && Creating(s.procs[pr])) && id !in s.payments
      && Untouched(q)
    ensures ProcsOk(s.payments[id := q], s.procs[pr := Inserted(q.org, q.key, id)])
  {
    forall other | other in s.procs ensures ProcOk(s.payments[id := q], s.procs[other]) {
      assert ProcOk(s.payments, s.procs[other]);
    }
    forall other | other in s.procs && Creating(s.procs[other]) ensures s.procs[other].id != id {
      assert ProcOk(s.payments, s.procs[other]);
    }
  }

  lemma CreateInsertKeeps(s: State, pr: ProcId, id: PaymentId, now: int)
    requires Inv(s)
    ensures Inv(StepCreateInsert(s, pr, id, now))
  {
    if pr in s.procs && s.procs[pr].Routed? {
      var c := s.procs[pr];
      if id in s.payments || KeyTaken(s.payments, c.org, c.key) {
        DoneKeeps(s, pr);
        AnswerKeeps(Done(s, pr), ErrorAnswer(c.org, DuplicateKey));
      } else {
        NewRowOk(c.org, c.key, c.amount, c.provider, now);
        InsertKeeps(s, pr, id, NewPayment(c.org, c.key, c.amount, c.provider, now));
      }
    }
  }

  lemma CreateChargeKeeps(s: State, pr: ProcId, reply: Reply)
    requires Inv(s)
    ensures Inv(StepCreateCharge(s, pr, reply))
  {
    hide RowOk;
    if pr in s.procs && s.procs[pr].Inserted? {
      var c, t := s.procs[pr], StepCreateCharge(s, pr, reply);
      assert ProcOk(s.payments, c);
      forall other | other in t.procs && t.procs[other].Inserted?
        ensures t.charged[(t.procs[other].org, t.procs[other].key)] == 0
      {
        var o := t.procs[other];
        assert other != pr && ProcOk(s.payments, o);
        assert (o.org, o.key) != (c.org, c.key);
      }
    }
  }

  lemma CreateCommitKeeps(s: State, pr: ProcId)
    requires Inv(s)
    ensures Inv(StepCreateCommit(s, pr))
  {
    if pr in s.procs && s.procs[pr].Charged? {
      var c := s.procs[pr];
      var q := SettleCharge(s.payments[c.id], c.externalId, c.reported);
      SettleKeepsRow(s.payments[c.id], c.externalId, c.reported);
      PutCreated(s, pr, q);
      AnswerKeeps(Done(Put(s, c.id, q), pr), CreatedAnswer(c.org, c.key, c.id, q));
    }
  }

  lemma CreateCatchKeeps(s: State, pr: ProcId)
    requires Inv(s)
    ensures Inv(StepCreateCatch(s, pr))
  {
    if pr in s.procs && s.procs[pr].Failing? {
      var c := s.procs[pr];
      FailKeepsRow(s.payments[c.id]);
      PutCreated(s, pr, FailCharge(s.payments[c.id]));
      AnswerKeeps(Done(Put(s, c.id, FailCharge(s.payments[c.id])), pr), ErrorAnswer(c.org, ProviderFailed));
    }
  }

  function CountCall(p: Payment): Payment {
    p.(refundCalls := p.refundCalls + 1)
  }

  lemma CountCallKeepsRow(p: Payment)
    requires RowOk(p) && p.externalId.Some?
    ensures RowOk(CountCall(p)) && Evolves(p, CountCall(p))
  {
  }

  lemma RefundCarriedOut(s: State, pr: ProcId)
    requires Inv(s) && pr in s.procs && s.procs[pr].RefundChecked?
    ensures var c := s.procs[pr]; MayRefund(s.payments, c.org, c.id, c.from, c.total)
    ensures var c := s.procs[pr];
            var t := Put(s, c.id, CountCall(s.payments[c.id]));
            Inv(t) && t.procs == s.procs && MayRefund(t.payments, c.org, c.id, c.from, c.total)
  {
    var c := s.procs[pr];
    assert ProcOk(s.payments, c);
    CountCallKeepsRow(s.payments[c.id]);
    PutSettled(s, c.id, CountCall(s.payments[c.id]));
  }

  /** The transition check made after the provider's refund cannot fail: the snapshot was refundable. */
  lemma RefundCallIs(s: State, pr: ProcId)
    requires Inv(s) && pr in s.procs && s.procs[pr].RefundChecked?
    ensures var c := s.procs[pr];
      c.id in s.payments &&
      StepRefundCall(s, pr, true)
        == Goto(Put(s, c.id, CountCall(s.payments[c.id])), pr, RefundPaid(c.org, c.id, c.from, c.total, c.asked))
  {
    hide RowsOk, KeysUnique, ChargesOk, AnswersOk;
    assert ProcOk(s.payments, s.procs[pr]);
  }

  lemma RefundCallKeeps(s: State, pr: ProcId, succeeds: bool)
    requires Inv(s)
    ensures Inv(StepRefundCall(s, pr, succeeds))
  {
    if pr in s.procs && s.procs[pr].RefundChecked? {
      var c := s.procs[pr];
      if succeeds {
        RefundCallIs(s, pr);
        RefundCarriedOut(s, pr);
        GotoKeeps(Put(s, c.id, CountCall(s.payments[c.id])), pr, RefundPaid(c.org, c.id, c.from, c.total, c.asked));
      } else {
        DoneWithAnswer(s, pr, ErrorAnswer(c.org, ProviderFailed));
      }
    }
  }

  lemma RefundCommitKeeps(s: State, pr: ProcId)
    requires Inv(s)
    ensures Inv(StepRefundCommit(s, pr))
  {
    hide RowOk, KeysUnique, ChargesOk, AnswersOk;
    if pr in s.procs && s.procs[pr].RefundPaid? {
      var c := s.procs[pr];
      assert ProcOk(s.payments, c);
      var q := RecordRefund(s.payments[c.id], c.asked, c.total);
      RefundKeepsRow(s.payments[c.id], c.from, c.asked);
      PutSettled(s, c.id, q);
      DoneWithAnswer(Put(s, c.id, q), pr, RefundAnswer(c.org, c.id, q, RefundRow(c.asked, c.total)));
    }
  }

  lemma WebhookCommitKeeps(s: State, pr: ProcId)
    requires Inv(s)
    ensures Inv(StepWebhookCommit(s, pr))
  {
    if pr in s.procs && s.procs[pr].WebhookChecked? {
      var c := s.procs[pr];
      assert ProcOk(s.payments, c);
      var q := Write(s.payments[c.id], c.to, WebhookEvent(c.job.reported));
      WriteKeepsRow(s.payments[c.id], c.from, c.to, WebhookEvent(c.job.reported));
      PutSettled(s, c.id, q);
      GotoKeeps(Put(s, c.id, q), pr, MarkDue(c.job.inbound));
    }
  }

  lemma ReconcileCommitKeeps(s: State, pr: ProcId)
    requires Inv(s)
    ensures Inv(StepReconcileCommit(s, pr))
  {
    if pr in s.procs && s.procs[pr].ReconcileChecked? {
      var c := s.procs[pr];
      assert ProcOk(s.payments, c);
      var q := Write(s.payments[c.id], c.to, ReconciledEvent(c.from, c.to));
      WriteKeepsRow(s.payments[c.id], c.from, c.to, ReconciledEvent(c.from, c.to));
      PutSettled(s, c.id, q);
      DoneKeeps(Put(s, c.id, q), pr);
    }
  }

  lemma CreateAbortKeeps(s: State, pr: ProcId)
    requires Inv(s)
    ensures Inv(StepCreateAbort(s, pr))
  {
    if pr in s.procs && s.procs[pr].Charged? {
      var t := StepCreateAbort(s, pr);
      assert ProcOk(s.payments, s.procs[pr]);
      forall other | other in t.procs ensures ProcOk(t.payments, t.procs[other]) {
        if other != pr { assert ProcOk(s.payments, s.procs[other]); }
      }
    }
  }

  /** A read of a settled row returns a status from its history. */
  lemma ReadIsSeen(p: Payment)
    requires RowOk(p) && p.externalId.Some?
    ensures Seen(p, p.status)
  {
  }

  lemma RefundReadKeeps(s: State, pr: ProcId, org: OrgId, id: PaymentId, asked: Option<int>)
    requires Inv(s)
    ensures Inv(StepRefundRead(s, pr, org, id, asked))
  {
    if id !in s.payments || s.payments[id].org != org {
      AnswerKeeps(s, ErrorAnswer(org, NotFound));
    } else if PhaseOf(s.payments[id].status) != Paid || s.payments[id].externalId.None? {
      AnswerKeeps(s, ErrorAnswer(org, NotRefundable));
    } else {
      ReadIsSeen(s.payments[id]);
      GotoKeeps(s, pr, RefundChecked(org, id, s.payments[id].status, s.payments[id].amount, asked));
    }
  }

  lemma WebhookReadKeeps(s: State, pr: ProcId, hook: Hook, id: PaymentId)
    requires Inv(s)
    ensures Inv(StepWebhookRead(s, pr, hook, id))
  {
    var t := StepWebhookRead(s, pr, hook, id);
    if t != s {
      var job := s.intake.jobs[hook];
      ReadIsSeen(s.payments[id]);
      GotoKeeps(s, pr, MarkDue(job.inbound));
      if t.procs[pr].WebhookChecked? { GotoKeeps(s, pr, t.procs[pr]); }
    }
  }

  lemma ReconcileReadsKeep(s: State, pr: ProcId, id: PaymentId, reported: ProviderStatus)
    requires Inv(s)
    ensures Inv(StepReconcileStart(s, pr, id)) && Inv(StepReconcileRetrieve(s, pr, reported))
  {
    var t, u := StepReconcileStart(s, pr, id), StepReconcileRetrieve(s, pr, reported);
    if t != s {
      ReadIsSeen(s.payments[id]);
      GotoKeeps(s, pr, ReconcileRead(id, s.payments[id].status));
    }
    if u != s {
      assert ProcOk(s.payments, s.procs[pr]);
      DoneKeeps(s, pr);
      if pr in u.procs { GotoKeeps(s, pr, u.procs[pr]); }
    }
  }

  /** The invariant says nothing about the webhook tables. */
  lemma IntakeIrrelevant(s: State, intake: Intake)
    requires Inv(s)
    ensures Inv(s.(intake := intake))
  {
  }

  lemma IntakeInsertKeeps(s: State, pr: ProcId, i: InboundId)
    requires Inv(s)
    ensures Inv(StepIntakeInsert(s, pr, i))
  {
    if pr in s.procs && s.procs[pr].IntakeFresh? {
      var c := s.procs[pr];
      if i in s.intake.inbound || HookTaken(s.intake.inbound, c.hook) {
        DoneKeeps(s, pr);
      } else {
        GotoKeeps(s, pr, IntakeStored(c.hook, i, c.reported));
        IntakeIrrelevant(Goto(s, pr, IntakeStored(c.hook, i, c.reported)), StepIntakeInsert(s, pr, i).intake);
      }
    }
  }

  lemma IntakeEnqueueKeeps(s: State, pr: ProcId)
    requires Inv(s)
    ensures Inv(StepIntakeEnqueue(s, pr))
  {
    DoneKeeps(s, pr);
    IntakeIrrelevant(Done(s, pr), StepIntakeEnqueue(s, pr).intake);
  }

  lemma WebhookMarkKeeps(s: State, pr: ProcId)
    requires Inv(s)
    ensures Inv(StepWebhookMark(s, pr))
  {
    DoneKeeps(s, pr);
    IntakeIrrelevant(Done(s, pr), StepWebhookMark(s, pr).intake);
  }

  lemma CreateLookupKeeps(s: State, pr: ProcId, org: OrgId, key: Key, amount: int,
                          provider: Option<ProviderId>, found: Option<PaymentId>)
    requires Inv(s)
    ensures Inv(StepCreateLookup(s, pr, org, key, amount, provider, found))
  {
    if pr in s.procs {
    } else if IsBlank(key) {
      AnswerKeeps(s, ErrorAnswer(org, BlankKey));
    } else if found.Some? {
      if Matches(s.payments, found.value, org, key) {
        AnswerKeeps(s, CreatedAnswer(org, key, found.value, s.payments[found.value]));
      }
    } else if provider.None? {
      AnswerKeeps(s, ErrorAnswer(org, NoProvider));
    } else {
      GotoKeeps(s, pr, Routed(org, key, amount, provider.value));
    }
  }

  lemma FindOneKeeps(s: State, pr: ProcId, org: OrgId, id: PaymentId)
    requires Inv(s)
    ensures Inv(StepFindOne(s, pr, org, id))
  {
    AnswerKeeps(s, ErrorAnswer(org, NotFound));
    if id in s.payments { AnswerKeeps(s, FoundAnswer(org, id, s.payments[id])); }
  }

  lemma FindAllKeeps(s: State, pr: ProcId, org: OrgId, status: Option<Status>, page: nat, limit: nat)
    requires Inv(s)
    ensures Inv(StepFindAll(s, pr, org, status, page, limit))
  {
    if page > 0 && limit > 0 {
      var rows := Newest(Selected(s.payments, org, status));
      AnswerKeeps(s, ListAnswer(org, Page(rows, page, limit), Meta(|rows|, page, limit, PageCount(|rows|, limit))));
    }
  }

  predicate IsCreation(a: Action) {
    || a.CreateLookup? || a.CreateInsert? || a.CreateCharge? || a.CreateCommit? || a.CreateAbort? || a.CreateCatch?
  }

  predicate IsServing(a: Action) {
    || a.FindOne? || a.FindAll? || a.RefundRead? || a.RefundCall? || a.RefundCommit? || a.Crash?
  }

  lemma CreationKeepsInv(s: State, a: Action)
    requires Inv(s) && IsCreation(a)
    ensures Inv(Apply(s, a))
  {
    hide Inv;
    match a
    case CreateLookup(pr, org, key, amount, provider, found) =>
      CreateLookupKeeps(s, pr, org, key, amount, provider, found);
    case CreateInsert(pr, id, now) => CreateInsertKeeps(s, pr, id, now);
    case CreateCharge(pr, reply) => CreateChargeKeeps(s, pr, reply);
    case CreateCommit(pr) => CreateCommitKeeps(s, pr);
    case CreateAbort(pr) => CreateAbortKeeps(s, pr);
    case CreateCatch(pr) => CreateCatchKeeps(s, pr);
  }

  lemma ServingKeepsInv(s: State, a: Action)
    requires Inv(s) && IsServing(a)
    ensures Inv(Apply(s, a))
  {
    hide Inv;
    match a
    case FindOne(pr, org, id) => FindOneKeeps(s, pr, org, id);
    case FindAll(pr, org, status, page, limit) => FindAllKeeps(s, pr, org, status, page, limit);
    case RefundRead(pr, org, id, asked) => RefundReadKeeps(s, pr, org, id, asked);
    case RefundCall(pr, succeeds) => RefundCallKeeps(s, pr, succeeds);
    case RefundCommit(pr) => RefundCommitKeeps(s, pr);
    case Crash(pr) => DoneKeeps(s, pr);
  }

  lemma WorkersKeepInv(s: State, a: Action)
    requires Inv(s) && !IsCreation(a) && !IsServing(a)
    ensures Inv(Apply(s, a))
  {
    hide Inv;
    match a
    case IntakeRead(pr, hook, reported) => GotoKeeps(s, pr, IntakeFresh(hook, reported));
    case IntakeInsert(pr, i) => IntakeInsertKeeps(s, pr, i);
    case IntakeEnqueue(pr) => IntakeEnqueueKeeps(s, pr);
    case WebhookRead(pr, hook, id) => WebhookReadKeeps(s, pr, hook, id);
    case WebhookCommit(pr) => WebhookCommitKeeps(s, pr);
    case WebhookMark(pr) => WebhookMarkKeeps(s, pr);
    case ReconcileStart(pr, id) => ReconcileReadsKeep(s, pr, id, SaysPending);
    case ReconcileRetrieve(pr, reported) => ReconcileReadsKeep(s, pr, 0, reported);
    case ReconcileCommit(pr) => ReconcileCommitKeeps(s, pr);
  }

  /** Every step of every actor, in any state that satisfies it, keeps the invariant. */
  lemma StepKeepsInv(s: State, a: Action)
    requires Inv(s)
    ensures Inv(Apply(s, a))
  {
    if IsCreation(a) {
      CreationKeepsInv(s, a);
    } else if IsServing(a) {
      ServingKeepsInv(s, a);
    } else {
      WorkersKeepInv(s, a);
    }
  }

  lemma {:induction false} RunKeepsInv(s: State, run: seq<Action>)
    requires Inv(s)
    ensures Inv(Exec(s, run))
    decreases |run|
  {
    if run != [] {
      StepKeepsInv(s, run[0]);
      RunKeepsInv(Apply(s, run[0]), run[1..]);
    }
  }

  lemma {:induction false} Reachable(run: seq<Action>)
    ensures Inv(Exec(INIT, run))
  {
    RunKeepsInv(INIT, run);
  }
}
