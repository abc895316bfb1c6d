/**
 One API call run from start to end without interruption: its steps, and what they do.
*/
module Calls {
  import opened Options
  import opened StateMachine
  import opened Rows
  import opened Payments
  import opened Serial
  import Invariant

  /** A create request with everything the environment decides about it. */
  datatype CreateCall = CreateCall(
    org: OrgId,
    key: Key,
    amount: int,
    provider: Option<ProviderId>,   // what the registry selects
    found: Option<PaymentId>,       // what the lookup returns
    id: PaymentId,                  // the id a new row gets
    now: int,
    reply: Reply,
    commits: bool)                  // whether the update transaction commits

  function CreateRun(c: CreateCall): seq<Action> {
    [CreateLookup(0, c.org, c.key, c.amount, c.provider, c.found), CreateInsert(0, c.id, c.now),
      CreateCharge(0, c.reply)]
    + [if c.commits then CreateCommit(0) else CreateAbort(0), CreateCatch(0)]
  }

  function CreateStarted(s: State, c: CreateCall): State {
    StepCreateCharge(StepCreateInsert(StepCreateLookup(s, 0, c.org, c.key, c.amount, c.provider, c.found), 0, c.id,
      c.now), 0, c.reply)
  }

  function CreateFinished(s: State, commits: bool): State {
    StepCreateCatch(if commits then StepCreateCommit(s, 0) else StepCreateAbort(s, 0), 0)
  }

  lemma StartSteps(s: State, c: CreateCall)
    ensures Exec(s, [CreateLookup(0, c.org, c.key, c.amount, c.provider, c.found), CreateInsert(0, c.id, c.now),
      CreateCharge(0, c.reply)])
         == CreateStarted(s, c)
  {
    ExecThree(s, CreateLookup(0, c.org, c.key, c.amount, c.provider, c.found), CreateInsert(0, c.id, c.now),
      CreateCharge(0, c.reply));
  }

  lemma FinishSteps(s: State, commits: bool)
    ensures Exec(s, [if commits then CreateCommit(0) else CreateAbort(0), CreateCatch(0)]) == CreateFinished(s, commits)
  {
    ExecTwo(s, if commits then CreateCommit(0) else CreateAbort(0), CreateCatch(0));
  }

  lemma CreateRunSteps(s: State, c: CreateCall)
    ensures Exec(s, CreateRun(c)) == CreateFinished(CreateStarted(s, c), c.commits)
  {
    ExecConcat(s, [CreateLookup(0, c.org, c.key, c.amount, c.provider, c.found), CreateInsert(0, c.id, c.now),
      CreateCharge(0, c.reply)],
               [if c.commits then CreateCommit(0) else CreateAbort(0), CreateCatch(0)]);
    StartSteps(s, c);
    FinishSteps(CreateStarted(s, c), c.commits);
  }

  /** The row a fresh request leaves behind. */
  function CreatedRow(c: CreateCall): Payment
    requires c.provider.Some?
  {
    var row := NewPayment(c.org, c.key, c.amount, c.provider.value, c.now);
    if c.reply.ChargeResult? && c.commits then SettleCharge(row, c.reply.externalId, c.reply.reported)
      else FailCharge(row)
  }

  /** The request gets past the lookup and the unique index. */
  predicate IsFresh(s: State, c: CreateCall) {
    && !IsBlank(c.key) && c.found.None? && c.provider.Some?
    && !(exists id :: id in s.payments && Matches(s.payments, id, c.org, c.key))
    && c.id !in s.payments && !KeyTaken(s.payments, c.org, c.key)
  }

  /** What a whole create call does. */
  function CreateResult(s: State, c: CreateCall): State
    requires c.found.Some? ==> Matches(s.payments, c.found.value, c.org, c.key)
  {
    if IsBlank(c.key) then Reply1(s, ErrorAnswer(c.org, BlankKey))
    else if c.found.Some? then Reply1(s, CreatedAnswer(c.org, c.key, c.found.value, s.payments[c.found.value]))
    else if c.provider.None? then Reply1(s, ErrorAnswer(c.org, NoProvider))
    else if c.id in s.payments || KeyTaken(s.payments, c.org, c.key) then Reply1(s, ErrorAnswer(c.org, DuplicateKey))
    else
      State(s.payments[c.id := CreatedRow(c)],
            s.charged + multiset{(c.org, c.key)},
            s.answers + [if c.reply.ChargeResult? && c.commits
                         then CreatedAnswer(c.org, c.key, c.id, CreatedRow(c)) else ErrorAnswer(c.org, ProviderFailed)],
            s.intake, s.procs)
  }

  lemma FreshInsert(s: State, c: CreateCall)
    requires s.procs == map[] && IsFresh(s, c)
    ensures StepCreateInsert(StepCreateLookup(s, 0, c.org, c.key, c.amount, c.provider, c.found), 0, c.id, c.now)
         == s.(payments := s.payments[c.id := NewPayment(c.org, c.key, c.amount, c.provider.value, c.now)],
               procs := map[0 := Inserted(c.org, c.key, c.id)])
  {
    assert StepCreateLookup(s, 0, c.org, c.key, c.amount, c.provider, c.found)
        == s.(procs := map[0 := Routed(c.org, c.key, c.amount, c.provider.value)]);
  }

  lemma FreshCreate(s: State, c: CreateCall)
    requires s.procs == map[] && IsFresh(s, c)
    ensures Exec(s, CreateRun(c)) == CreateResult(s, c)
  {
    hide Exec, CreateFinished, StepCreateLookup, StepCreateInsert;
    CreateRunSteps(s, c);
    FreshInsert(s, c);
    var row := NewPayment(c.org, c.key, c.amount, c.provider.value, c.now);
    var s2 := s.(payments := s.payments[c.id := row], procs := map[0 := Inserted(c.org, c.key, c.id)]);
    FreshCharge(s2, c, row);
    assert s2.payments[c.id := CreatedRow(c)] == s.payments[c.id := CreatedRow(c)];
  }

  lemma FreshCharge(s: State, c: CreateCall, row: Payment)
    requires s.procs == map[0 := Inserted(c.org, c.key, c.id)] && c.id in s.payments && s.payments[c.id] == row
    requires c.provider.Some? && row == NewPayment(c.org, c.key, c.amount, c.provider.value, c.now)
    ensures var t := CreateFinished(StepCreateCharge(s, 0, c.reply), c.commits);
      && t.payments == s.payments[c.id := CreatedRow(c)] && t.procs == map[] && t.intake == s.intake
      && t.charged == s.charged + multiset{(c.org, c.key)}
      && t.answers == s.answers + [if c.reply.ChargeResult? && c.commits
                                   then CreatedAnswer(c.org, c.key, c.id, CreatedRow(c))
                                     else ErrorAnswer(c.org, ProviderFailed)]
  {
  }

  /** Otherwise the call stores nothing and charges nothing: it only answers. */
  lemma StaleCreate(s: State, c: CreateCall)
    requires s.procs == map[] && !IsFresh(s, c)
    ensures var t := Exec(s, CreateRun(c));
      && t.payments == s.payments && t.charged == s.charged && t.intake == s.intake && t.procs == map[]
      && (IsBlank(c.key) ==> t.answers == s.answers + [ErrorAnswer(c.org, BlankKey)])
      && (!IsBlank(c.key) && c.found.Some? && Matches(s.payments, c.found.value, c.org, c.key)
          ==> t.answers == s.answers + [CreatedAnswer(c.org, c.key, c.found.value, s.payments[c.found.value])])
      && (!IsBlank(c.key) && c.found.Some? && !Matches(s.payments, c.found.value, c.org, c.key)
        ==> t.answers == s.answers)
      && (!IsBlank(c.key) && c.found.None? && (exists id :: id in s.payments && Matches(s.payments, id, c.org, c.key))
        ==> t.answers == s.answers)
      && (!IsBlank(c.key) && c.found.None? && !(exists id :: id in s.payments && Matches(s.payments, id, c.org, c.key))
          ==> t.answers == s.answers + [ErrorAnswer(c.org, if c.provider.None? then NoProvider else DuplicateKey)])
  {
    CreateRunSteps(s, c);
    var s1 := StepCreateLookup(s, 0, c.org, c.key, c.amount, c.provider, c.found);
    if s1.procs == map[] {
      var s2 := StepCreateCharge(StepCreateInsert(s1, 0, c.id, c.now), 0, c.reply);
      assert s2 == s1;
      assert CreateFinished(s2, c.commits) == s1;
    } else {
      assert s1 == Goto(s, 0, Routed(c.org, c.key, c.amount, c.provider.value));
      var s2 := StepCreateInsert(s1, 0, c.id, c.now);
      assert s2 == Reply1(Done(s1, 0), ErrorAnswer(c.org, DuplicateKey)) && s2.procs == map[];
      assert StepCreateCharge(s2, 0, c.reply) == s2;
      assert CreateFinished(s2, c.commits) == s2;
    }
  }

  /** The lookup returned what the table holds. */
  ghost predicate Truthful(s: State, c: CreateCall) {
    && (c.found.Some? ==> Matches(s.payments, c.found.value, c.org, c.key))
    && (c.found.None? && !IsBlank(c.key) ==> !(exists id :: id in s.payments && Matches(s.payments, id, c.org, c.key)))
  }

  lemma CreateEffect(s: State, c: CreateCall)
    requires s.procs == map[] && Truthful(s, c)
    ensures Exec(s, CreateRun(c)) == CreateResult(s, c)
  {
    if IsFresh(s, c) { FreshCreate(s, c); } else { StaleCreate(s, c); }
  }

  // ---- refund, webhook, reconciliation, intake ----

  function RefundReply(s: State, org: OrgId, id: PaymentId, asked: Option<int>, succeeds: bool): Answer {
    if id !in s.payments || s.payments[id].org != org then ErrorAnswer(org, NotFound)
    else
      var p := s.payments[id];
      if PhaseOf(p.status) != Paid || p.externalId.None? then ErrorAnswer(org, NotRefundable)
      else if !succeeds then ErrorAnswer(org, ProviderFailed)
      else RefundAnswer(org, id, RefundedRow(p, asked, true), RefundRow(asked, p.amount))
  }

  function RefundResult(s: State, org: OrgId, id: PaymentId, asked: Option<int>, succeeds: bool): State {
    var replied := Reply1(s, RefundReply(s, org, id, asked, succeeds));
    if id in s.payments && s.payments[id].org == org
      then Put(replied, id, RefundedRow(s.payments[id], asked, succeeds)) else replied
  }

  lemma RefundAnswered(s: State, org: OrgId, id: PaymentId, asked: Option<int>, succeeds: bool)
    requires s.procs == map[]
    requires id !in s.payments || s.payments[id].org != org || PhaseOf(s.payments[id].status) != Paid
      || s.payments[id].externalId.None?
    ensures var s1 := StepRefundRead(s, 0, org, id, asked);
      s1 == RefundResult(s, org, id, asked, succeeds) && StepRefundCommit(StepRefundCall(s1, 0, succeeds), 0) == s1
  {
    if id in s.payments { PutSame(s, id); }
  }

  lemma RefundPerformed(s: State, org: OrgId, id: PaymentId, asked: Option<int>, succeeds: bool)
    requires s.procs == map[] && id in s.payments && s.payments[id].org == org
    requires PhaseOf(s.payments[id].status) == Paid && s.payments[id].externalId.Some?
    ensures StepRefundCommit(StepRefundCall(StepRefundRead(s, 0, org, id, asked), 0, succeeds), 0)
         == RefundResult(s, org, id, asked, succeeds)
  {
    PutSame(s, id);
    var p := s.payments[id];
    var s1 := s.(procs := map[0 := RefundChecked(org, id, p.status, p.amount, asked)]);
    assert StepRefundRead(s, 0, org, id, asked) == s1;
    if succeeds {
      var s2 := s.(payments := s.payments[id := Invariant.CountCall(p)],
        procs := map[0 := RefundPaid(org, id, p.status, p.amount, asked)]);
      assert StepRefundCall(s1, 0, true) == s2;
      assert s2.payments[id := RefundedRow(p, asked, true)] == s.payments[id := RefundedRow(p, asked, true)];
    }
  }

  lemma RefundCallEffect(s: State, org: OrgId, id: PaymentId, asked: Option<int>, succeeds: bool)
    requires s.procs == map[]
    ensures Perform(s, RefundRun(0, org, id, asked, succeeds)) == RefundResult(s, org, id, asked, succeeds)
  {
    hide Exec, StepRefundRead, StepRefundCall, StepRefundCommit;
    ExecThree(s, RefundRead(0, org, id, asked), RefundCall(0, succeeds), RefundCommit(0));
    if id !in s.payments || s.payments[id].org != org || PhaseOf(s.payments[id].status) != Paid
      || s.payments[id].externalId.None? {
      RefundAnswered(s, org, id, asked, succeeds);
    } else {
      RefundPerformed(s, org, id, asked, succeeds);
    }
  }

  lemma ReconcileCallEffect(s: State, id: PaymentId, reported: ProviderStatus)
    requires s.procs == map[]
    ensures Perform(s, ReconcileRun(0, id, reported))
         == if id in s.payments then Put(s, id, ReconciledRow(s.payments[id], reported)) else s
  {
    hide Exec, StepReconcileStart, StepReconcileRetrieve, StepReconcileCommit;
    ExecThree(s, ReconcileStart(0, id), ReconcileRetrieve(0, reported), ReconcileCommit(0));
    ReconcileSteps(s, 0, id, reported);
    ReconcileAnswersNothing(s, id, reported);
  }

  lemma ReconcileAnswersNothing(s: State, id: PaymentId, reported: ProviderStatus)
    ensures var t := StepReconcileCommit(StepReconcileRetrieve(StepReconcileStart(s, 0, id), 0, reported), 0);
      t.answers == s.answers && t.charged == s.charged
  {
  }

  /** One delivery of a job to the worker, up to and including the mark. */
  function WebhookDelivery(hook: Hook, id: PaymentId): seq<Action> {
    [WebhookRead(0, hook, id), WebhookCommit(0), WebhookMark(0)]
  }

  /** The worker takes the job: the payment exists and the transition check does not throw. */
  predicate Deliverable(s: State, hook: Hook, id: PaymentId) {
    && hook in s.intake.jobs && id in s.payments && HookOf(s.payments[id]) == Some(hook)
    && var to := StatusMap(s.intake.jobs[hook].reported); to.Some? ==> ValidTransition(s.payments[id].status, to.value)
  }

  function Marked(intake: Intake, hook: Hook): Intake
    requires hook in intake.jobs && intake.jobs[hook].inbound in intake.inbound
  {
    var i := intake.jobs[hook].inbound;
    intake.(inbound := intake.inbound[i := intake.inbound[i].(processed := true)])
  }

  lemma DeliverySteps(s: State, hook: Hook, id: PaymentId)
    requires s.procs == map[] && (hook in s.intake.jobs ==> s.intake.jobs[hook].inbound in s.intake.inbound)
    ensures var t := StepWebhookMark(StepWebhookCommit(StepWebhookRead(s, 0, hook, id), 0), 0);
      && (!Deliverable(s, hook, id) ==> t == s)
      && (Deliverable(s, hook, id) ==>
           t == s.(payments := s.payments[id := WebhookRow(s.payments[id], s.intake.jobs[hook].reported)],
             intake := Marked(s.intake, hook)))
  {
    if Deliverable(s, hook, id) {
      PutSame(s, id);
      var i := s.intake.jobs[hook].inbound;
      var s2 := StepWebhookCommit(StepWebhookRead(s, 0, hook, id), 0);
      assert s2 == s.(payments := s.payments[id := WebhookRow(s.payments[id], s.intake.jobs[hook].reported)],
        procs := map[0 := MarkDue(i)]);
    }
  }

  lemma DeliveryEffect(s: State, hook: Hook, id: PaymentId)
    requires s.procs == map[] && (hook in s.intake.jobs ==> s.intake.jobs[hook].inbound in s.intake.inbound)
    ensures !Deliverable(s, hook, id) ==> Exec(s, WebhookDelivery(hook, id)) == s
    ensures Deliverable(s, hook, id) ==>
      Exec(s, WebhookDelivery(hook, id))
      == s.(payments := s.payments[id := WebhookRow(s.payments[id], s.intake.jobs[hook].reported)],
        intake := Marked(s.intake, hook))
  {
    hide Exec, StepWebhookRead, StepWebhookCommit, StepWebhookMark;
    ExecThree(s, WebhookRead(0, hook, id), WebhookCommit(0), WebhookMark(0));
    DeliverySteps(s, hook, id);
  }

  function Reception(hook: Hook, reported: ProviderStatus, i: InboundId): seq<Action> {
    [IntakeRead(0, hook, reported), IntakeInsert(0, i), IntakeEnqueue(0)]
  }

  /** What the tables hold after a notification that is neither a duplicate nor refused. */
  function Received(intake: Intake, hook: Hook, reported: ProviderStatus, i: InboundId): Intake {
    Intake(intake.inbound[i := Inbound(hook, false)],
           if hook in intake.jobs then intake.jobs else intake.jobs[hook := Job(i, reported)],
           intake.enqueued + multiset{hook})
  }

  lemma ReceptionSteps(s: State, hook: Hook, reported: ProviderStatus, i: InboundId)
    requires s.procs == map[]
    ensures StepIntakeEnqueue(StepIntakeInsert(StepIntakeRead(s, 0, hook, reported), 0, i), 0)
         == if HookTaken(s.intake.inbound, hook) || i in s.intake.inbound then s
            else s.(intake := Received(s.intake, hook, reported, i))
  {
    if !HookTaken(s.intake.inbound, hook) {
      var s1 := StepIntakeRead(s, 0, hook, reported);
      assert s1 == s.(procs := map[0 := IntakeFresh(hook, reported)]);
      if i in s.intake.inbound {
        assert StepIntakeInsert(s1, 0, i) == s;
      }
    }
  }

  lemma ReceptionIs(s: State, hook: Hook, reported: ProviderStatus, i: InboundId)
    ensures Exec(s, Reception(hook, reported, i))
         == StepIntakeEnqueue(StepIntakeInsert(StepIntakeRead(s, 0, hook, reported), 0, i), 0)
  {
    hide Exec, StepIntakeRead, StepIntakeInsert, StepIntakeEnqueue;
    ExecThree(s, IntakeRead(0, hook, reported), IntakeInsert(0, i), IntakeEnqueue(0));
  }

  lemma ReceptionEffect(s: State, hook: Hook, reported: ProviderStatus, i: InboundId)
    requires s.procs == map[]
    ensures Exec(s, Reception(hook, reported, i))
         == if HookTaken(s.intake.inbound, hook) || i in s.intake.inbound then s
            else s.(intake := Received(s.intake, hook, reported, i))
  {
    ReceptionIs(s, hook, reported, i);
    ReceptionSteps(s, hook, reported, i);
  }
}
