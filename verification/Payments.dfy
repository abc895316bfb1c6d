/**
 The shared store and the small steps that the four actors take on it.

 Every step is a function of the state and of an action that carries its inputs:
 provider replies, new row ids, clock readings and the rows a query returned. A step
 that is not enabled leaves the state as it is, so any sequence of actions is a run,
 with any interleaving and a crash after any step.
*/
module Payments {
  import opened Options
  import opened StateMachine
  import opened Rows
  import opened Listing

  // Identifiers are only ever compared with each other.
  type ProviderId = nat
  type ExternalId = nat
  type InboundId = nat
  type ProcId = nat

  /** The pair under which a provider's notification is stored and its job is named. */
  datatype Hook = Hook(provider: ProviderId, externalId: ExternalId)
  datatype Inbound = Inbound(hook: Hook, processed: bool)
  datatype Job = Job(inbound: InboundId, reported: ProviderStatus)

  datatype Intake = Intake(
    inbound: map<InboundId, Inbound>,
    jobs: map<Hook, Job>,
    enqueued: multiset<Hook>)       // every call that hands a job to the queue

  datatype Error = BlankKey | NoProvider | DuplicateKey | ProviderFailed | NotFound | NotRefundable | BadTransition

  datatype Meta = Meta(total: nat, page: nat, limit: nat, pages: nat)

  datatype Answer =
    | CreatedAnswer(org: OrgId, key: Key, id: PaymentId, payment: Payment)
    | RefundAnswer(org: OrgId, id: PaymentId, payment: Payment, amount: int)
    | FoundAnswer(org: OrgId, id: PaymentId, payment: Payment)
    | ListAnswer(org: OrgId, data: seq<Payment>, meta: Meta)
    | ErrorAnswer(org: OrgId, error: Error)

  /** What a call in flight remembers between two of its steps. */
  datatype Proc =
    | Routed(org: OrgId, key: Key, amount: int, provider: ProviderId)
    | Inserted(org: OrgId, key: Key, id: PaymentId)
    | Charged(org: OrgId, key: Key, id: PaymentId, externalId: ExternalId, reported: ProviderStatus)
    | Failing(org: OrgId, key: Key, id: PaymentId)
    | RefundChecked(org: OrgId, id: PaymentId, from: Status, total: int, asked: Option<int>)
    | RefundPaid(org: OrgId, id: PaymentId, from: Status, total: int, asked: Option<int>)
    | WebhookChecked(hook: Hook, id: PaymentId, from: Status, to: Status, job: Job)
    | MarkDue(inbound: InboundId)
    | ReconcileRead(id: PaymentId, from: Status)
    | ReconcileChecked(id: PaymentId, from: Status, to: Status)
    | IntakeFresh(hook: Hook, reported: ProviderStatus)
    | IntakeStored(hook: Hook, inbound: InboundId, reported: ProviderStatus)

  datatype State = State(
    payments: map<PaymentId, Payment>,
    charged: multiset<(OrgId, Key)>,  // every createCharge call
    answers: seq<Answer>,             // every answer to an API caller
    intake: Intake,
    procs: map<ProcId, Proc>)

  const INIT := State(map[], multiset{}, [], Intake(map[], map[], multiset{}), map[])

  datatype Reply = ChargeResult(externalId: ExternalId, reported: ProviderStatus) | ChargeError

  datatype Action =
    | CreateLookup(pr: ProcId, org: OrgId, key: Key, amount: int, provider: Option<ProviderId>,
      found: Option<PaymentId>)
    | CreateInsert(pr: ProcId, id: PaymentId, now: int)
    | CreateCharge(pr: ProcId, reply: Reply)
    | CreateCommit(pr: ProcId)
    | CreateAbort(pr: ProcId)       // the update transaction was rejected
    | CreateCatch(pr: ProcId)
    | FindOne(pr: ProcId, org: OrgId, id: PaymentId)
    | FindAll(pr: ProcId, org: OrgId, status: Option<Status>, page: nat, limit: nat)
    | RefundRead(pr: ProcId, org: OrgId, id: PaymentId, asked: Option<int>)
    | RefundCall(pr: ProcId, succeeds: bool)
    | RefundCommit(pr: ProcId)
    | Crash(pr: ProcId)
    | IntakeRead(pr: ProcId, hook: Hook, reported: ProviderStatus)
    | IntakeInsert(pr: ProcId, inbound: InboundId)
    | IntakeEnqueue(pr: ProcId)
    | WebhookRead(pr: ProcId, hook: Hook, id: PaymentId)
    | WebhookCommit(pr: ProcId)
    | WebhookMark(pr: ProcId)
    | ReconcileStart(pr: ProcId, id: PaymentId)
    | ReconcileRetrieve(pr: ProcId, reported: ProviderStatus)
    | ReconcileCommit(pr: ProcId)

  // ---- pieces shared by the steps ----

  function Goto(s: State, pr: ProcId, next: Proc): State {
    s.(procs := s.procs[pr := next])
  }

  function Done(s: State, pr: ProcId): State {
    s.(procs := s.procs - {pr})
  }

  function Reply1(s: State, answer: Answer): State {
    s.(answers := s.answers + [answer])
  }

  function Put(s: State, id: PaymentId, p: Payment): State {
    s.(payments := s.payments[id := p])
  }

  /** The unique index on (tenantId, idempotencyKey). */
  predicate KeyTaken(payments: map<PaymentId, Payment>, tenant: OrgId, key: Key) {
    exists id :: id in payments && payments[id].tenant == tenant && payments[id].key == key
  }

  /** The lookup by (organizationId, idempotencyKey). */
  predicate Matches(payments: map<PaymentId, Payment>, id: PaymentId, org: OrgId, key: Key) {
    id in payments && payments[id].org == org && payments[id].key == key
  }

  // ---- create ----

  function StepCreateLookup(s: State, pr: ProcId, org: OrgId, key: Key, amount: int,
                            provider: Option<ProviderId>, found: Option<PaymentId>): State
  {
    if pr in s.procs then s
    else if IsBlank(key) then Reply1(s, ErrorAnswer(org, BlankKey))
    else match found
      case Some(id) =>
        if Matches(s.payments, id, org, key) then Reply1(s, CreatedAnswer(org, key, id, s.payments[id])) else s
      case None =>
        if exists id :: id in s.payments && Matches(s.payments, id, org, key) then s
        else if provider.None? then Reply1(s, ErrorAnswer(org, NoProvider))
        else Goto(s, pr, Routed(org, key, amount, provider.value))
  }

  function StepCreateInsert(s: State, pr: ProcId, id: PaymentId, now: int): State {
    if pr !in s.procs || !s.procs[pr].Routed? then s
    else
      var c := s.procs[pr];
      if id in s.payments || KeyTaken(s.payments, c.org, c.key) then
        Reply1(Done(s, pr), ErrorAnswer(c.org, DuplicateKey))
      else
        Goto(Put(s, id, NewPayment(c.org, c.key, c.amount, c.provider, now)), pr, Inserted(c.org, c.key, id))
  }

  function StepCreateCharge(s: State, pr: ProcId, reply: Reply): State {
    if pr !in s.procs || !s.procs[pr].Inserted? then s
    else
      var c := s.procs[pr];
      Goto(s.(charged := s.charged + multiset{(c.org, c.key)}), pr,
           match reply
           case ChargeResult(ext, reported) => Charged(c.org, c.key, c.id, ext, reported)
           case ChargeError => Failing(c.org, c.key, c.id))
  }

  function StepCreateCommit(s: State, pr: ProcId): State {
    if pr !in s.procs || !s.procs[pr].Charged? || s.procs[pr].id !in s.payments then s
    else
      var c := s.procs[pr];
      var p := SettleCharge(s.payments[c.id], c.externalId, c.reported);
      Reply1(Done(Put(s, c.id, p), pr), CreatedAnswer(c.org, c.key, c.id, p))
  }

  function StepCreateAbort(s: State, pr: ProcId): State {
    if pr !in s.procs || !s.procs[pr].Charged? then s
    else var c := s.procs[pr]; Goto(s, pr, Failing(c.org, c.key, c.id))
  }

  function StepCreateCatch(s: State, pr: ProcId): State {
    if pr !in s.procs || !s.procs[pr].Failing? || s.procs[pr].id !in s.payments then s
    else
      var c := s.procs[pr];
      Reply1(Done(Put(s, c.id, FailCharge(s.payments[c.id])), pr), ErrorAnswer(c.org, ProviderFailed))
  }

  // ---- read ----

  function StepFindOne(s: State, pr: ProcId, org: OrgId, id: PaymentId): State {
    if pr in s.procs then s
    else if id in s.payments && s.payments[id].org == org then Reply1(s, FoundAnswer(org, id, s.payments[id]))
    else Reply1(s, ErrorAnswer(org, NotFound))
  }

  ghost function StepFindAll(s: State, pr: ProcId, org: OrgId, status: Option<Status>, page: nat, limit: nat): State {
    if pr in s.procs || page == 0 || limit == 0 then s
    else
      var rows := Newest(Selected(s.payments, org, status));
      Reply1(s, ListAnswer(org, Page(rows, page, limit), Meta(|rows|, page, limit, PageCount(|rows|, limit))))
  }

  // ---- refund ----

  function StepRefundRead(s: State, pr: ProcId, org: OrgId, id: PaymentId, asked: Option<int>): State {
    if pr in s.procs then s
    else if id !in s.payments || s.payments[id].org != org then Reply1(s, ErrorAnswer(org, NotFound))
    else
      var p := s.payments[id];
      if PhaseOf(p.status) != Paid || p.externalId.None? then Reply1(s, ErrorAnswer(org, NotRefundable))
      else Goto(s, pr, RefundChecked(org, id, p.status, p.amount, asked))
  }

  function StepRefundCall(s: State, pr: ProcId, succeeds: bool): State {
    if pr !in s.procs || !s.procs[pr].RefundChecked? || s.procs[pr].id !in s.payments then s
    else
      var c := s.procs[pr];
      if !succeeds then Reply1(Done(s, pr), ErrorAnswer(c.org, ProviderFailed))
      else
        var p := s.payments[c.id];
        var paid := Put(s, c.id, p.(refundCalls := p.refundCalls + 1));
        if ValidTransition(c.from, RefundTarget(c.asked, c.total))
        then Goto(paid, pr, RefundPaid(c.org, c.id, c.from, c.total, c.asked))
        else Reply1(Done(paid, pr), ErrorAnswer(c.org, BadTransition))
  }

  function StepRefundCommit(s: State, pr: ProcId): State {
    if pr !in s.procs || !s.procs[pr].RefundPaid? || s.procs[pr].id !in s.payments then s
    else
      var c := s.procs[pr];
      var p := RecordRefund(s.payments[c.id], c.asked, c.total);
      Reply1(Done(Put(s, c.id, p), pr), RefundAnswer(c.org, c.id, p, RefundRow(c.asked, c.total)))
  }

  // ---- webhook intake ----

  function StepIntakeRead(s: State, pr: ProcId, hook: Hook, reported: ProviderStatus): State {
    if pr in s.procs || HookTaken(s.intake.inbound, hook) then s
    else Goto(s, pr, IntakeFresh(hook, reported))
  }

  /** The unique index on (providerId, externalId). */
  predicate HookTaken(inbound: map<InboundId, Inbound>, hook: Hook) {
    exists i :: i in inbound && inbound[i].hook == hook
  }

  function StepIntakeInsert(s: State, pr: ProcId, i: InboundId): State {
    if pr !in s.procs || !s.procs[pr].IntakeFresh? then s
    else
      var c := s.procs[pr];
      if i in s.intake.inbound || HookTaken(s.intake.inbound, c.hook) then Done(s, pr)
      else
        var stored := s.intake.(inbound := s.intake.inbound[i := Inbound(c.hook, false)]);
        Goto(s.(intake := stored), pr, IntakeStored(c.hook, i, c.reported))
  }

  function StepIntakeEnqueue(s: State, pr: ProcId): State {
    if pr !in s.procs || !s.procs[pr].IntakeStored? then s
    else
      var c := s.procs[pr];
      var jobs := if c.hook in s.intake.jobs then s.intake.jobs   // a job id already queued is kept
                  else s.intake.jobs[c.hook := Job(c.inbound, c.reported)];
      Done(s.(intake := s.intake.(jobs := jobs, enqueued := s.intake.enqueued + multiset{c.hook})), pr)
  }

  // ---- webhook worker ----

  function StepWebhookRead(s: State, pr: ProcId, hook: Hook, id: PaymentId): State {
    if pr in s.procs || hook !in s.intake.jobs || id !in s.payments || HookOf(s.payments[id]) != Some(hook) then s
    else
      var job, p := s.intake.jobs[hook], s.payments[id];
      match StatusMap(job.reported)
      case None => Goto(s, pr, MarkDue(job.inbound))
      case Some(to) =>
        if p.status == to then Goto(s, pr, MarkDue(job.inbound))
        else if ValidTransition(p.status, to) then Goto(s, pr, WebhookChecked(hook, id, p.status, to, job))
        else s
  }

  function HookOf(p: Payment): Option<Hook> {
    if p.externalId.None? then None else Some(Hook(p.provider, p.externalId.value))
  }

  function StepWebhookCommit(s: State, pr: ProcId): State {
    if pr !in s.procs || !s.procs[pr].WebhookChecked? || s.procs[pr].id !in s.payments then s
    else
      var c := s.procs[pr];
      Goto(Put(s, c.id, Write(s.payments[c.id], c.to, WebhookEvent(c.job.reported))), pr, MarkDue(c.job.inbound))
  }

  function StepWebhookMark(s: State, pr: ProcId): State {
    if pr !in s.procs || !s.procs[pr].MarkDue? || s.procs[pr].inbound !in s.intake.inbound then s
    else
      var i := s.procs[pr].inbound;
      var marked := s.intake.inbound[i := s.intake.inbound[i].(processed := true)];
      Done(s.(intake := s.intake.(inbound := marked)), pr)
  }

  // ---- reconciliation worker ----

  function StepReconcileStart(s: State, pr: ProcId, id: PaymentId): State {
    if pr in s.procs || id !in s.payments || s.payments[id].externalId.None? then s
    else Goto(s, pr, ReconcileRead(id, s.payments[id].status))
  }

  function StepReconcileRetrieve(s: State, pr: ProcId, reported: ProviderStatus): State {
    if pr !in s.procs || !s.procs[pr].ReconcileRead? then s
    else
      var c := s.procs[pr];
      match StatusMap(reported)
      case None => Done(s, pr)
      case Some(to) =>
        if c.from == to || !ValidTransition(c.from, to) then Done(s, pr)
        else Goto(s, pr, ReconcileChecked(c.id, c.from, to))
  }

  function StepReconcileCommit(s: State, pr: ProcId): State {
    if pr !in s.procs || !s.procs[pr].ReconcileChecked? || s.procs[pr].id !in s.payments then s
    else
      var c := s.procs[pr];
      Done(Put(s, c.id, Write(s.payments[c.id], c.to, ReconciledEvent(c.from, c.to))), pr)
  }

  // ---- runs ----

  ghost function Apply(s: State, a: Action): State {
    match a
    case CreateLookup(pr, org, key, amount, provider, found) =>
      StepCreateLookup(s, pr, org, key, amount, provider, found)
    case CreateInsert(pr, id, now) => StepCreateInsert(s, pr, id, now)
    case CreateCharge(pr, reply) => StepCreateCharge(s, pr, reply)
    case CreateCommit(pr) => StepCreateCommit(s, pr)
    case CreateAbort(pr) => StepCreateAbort(s, pr)
    case CreateCatch(pr) => StepCreateCatch(s, pr)
    case FindOne(pr, org, id) => StepFindOne(s, pr, org, id)
    case FindAll(pr, org, status, page, limit) => StepFindAll(s, pr, org, status, page, limit)
    case RefundRead(pr, org, id, asked) => StepRefundRead(s, pr, org, id, asked)
    case RefundCall(pr, succeeds) => StepRefundCall(s, pr, succeeds)
    case RefundCommit(pr) => StepRefundCommit(s, pr)
    case Crash(pr) => Done(s, pr)
    case IntakeRead(pr, hook, reported) => StepIntakeRead(s, pr, hook, reported)
    case IntakeInsert(pr, i) => StepIntakeInsert(s, pr, i)
    case IntakeEnqueue(pr) => StepIntakeEnqueue(s, pr)
    case WebhookRead(pr, hook, id) => StepWebhookRead(s, pr, hook, id)
    case WebhookCommit(pr) => StepWebhookCommit(s, pr)
    case WebhookMark(pr) => StepWebhookMark(s, pr)
    case ReconcileStart(pr, id) => StepReconcileStart(s, pr, id)
    case ReconcileRetrieve(pr, reported) => StepReconcileRetrieve(s, pr, reported)
    case ReconcileCommit(pr) => StepReconcileCommit(s, pr)
  }

  /** The state after a run. */
  ghost function Exec(s: State, run: seq<Action>): State
    decreases |run|
  {
    if run == [] then s else Exec(Apply(s, run[0]), run[1..])
  }

  lemma {:induction false} ExecConcat(s: State, first: seq<Action>, second: seq<Action>)
    ensures Exec(s, first + second) == Exec(Exec(s, first), second)
    decreases |first|
  {
    if first == [] {
      assert first + second == second;
    } else {
      assert (first + second)[1..] == first[1..] + second;
      ExecConcat(Apply(s, first[0]), first[1..], second);
    }
  }

  lemma ExecOne(s: State, a: Action)
    ensures Exec(s, [a]) == Apply(s, a)
  {
    assert Exec(Apply(s, a), []) == Apply(s, a);
  }

  lemma ExecLast(s: State, run: seq<Action>)
    requires run != []
    ensures Exec(s, run) == Apply(Exec(s, run[..|run| - 1]), run[|run| - 1])
  {
    var n := |run| - 1;
    assert run == run[..n] + [run[n]];
    ExecConcat(s, run[..n], [run[n]]);
    ExecOne(Exec(s, run[..n]), run[n]);
  }
}
