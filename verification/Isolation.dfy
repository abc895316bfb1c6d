/**
 Tenant isolation as noninterference. Any number of organizations create, refund, read and
 list, while webhooks and reconciliations arrive for their payments, with all small steps
 interleaved and crashes anywhere. What one organization can see, its rows and its answers,
 is what it would see if nothing had ever happened for the others.

 Provider replies, clock readings and ids are inputs of the actions.
*/
module Isolation {
  import opened Options
  import opened StateMachine
  import opened Rows
  import opened Listing
  import opened Payments
  import opened Invariant
  import opened Interleaved
  import opened Conservation

  /**
   The organization that each id belongs to: row ids and calls are globally distinct, and
   an external id of a provider was issued for one organization.
  */
  datatype Ownership = Ownership(
    call: ProcId -> OrgId,
    payment: PaymentId -> OrgId,
    hook: Hook -> OrgId,
    inbound: InboundId -> OrgId)

  /**
   The action's call acts for the organization that the ids it brings along belong to. For
   a webhook this says that the row found by its external id is one of that organization.
  */
  predicate Proper(a: Action, o: Ownership) {
    var org := o.call(a.pr);
    match a
    case CreateLookup(_, maker, _, _, _, _) => maker == org
    case CreateInsert(_, id, _) => o.payment(id) == org
    case FindOne(_, maker, _) => maker == org
    case FindAll(_, maker, _, _, _) => maker == org
    case RefundRead(_, maker, _, _) => maker == org
    case IntakeRead(_, hook, _) => o.hook(hook) == org
    case IntakeInsert(_, i) => o.inbound(i) == org
    case WebhookRead(_, hook, id) => o.hook(hook) == org && o.payment(id) == org
    case ReconcileStart(_, id) => o.payment(id) == org
    case _ => true
  }

  ghost predicate ProperRun(run: seq<Action>, o: Ownership) {
    forall i :: 0 <= i < |run| ==> Proper(run[i], o)
  }

  /** The run with every other organization's steps deleted. */
  function Only(run: seq<Action>, org: OrgId, o: Ownership): seq<Action> {
    if run == [] then []
    else (if o.call(run[0].pr) == org then [run[0]] else []) + Only(run[1..], org, o)
  }

  // ---- what an organization can see ----

  function AnswersTo(answers: seq<Answer>, org: OrgId): seq<Answer> {
    if answers == [] then []
    else
      var last := answers[|answers| - 1];
      AnswersTo(answers[..|answers| - 1], org) + if last.org == org then [last] else []
  }

  lemma AnswersToAppend(answers: seq<Answer>, more: Answer, org: OrgId)
    ensures AnswersTo(answers + [more], org) == AnswersTo(answers, org) + if more.org == org then [more] else []
  {
    assert (answers + [more])[..|answers|] == answers;
  }

  function RowsOf(payments: map<PaymentId, Payment>, org: OrgId): map<PaymentId, Payment> {
    map id | id in payments && payments[id].org == org :: payments[id]
  }

  /** The entries whose key belongs to the organization. */
  function Part<K, V>(m: map<K, V>, org: OrgId, who: K -> OrgId): map<K, V> {
    map k | k in m && who(k) == org :: m[k]
  }

  predicate SameAt<K, V(==)>(m: map<K, V>, n: map<K, V>, k: K) {
    (k in m <==> k in n) && (k in m ==> n[k] == m[k])
  }

  lemma PartSame<K, V>(m: map<K, V>, n: map<K, V>, org: OrgId, who: K -> OrgId)
    requires forall k :: who(k) == org ==> SameAt(m, n, k)
    ensures Part(m, org, who) == Part(n, org, who)
  {
    forall k ensures SameAt(Part(m, org, who), Part(n, org, who), k) {
      if who(k) == org { assert SameAt(m, n, k); }
    }
  }

  lemma PartMeans<K, V>(m: map<K, V>, n: map<K, V>, org: OrgId, who: K -> OrgId, k: K)
    requires Part(m, org, who) == Part(n, org, who) && who(k) == org
    ensures SameAt(m, n, k)
  {
    assert k in m <==> k in Part(m, org, who);
    assert k in n <==> k in Part(n, org, who);
    if k in m { assert Part(m, org, who)[k] == Part(n, org, who)[k]; }
  }

  lemma PartPut<K, V>(m: map<K, V>, n: map<K, V>, org: OrgId, who: K -> OrgId, k: K, v: V)
    requires Part(m, org, who) == Part(n, org, who)
    ensures Part(m[k := v], org, who) == Part(n[k := v], org, who)
  {
    forall j | who(j) == org ensures SameAt(m[k := v], n[k := v], j) {
      PartMeans(m, n, org, who, j);
    }
    PartSame(m[k := v], n[k := v], org, who);
  }

  lemma PartDrop<K, V>(m: map<K, V>, n: map<K, V>, org: OrgId, who: K -> OrgId, k: K)
    requires Part(m, org, who) == Part(n, org, who)
    ensures Part(m - {k}, org, who) == Part(n - {k}, org, who)
  {
    forall j | who(j) == org ensures SameAt(m - {k}, n - {k}, j) {
      PartMeans(m, n, org, who, j);
    }
    PartSame(m - {k}, n - {k}, org, who);
  }

  ghost predicate IntakeAlike(s: Intake, t: Intake, org: OrgId, o: Ownership) {
    && Part(s.inbound, org, o.inbound) == Part(t.inbound, org, o.inbound)
    && Part(s.jobs, org, o.hook) == Part(t.jobs, org, o.hook)
    && forall h :: o.hook(h) == org ==> s.enqueued[h] == t.enqueued[h]
  }

  /** Equal rows, answers, charges, notifications and jobs, and equal memories of the calls in flight. */
  ghost predicate Alike(s: State, t: State, org: OrgId, o: Ownership) {
    && RowsOf(s.payments, org) == RowsOf(t.payments, org)
    && AnswersTo(s.answers, org) == AnswersTo(t.answers, org)
    && Part(s.procs, org, o.call) == Part(t.procs, org, o.call)
    && (forall key :: s.charged[(org, key)] == t.charged[(org, key)])
    && IntakeAlike(s.intake, t.intake, org, o)
  }

  // ---- everything has one owner ----

  predicate HeldCall(c: Proc, org: OrgId, o: Ownership) {
    match c
    case WebhookChecked(_, id, _, _, job) => o.payment(id) == org && o.inbound(job.inbound) == org
    case MarkDue(i) => o.inbound(i) == org
    case ReconcileRead(id, _) => o.payment(id) == org
    case ReconcileChecked(id, _, _) => o.payment(id) == org
    case IntakeFresh(hook, _) => o.hook(hook) == org
    case IntakeStored(hook, i, _) => o.hook(hook) == org && o.inbound(i) == org
    case _ => c.org == org
  }

  predicate CallHeld(procs: map<ProcId, Proc>, pr: ProcId, o: Ownership) {
    pr in procs ==> HeldCall(procs[pr], o.call(pr), o)
  }

  ghost predicate CallsHeld(procs: map<ProcId, Proc>, o: Ownership) {
    forall pr :: CallHeld(procs, pr, o)
  }

  ghost predicate RowsHeld(payments: map<PaymentId, Payment>, o: Ownership) {
    forall id :: id in payments ==> o.payment(id) == payments[id].org
  }

  ghost predicate IntakeHeld(intake: Intake, o: Ownership) {
    && (forall i :: i in intake.inbound ==> o.hook(intake.inbound[i].hook) == o.inbound(i))
    && (forall h :: h in intake.jobs ==> o.inbound(intake.jobs[h].inbound) == o.hook(h))
  }

  ghost predicate Owned(s: State, o: Ownership) {
    Inv(s) && RowsHeld(s.payments, o) && CallsHeld(s.procs, o) && IntakeHeld(s.intake, o)
  }

  // ---- a step is local to the organization that makes it ----

  predicate OneMore(before: seq<Answer>, after: seq<Answer>, org: OrgId) {
    || after == before
    || (|after| == |before| + 1 && after == before + [after[|before|]] && after[|before|].org == org)
  }

  ghost predicate Local(s: State, t: State, pr: ProcId, org: OrgId, o: Ownership) {
    && OneMore(s.answers, t.answers, org)
    && (forall other :: other != pr ==> SameAt(s.procs, t.procs, other))
    && (pr in t.procs ==> HeldCall(t.procs[pr], org, o))
    && (forall other, key :: other != org ==> t.charged[(other, key)] == s.charged[(other, key)])
  }

  predicate CallOf(s: State, pr: ProcId, org: OrgId, o: Ownership) {
    pr in s.procs ==> HeldCall(s.procs[pr], org, o)
  }

  lemma LookupIsLocal(s: State, pr: ProcId, org: OrgId, key: Key, amount: int, provider: Option<ProviderId>,
                      found: Option<PaymentId>, o: Ownership)
    requires CallOf(s, pr, org, o)
    ensures Local(s, StepCreateLookup(s, pr, org, key, amount, provider, found), pr, org, o)
  {
  }

  lemma InsertIsLocal(s: State, pr: ProcId, org: OrgId, id: PaymentId, now: int, o: Ownership)
    requires CallOf(s, pr, org, o)
    ensures Local(s, StepCreateInsert(s, pr, id, now), pr, org, o)
  {
  }

  lemma ChargeIsLocal(s: State, pr: ProcId, org: OrgId, reply: Reply, o: Ownership)
    requires CallOf(s, pr, org, o)
    ensures Local(s, StepCreateCharge(s, pr, reply), pr, org, o)
  {
  }

  lemma AbortIsLocal(s: State, pr: ProcId, org: OrgId, o: Ownership)
    requires CallOf(s, pr, org, o)
    ensures Local(s, StepCreateAbort(s, pr), pr, org, o)
  {
  }

  lemma SettleIsLocal(s: State, pr: ProcId, org: OrgId, o: Ownership)
    requires CallOf(s, pr, org, o)
    ensures Local(s, StepCreateCommit(s, pr), pr, org, o) && Local(s, StepCreateCatch(s, pr), pr, org, o)
  {
  }

  lemma RefundCommitIsLocal(s: State, pr: ProcId, org: OrgId, o: Ownership)
    requires CallOf(s, pr, org, o)
    ensures Local(s, StepRefundCommit(s, pr), pr, org, o)
  {
  }

  lemma FindIsLocal(s: State, pr: ProcId, org: OrgId, id: PaymentId, o: Ownership)
    requires CallOf(s, pr, org, o)
    ensures Local(s, StepFindOne(s, pr, org, id), pr, org, o)
  {
  }

  lemma ListIsLocal(s: State, pr: ProcId, org: OrgId, status: Option<Status>, page: nat, limit: nat, o: Ownership)
    requires CallOf(s, pr, org, o)
    ensures Local(s, StepFindAll(s, pr, org, status, page, limit), pr, org, o)
  {
  }

  lemma RefundReadIsLocal(s: State, pr: ProcId, org: OrgId, id: PaymentId, asked: Option<int>, o: Ownership)
    requires CallOf(s, pr, org, o)
    ensures Local(s, StepRefundRead(s, pr, org, id, asked), pr, org, o)
  {
  }

  lemma RefundCallIsLocal(s: State, pr: ProcId, org: OrgId, succeeds: bool, o: Ownership)
    requires CallOf(s, pr, org, o)
    ensures Local(s, StepRefundCall(s, pr, succeeds), pr, org, o)
  {
  }

  lemma IntakeIsLocal(s: State, pr: ProcId, org: OrgId, hook: Hook, reported: ProviderStatus, i: InboundId,
      o: Ownership)
    requires CallOf(s, pr, org, o)
    ensures o.hook(hook) == org ==> Local(s, StepIntakeRead(s, pr, hook, reported), pr, org, o)
    ensures o.inbound(i) == org ==> Local(s, StepIntakeInsert(s, pr, i), pr, org, o)
    ensures Local(s, StepIntakeEnqueue(s, pr), pr, org, o)
  {
  }

  lemma WebhookReadIsLocal(s: State, pr: ProcId, org: OrgId, hook: Hook, id: PaymentId, o: Ownership)
    requires CallOf(s, pr, org, o) && IntakeHeld(s.intake, o) && o.hook(hook) == org && o.payment(id) == org
    ensures Local(s, StepWebhookRead(s, pr, hook, id), pr, org, o)
  {
  }

  lemma WebhookWritesAreLocal(s: State, pr: ProcId, org: OrgId, o: Ownership)
    requires CallOf(s, pr, org, o)
    ensures Local(s, StepWebhookCommit(s, pr), pr, org, o) && Local(s, StepWebhookMark(s, pr), pr, org, o)
  {
  }

  lemma ReconcileIsLocal(s: State, pr: ProcId, org: OrgId, id: PaymentId, reported: ProviderStatus, o: Ownership)
    requires CallOf(s, pr, org, o)
    ensures o.payment(id) == org ==> Local(s, StepReconcileStart(s, pr, id), pr, org, o)
    ensures Local(s, StepReconcileRetrieve(s, pr, reported), pr, org, o)
    ensures Local(s, StepReconcileCommit(s, pr), pr, org, o)
  {
  }

  lemma CreationIsLocal(s: State, a: Action, o: Ownership)
    requires CallOf(s, a.pr, o.call(a.pr), o) && Proper(a, o) && IsCreation(a)
    ensures Local(s, Apply(s, a), a.pr, o.call(a.pr), o)
  {
    var org := o.call(a.pr);
    match a
    case CreateLookup(pr, _, key, amount, provider, found) =>
      LookupIsLocal(s, pr, org, key, amount, provider, found, o);
    case CreateInsert(pr, id, now) => InsertIsLocal(s, pr, org, id, now, o);
    case CreateCharge(pr, reply) => ChargeIsLocal(s, pr, org, reply, o);
    case CreateCommit(pr) => SettleIsLocal(s, pr, org, o);
    case CreateAbort(pr) => AbortIsLocal(s, pr, org, o);
    case CreateCatch(pr) => SettleIsLocal(s, pr, org, o);
  }

  lemma ServingIsLocal(s: State, a: Action, o: Ownership)
    requires CallOf(s, a.pr, o.call(a.pr), o) && Proper(a, o) && IsServing(a)
    ensures Local(s, Apply(s, a), a.pr, o.call(a.pr), o)
  {
    var org := o.call(a.pr);
    match a
    case FindOne(pr, _, id) => FindIsLocal(s, pr, org, id, o);
    case FindAll(pr, _, status, page, limit) => ListIsLocal(s, pr, org, status, page, limit, o);
    case RefundRead(pr, _, id, asked) => RefundReadIsLocal(s, pr, org, id, asked, o);
    case RefundCall(pr, succeeds) => RefundCallIsLocal(s, pr, org, succeeds, o);
    case RefundCommit(pr) => RefundCommitIsLocal(s, pr, org, o);
    case Crash(_) =>
  }

  lemma WorkIsLocal(s: State, a: Action, o: Ownership)
    requires CallOf(s, a.pr, o.call(a.pr), o) && IntakeHeld(s.intake, o) && Proper(a, o) && !IsCreation(a)
      && !IsServing(a)
    ensures Local(s, Apply(s, a), a.pr, o.call(a.pr), o)
  {
    var org := o.call(a.pr);
    match a
    case IntakeRead(pr, hook, reported) => IntakeIsLocal(s, pr, org, hook, reported, 0, o);
    case IntakeInsert(pr, i) => IntakeIsLocal(s, pr, org, Hook(0, 0), SaysPending, i, o);
    case IntakeEnqueue(pr) => IntakeIsLocal(s, pr, org, Hook(0, 0), SaysPending, 0, o);
    case WebhookRead(pr, hook, id) => WebhookReadIsLocal(s, pr, org, hook, id, o);
    case WebhookCommit(pr) => WebhookWritesAreLocal(s, pr, org, o);
    case WebhookMark(pr) => WebhookWritesAreLocal(s, pr, org, o);
    case ReconcileStart(pr, id) => ReconcileIsLocal(s, pr, org, id, SaysPending, o);
    case ReconcileRetrieve(pr, reported) => ReconcileIsLocal(s, pr, org, 0, reported, o);
    case ReconcileCommit(pr) => ReconcileIsLocal(s, pr, org, 0, SaysPending, o);
  }

  lemma StepIsLocal(s: State, a: Action, o: Ownership)
    requires CallsHeld(s.procs, o) && IntakeHeld(s.intake, o) && Proper(a, o)
    ensures Local(s, Apply(s, a), a.pr, o.call(a.pr), o)
  {
    assert CallHeld(s.procs, a.pr, o);
    if IsCreation(a) {
      CreationIsLocal(s, a, o);
    } else if IsServing(a) {
      ServingIsLocal(s, a, o);
    } else {
      WorkIsLocal(s, a, o);
    }
  }

  // ---- and so is what it does to the notifications ----

  ghost predicate IntakeLocal(s: Intake, t: Intake, org: OrgId, o: Ownership) {
    && (forall i :: o.inbound(i) != org ==> SameAt(s.inbound, t.inbound, i))
    && (forall h :: o.hook(h) != org ==> SameAt(s.jobs, t.jobs, h) && s.enqueued[h] == t.enqueued[h])
  }

  ghost predicate IntakeStepOk(s: State, t: State, org: OrgId, o: Ownership) {
    IntakeHeld(t.intake, o) && IntakeLocal(s.intake, t.intake, org, o)
  }

  lemma StoreIsOk(s: State, pr: ProcId, i: InboundId, org: OrgId, o: Ownership)
    requires CallOf(s, pr, org, o) && IntakeHeld(s.intake, o) && o.inbound(i) == org
    ensures IntakeStepOk(s, StepIntakeInsert(s, pr, i), org, o)
  {
  }

  lemma EnqueueIsOk(s: State, pr: ProcId, org: OrgId, o: Ownership)
    requires CallOf(s, pr, org, o) && IntakeHeld(s.intake, o)
    ensures IntakeStepOk(s, StepIntakeEnqueue(s, pr), org, o)
  {
  }

  lemma MarkIsOk(s: State, pr: ProcId, org: OrgId, o: Ownership)
    requires CallOf(s, pr, org, o) && IntakeHeld(s.intake, o)
    ensures IntakeStepOk(s, StepWebhookMark(s, pr), org, o)
  {
  }

  lemma IntakeStaysHeld(s: State, a: Action, o: Ownership)
    requires CallsHeld(s.procs, o) && IntakeHeld(s.intake, o) && Proper(a, o)
    ensures IntakeStepOk(s, Apply(s, a), o.call(a.pr), o)
  {
    assert CallHeld(s.procs, a.pr, o);
    match a
    case IntakeInsert(pr, i) => StoreIsOk(s, pr, i, o.call(pr), o);
    case IntakeEnqueue(pr) => EnqueueIsOk(s, pr, o.call(pr), o);
    case WebhookMark(pr) => MarkIsOk(s, pr, o.call(pr), o);
    case _ => OthersLeaveIntake(s, a);
  }

  lemma LocalKeepsCallsHeld(s: State, t: State, pr: ProcId, o: Ownership)
    requires CallsHeld(s.procs, o) && Local(s, t, pr, o.call(pr), o)
    ensures CallsHeld(t.procs, o)
  {
    forall other ensures CallHeld(t.procs, other, o) {
      assert CallHeld(s.procs, other, o);
      if other != pr { assert SameAt(s.procs, t.procs, other); }
    }
  }

  lemma NewRowHeld(s: State, a: Action, id: PaymentId, o: Ownership)
    requires CallsHeld(s.procs, o) && Proper(a, o) && id !in s.payments && id in Apply(s, a).payments
    ensures Apply(s, a).payments[id].org == o.payment(id) == o.call(a.pr)
  {
    NewRowsAreNew(s, a, id);
    assert CallHeld(s.procs, a.pr, o);
  }

  lemma RowsStayHeld(s: State, a: Action, o: Ownership)
    requires Inv(s) && RowsHeld(s.payments, o) && CallsHeld(s.procs, o) && Proper(a, o)
    ensures RowsHeld(Apply(s, a).payments, o)
  {
    var t := Apply(s, a);
    forall id | id in t.payments ensures o.payment(id) == t.payments[id].org {
      if id in s.payments { RowStepEvolves(s, a, id); } else { NewRowHeld(s, a, id, o); }
    }
  }

  lemma StepKeepsOwned(s: State, a: Action, o: Ownership)
    requires Owned(s, o) && Proper(a, o)
    ensures Owned(Apply(s, a), o)
  {
    StepKeepsInv(s, a);
    RowsStayHeld(s, a, o);
    StepIsLocal(s, a, o);
    LocalKeepsCallsHeld(s, Apply(s, a), a.pr, o);
    IntakeStaysHeld(s, a, o);
  }

  // ---- steps of the others ----

  /** Only its own organization's calls write a row. */
  lemma OthersRow(s: State, a: Action, id: PaymentId, o: Ownership)
    requires Inv(s) && RowsHeld(s.payments, o) && CallsHeld(s.procs, o)
    requires id in s.payments && s.payments[id].org != o.call(a.pr)
    ensures id in Apply(s, a).payments && Apply(s, a).payments[id] == s.payments[id]
  {
    StepWrites(s, a, id);
    assert CallHeld(s.procs, a.pr, o);
    if a.pr in s.procs { assert ProcOk(s.payments, s.procs[a.pr]); }
  }

  lemma SameRowsOf(p: map<PaymentId, Payment>, q: map<PaymentId, Payment>, org: OrgId)
    requires forall id :: id in p ==> id in q && q[id].org == p[id].org && (p[id].org == org ==> q[id] == p[id])
    requires forall id :: id in q && id !in p ==> q[id].org != org
    ensures RowsOf(q, org) == RowsOf(p, org)
  {
  }

  lemma RowsOfOthers(s: State, a: Action, org: OrgId, o: Ownership)
    requires Owned(s, o) && Proper(a, o) && o.call(a.pr) != org
    ensures RowsOf(Apply(s, a).payments, org) == RowsOf(s.payments, org)
  {
    var t := Apply(s, a).payments;
    forall id | id in s.payments
      ensures id in t && t[id].org == s.payments[id].org && (s.payments[id].org == org ==> t[id] == s.payments[id])
    {
      RowStepEvolves(s, a, id);
      if s.payments[id].org == org { OthersRow(s, a, id, o); }
    }
    forall id | id in t && id !in s.payments ensures t[id].org != org {
      NewRowHeld(s, a, id, o);
    }
    SameRowsOf(s.payments, t, org);
  }

  lemma LocalAnswers(before: seq<Answer>, after: seq<Answer>, maker: OrgId, org: OrgId)
    requires OneMore(before, after, maker) && maker != org
    ensures AnswersTo(after, org) == AnswersTo(before, org)
  {
    if after != before { AnswersToAppend(before, after[|before|], org); }
  }

  lemma LocalCalls(s: State, t: State, pr: ProcId, org: OrgId, o: Ownership)
    requires Local(s, t, pr, o.call(pr), o) && o.call(pr) != org
    ensures Part(t.procs, org, o.call) == Part(s.procs, org, o.call)
  {
    forall other | o.call(other) == org ensures SameAt(t.procs, s.procs, other) {
      assert SameAt(s.procs, t.procs, other);
    }
    PartSame(t.procs, s.procs, org, o.call);
  }

  lemma LocalIntake(s: Intake, t: Intake, maker: OrgId, org: OrgId, o: Ownership)
    requires IntakeLocal(s, t, maker, o) && maker != org
    ensures IntakeAlike(t, s, org, o)
  {
    forall i | o.inbound(i) == org ensures SameAt(t.inbound, s.inbound, i) {
      assert SameAt(s.inbound, t.inbound, i);
    }
    PartSame(t.inbound, s.inbound, org, o.inbound);
    forall h | o.hook(h) == org ensures SameAt(t.jobs, s.jobs, h) {
      assert SameAt(s.jobs, t.jobs, h);
    }
    PartSame(t.jobs, s.jobs, org, o.hook);
  }

  /** Nothing that happens for another organization can be seen. */
  lemma OthersAreInvisible(s: State, a: Action, org: OrgId, o: Ownership)
    requires Owned(s, o) && Proper(a, o) && o.call(a.pr) != org
    ensures Alike(Apply(s, a), s, org, o)
  {
    var t := Apply(s, a);
    StepIsLocal(s, a, o);
    RowsOfOthers(s, a, org, o);
    LocalAnswers(s.answers, t.answers, o.call(a.pr), org);
    LocalCalls(s, t, a.pr, org, o);
    IntakeStaysHeld(s, a, o);
    LocalIntake(s.intake, t.intake, o.call(a.pr), org, o);
  }

  // ---- the organization's own steps: the pieces ----

  lemma AlikePut(s: State, t: State, id: PaymentId, q: Payment, org: OrgId, o: Ownership)
    requires Alike(s, t, org, o) && q.org == org
    ensures Alike(Put(s, id, q), Put(t, id, q), org, o)
  {
    RowsOfPut(s.payments, id, q, org);
    RowsOfPut(t.payments, id, q, org);
  }

  lemma RowsOfPut(payments: map<PaymentId, Payment>, id: PaymentId, q: Payment, org: OrgId)
    requires q.org == org
    ensures RowsOf(payments[id := q], org) == RowsOf(payments, org)[id := q]
  {
  }

  lemma AlikeGoto(s: State, t: State, pr: ProcId, c: Proc, org: OrgId, o: Ownership)
    requires Alike(s, t, org, o)
    ensures Alike(Goto(s, pr, c), Goto(t, pr, c), org, o)
  {
    PartPut(s.procs, t.procs, org, o.call, pr, c);
  }

  lemma AlikeDone(s: State, t: State, pr: ProcId, org: OrgId, o: Ownership)
    requires Alike(s, t, org, o)
    ensures Alike(Done(s, pr), Done(t, pr), org, o)
  {
    PartDrop(s.procs, t.procs, org, o.call, pr);
  }

  lemma AlikeAnswer(s: State, t: State, answer: Answer, org: OrgId, o: Ownership)
    requires Alike(s, t, org, o)
    ensures Alike(Reply1(s, answer), Reply1(t, answer), org, o)
  {
    AnswersToAppend(s.answers, answer, org);
    AnswersToAppend(t.answers, answer, org);
  }

  lemma AlikeDoneAnswer(s: State, t: State, pr: ProcId, answer: Answer, org: OrgId, o: Ownership)
    requires Alike(s, t, org, o)
    ensures Alike(Reply1(Done(s, pr), answer), Reply1(Done(t, pr), answer), org, o)
  {
    AlikeDone(s, t, pr, org, o);
    AlikeAnswer(Done(s, pr), Done(t, pr), answer, org, o);
  }

  lemma AlikeCharged(s: State, t: State, org: OrgId, key: Key, o: Ownership)
    requires Alike(s, t, org, o)
    ensures Alike(s.(charged := s.charged + multiset{(org, key)}), t.(charged := t.charged + multiset{(org, key)}),
      org, o)
  {
  }

  lemma AlikeIntake(s: State, t: State, i: Intake, j: Intake, org: OrgId, o: Ownership)
    requires Alike(s, t, org, o) && IntakeAlike(i, j, org, o)
    ensures Alike(s.(intake := i), t.(intake := j), org, o)
  {
  }

  predicate SameRow(s: State, t: State, id: PaymentId, org: OrgId) {
    && (id in s.payments && s.payments[id].org == org <==> id in t.payments && t.payments[id].org == org)
    && (id in s.payments && s.payments[id].org == org ==> t.payments[id] == s.payments[id])
  }

  lemma AlikeRow(s: State, t: State, id: PaymentId, org: OrgId, o: Ownership)
    requires Alike(s, t, org, o)
    ensures SameRow(s, t, id, org)
  {
    assert id in RowsOf(s.payments, org) <==> id in RowsOf(t.payments, org);
    if id in RowsOf(s.payments, org) { assert RowsOf(s.payments, org)[id] == RowsOf(t.payments, org)[id]; }
  }

  lemma AlikeCall(s: State, t: State, pr: ProcId, org: OrgId, o: Ownership)
    requires Alike(s, t, org, o) && o.call(pr) == org
    ensures SameAt(s.procs, t.procs, pr)
  {
    PartMeans(s.procs, t.procs, org, o.call, pr);
  }

  /** A row id of the organization means the same in both states. */
  lemma AlikeOwnRow(s: State, t: State, id: PaymentId, org: OrgId, o: Ownership)
    requires Alike(s, t, org, o) && RowsHeld(s.payments, o) && RowsHeld(t.payments, o) && o.payment(id) == org
    ensures SameAt(s.payments, t.payments, id) && (id in s.payments ==> s.payments[id].org == org)
  {
    AlikeRow(s, t, id, org, o);
  }

  /** Two states that the organization cannot tell apart, and a call of its own. */
  ghost predicate Pair(s: State, t: State, pr: ProcId, org: OrgId, o: Ownership) {
    Owned(s, o) && Owned(t, o) && Alike(s, t, org, o) && o.call(pr) == org
  }

  predicate NamesRow(c: Proc) {
    || c.Inserted? || c.Charged? || c.Failing? || c.RefundChecked? || c.RefundPaid?
    || c.WebhookChecked? || c.ReconcileRead? || c.ReconcileChecked?
  }

  /** A call that names a row names one of its own organization, which both states share. */
  lemma SameNamedRow(s: State, t: State, pr: ProcId, org: OrgId, o: Ownership)
    requires Pair(s, t, pr, org, o) && pr in s.procs && NamesRow(s.procs[pr])
    ensures pr in t.procs && t.procs[pr] == s.procs[pr] && HeldCall(s.procs[pr], org, o)
    ensures var id := s.procs[pr].id;
      && id in s.payments && id in t.payments && s.payments[id] == t.payments[id]
      && s.payments[id].org == org
  {
    AlikeCall(s, t, pr, org, o);
    assert CallHeld(s.procs, pr, o) && ProcOk(s.payments, s.procs[pr]);
    AlikeRow(s, t, s.procs[pr].id, org, o);
  }

  lemma OwnWrite(s: State, t: State, pr: ProcId, q: Payment, answer: Answer, org: OrgId, id: PaymentId, o: Ownership)
    requires Alike(s, t, org, o) && q.org == org
    ensures Alike(Reply1(Done(Put(s, id, q), pr), answer), Reply1(Done(Put(t, id, q), pr), answer), org, o)
  {
    AlikePut(s, t, id, q, org, o);
    AlikeDoneAnswer(Put(s, id, q), Put(t, id, q), pr, answer, org, o);
  }

  // ---- creation ----

  lemma SameMatches(s: State, t: State, org: OrgId, key: Key, o: Ownership)
    requires Alike(s, t, org, o)
    ensures forall id :: Matches(s.payments, id, org, key) <==> Matches(t.payments, id, org, key)
  {
    forall id ensures Matches(s.payments, id, org, key) <==> Matches(t.payments, id, org, key) {
      AlikeRow(s, t, id, org, o);
    }
  }

  lemma OwnLookup(s: State, t: State, pr: ProcId, org: OrgId, key: Key, amount: int, provider: Option<ProviderId>,
                  found: Option<PaymentId>, o: Ownership)
    requires Pair(s, t, pr, org, o)
    ensures Alike(StepCreateLookup(s, pr, org, key, amount, provider, found),
                  StepCreateLookup(t, pr, org, key, amount, provider, found), org, o)
  {
    AlikeCall(s, t, pr, org, o);
    SameMatches(s, t, org, key, o);
    if pr in s.procs {
    } else if IsBlank(key) {
      AlikeAnswer(s, t, ErrorAnswer(org, BlankKey), org, o);
    } else if found.Some? {
      AlikeRow(s, t, found.value, org, o);
      if Matches(s.payments, found.value, org, key) {
        AlikeAnswer(s, t, CreatedAnswer(org, key, found.value, s.payments[found.value]), org, o);
      }
    } else if provider.None? {
      AlikeAnswer(s, t, ErrorAnswer(org, NoProvider), org, o);
    } else {
      AlikeGoto(s, t, pr, Routed(org, key, amount, provider.value), org, o);
    }
  }

  /** The unique index is on the tenant, which creation keeps equal to the organization. */
  lemma TakenMatches(payments: map<PaymentId, Payment>, org: OrgId, key: Key)
    requires RowsOk(payments)
    ensures KeyTaken(payments, org, key) <==> exists id :: Matches(payments, id, org, key)
  {
    if KeyTaken(payments, org, key) {
      var id :| id in payments && payments[id].tenant == org && payments[id].key == key;
      assert RowOk(payments[id]) && Matches(payments, id, org, key);
    }
    if id :| Matches(payments, id, org, key) { assert RowOk(payments[id]); }
  }

  lemma SameKeysTaken(s: State, t: State, org: OrgId, key: Key, o: Ownership)
    requires RowsOk(s.payments) && RowsOk(t.payments) && Alike(s, t, org, o)
    ensures KeyTaken(s.payments, org, key) <==> KeyTaken(t.payments, org, key)
  {
    SameMatches(s, t, org, key, o);
    TakenMatches(s.payments, org, key);
    TakenMatches(t.payments, org, key);
  }

  lemma OwnInsert(s: State, t: State, pr: ProcId, org: OrgId, id: PaymentId, now: int, o: Ownership)
    requires Pair(s, t, pr, org, o) && o.payment(id) == org
    ensures Alike(StepCreateInsert(s, pr, id, now), StepCreateInsert(t, pr, id, now), org, o)
  {
    AlikeCall(s, t, pr, org, o);
    AlikeOwnRow(s, t, id, org, o);
    if pr in s.procs && s.procs[pr].Routed? {
      var c := s.procs[pr];
      assert CallHeld(s.procs, pr, o);
      SameKeysTaken(s, t, org, c.key, o);
      if id in s.payments || KeyTaken(s.payments, org, c.key) {
        AlikeDoneAnswer(s, t, pr, ErrorAnswer(org, DuplicateKey), org, o);
      } else {
        var q := NewPayment(org, c.key, c.amount, c.provider, now);
        AlikePut(s, t, id, q, org, o);
        AlikeGoto(Put(s, id, q), Put(t, id, q), pr, Inserted(org, c.key, id), org, o);
      }
    }
  }

  lemma OwnCharge(s: State, t: State, pr: ProcId, org: OrgId, reply: Reply, o: Ownership)
    requires Pair(s, t, pr, org, o)
    ensures Alike(StepCreateCharge(s, pr, reply), StepCreateCharge(t, pr, reply), org, o)
  {
    AlikeCall(s, t, pr, org, o);
    if pr in s.procs && s.procs[pr].Inserted? {
      var c := s.procs[pr];
      SameNamedRow(s, t, pr, org, o);
      AlikeCharged(s, t, org, c.key, o);
      var next := match reply
                  case ChargeResult(ext, reported) => Charged(c.org, c.key, c.id, ext, reported)
                  case ChargeError => Failing(c.org, c.key, c.id);
      AlikeGoto(s.(charged := s.charged + multiset{(org, c.key)}),
                t.(charged := t.charged + multiset{(org, c.key)}), pr, next, org, o);
    }
  }

  lemma OwnAbort(s: State, t: State, pr: ProcId, org: OrgId, o: Ownership)
    requires Pair(s, t, pr, org, o)
    ensures Alike(StepCreateAbort(s, pr), StepCreateAbort(t, pr), org, o)
  {
    AlikeCall(s, t, pr, org, o);
    if pr in s.procs && s.procs[pr].Charged? {
      AlikeGoto(s, t, pr, Failing(s.procs[pr].org, s.procs[pr].key, s.procs[pr].id), org, o);
    }
  }

  lemma OwnCommit(s: State, t: State, pr: ProcId, org: OrgId, o: Ownership)
    requires Pair(s, t, pr, org, o)
    ensures Alike(StepCreateCommit(s, pr), StepCreateCommit(t, pr), org, o)
  {
    AlikeCall(s, t, pr, org, o);
    if pr in s.procs && s.procs[pr].Charged? {
      SameNamedRow(s, t, pr, org, o);
      var c := s.procs[pr];
      var q := SettleCharge(s.payments[c.id], c.externalId, c.reported);
      OwnWrite(s, t, pr, q, CreatedAnswer(org, c.key, c.id, q), org, c.id, o);
    }
  }

  lemma OwnCatch(s: State, t: State, pr: ProcId, org: OrgId, o: Ownership)
    requires Pair(s, t, pr, org, o)
    ensures Alike(StepCreateCatch(s, pr), StepCreateCatch(t, pr), org, o)
  {
    AlikeCall(s, t, pr, org, o);
    if pr in s.procs && s.procs[pr].Failing? {
      SameNamedRow(s, t, pr, org, o);
      var c := s.procs[pr];
      OwnWrite(s, t, pr, FailCharge(s.payments[c.id]), ErrorAnswer(org, ProviderFailed), org, c.id, o);
    }
  }

  // ---- reads and refunds ----

  lemma OwnFind(s: State, t: State, pr: ProcId, org: OrgId, id: PaymentId, o: Ownership)
    requires Pair(s, t, pr, org, o)
    ensures Alike(StepFindOne(s, pr, org, id), StepFindOne(t, pr, org, id), org, o)
  {
    AlikeCall(s, t, pr, org, o);
    AlikeRow(s, t, id, org, o);
    if id in s.payments && s.payments[id].org == org {
      AlikeAnswer(s, t, FoundAnswer(org, id, s.payments[id]), org, o);
    } else {
      AlikeAnswer(s, t, ErrorAnswer(org, NotFound), org, o);
    }
  }

  lemma SelectedFromRows(payments: map<PaymentId, Payment>, org: OrgId, status: Option<Status>)
    ensures Selected(payments, org, status) == Selected(RowsOf(payments, org), org, status)
  {
  }

  lemma OwnList(s: State, t: State, pr: ProcId, org: OrgId, status: Option<Status>, page: nat, limit: nat, o: Ownership)
    requires Pair(s, t, pr, org, o)
    ensures Alike(StepFindAll(s, pr, org, status, page, limit), StepFindAll(t, pr, org, status, page, limit), org, o)
  {
    AlikeCall(s, t, pr, org, o);
    SelectedFromRows(s.payments, org, status);
    SelectedFromRows(t.payments, org, status);
    if pr !in s.procs && page != 0 && limit != 0 {
      var rows := Newest(Selected(s.payments, org, status));
      var meta := Meta(|rows|, page, limit, PageCount(|rows|, limit));
      AlikeAnswer(s, t, ListAnswer(org, Page(rows, page, limit), meta), org, o);
    }
  }

  lemma OwnRefundRead(s: State, t: State, pr: ProcId, org: OrgId, id: PaymentId, asked: Option<int>, o: Ownership)
    requires Pair(s, t, pr, org, o)
    ensures Alike(StepRefundRead(s, pr, org, id, asked), StepRefundRead(t, pr, org, id, asked), org, o)
  {
    AlikeCall(s, t, pr, org, o);
    AlikeRow(s, t, id, org, o);
    if pr in s.procs {
    } else if id !in s.payments || s.payments[id].org != org {
      AlikeAnswer(s, t, ErrorAnswer(org, NotFound), org, o);
    } else if PhaseOf(s.payments[id].status) != Paid || s.payments[id].externalId.None? {
      AlikeAnswer(s, t, ErrorAnswer(org, NotRefundable), org, o);
    } else {
      AlikeGoto(s, t, pr, RefundChecked(org, id, s.payments[id].status, s.payments[id].amount, asked), org, o);
    }
  }

  lemma OwnRefundCall(s: State, t: State, pr: ProcId, org: OrgId, succeeds: bool, o: Ownership)
    requires Pair(s, t, pr, org, o)
    ensures Alike(StepRefundCall(s, pr, succeeds), StepRefundCall(t, pr, succeeds), org, o)
  {
    AlikeCall(s, t, pr, org, o);
    if pr in s.procs && s.procs[pr].RefundChecked? {
      SameNamedRow(s, t, pr, org, o);
      var c := s.procs[pr];
      if succeeds {
        RefundCallIs(s, pr);
        RefundCallIs(t, pr);
        var q := CountCall(s.payments[c.id]);
        AlikePut(s, t, c.id, q, org, o);
        AlikeGoto(Put(s, c.id, q), Put(t, c.id, q), pr, RefundPaid(org, c.id, c.from, c.total, c.asked), org, o);
      } else {
        AlikeDoneAnswer(s, t, pr, ErrorAnswer(org, ProviderFailed), org, o);
      }
    }
  }

  lemma OwnRefundCommit(s: State, t: State, pr: ProcId, org: OrgId, o: Ownership)
    requires Pair(s, t, pr, org, o)
    ensures Alike(StepRefundCommit(s, pr), StepRefundCommit(t, pr), org, o)
  {
    AlikeCall(s, t, pr, org, o);
    if pr in s.procs && s.procs[pr].RefundPaid? {
      SameNamedRow(s, t, pr, org, o);
      var c := s.procs[pr];
      var q := RecordRefund(s.payments[c.id], c.asked, c.total);
      OwnWrite(s, t, pr, q, RefundAnswer(org, c.id, q, RefundRow(c.asked, c.total)), org, c.id, o);
    }
  }

  // ---- notifications ----

  lemma SameHookTaken(s: Intake, t: Intake, hook: Hook, org: OrgId, o: Ownership)
    requires IntakeAlike(s, t, org, o) && IntakeHeld(s, o) && IntakeHeld(t, o) && o.hook(hook) == org
    ensures HookTaken(s.inbound, hook) <==> HookTaken(t.inbound, hook)
  {
    if i :| i in s.inbound && s.inbound[i].hook == hook { PartMeans(s.inbound, t.inbound, org, o.inbound, i); }
    if i :| i in t.inbound && t.inbound[i].hook == hook { PartMeans(s.inbound, t.inbound, org, o.inbound, i); }
  }

  lemma OwnIntakeRead(s: State, t: State, pr: ProcId, org: OrgId, hook: Hook, reported: ProviderStatus, o: Ownership)
    requires Pair(s, t, pr, org, o) && o.hook(hook) == org
    ensures Alike(StepIntakeRead(s, pr, hook, reported), StepIntakeRead(t, pr, hook, reported), org, o)
  {
    AlikeCall(s, t, pr, org, o);
    SameHookTaken(s.intake, t.intake, hook, org, o);
    AlikeGoto(s, t, pr, IntakeFresh(hook, reported), org, o);
  }

  lemma OwnIntakeInsert(s: State, t: State, pr: ProcId, org: OrgId, i: InboundId, o: Ownership)
    requires Pair(s, t, pr, org, o) && o.inbound(i) == org
    ensures Alike(StepIntakeInsert(s, pr, i), StepIntakeInsert(t, pr, i), org, o)
  {
    AlikeCall(s, t, pr, org, o);
    if pr in s.procs && s.procs[pr].IntakeFresh? {
      var c := s.procs[pr];
      assert CallHeld(s.procs, pr, o);
      SameHookTaken(s.intake, t.intake, c.hook, org, o);
      PartMeans(s.intake.inbound, t.intake.inbound, org, o.inbound, i);
      if i in s.intake.inbound || HookTaken(s.intake.inbound, c.hook) {
        AlikeDone(s, t, pr, org, o);
      } else {
        AlikeStored(s, t, i, Inbound(c.hook, false), org, o);
        AlikeGoto(WithInbound(s, i, Inbound(c.hook, false)), WithInbound(t, i, Inbound(c.hook, false)),
                  pr, IntakeStored(c.hook, i, c.reported), org, o);
      }
    }
  }

  function WithInbound(s: State, i: InboundId, row: Inbound): State {
    s.(intake := s.intake.(inbound := s.intake.inbound[i := row]))
  }

  lemma AlikeStored(s: State, t: State, i: InboundId, row: Inbound, org: OrgId, o: Ownership)
    requires Alike(s, t, org, o)
    ensures Alike(WithInbound(s, i, row), WithInbound(t, i, row), org, o)
  {
    PartPut(s.intake.inbound, t.intake.inbound, org, o.inbound, i, row);
    AlikeIntake(s, t, WithInbound(s, i, row).intake, WithInbound(t, i, row).intake, org, o);
  }

  function Queued(intake: Intake, hook: Hook, job: Job): Intake {
    Intake(intake.inbound, if hook in intake.jobs then intake.jobs else intake.jobs[hook := job],
           intake.enqueued + multiset{hook})
  }

  lemma AlikeQueued(s: Intake, t: Intake, hook: Hook, job: Job, org: OrgId, o: Ownership)
    requires IntakeAlike(s, t, org, o) && o.hook(hook) == org
    ensures IntakeAlike(Queued(s, hook, job), Queued(t, hook, job), org, o)
  {
    PartMeans(s.jobs, t.jobs, org, o.hook, hook);
    PartPut(s.jobs, t.jobs, org, o.hook, hook, job);
  }

  lemma OwnIntakeEnqueue(s: State, t: State, pr: ProcId, org: OrgId, o: Ownership)
    requires Pair(s, t, pr, org, o)
    ensures Alike(StepIntakeEnqueue(s, pr), StepIntakeEnqueue(t, pr), org, o)
  {
    AlikeCall(s, t, pr, org, o);
    if pr in s.procs && s.procs[pr].IntakeStored? {
      var c := s.procs[pr];
      assert CallHeld(s.procs, pr, o);
      var i, j := Queued(s.intake, c.hook, Job(c.inbound, c.reported)),
        Queued(t.intake, c.hook, Job(c.inbound, c.reported));
      AlikeQueued(s.intake, t.intake, c.hook, Job(c.inbound, c.reported), org, o);
      AlikeIntake(s, t, i, j, org, o);
      AlikeDone(s.(intake := i), t.(intake := j), pr, org, o);
      assert StepIntakeEnqueue(s, pr) == Done(s.(intake := i), pr);
      assert StepIntakeEnqueue(t, pr) == Done(t.(intake := j), pr);
    }
  }

  /** Where the worker goes with a job and the row that it finds; None when the check throws. */
  function AfterRead(hook: Hook, id: PaymentId, p: Payment, job: Job): Option<Proc> {
    match StatusMap(job.reported)
    case None => Some(MarkDue(job.inbound))
    case Some(to) =>
      if p.status == to then Some(MarkDue(job.inbound))
      else if ValidTransition(p.status, to) then Some(WebhookChecked(hook, id, p.status, to, job))
      else None
  }

  lemma WebhookReadIs(s: State, pr: ProcId, hook: Hook, id: PaymentId)
    ensures StepWebhookRead(s, pr, hook, id)
         == if pr in s.procs || hook !in s.intake.jobs || id !in s.payments || HookOf(s.payments[id]) != Some(hook)
           then s
            else match AfterRead(hook, id, s.payments[id], s.intake.jobs[hook])
                 case None => s
                 case Some(next) => Goto(s, pr, next)
  {
  }

  lemma OwnWebhookRead(s: State, t: State, pr: ProcId, org: OrgId, hook: Hook, id: PaymentId, o: Ownership)
    requires Pair(s, t, pr, org, o) && o.hook(hook) == org && o.payment(id) == org
    ensures Alike(StepWebhookRead(s, pr, hook, id), StepWebhookRead(t, pr, hook, id), org, o)
  {
    AlikeCall(s, t, pr, org, o);
    AlikeOwnRow(s, t, id, org, o);
    PartMeans(s.intake.jobs, t.intake.jobs, org, o.hook, hook);
    WebhookReadIs(s, pr, hook, id);
    WebhookReadIs(t, pr, hook, id);
    if hook in s.intake.jobs && id in s.payments {
      var next := AfterRead(hook, id, s.payments[id], s.intake.jobs[hook]);
      if next.Some? { AlikeGoto(s, t, pr, next.value, org, o); }
    }
  }

  lemma OwnWebhookCommit(s: State, t: State, pr: ProcId, org: OrgId, o: Ownership)
    requires Pair(s, t, pr, org, o)
    ensures Alike(StepWebhookCommit(s, pr), StepWebhookCommit(t, pr), org, o)
  {
    AlikeCall(s, t, pr, org, o);
    if pr in s.procs && s.procs[pr].WebhookChecked? {
      SameNamedRow(s, t, pr, org, o);
      var c := s.procs[pr];
      var q := Write(s.payments[c.id], c.to, WebhookEvent(c.job.reported));
      AlikePut(s, t, c.id, q, org, o);
      AlikeGoto(Put(s, c.id, q), Put(t, c.id, q), pr, MarkDue(c.job.inbound), org, o);
    }
  }

  lemma OwnWebhookMark(s: State, t: State, pr: ProcId, org: OrgId, o: Ownership)
    requires Pair(s, t, pr, org, o)
    ensures Alike(StepWebhookMark(s, pr), StepWebhookMark(t, pr), org, o)
  {
    AlikeCall(s, t, pr, org, o);
    if pr in s.procs && s.procs[pr].MarkDue? {
      var i := s.procs[pr].inbound;
      assert CallHeld(s.procs, pr, o);
      PartMeans(s.intake.inbound, t.intake.inbound, org, o.inbound, i);
      if i in s.intake.inbound {
        var row := s.intake.inbound[i].(processed := true);
        AlikeStored(s, t, i, row, org, o);
        AlikeDone(WithInbound(s, i, row), WithInbound(t, i, row), pr, org, o);
      }
    }
  }

  // ---- reconciliation ----

  lemma OwnReconcileStart(s: State, t: State, pr: ProcId, org: OrgId, id: PaymentId, o: Ownership)
    requires Pair(s, t, pr, org, o) && o.payment(id) == org
    ensures Alike(StepReconcileStart(s, pr, id), StepReconcileStart(t, pr, id), org, o)
  {
    AlikeCall(s, t, pr, org, o);
    AlikeOwnRow(s, t, id, org, o);
    if id in s.payments { AlikeGoto(s, t, pr, ReconcileRead(id, s.payments[id].status), org, o); }
  }

  lemma OwnReconcileRetrieve(s: State, t: State, pr: ProcId, org: OrgId, reported: ProviderStatus, o: Ownership)
    requires Pair(s, t, pr, org, o)
    ensures Alike(StepReconcileRetrieve(s, pr, reported), StepReconcileRetrieve(t, pr, reported), org, o)
  {
    AlikeCall(s, t, pr, org, o);
    if pr in s.procs && s.procs[pr].ReconcileRead? {
      var c, to := s.procs[pr], StatusMap(reported);
      if to.None? || c.from == to.value || !ValidTransition(c.from, to.value) {
        AlikeDone(s, t, pr, org, o);
      } else {
        AlikeGoto(s, t, pr, ReconcileChecked(c.id, c.from, to.value), org, o);
      }
    }
  }

  lemma OwnReconcileCommit(s: State, t: State, pr: ProcId, org: OrgId, o: Ownership)
    requires Pair(s, t, pr, org, o)
    ensures Alike(StepReconcileCommit(s, pr), StepReconcileCommit(t, pr), org, o)
  {
    AlikeCall(s, t, pr, org, o);
    if pr in s.procs && s.procs[pr].ReconcileChecked? {
      SameNamedRow(s, t, pr, org, o);
      var c := s.procs[pr];
      var q := Write(s.payments[c.id], c.to, ReconciledEvent(c.from, c.to));
      AlikePut(s, t, c.id, q, org, o);
      AlikeDone(Put(s, c.id, q), Put(t, c.id, q), pr, org, o);
    }
  }

  // ---- steps ----

  lemma OwnCreation(s: State, t: State, a: Action, org: OrgId, o: Ownership)
    requires Pair(s, t, a.pr, org, o) && Proper(a, o) && IsCreation(a)
    ensures Alike(Apply(s, a), Apply(t, a), org, o)
  {
    match a
    case CreateLookup(pr, _, key, amount, provider, found) => OwnLookup(s, t, pr, org, key, amount, provider, found, o);
    case CreateInsert(pr, id, now) => OwnInsert(s, t, pr, org, id, now, o);
    case CreateCharge(pr, reply) => OwnCharge(s, t, pr, org, reply, o);
    case CreateCommit(pr) => OwnCommit(s, t, pr, org, o);
    case CreateAbort(pr) => OwnAbort(s, t, pr, org, o);
    case CreateCatch(pr) => OwnCatch(s, t, pr, org, o);
  }

  lemma OwnServing(s: State, t: State, a: Action, org: OrgId, o: Ownership)
    requires Pair(s, t, a.pr, org, o) && Proper(a, o) && IsServing(a)
    ensures Alike(Apply(s, a), Apply(t, a), org, o)
  {
    match a
    case FindOne(pr, _, id) => OwnFind(s, t, pr, org, id, o);
    case FindAll(pr, _, status, page, limit) => OwnList(s, t, pr, org, status, page, limit, o);
    case RefundRead(pr, _, id, asked) => OwnRefundRead(s, t, pr, org, id, asked, o);
    case RefundCall(pr, succeeds) => OwnRefundCall(s, t, pr, org, succeeds, o);
    case RefundCommit(pr) => OwnRefundCommit(s, t, pr, org, o);
    case Crash(pr) => AlikeDone(s, t, pr, org, o);
  }

  lemma OwnWork(s: State, t: State, a: Action, org: OrgId, o: Ownership)
    requires Pair(s, t, a.pr, org, o) && Proper(a, o) && !IsCreation(a) && !IsServing(a)
    ensures Alike(Apply(s, a), Apply(t, a), org, o)
  {
    match a
    case IntakeRead(pr, hook, reported) => OwnIntakeRead(s, t, pr, org, hook, reported, o);
    case IntakeInsert(pr, i) => OwnIntakeInsert(s, t, pr, org, i, o);
    case IntakeEnqueue(pr) => OwnIntakeEnqueue(s, t, pr, org, o);
    case WebhookRead(pr, hook, id) => OwnWebhookRead(s, t, pr, org, hook, id, o);
    case WebhookCommit(pr) => OwnWebhookCommit(s, t, pr, org, o);
    case WebhookMark(pr) => OwnWebhookMark(s, t, pr, org, o);
    case ReconcileStart(pr, id) => OwnReconcileStart(s, t, pr, org, id, o);
    case ReconcileRetrieve(pr, reported) => OwnReconcileRetrieve(s, t, pr, org, reported, o);
    case ReconcileCommit(pr) => OwnReconcileCommit(s, t, pr, org, o);
  }

  /** The organization's own steps look the same from states that it cannot tell apart. */
  lemma OwnStepsAgree(s: State, t: State, a: Action, org: OrgId, o: Ownership)
    requires Pair(s, t, a.pr, org, o) && Proper(a, o)
    ensures Alike(Apply(s, a), Apply(t, a), org, o)
  {
    if IsCreation(a) {
      OwnCreation(s, t, a, org, o);
    } else if IsServing(a) {
      OwnServing(s, t, a, org, o);
    } else {
      OwnWork(s, t, a, org, o);
    }
  }

  // ---- runs ----

  lemma AlikeChain(s: State, t: State, u: State, org: OrgId, o: Ownership)
    requires Alike(s, t, org, o) && Alike(t, u, org, o)
    ensures Alike(s, u, org, o)
  {
  }

  lemma {:induction false} RunsAgree(s: State, t: State, run: seq<Action>, org: OrgId, o: Ownership)
    requires Owned(s, o) && Owned(t, o) && Alike(s, t, org, o) && ProperRun(run, o)
    ensures Alike(Exec(s, run), Exec(t, Only(run, org, o)), org, o)
    decreases |run|
  {
    if run != [] {
      var a, rest := run[0], run[1..];
      assert Proper(a, o);
      assert ProperRun(rest, o) by {
        forall i | 0 <= i < |rest| ensures Proper(rest[i], o) { assert rest[i] == run[i + 1]; }
      }
      StepKeepsOwned(s, a, o);
      if o.call(a.pr) == org {
        StepKeepsOwned(t, a, o);
        OwnStepsAgree(s, t, a, org, o);
        RunsAgree(Apply(s, a), Apply(t, a), rest, org, o);
        assert Only(run, org, o)[0] == a && Only(run, org, o)[1..] == Only(rest, org, o);
      } else {
        OthersAreInvisible(s, a, org, o);
        AlikeChain(Apply(s, a), s, t, org, o);
        RunsAgree(Apply(s, a), t, rest, org, o);
        assert Only(run, org, o) == Only(rest, org, o);
      }
    }
  }

  /**
   For any run of any mix of organizations, with the webhooks and reconciliations of their
   payments, one organization's rows, with events, refunds and histories, its answers, in
   order, and its notifications and jobs are those of the run in which only its own steps
   are taken.
  */
  lemma {:induction false} TenantIsolation(run: seq<Action>, org: OrgId, o: Ownership)
    requires ProperRun(run, o)
    ensures var all, alone := Exec(INIT, run), Exec(INIT, Only(run, org, o));
      && RowsOf(all.payments, org) == RowsOf(alone.payments, org)
      && AnswersTo(all.answers, org) == AnswersTo(alone.answers, org)
      && Part(all.intake.inbound, org, o.inbound) == Part(alone.intake.inbound, org, o.inbound)
      && Part(all.intake.jobs, org, o.hook) == Part(alone.intake.jobs, org, o.hook)
  {
    RunsAgree(INIT, INIT, run, org, o);
  }
}
