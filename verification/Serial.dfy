/**
 The serial granularity: a worker's or a refund's read, check and transaction happen as
 one call, while the steps of creation and intake still interleave and a worker may still
 crash before it marks its notification. A serial run is expanded into the small steps,
 so everything proved of interleaved runs holds of it too.
*/
module Serial {
  import opened Options
  import opened StateMachine
  import opened Rows
  import opened Payments
  import opened Invariant
  import opened Interleaved
  import opened Conservation

  datatype Call =
    | Single(a: Action)
    | WebhookRun(pr: ProcId, hook: Hook, id: PaymentId)
    | ReconcileRun(pr: ProcId, id: PaymentId, reported: ProviderStatus)
    | RefundRun(pr: ProcId, org: OrgId, id: PaymentId, asked: Option<int>, succeeds: bool)

  /** The small steps that may stand alone in a serial run. */
  predicate StandsAlone(a: Action) {
    && !a.RefundRead? && !a.RefundCall? && !a.RefundCommit? && !a.WebhookRead? && !a.WebhookCommit?
    && !a.ReconcileStart? && !a.ReconcileRetrieve? && !a.ReconcileCommit?
  }

  predicate WellFormed(calls: seq<Call>) {
    forall i :: 0 <= i < |calls| && calls[i].Single? ==> StandsAlone(calls[i].a)
  }

  function Expand(c: Call): seq<Action> {
    match c
    case Single(a) => [a]
    case WebhookRun(pr, hook, id) => [WebhookRead(pr, hook, id), WebhookCommit(pr)]
    case ReconcileRun(pr, id, reported) =>
      [ReconcileStart(pr, id), ReconcileRetrieve(pr, reported), ReconcileCommit(pr)]
    case RefundRun(pr, org, id, asked, succeeds) =>
      [RefundRead(pr, org, id, asked), RefundCall(pr, succeeds), RefundCommit(pr)]
  }

  function Flatten(calls: seq<Call>): seq<Action> {
    if calls == [] then [] else Expand(calls[0]) + Flatten(calls[1..])
  }

  ghost function Perform(s: State, c: Call): State {
    Exec(s, Expand(c))
  }

  lemma ExecTwo(s: State, a: Action, b: Action)
    ensures Exec(s, [a, b]) == Apply(Apply(s, a), b)
  {
    assert [a, b][1..] == [b];
    ExecOne(Apply(s, a), b);
  }

  lemma ExecThree(s: State, a: Action, b: Action, c: Action)
    ensures Exec(s, [a, b, c]) == Apply(Apply(Apply(s, a), b), c)
  {
    assert [a, b, c][1..] == [b, c];
    ExecTwo(Apply(s, a), b, c);
  }

  // ---- between calls no worker holds a snapshot ----

  predicate HoldsSnapshot(c: Proc) {
    c.RefundChecked? || c.RefundPaid? || c.WebhookChecked? || c.ReconcileRead? || c.ReconcileChecked?
  }

  ghost predicate Quiet(procs: map<ProcId, Proc>) {
    forall pr :: pr in procs ==> !HoldsSnapshot(procs[pr])
  }

  // ---- the effect of a call on rows ----

  /** A webhook job run at once: what it makes of the payment it finds. */
  function WebhookRow(p: Payment, reported: ProviderStatus): Payment {
    match StatusMap(reported)
    case None => p
    case Some(to) => if p.status != to && Edge(p.status, to) then Write(p, to, WebhookEvent(reported)) else p
  }

  /** A reconciliation run at once. */
  function ReconciledRow(p: Payment, reported: ProviderStatus): Payment {
    match StatusMap(reported)
    case None => p
    case Some(to) =>
      if p.externalId.Some? && p.status != to && Edge(p.status, to) then Write(p, to, ReconciledEvent(p.status, to))
        else p
  }

  /** A refund run at once. */
  function RefundedRow(p: Payment, asked: Option<int>, succeeds: bool): Payment {
    if PhaseOf(p.status) == Paid && p.externalId.Some? && succeeds then RecordRefund(CountCall(p), asked, p.amount)
      else p
  }

  lemma PutSame(s: State, id: PaymentId)
    requires id in s.payments
    ensures s.payments[id := s.payments[id]] == s.payments
  {
  }

  lemma WebhookSteps(s: State, pr: ProcId, hook: Hook, id: PaymentId)
    requires pr in s.procs ==> !HoldsSnapshot(s.procs[pr])
    ensures var t := StepWebhookCommit(StepWebhookRead(s, pr, hook, id), pr);
      var enabled := pr !in s.procs && hook in s.intake.jobs && id in s.payments
        && HookOf(s.payments[id]) == Some(hook);
      && (enabled ==> t.payments == s.payments[id := WebhookRow(s.payments[id], s.intake.jobs[hook].reported)])
      && (!enabled ==> t == s)
      && t.intake == s.intake
      && (forall other :: other in t.procs
            ==> t.procs[other].MarkDue? || (other in s.procs && t.procs[other] == s.procs[other]))
  {
    if id in s.payments { PutSame(s, id); }
  }

  lemma ReconcileSkips(s: State, pr: ProcId, id: PaymentId, reported: ProviderStatus)
    requires pr !in s.procs && id in s.payments && s.payments[id].externalId.Some?
    requires ReconciledRow(s.payments[id], reported) == s.payments[id]
    ensures StepReconcileCommit(StepReconcileRetrieve(StepReconcileStart(s, pr, id), pr, reported), pr) == s
  {
    var s1 := Goto(s, pr, ReconcileRead(id, s.payments[id].status));
    assert StepReconcileStart(s, pr, id) == s1;
    assert StepReconcileRetrieve(s1, pr, reported) == Done(s1, pr) == s;
  }

  lemma ReconcileWrites(s: State, pr: ProcId, id: PaymentId, reported: ProviderStatus)
    requires pr !in s.procs && id in s.payments && s.payments[id].externalId.Some?
    requires ReconciledRow(s.payments[id], reported) != s.payments[id]
    ensures StepReconcileCommit(StepReconcileRetrieve(StepReconcileStart(s, pr, id), pr, reported), pr)
         == Put(s, id, ReconciledRow(s.payments[id], reported))
  {
    var p, to := s.payments[id], StatusMap(reported).value;
    var s1 := Goto(s, pr, ReconcileRead(id, p.status));
    var s2 := Goto(s, pr, ReconcileChecked(id, p.status, to));
    assert StepReconcileStart(s, pr, id) == s1;
    assert s1.procs[pr := s2.procs[pr]] == s2.procs;
    assert StepReconcileRetrieve(s1, pr, reported) == s2;
    assert s2.procs - {pr} == s.procs;
  }

  lemma ReconcileTaken(s: State, pr: ProcId, id: PaymentId, reported: ProviderStatus)
    requires pr !in s.procs && id in s.payments && s.payments[id].externalId.Some?
    ensures StepReconcileCommit(StepReconcileRetrieve(StepReconcileStart(s, pr, id), pr, reported), pr)
         == Put(s, id, ReconciledRow(s.payments[id], reported))
  {
    if ReconciledRow(s.payments[id], reported) == s.payments[id] {
      ReconcileSkips(s, pr, id, reported);
      PutSame(s, id);
    } else {
      ReconcileWrites(s, pr, id, reported);
    }
  }

  lemma ReconcileSteps(s: State, pr: ProcId, id: PaymentId, reported: ProviderStatus)
    requires pr in s.procs ==> !HoldsSnapshot(s.procs[pr])
    ensures var t := StepReconcileCommit(StepReconcileRetrieve(StepReconcileStart(s, pr, id), pr, reported), pr);
      && (pr !in s.procs && id in s.payments
        ==> t.payments == s.payments[id := ReconciledRow(s.payments[id], reported)])
      && (pr in s.procs || id !in s.payments ==> t == s)
      && t.intake == s.intake && t.procs == s.procs
  {
    if id in s.payments {
      PutSame(s, id);
      if pr !in s.procs && s.payments[id].externalId.Some? { ReconcileTaken(s, pr, id, reported); }
    }
  }

  lemma RefundRefused(s: State, pr: ProcId, org: OrgId, id: PaymentId, asked: Option<int>, succeeds: bool)
    requires pr in s.procs ==> !HoldsSnapshot(s.procs[pr])
    requires pr in s.procs || id !in s.payments || s.payments[id].org != org || PhaseOf(s.payments[id].status) != Paid
      || s.payments[id].externalId.None?
    ensures var t := StepRefundCommit(StepRefundCall(StepRefundRead(s, pr, org, id, asked), pr, succeeds), pr);
      t.payments == s.payments && t.intake == s.intake && t.procs == s.procs
  {
  }

  lemma RefundTaken(s: State, pr: ProcId, org: OrgId, id: PaymentId, asked: Option<int>, succeeds: bool)
    requires pr !in s.procs && id in s.payments && s.payments[id].org == org
    requires PhaseOf(s.payments[id].status) == Paid && s.payments[id].externalId.Some?
    ensures var t := StepRefundCommit(StepRefundCall(StepRefundRead(s, pr, org, id, asked), pr, succeeds), pr);
      && t.payments == s.payments[id := RefundedRow(s.payments[id], asked, succeeds)]
      && t.intake == s.intake && t.procs == s.procs
  {
    PutSame(s, id);
    var p := s.payments[id];
    var s1 := Goto(s, pr, RefundChecked(org, id, p.status, p.amount, asked));
    assert StepRefundRead(s, pr, org, id, asked) == s1;
    if succeeds {
      var s2 := Goto(Put(s1, id, CountCall(p)), pr, RefundPaid(org, id, p.status, p.amount, asked));
      assert StepRefundCall(s1, pr, true) == s2;
      assert StepRefundCommit(s2, pr).payments == s2.payments[id := RecordRefund(CountCall(p), asked, p.amount)];
    }
  }

  lemma RefundSteps(s: State, pr: ProcId, org: OrgId, id: PaymentId, asked: Option<int>, succeeds: bool)
    requires pr in s.procs ==> !HoldsSnapshot(s.procs[pr])
    ensures var t := StepRefundCommit(StepRefundCall(StepRefundRead(s, pr, org, id, asked), pr, succeeds), pr);
      var enabled := pr !in s.procs && id in s.payments && s.payments[id].org == org;
      && (enabled ==> t.payments == s.payments[id := RefundedRow(s.payments[id], asked, succeeds)])
      && (!enabled ==> t.payments == s.payments)
      && t.intake == s.intake && t.procs == s.procs
  {
    if pr in s.procs || id !in s.payments || s.payments[id].org != org || PhaseOf(s.payments[id].status) != Paid
      || s.payments[id].externalId.None? {
      RefundRefused(s, pr, org, id, asked, succeeds);
      if id in s.payments { PutSame(s, id); }
    } else {
      RefundTaken(s, pr, org, id, asked, succeeds);
    }
  }

  /** The rows after a call, and the fact that it leaves no snapshot behind. */
  ghost function RowsAfter(s: State, c: Call): map<PaymentId, Payment> {
    match c
    case Single(a) => Apply(s, a).payments
    case WebhookRun(pr, hook, id) =>
      if pr !in s.procs && hook in s.intake.jobs && id in s.payments && HookOf(s.payments[id]) == Some(hook)
      then s.payments[id := WebhookRow(s.payments[id], s.intake.jobs[hook].reported)] else s.payments
    case ReconcileRun(pr, id, reported) =>
      if pr !in s.procs && id in s.payments
      then s.payments[id := ReconciledRow(s.payments[id], reported)] else s.payments
    case RefundRun(pr, org, id, asked, succeeds) =>
      if pr !in s.procs && id in s.payments && s.payments[id].org == org
      then s.payments[id := RefundedRow(s.payments[id], asked, succeeds)] else s.payments
  }

  lemma SingleStaysQuiet(s: State, a: Action)
    requires Quiet(s.procs) && StandsAlone(a)
    ensures Quiet(Apply(s, a).procs)
  {
  }

  ghost predicate EffectOk(s: State, c: Call) {
    var t := Perform(s, c);
    Quiet(t.procs) && t.payments == RowsAfter(s, c) && (!c.Single? ==> t.intake == s.intake)
  }

  lemma SingleEffect(s: State, a: Action)
    requires Quiet(s.procs) && StandsAlone(a)
    ensures EffectOk(s, Single(a))
  {
    ExecOne(s, a);
    SingleStaysQuiet(s, a);
  }

  lemma WebhookEffect(s: State, pr: ProcId, hook: Hook, id: PaymentId)
    requires Quiet(s.procs)
    ensures EffectOk(s, WebhookRun(pr, hook, id))
  {
    hide Exec, StepWebhookRead, StepWebhookCommit;
    ExecTwo(s, WebhookRead(pr, hook, id), WebhookCommit(pr));
    WebhookSteps(s, pr, hook, id);
    assert Perform(s, WebhookRun(pr, hook, id)) == StepWebhookCommit(StepWebhookRead(s, pr, hook, id), pr);
  }

  lemma ReconcileEffect(s: State, pr: ProcId, id: PaymentId, reported: ProviderStatus)
    requires Quiet(s.procs)
    ensures EffectOk(s, ReconcileRun(pr, id, reported))
  {
    hide Exec, StepReconcileStart, StepReconcileRetrieve, StepReconcileCommit;
    ExecThree(s, ReconcileStart(pr, id), ReconcileRetrieve(pr, reported), ReconcileCommit(pr));
    ReconcileSteps(s, pr, id, reported);
    assert Perform(s, ReconcileRun(pr, id, reported))
        == StepReconcileCommit(StepReconcileRetrieve(StepReconcileStart(s, pr, id), pr, reported), pr);
  }

  lemma RefundEffect(s: State, pr: ProcId, org: OrgId, id: PaymentId, asked: Option<int>, succeeds: bool)
    requires Quiet(s.procs)
    ensures EffectOk(s, RefundRun(pr, org, id, asked, succeeds))
  {
    hide Exec, StepRefundRead, StepRefundCall, StepRefundCommit;
    ExecThree(s, RefundRead(pr, org, id, asked), RefundCall(pr, succeeds), RefundCommit(pr));
    RefundSteps(s, pr, org, id, asked, succeeds);
    assert Perform(s, RefundRun(pr, org, id, asked, succeeds))
        == StepRefundCommit(StepRefundCall(StepRefundRead(s, pr, org, id, asked), pr, succeeds), pr);
  }

  /** Each call, run at once, has exactly the effect of its one-row description. */
  lemma CallEffect(s: State, c: Call)
    requires Quiet(s.procs) && (c.Single? ==> StandsAlone(c.a))
    ensures EffectOk(s, c)
  {
    match c
    case Single(a) => SingleEffect(s, a);
    case WebhookRun(pr, hook, id) => WebhookEffect(s, pr, hook, id);
    case ReconcileRun(pr, id, reported) => ReconcileEffect(s, pr, id, reported);
    case RefundRun(pr, org, id, asked, succeeds) => RefundEffect(s, pr, org, id, asked, succeeds);
  }

  // ---- what serial runs keep ----

  function WebhookEvents(events: seq<Event>): nat {
    if events == [] then 0
    else WebhookEvents(events[..|events| - 1]) + (if events[|events| - 1].WebhookEvent? then 1 else 0)
  }

  /** Every refund row but the last is partial, and a last row that is not closes the payment. */
  predicate Ledger(p: Payment) {
    && p.refundCalls == |p.refunds|
    && (forall i :: 0 <= i < |p.refunds| - 1 ==> p.refunds[i] < p.amount)
    && (p.refunds != [] && p.refunds[|p.refunds| - 1] >= p.amount ==> p.status == Refunded)
  }

  /** At most one webhook event, whose status the payment has reached or passed. */
  predicate WebhookOnce(jobs: map<Hook, Job>, p: Payment) {
    && WebhookEvents(p.events) <= 1
    && (WebhookEvents(p.events) == 1 ==>
         && p.externalId.Some? && HookOf(p).value in jobs
         && var to := StatusMap(jobs[HookOf(p).value].reported); to.Some? && Rank(to.value) <= Rank(p.status))
  }

  predicate SerialRow(jobs: map<Hook, Job>, p: Payment) {
    LegalHistory(p.history) && Ledger(p) && WebhookOnce(jobs, p)
  }

  lemma WebhookEventCounts(events: seq<Event>, event: Event)
    ensures WebhookEvents(events + [event]) == WebhookEvents(events) + if event.WebhookEvent? then 1 else 0
  {
    assert (events + [event])[..|events|] == events;
  }

  /** A full last row has closed the payment, and no edge leaves a closed one. */
  lemma WriteKeepsLedger(p: Payment, to: Status, event: Event)
    requires Ledger(p) && Edge(p.status, to)
    ensures Ledger(Write(p, to, event))
  {
  }

  lemma WriteKeepsLegal(p: Payment, to: Status, event: Event)
    requires RowOk(p) && LegalHistory(p.history) && Edge(p.status, to)
    ensures LegalHistory(Write(p, to, event).history)
  {
    LegalHistoryExtends(p.history, to);
  }

  lemma WriteKeepsOnce(jobs: map<Hook, Job>, p: Payment, to: Status, event: Event)
    requires WebhookOnce(jobs, p) && Edge(p.status, to) && !event.WebhookEvent?
    ensures WebhookOnce(jobs, Write(p, to, event))
  {
    WebhookEventCounts(p.events, event);
    EdgesClimb(p.status, to);
  }

  lemma ChangeKeepsSerial(jobs: map<Hook, Job>, p: Payment, to: Status, event: Event)
    requires RowOk(p) && SerialRow(jobs, p) && Edge(p.status, to)
    requires !event.WebhookEvent? && !event.RefundedEvent?
    ensures SerialRow(jobs, Write(p, to, event))
  {
    hide Ledger, WebhookOnce, RowOk, LegalHistory;
    WriteKeepsLegal(p, to, event);
    WriteKeepsLedger(p, to, event);
    WriteKeepsOnce(jobs, p, to, event);
  }

  /** A second event would need an edge back below the status that the first one wrote. */
  lemma FirstWebhookEvent(jobs: map<Hook, Job>, p: Payment, hook: Hook, to: Status)
    requires WebhookOnce(jobs, p) && hook in jobs && HookOf(p) == Some(hook)
    requires StatusMap(jobs[hook].reported) == Some(to) && Edge(p.status, to)
    ensures WebhookEvents(p.events) == 0 && WebhookOnce(jobs, Write(p, to, WebhookEvent(jobs[hook].reported)))
  {
    EdgesClimb(p.status, to);
    WebhookEventCounts(p.events, WebhookEvent(jobs[hook].reported));
  }

  /** The retry argument: a second run of the job finds nothing to do. */
  lemma WebhookKeepsSerial(jobs: map<Hook, Job>, p: Payment, hook: Hook)
    requires RowOk(p) && SerialRow(jobs, p) && hook in jobs && HookOf(p) == Some(hook)
    ensures SerialRow(jobs, WebhookRow(p, jobs[hook].reported))
    ensures WebhookEvents(p.events) == 1 ==> WebhookRow(p, jobs[hook].reported) == p
  {
    hide Ledger, WebhookOnce, RowOk, LegalHistory, WebhookEvents, HookOf;
    var word := jobs[hook].reported;
    if WebhookRow(p, word) != p {
      var to := StatusMap(word).value;
      WriteKeepsLegal(p, to, WebhookEvent(word));
      WriteKeepsLedger(p, to, WebhookEvent(word));
      FirstWebhookEvent(jobs, p, hook, to);
    }
  }

  lemma RefundKeepsLedger(p: Payment, asked: Option<int>)
    requires Ledger(p) && PhaseOf(p.status) == Paid
    ensures Ledger(RecordRefund(CountCall(p), asked, p.amount))
  {
    var q := RecordRefund(CountCall(p), asked, p.amount);
    assert forall i :: 0 <= i < |p.refunds| ==> q.refunds[i] == p.refunds[i];
  }

  lemma RefundKeepsOnce(jobs: map<Hook, Job>, p: Payment, asked: Option<int>)
    requires WebhookOnce(jobs, p) && PhaseOf(p.status) == Paid
    ensures WebhookOnce(jobs, RecordRefund(CountCall(p), asked, p.amount))
  {
    WebhookEventCounts(p.events, RefundedEvent(RefundPayload(asked, p.amount)));
  }

  lemma RefundKeepsSerial(jobs: map<Hook, Job>, p: Payment, asked: Option<int>)
    requires RowOk(p) && SerialRow(jobs, p) && PhaseOf(p.status) == Paid
    ensures SerialRow(jobs, RecordRefund(CountCall(p), asked, p.amount))
  {
    hide Ledger, WebhookOnce;
    LegalHistoryExtends(p.history, RefundTarget(asked, p.amount));
    RefundKeepsLedger(p, asked);
    RefundKeepsOnce(jobs, p, asked);
  }

  lemma CreationKeepsSerial(jobs: map<Hook, Job>, p: Payment, externalId: nat, reported: ProviderStatus)
    requires RowOk(p) && SerialRow(jobs, p) && Untouched(p)
    ensures SerialRow(jobs, SettleCharge(p, externalId, reported)) && SerialRow(jobs, FailCharge(p))
  {
    assert WebhookEvents([CreatedEvent]) == WebhookEvents([]);
    Appended(p.events, ProviderEvent(reported));
    LegalHistoryExtends(p.history, MapProviderStatus(reported));
    LegalHistoryExtends(p.history, Failed);
    ReadingsAgree(reported);
  }

  ghost predicate JobsGrow(before: map<Hook, Job>, after: map<Hook, Job>) {
    forall h :: h in before ==> h in after && after[h] == before[h]
  }

  lemma MoreJobs(before: map<Hook, Job>, after: map<Hook, Job>, p: Payment)
    requires SerialRow(before, p) && JobsGrow(before, after)
    ensures SerialRow(after, p)
  {
  }

  ghost predicate AllSerial(jobs: map<Hook, Job>, payments: map<PaymentId, Payment>) {
    forall id :: id in payments ==> SerialRow(jobs, payments[id])
  }

  ghost predicate SerialInv(s: State) {
    Inv(s) && Quiet(s.procs) && AllSerial(s.intake.jobs, s.payments)
  }

  lemma SingleKeepsSerial(s: State, a: Action)
    requires SerialInv(s) && StandsAlone(a)
    ensures SerialInv(Apply(s, a))
  {
    var t := Apply(s, a);
    StepKeepsInv(s, a);
    SingleStaysQuiet(s, a);
    forall h | h in s.intake.jobs ensures h in t.intake.jobs
      && t.intake.jobs[h] == s.intake.jobs[h] { JobKept(s, a, h); }
    forall id | id in t.payments ensures SerialRow(t.intake.jobs, t.payments[id]) {
      SingleKeepsRow(s, a, id);
      MoreJobs(s.intake.jobs, t.intake.jobs, t.payments[id]);
    }
  }

  lemma SingleKeepsRow(s: State, a: Action, id: PaymentId)
    requires SerialInv(s) && StandsAlone(a) && id in Apply(s, a).payments
    ensures SerialRow(s.intake.jobs, Apply(s, a).payments[id])
  {
    if id !in s.payments {
      NewRowsAreNew(s, a, id);
      assert WebhookEvents([CreatedEvent]) == WebhookEvents([]);
    } else {
      StepWrites(s, a, id);
      if Apply(s, a).payments[id] != s.payments[id] {
        var c := s.procs[a.pr];
        assert !HoldsSnapshot(c) && RowOk(s.payments[id]);
        CreationKeepsSerial(s.intake.jobs, s.payments[id], if c.Charged? then c.externalId else 0,
          if c.Charged? then c.reported else SaysPending);
      }
    }
  }

  lemma CalledRowSerial(jobs: map<Hook, Job>, p: Payment, c: Call)
    requires RowOk(p) && SerialRow(jobs, p) && !c.Single?
    ensures c.WebhookRun? && c.hook in jobs && HookOf(p) == Some(c.hook)
      ==> SerialRow(jobs, WebhookRow(p, jobs[c.hook].reported))
    ensures c.ReconcileRun? ==> SerialRow(jobs, ReconciledRow(p, c.reported))
    ensures c.RefundRun? ==> SerialRow(jobs, RefundedRow(p, c.asked, c.succeeds))
  {
    match c
    case WebhookRun(pr, hook, id) =>
      if hook in jobs && HookOf(p) == Some(hook) { WebhookKeepsSerial(jobs, p, hook); }
    case ReconcileRun(pr, id, reported) =>
      ReconciledKeepsSerial(jobs, p, reported);
    case RefundRun(pr, org, id, asked, succeeds) =>
      if PhaseOf(p.status) == Paid { RefundKeepsSerial(jobs, p, asked); }
  }

  /** The three atomic calls keep the one row that they may write. */
  lemma RowsAfterSerial(s: State, c: Call)
    requires SerialInv(s) && !c.Single?
    ensures AllSerial(s.intake.jobs, RowsAfter(s, c))
  {
    hide SerialRow, WebhookRow, ReconciledRow, RefundedRow, RowOk;
    if c.id in s.payments {
      var p := s.payments[c.id];
      assert RowOk(p) && SerialRow(s.intake.jobs, p);
      CalledRowSerial(s.intake.jobs, p, c);
    }
  }

  lemma ReconciledKeepsSerial(jobs: map<Hook, Job>, p: Payment, reported: ProviderStatus)
    requires RowOk(p) && SerialRow(jobs, p)
    ensures SerialRow(jobs, ReconciledRow(p, reported))
  {
    if ReconciledRow(p, reported) != p {
      var to := StatusMap(reported).value;
      ChangeKeepsSerial(jobs, p, to, ReconciledEvent(p.status, to));
    }
  }

  lemma CallKeepsSerial(s: State, c: Call)
    requires SerialInv(s) && (c.Single? ==> StandsAlone(c.a))
    ensures SerialInv(Perform(s, c))
  {
    if c.Single? {
      ExecOne(s, c.a);
      SingleKeepsSerial(s, c.a);
    } else {
      CallEffect(s, c);
      RunKeepsInv(s, Expand(c));
      RowsAfterSerial(s, c);
    }
  }

  lemma {:induction false} CallsKeepSerial(s: State, calls: seq<Call>)
    requires SerialInv(s) && WellFormed(calls)
    ensures SerialInv(Exec(s, Flatten(calls)))
    decreases |calls|
  {
    if calls != [] {
      CallKeepsSerial(s, calls[0]);
      CallsKeepSerial(Perform(s, calls[0]), calls[1..]);
      ExecConcat(s, Expand(calls[0]), Flatten(calls[1..]));
    }
  }

  lemma SerialReachable(calls: seq<Call>)
    requires WellFormed(calls)
    ensures SerialInv(Exec(INIT, Flatten(calls)))
  {
    CallsKeepSerial(INIT, calls);
  }

  // ---- the results ----

  /**
   In every serial run each stored status follows from the one before it by the table, a
   terminal status is the last one ever stored, and the status changes at most four times.
  */
  lemma SerialHistoryIsLegal(calls: seq<Call>, id: PaymentId)
    requires WellFormed(calls) && id in Exec(INIT, Flatten(calls)).payments
    ensures var h := Exec(INIT, Flatten(calls)).payments[id].history;
      && LegalHistory(h) && Changes(h) <= 4
      && (forall i, j :: 0 <= i <= j < |h| && IsTerminal(h[i]) ==> h[j] == h[i])
  {
    hide Exec, Flatten;
    SerialReachable(calls);
    var p := Exec(INIT, Flatten(calls)).payments[id];
    assert RowOk(p);
    ChangesBounded(p.history);
    forall i, j | 0 <= i <= j < |p.history| && IsTerminal(p.history[i]) ensures p.history[j] == p.history[i] {
      TerminalAbsorbs(p.history, i, j);
    }
  }

  lemma TerminalRowStays(p: Payment, q: Payment)
    requires RowOk(p) && RowOk(q) && Evolves(p, q) && LegalHistory(q.history) && IsTerminal(p.status)
    ensures q.status == p.status
  {
    TerminalAbsorbs(q.history, |p.history| - 1, |q.history| - 1);
  }

  lemma TerminalStays(s: State, calls: seq<Call>, id: PaymentId)
    requires SerialInv(s) && WellFormed(calls) && id in s.payments && IsTerminal(s.payments[id].status)
    ensures var t := Exec(s, Flatten(calls)); id in t.payments && t.payments[id].status == s.payments[id].status
  {
    CallsKeepSerial(s, calls);
    RowsPersist(s, Flatten(calls), id);
    var t := Exec(s, Flatten(calls));
    assert SerialRow(t.intake.jobs, t.payments[id]);
    TerminalRowStays(s.payments[id], t.payments[id]);
  }

  /** Once terminal, a payment keeps its status through every continuation. */
  lemma {:induction false} SerialTerminalStays(first: seq<Call>, second: seq<Call>, id: PaymentId)
    requires WellFormed(first) && WellFormed(second)
    requires id in Exec(INIT, Flatten(first)).payments && IsTerminal(Exec(INIT, Flatten(first)).payments[id].status)
    ensures var s := Exec(INIT, Flatten(first));
      var t := Exec(s, Flatten(second));
      id in t.payments && t.payments[id].status == s.payments[id].status
  {
    SerialReachable(first);
    var s := Exec(INIT, Flatten(first));
    TerminalStays(s, second, id);
  }

  /**
   In serial runs provider refunds, refund rows and refund events are equal in number;
   every row but the last is below the amount, and a row that reaches it closes the payment.
  */
  lemma SerialRefundLedger(calls: seq<Call>, id: PaymentId)
    requires WellFormed(calls) && id in Exec(INIT, Flatten(calls)).payments
    ensures var p := Exec(INIT, Flatten(calls)).payments[id];
      && p.refundCalls == |p.refunds| == RefundEvents(p.events)
      && (forall i :: 0 <= i < |p.refunds| - 1 ==> p.refunds[i] < p.amount)
      && (p.refunds != [] && p.refunds[|p.refunds| - 1] >= p.amount ==> p.status == Refunded)
  {
    SerialReachable(calls);
    assert RowOk(Exec(INIT, Flatten(calls)).payments[id]);
  }

  /**
   A refund call on a refundable payment adds one row and one provider refund, and leaves
   the payment refunded exactly when that row reaches the amount; otherwise partially.
   Any other refund call changes no row at all.
  */
  lemma SerialRefundOutcome(calls: seq<Call>, pr: ProcId, org: OrgId, id: PaymentId, asked: Option<int>, succeeds: bool)
    requires WellFormed(calls)
    ensures var s := Exec(INIT, Flatten(calls));
      var t := Perform(s, RefundRun(pr, org, id, asked, succeeds));
      if pr !in s.procs && id in s.payments && s.payments[id].org == org && PhaseOf(s.payments[id].status) == Paid
        && succeeds then
        id in t.payments &&
        var p, q := s.payments[id], t.payments[id];
        && |q.refunds| == |p.refunds| + 1 && p.refunds <= q.refunds && q.refundCalls == p.refundCalls + 1
        && (q.status == Refunded <==> q.refunds[|p.refunds|] >= p.amount)
        && (q.status == PartiallyRefunded <==> q.refunds[|p.refunds|] < p.amount)
        && q.refunds[|p.refunds|] == (if asked.Some? && asked.value != 0 then asked.value else p.amount)
      else t.payments == s.payments
  {
    hide Exec, LegalHistory;
    SerialReachable(calls);
    var s := Exec(INIT, Flatten(calls));
    CallEffect(s, RefundRun(pr, org, id, asked, succeeds));
    if id in s.payments {
      assert RowOk(s.payments[id]);
      assert RefundedRow(s.payments[id], asked, succeeds) == s.payments[id]
        ==> RowsAfter(s, RefundRun(pr, org, id, asked, succeeds)) == s.payments;
    }
  }

  /**
   What a worker makes of a row when the provider's word is known: if the word is not the
   status already and the table has an edge to the status of that name, status, history and
   log go on by one entry; otherwise nothing changes.
  */
  predicate Follows(p: Payment, q: Payment, word: ProviderStatus, event: Event) {
    if !word.Other? && exists to :: Edge(p.status, to) && Name(to) == Text(word) then
      && Name(q.status) == Text(word) && Edge(p.status, q.status)
      && q == p.(status := q.status, history := p.history + [q.status], events := p.events + [event])
    else q == p
  }

  lemma NoSelfEdge(from: Status, to: Status)
    requires Edge(from, to)
    ensures from != to
  {
  }

  lemma WorkerRowsFollow(p: Payment, word: ProviderStatus)
    ensures Follows(p, WebhookRow(p, word), word, WebhookEvent(word))
    ensures p.externalId.Some? ==>
      var q := ReconciledRow(p, word); Follows(p, q, word, ReconciledEvent(p.status, q.status))
    ensures p.externalId.None? ==> ReconciledRow(p, word) == p
  {
    hide Name, Text, StatusMap, Edge;
    WorkersReadEvery(word);
    if to :| Edge(p.status, to) && Name(to) == Text(word) { NoSelfEdge(p.status, to); }
    if StatusMap(word).Some? && Edge(p.status, StatusMap(word).value) { NoSelfEdge(p.status, StatusMap(word).value); }
  }

  /**
   A webhook job run on the payment that bears its external id gives it the status that the
   word names if the table allows that, and any other job run changes no row. In particular
   a captured payment that is reported refunded ends refunded.
  */
  lemma SerialWebhookOutcome(calls: seq<Call>, pr: ProcId, hook: Hook, id: PaymentId)
    requires WellFormed(calls)
    ensures var s := Exec(INIT, Flatten(calls));
      var t := Perform(s, WebhookRun(pr, hook, id));
      if pr !in s.procs && hook in s.intake.jobs && id in s.payments
         && s.payments[id].provider == hook.provider && s.payments[id].externalId == Some(hook.externalId) then
        && id in t.payments && t.payments == s.payments[id := t.payments[id]]
        && var word := s.intake.jobs[hook].reported;
        && Follows(s.payments[id], t.payments[id], word, WebhookEvent(word))
        && (s.payments[id].status == Captured && Text(word) == "refunded" && !word.Other?
          ==> t.payments[id].status == Refunded)
      else t.payments == s.payments
  {
    hide Exec, Follows;
    SerialReachable(calls);
    var s := Exec(INIT, Flatten(calls));
    CallEffect(s, WebhookRun(pr, hook, id));
    if hook in s.intake.jobs && id in s.payments {
      WorkerRowsFollow(s.payments[id], s.intake.jobs[hook].reported);
      if s.payments[id].status == Captured { RefundedReport(s.payments[id], s.intake.jobs[hook].reported); }
    }
  }

  lemma RefundedReport(p: Payment, word: ProviderStatus)
    requires p.status == Captured
    ensures Text(word) == "refunded" && !word.Other? ==> WebhookRow(p, word).status == Refunded
  {
    WorkersReadNames(word, Refunded);
  }

  /** The same for a reconciliation, on any payment that has an external id. */
  lemma SerialReconcileOutcome(calls: seq<Call>, pr: ProcId, id: PaymentId, word: ProviderStatus)
    requires WellFormed(calls)
    ensures var s := Exec(INIT, Flatten(calls));
      var t := Perform(s, ReconcileRun(pr, id, word));
      if pr !in s.procs && id in s.payments && s.payments[id].externalId.Some? then
        && id in t.payments && t.payments == s.payments[id := t.payments[id]]
        && Follows(s.payments[id], t.payments[id], word, ReconciledEvent(s.payments[id].status, t.payments[id].status))
      else t.payments == s.payments
  {
    hide Exec, Follows;
    SerialReachable(calls);
    var s := Exec(INIT, Flatten(calls));
    CallEffect(s, ReconcileRun(pr, id, word));
    if id in s.payments {
      WorkerRowsFollow(s.payments[id], word);
      PutSame(s, id);
    }
  }

  /**
   Whatever is delivered twice, retried or lost before it was marked, a payment gets at
   most one webhook event, and running its job again changes no row.
  */
  lemma SerialWebhookOnce(calls: seq<Call>, pr: ProcId, id: PaymentId)
    requires WellFormed(calls) && id in Exec(INIT, Flatten(calls)).payments
    requires Exec(INIT, Flatten(calls)).payments[id].externalId.Some?
    ensures var s := Exec(INIT, Flatten(calls)); var p := s.payments[id];
      && WebhookEvents(p.events) <= 1
      && (WebhookEvents(p.events) == 1 ==>
            && HookOf(p).value in s.intake.jobs
            && Perform(s, WebhookRun(pr, HookOf(p).value, id)).payments == s.payments)
  {
    SerialReachable(calls);
    var s := Exec(INIT, Flatten(calls));
    var p := s.payments[id];
    assert SerialRow(s.intake.jobs, p) && RowOk(p);
    if WebhookEvents(p.events) == 1 {
      CallEffect(s, WebhookRun(pr, HookOf(p).value, id));
      WebhookKeepsSerial(s.intake.jobs, p, HookOf(p).value);
      PutSame(s, id);
    }
  }

  /** External ids name one payment per provider. */
  ghost predicate DistinctExternalIds(payments: map<PaymentId, Payment>) {
    forall a, b | a in payments && b in payments && payments[a].externalId.Some?
                  && HookOf(payments[a]) == HookOf(payments[b]) :: a == b
  }

  /** Then a job, too, appends at most one event in all, and only to the payment it names. */
  lemma SerialJobOnce(calls: seq<Call>, hook: Hook, a: PaymentId, b: PaymentId)
    requires WellFormed(calls)
    requires var s := Exec(INIT, Flatten(calls));
      && DistinctExternalIds(s.payments) && a in s.payments && b in s.payments
      && WebhookEvents(s.payments[a].events) > 0 && HookOf(s.payments[a]) == Some(hook)
      && WebhookEvents(s.payments[b].events) > 0 && HookOf(s.payments[b]) == Some(hook)
    ensures a == b && WebhookEvents(Exec(INIT, Flatten(calls)).payments[a].events) == 1
    ensures Exec(INIT, Flatten(calls)).intake.enqueued[hook] == 1
  {
    SerialReachable(calls);
    var s := Exec(INIT, Flatten(calls));
    assert SerialRow(s.intake.jobs, s.payments[a]);
    NotificationOnce(Flatten(calls), hook);
  }
}
