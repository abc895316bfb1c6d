/**
 Two conservation laws of interleaved runs: a notification is stored and queued at most
 once, and every refund the provider carried out is recorded, in flight or lost to a crash.
*/
module Conservation {
  import opened Options
  import opened StateMachine
  import opened Rows
  import opened Payments
  import opened Invariant
  import opened Interleaved

  // ---- notifications ----

  ghost predicate InboundUnique(inbound: map<InboundId, Inbound>) {
    forall i, j :: i in inbound && j in inbound && inbound[i].hook == inbound[j].hook ==> i == j
  }

  ghost predicate JobsOk(intake: Intake) {
    && (forall h :: intake.enqueued[h] <= 1)
    && (forall h :: intake.enqueued[h] > 0 <==> h in intake.jobs)
    && (forall h :: h in intake.jobs ==> StoredAs(intake, h, intake.jobs[h].inbound))
  }

  predicate StoredAs(intake: Intake, h: Hook, i: InboundId) {
    i in intake.inbound && intake.inbound[i].hook == h
  }

  /** A call that has stored a notification has not queued it yet. */
  ghost predicate StoredOk(s: State) {
    forall pr :: pr in s.procs && s.procs[pr].IntakeStored? ==>
      StoredAs(s.intake, s.procs[pr].hook, s.procs[pr].inbound) && s.intake.enqueued[s.procs[pr].hook] == 0
  }

  ghost predicate OneStorer(procs: map<ProcId, Proc>) {
    forall a, b | a in procs && b in procs && procs[a].IntakeStored? && procs[b].IntakeStored?
                  && procs[a].hook == procs[b].hook :: a == b
  }

  ghost predicate IntakeInv(s: State) {
    InboundUnique(s.intake.inbound) && JobsOk(s.intake) && StoredOk(s) && OneStorer(s.procs)
  }

  lemma StoreKeepsIntake(s: State, pr: ProcId, i: InboundId, h: Hook, reported: ProviderStatus)
    requires IntakeInv(s) && i !in s.intake.inbound && !HookTaken(s.intake.inbound, h)
    ensures IntakeInv(Goto(s.(intake := s.intake.(inbound := s.intake.inbound[i := Inbound(h, false)])), pr,
      IntakeStored(h, i, reported)))
  {
    var stored := s.intake.(inbound := s.intake.inbound[i := Inbound(h, false)]);
    assert forall j :: !StoredAs(s.intake, h, j);
    assert h !in s.intake.jobs;
    forall other | other in s.procs && s.procs[other].IntakeStored? ensures s.procs[other].hook != h {
      assert StoredAs(s.intake, s.procs[other].hook, s.procs[other].inbound);
    }
    assert forall g, j :: StoredAs(s.intake, g, j) ==> StoredAs(stored, g, j);
    assert JobsOk(stored);
  }

  lemma DoneKeepsIntake(s: State, pr: ProcId)
    requires IntakeInv(s)
    ensures IntakeInv(Done(s, pr))
  {
  }

  lemma IntakeInsertKeepsIntake(s: State, pr: ProcId, i: InboundId)
    requires IntakeInv(s)
    ensures IntakeInv(StepIntakeInsert(s, pr, i))
  {
    DoneKeepsIntake(s, pr);
    if pr in s.procs && s.procs[pr].IntakeFresh? {
      var c := s.procs[pr];
      if i !in s.intake.inbound && !HookTaken(s.intake.inbound, c.hook) {
        StoreKeepsIntake(s, pr, i, c.hook, c.reported);
      }
    }
  }

  lemma IntakeEnqueueKeepsIntake(s: State, pr: ProcId)
    requires IntakeInv(s)
    ensures IntakeInv(StepIntakeEnqueue(s, pr))
  {
    var t := StepIntakeEnqueue(s, pr);
    assert forall g, j :: StoredAs(t.intake, g, j) <==> StoredAs(s.intake, g, j);
  }

  lemma WebhookMarkKeepsIntake(s: State, pr: ProcId)
    requires IntakeInv(s)
    ensures IntakeInv(StepWebhookMark(s, pr))
  {
    var t := StepWebhookMark(s, pr);
    assert forall g, j :: StoredAs(t.intake, g, j) <==> StoredAs(s.intake, g, j);
  }

  /** The step leaves the notifications alone, and no call comes to have stored one. */
  ghost predicate LeavesIntake(s: State, t: State) {
    && t.intake == s.intake
    && (forall pr :: pr in t.procs && t.procs[pr].IntakeStored? ==> pr in s.procs && s.procs[pr] == t.procs[pr])
  }

  lemma CreationLeavesIntake(s: State, a: Action)
    requires IsCreation(a)
    ensures LeavesIntake(s, Apply(s, a))
  {
    hide IsBlank, KeyTaken, Matches;
  }

  lemma ServingLeavesIntake(s: State, a: Action)
    requires IsServing(a)
    ensures LeavesIntake(s, Apply(s, a))
  {
  }

  lemma OthersLeaveIntake(s: State, a: Action)
    requires !a.IntakeInsert? && !a.IntakeEnqueue? && !a.WebhookMark?
    ensures LeavesIntake(s, Apply(s, a))
  {
    if IsCreation(a) { CreationLeavesIntake(s, a); } else if IsServing(a) { ServingLeavesIntake(s, a); }
  }

  lemma StepKeepsIntake(s: State, a: Action)
    requires IntakeInv(s)
    ensures IntakeInv(Apply(s, a))
  {
    hide IntakeInv;
    match a
    case IntakeInsert(pr, i) => IntakeInsertKeepsIntake(s, pr, i);
    case IntakeEnqueue(pr) => IntakeEnqueueKeepsIntake(s, pr);
    case WebhookMark(pr) => WebhookMarkKeepsIntake(s, pr);
    case _ =>
      OthersLeaveIntake(s, a);
      LeftIntakeIsKept(s, Apply(s, a));
  }

  lemma LeftIntakeIsKept(s: State, t: State)
    requires IntakeInv(s) && LeavesIntake(s, t)
    ensures IntakeInv(t)
  {
  }

  lemma {:induction false} RunKeepsIntake(s: State, run: seq<Action>)
    requires IntakeInv(s)
    ensures IntakeInv(Exec(s, run))
    decreases |run|
  {
    if run != [] {
      StepKeepsIntake(s, run[0]);
      RunKeepsIntake(Apply(s, run[0]), run[1..]);
    }
  }

  /**
   However many deliveries of a notification overlap, it is stored at most once and handed
   to the queue at most once, and only after it was stored; a crash can lose it in between.
  */
  lemma NotificationOnce(run: seq<Action>, hook: Hook)
    ensures var intake := Exec(INIT, run).intake;
      && intake.enqueued[hook] <= 1
      && (forall i, j :: StoredAs(intake, hook, i) && StoredAs(intake, hook, j) ==> i == j)
      && (intake.enqueued[hook] == 1 <==> hook in intake.jobs)
      && (hook in intake.jobs ==> StoredAs(intake, hook, intake.jobs[hook].inbound))
  {
    RunKeepsIntake(INIT, run);
  }

  /** A queued job keeps its data, whatever is delivered later. */
  lemma {:induction false} JobsPersist(s: State, run: seq<Action>, hook: Hook)
    requires hook in s.intake.jobs
    ensures hook in Exec(s, run).intake.jobs && Exec(s, run).intake.jobs[hook] == s.intake.jobs[hook]
    decreases |run|
  {
    if run != [] {
      JobKept(s, run[0], hook);
      JobsPersist(Apply(s, run[0]), run[1..], hook);
    }
  }

  lemma JobKept(s: State, a: Action, hook: Hook)
    requires hook in s.intake.jobs
    ensures hook in Apply(s, a).intake.jobs && Apply(s, a).intake.jobs[hook] == s.intake.jobs[hook]
  {
    if !a.IntakeInsert? && !a.IntakeEnqueue? && !a.WebhookMark? { OthersLeaveIntake(s, a); }
  }

  // ---- refunds ----

  /** The refund calls that the provider has carried out and whose transaction is still to come. */
  function InFlight(procs: map<ProcId, Proc>, id: PaymentId): set<ProcId> {
    set pr | pr in procs && procs[pr].RefundPaid? && procs[pr].id == id
  }

  /** Refunds that the provider has carried out and that are neither recorded nor in flight. */
  function Unrecorded(s: State, id: PaymentId): int {
    (if id in s.payments then s.payments[id].refundCalls - |s.payments[id].refunds| else 0) - |InFlight(s.procs, id)|
  }

  /** The step crashes a call between the provider's refund and its transaction. */
  predicate LosesRefund(s: State, a: Action, id: PaymentId) {
    a.Crash? && a.pr in InFlight(s.procs, id)
  }

  /** How many refunds of the payment a run loses to crashes. */
  ghost function Lost(s: State, run: seq<Action>, id: PaymentId): nat
    decreases |run|
  {
    if run == [] then 0
    else (if LosesRefund(s, run[0], id) then 1 else 0) + Lost(Apply(s, run[0]), run[1..], id)
  }

  lemma InFlightChanges(procs: map<ProcId, Proc>, pr: ProcId, c: Proc, id: PaymentId)
    ensures InFlight(procs - {pr}, id) == InFlight(procs, id) - {pr}
    ensures InFlight(procs[pr := c], id)
         == InFlight(procs, id) - {pr} + (if c.RefundPaid? && c.id == id then {pr} else {})
  {
  }

  lemma RefundCallBalances(s: State, pr: ProcId, succeeds: bool, id: PaymentId)
    requires Inv(s)
    ensures Unrecorded(StepRefundCall(s, pr, succeeds), id) == Unrecorded(s, id)
  {
    hide Inv, ValidTransition, RefundTarget;
    if pr in s.procs && s.procs[pr].RefundChecked? {
      var c := s.procs[pr];
      if succeeds { RefundCallIs(s, pr); }
      InFlightChanges(s.procs, pr, RefundPaid(c.org, c.id, c.from, c.total, c.asked), id);
      assert InFlight(s.procs, id) - {pr} == InFlight(s.procs, id);
    }
  }

  lemma CommittedRefund(s: State, pr: ProcId)
    requires Inv(s) && pr in s.procs && s.procs[pr].RefundPaid?
    ensures var c, t := s.procs[pr], StepRefundCommit(s, pr);
      && c.id in s.payments && t.procs == s.procs - {pr}
      && t.payments == s.payments[c.id := RecordRefund(s.payments[c.id], c.asked, c.total)]
  {
    hide RowsOk, KeysUnique, ChargesOk, AnswersOk, RecordRefund;
    assert ProcOk(s.payments, s.procs[pr]);
  }

  lemma RefundCommitBalances(s: State, pr: ProcId, id: PaymentId)
    requires Inv(s)
    ensures Unrecorded(StepRefundCommit(s, pr), id) == Unrecorded(s, id)
  {
    hide Inv;
    if pr in s.procs && s.procs[pr].RefundPaid? {
      CommittedRefund(s, pr);
      CommitEnds(s, StepRefundCommit(s, pr), pr, id);
    }
  }

  lemma RefundIsRecorded(p: Payment, asked: Option<int>, total: int)
    ensures var q := RecordRefund(p, asked, total); |q.refunds| == |p.refunds| + 1 && q.refundCalls == p.refundCalls
  {
  }

  lemma InFlightDrops(procs: map<ProcId, Proc>, pr: ProcId, id: PaymentId)
    ensures |InFlight(procs - {pr}, id)| == |InFlight(procs, id)| - if pr in InFlight(procs, id) then 1 else 0
  {
    InFlightChanges(procs, pr, MarkDue(0), id);
    if pr !in InFlight(procs, id) { assert InFlight(procs, id) - {pr} == InFlight(procs, id); }
  }

  lemma CommitEnds(s: State, t: State, pr: ProcId, id: PaymentId)
    requires pr in s.procs && s.procs[pr].RefundPaid? && s.procs[pr].id in s.payments && t.procs == s.procs - {pr}
    requires var c := s.procs[pr]; t.payments == s.payments[c.id := RecordRefund(s.payments[c.id], c.asked, c.total)]
    ensures Unrecorded(t, id) == Unrecorded(s, id)
  {
    var c := s.procs[pr];
    RefundIsRecorded(s.payments[c.id], c.asked, c.total);
    InFlightDrops(s.procs, pr, id);
    assert pr in InFlight(s.procs, id) <==> c.id == id;
    hide RecordRefund, InFlight;
  }

  lemma CrashBalances(s: State, pr: ProcId, id: PaymentId)
    ensures Unrecorded(Done(s, pr), id) == Unrecorded(s, id) + if pr in InFlight(s.procs, id) then 1 else 0
  {
    InFlightDrops(s.procs, pr, id);
  }

  /** The other steps leave the refunds in flight and the refund rows alone. */
  lemma OthersBalance(s: State, a: Action, id: PaymentId)
    requires Inv(s) && !a.RefundCall? && !a.RefundCommit? && !a.Crash?
    ensures Unrecorded(Apply(s, a), id) == Unrecorded(s, id)
  {
    hide Inv, Apply, InFlight;
    SameInFlight(s, a, id);
    if id in s.payments {
      StepWrites(s, a, id);
    } else if id in Apply(s, a).payments {
      NewRowsAreNew(s, a, id);
    }
  }

  lemma SameInFlight(s: State, a: Action, id: PaymentId)
    requires !a.RefundCall? && !a.RefundCommit? && !a.Crash?
    ensures InFlight(Apply(s, a).procs, id) == InFlight(s.procs, id)
  {
    OthersKeepRefunds(s, a);
  }

  ghost predicate SameRefunds(s: State, t: State) {
    && (forall pr :: pr in t.procs && t.procs[pr].RefundPaid? ==> pr in s.procs && s.procs[pr] == t.procs[pr])
    && (forall pr :: pr in s.procs && s.procs[pr].RefundPaid? ==> pr in t.procs && t.procs[pr] == s.procs[pr])
  }

  lemma CreationKeepsRefunds(s: State, a: Action)
    requires IsCreation(a)
    ensures SameRefunds(s, Apply(s, a))
  {
    hide IsBlank, KeyTaken, Matches, NewPayment, SettleCharge, FailCharge;
  }

  lemma ServingKeepsRefunds(s: State, a: Action)
    requires a.FindOne? || a.FindAll? || a.RefundRead?
    ensures SameRefunds(s, Apply(s, a))
  {
  }

  /** Only the provider's refund puts one in flight, and only its transaction or a crash ends it. */
  lemma OthersKeepRefunds(s: State, a: Action)
    requires !a.RefundCall? && !a.RefundCommit? && !a.Crash?
    ensures SameRefunds(s, Apply(s, a))
  {
    if IsCreation(a) { CreationKeepsRefunds(s, a); } else if IsServing(a) { ServingKeepsRefunds(s, a); }
  }

  lemma NewRowsAreNew(s: State, a: Action, id: PaymentId)
    requires id !in s.payments && id in Apply(s, a).payments
    ensures a.CreateInsert? && a.id == id && a.pr in s.procs && s.procs[a.pr].Routed?
    ensures var c := s.procs[a.pr]; Apply(s, a).payments[id] == NewPayment(c.org, c.key, c.amount, c.provider, a.now)
  {
  }

  lemma StepBalances(s: State, a: Action, id: PaymentId)
    requires Inv(s)
    ensures Unrecorded(Apply(s, a), id) == Unrecorded(s, id) + if LosesRefund(s, a, id) then 1 else 0
  {
    match a
    case RefundCall(pr, succeeds) => RefundCallBalances(s, pr, succeeds, id);
    case RefundCommit(pr) => RefundCommitBalances(s, pr, id);
    case Crash(pr) => CrashBalances(s, pr, id);
    case _ => OthersBalance(s, a, id);
  }

  /** Over any run the unrecorded refunds grow by exactly those that crashes lose, whatever overlaps. */
  lemma {:induction false} RunBalances(s: State, run: seq<Action>, id: PaymentId)
    requires Inv(s)
    ensures Unrecorded(Exec(s, run), id) == Unrecorded(s, id) + Lost(s, run, id)
    decreases |run|
  {
    if run != [] {
      StepKeepsInv(s, run[0]);
      StepBalances(s, run[0], id);
      RunBalances(Apply(s, run[0]), run[1..], id);
    }
  }

  lemma {:induction false} NoCrashNoLoss(s: State, run: seq<Action>, id: PaymentId)
    requires forall i :: 0 <= i < |run| ==> !run[i].Crash?
    ensures Lost(s, run, id) == 0
    decreases |run|
  {
    if run != [] {
      assert forall i :: 0 <= i < |run| - 1 ==> run[1..][i] == run[i + 1];
      NoCrashNoLoss(Apply(s, run[0]), run[1..], id);
    }
  }

  /**
   Every refund the provider carried out is recorded in a row of its own, awaits its
   transaction, or was lost to a crash before it; there are as many refund events as rows.
   Overlapping refunds lose nothing, so without a crash rows and calls in flight are all.
  */
  lemma RefundsConserved(run: seq<Action>, id: PaymentId)
    requires id in Exec(INIT, run).payments
    ensures var s := Exec(INIT, run); var p := s.payments[id];
      && |p.refunds| == RefundEvents(p.events)
      && |p.refunds| + |InFlight(s.procs, id)| + Lost(INIT, run, id) == p.refundCalls
      && ((forall i :: 0 <= i < |run| ==> !run[i].Crash?) ==> |p.refunds| + |InFlight(s.procs, id)| == p.refundCalls)
  {
    Reachable(run);
    assert RowOk(Exec(INIT, run).payments[id]);
    RunBalances(INIT, run, id);
    assert InFlight(INIT.procs, id) == {};
    if forall i :: 0 <= i < |run| ==> !run[i].Crash? { NoCrashNoLoss(INIT, run, id); }
  }
}
