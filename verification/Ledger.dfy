/**
 When overlapping calls keep the status table and the refund ledger: for every run the
 exact condition on its commits, and a check at the commit that is always enough.
*/
module Ledger {
  import opened Options
  import opened StateMachine
  import opened Rows
  import opened Payments
  import opened Invariant
  import opened Interleaved
  import opened Conservation

  // ---- the amounts in the log ----

  /** The event's payload is the refund row's amount, unless 0 was asked of a payment that is not 0. */
  lemma PayloadIsRowIff(asked: Option<int>, total: int)
    ensures RefundPayload(asked, total) == RefundRow(asked, total) <==> asked != Some(0) || total == 0
  {
  }

  /** The amounts of the refund events, oldest first. */
  function RefundAmounts(events: seq<Event>): seq<int> {
    if events == [] then []
    else
      var last := events[|events| - 1];
      RefundAmounts(events[..|events| - 1]) + if last.RefundedEvent? then [last.amount] else []
  }

  /** What the refund row beside an event holds: an announced 0 stands for the whole amount. */
  function Announced(payload: int, total: int): int {
    if payload == 0 then total else payload
  }

  predicate LogTells(p: Payment) {
    var amounts := RefundAmounts(p.events);
    |amounts| == |p.refunds| && forall i :: 0 <= i < |amounts| ==> p.refunds[i] == Announced(amounts[i], p.amount)
  }

  lemma AmountsAppend(events: seq<Event>, event: Event)
    ensures RefundAmounts(events + [event]) == RefundAmounts(events) + if event.RefundedEvent? then [event.amount]
      else []
  {
    assert (events + [event])[..|events|] == events;
  }

  lemma StepKeepsLog(s: State, a: Action, id: PaymentId, q: Payment)
    requires id in s.payments && RowStep(s, a, id, q) && LogTells(s.payments[id])
    ensures LogTells(q)
  {
    var p := s.payments[id];
    if |q.events| > |p.events| {
      assert q.events == p.events + [q.events[|p.events|]];
      AmountsAppend(p.events, q.events[|p.events|]);
    }
  }

  lemma NewRowTells(org: OrgId, key: Key, amount: int, provider: nat, now: int)
    ensures LogTells(NewPayment(org, key, amount, provider, now))
  {
    AmountsAppend([], CreatedEvent);
    assert [] + [CreatedEvent] == [CreatedEvent];
  }

  lemma {:induction false} RowsTell(run: seq<Action>, id: PaymentId)
    requires id in Exec(INIT, run).payments
    ensures LogTells(Exec(INIT, run).payments[id])
  {
    if run != [] {
      var before, a := run[..|run| - 1], run[|run| - 1];
      var s := Exec(INIT, before);
      ExecLast(INIT, run);
      Reachable(before);
      if id in s.payments {
        RowsTell(before, id);
        StepWrites(s, a, id);
        StepKeepsLog(s, a, id, Apply(s, a).payments[id]);
      } else {
        NewRowsAreNew(s, a, id);
        var c := s.procs[a.pr];
        NewRowTells(c.org, c.key, c.amount, c.provider, a.now);
      }
    }
  }

  /**
   In every reachable state the log alone tells the refund rows: the i-th refund event
   stands beside the i-th row and holds its amount, save that a payload 0 stands beside a
   row of the full amount.
  */
  lemma RefundsInLog(run: seq<Action>, id: PaymentId)
    requires id in Exec(INIT, run).payments
    ensures var p := Exec(INIT, run).payments[id]; var amounts := RefundAmounts(p.events);
      && |p.refunds| == |amounts|
      && forall i :: 0 <= i < |amounts| ==>
           if amounts[i] == 0 then p.refunds[i] == p.amount else p.refunds[i] == amounts[i]
  {
    RowsTell(run, id);
  }

  // ---- one commit ----

  /** Every row but the last is below the amount. */
  predicate RowsBelow(p: Payment) {
    forall i :: 0 <= i < |p.refunds| - 1 ==> p.refunds[i] < p.amount
  }

  /** No row reaches the amount. */
  predicate NoFullRow(p: Payment) {
    forall i :: 0 <= i < |p.refunds| ==> p.refunds[i] < p.amount
  }

  /** A last row that reaches the amount leaves the payment refunded. */
  predicate FullRowCloses(p: Payment) {
    p.refunds != [] && p.refunds[|p.refunds| - 1] >= p.amount ==> p.status == Refunded
  }

  /**
   A refund's transaction keeps the row bound exactly if no stored row reaches the amount
   when it commits, and it always leaves the payment refunded if its own row does. On a
   payment that obeys the bound, is closed by a full row and is still captured or partially
   refunded, the condition is met: repeating the guard in the transaction is enough.
  */
  lemma RefundCommitKeepsBoundIff(run: seq<Action>, pr: ProcId)
    requires var s := Exec(INIT, run); pr in s.procs && s.procs[pr].RefundPaid?
    ensures var s := Exec(INIT, run);
      var id, t := s.procs[pr].id, Apply(s, RefundCommit(pr));
      && id in s.payments && id in t.payments
      && (RowsBelow(t.payments[id]) <==> NoFullRow(s.payments[id])) && FullRowCloses(t.payments[id])
      && (RowsBelow(s.payments[id]) && FullRowCloses(s.payments[id]) && PhaseOf(s.payments[id].status) == Paid
          ==> NoFullRow(s.payments[id]))
  {
    hide Exec, Inv, StepRefundCommit, RecordRefund;
    var s := Exec(INIT, run);
    Reachable(run);
    RefundAddsRow(s, pr);
    AddedRow(s.payments[s.procs[pr].id], s.procs[pr].asked);
  }

  lemma RefundAddsRow(s: State, pr: ProcId)
    requires Inv(s) && pr in s.procs && s.procs[pr].RefundPaid?
    ensures var c, t := s.procs[pr], StepRefundCommit(s, pr);
      && c.id in s.payments && c.id in t.payments
      && t.payments[c.id] == RecordRefund(s.payments[c.id], c.asked, s.payments[c.id].amount)
  {
    assert ProcOk(s.payments, s.procs[pr]);
  }

  lemma AddedRow(p: Payment, asked: Option<int>)
    ensures var q := RecordRefund(p, asked, p.amount);
      (RowsBelow(q) <==> NoFullRow(p)) && FullRowCloses(q)
  {
    var q := RecordRefund(p, asked, p.amount);
    assert forall i :: 0 <= i < |p.refunds| ==> q.refunds[i] == p.refunds[i];
  }

  // ---- runs ----

  /** The action is a commit that would write the row of a call of its kind. */
  predicate Commits(s: State, a: Action) {
    a.pr in s.procs &&
    match s.procs[a.pr]
    case RefundPaid(_, id, _, _, _) => a.RefundCommit? && id in s.payments
    case WebhookChecked(_, id, _, _, _) => a.WebhookCommit? && id in s.payments
    case ReconcileChecked(id, _, _) => a.ReconcileCommit? && id in s.payments
    case _ => false
  }

  /** The commit's write is an edge or a repeat of the status that it finds. */
  predicate Fits(s: State, a: Action) {
    Commits(s, a) ==>
      var c := s.procs[a.pr];
      var status := s.payments[c.id].status;
      if a.RefundCommit? then PhaseOf(status) == Paid || status == RefundTarget(c.asked, c.total)
      else StillFits(c.from, status, c.to)
  }

  /** A refund's commit finds no row that reaches the amount. */
  predicate FindsNoFullRow(s: State, a: Action) {
    Commits(s, a) && a.RefundCommit? ==> NoFullRow(s.payments[s.procs[a.pr].id])
  }

  /** A refund's commit finds the payment refundable, and a worker's commit fits. */
  predicate PassesGuard(s: State, a: Action) {
    Fits(s, a) && (Commits(s, a) && a.RefundCommit? ==> PhaseOf(s.payments[s.procs[a.pr].id].status) == Paid)
  }

  /** The commit finds the status that its call read. */
  predicate Undisturbed(s: State, a: Action) {
    Commits(s, a) ==> s.payments[s.procs[a.pr].id].status == s.procs[a.pr].from
  }

  /** Every step of the run is taken in a state in which the check accepts it. */
  ghost predicate Throughout(run: seq<Action>, check: (State, Action) -> bool) {
    forall i :: 0 <= i < |run| ==> check(Exec(INIT, run[..i]), run[i])
  }

  lemma ThroughoutLast(run: seq<Action>, check: (State, Action) -> bool)
    requires run != []
    ensures var n := |run| - 1;
      Throughout(run, check) <==> Throughout(run[..n], check) && check(Exec(INIT, run[..n]), run[n])
  {
    var n := |run| - 1;
    assert forall i :: 0 <= i < n ==> run[..n][..i] == run[..i] && run[..n][i] == run[i];
  }

  ghost predicate AllLegal(payments: map<PaymentId, Payment>) {
    forall id :: id in payments ==> LegalHistory(payments[id].history)
  }

  ghost predicate AllBelow(payments: map<PaymentId, Payment>) {
    forall id :: id in payments ==> RowsBelow(payments[id])
  }

  ghost predicate AllClosed(payments: map<PaymentId, Payment>) {
    forall id :: id in payments ==> FullRowCloses(payments[id])
  }

  // ---- one step, one row ----

  /** The action's call writes this row. */
  predicate WritesRow(s: State, a: Action, id: PaymentId) {
    Commits(s, a) && s.procs[a.pr].id == id
  }

  lemma RowLegalIff(s: State, a: Action, id: PaymentId, q: Payment)
    requires id in s.payments && RowOk(s.payments[id]) && RowStep(s, a, id, q)
      && (WritesRow(s, a, id) ==> IsWritten(s, a, q))
    ensures LegalHistory(q.history) <==> LegalHistory(s.payments[id].history) && (WritesRow(s, a, id) ==> Fits(s, a))
  {
    var p := s.payments[id];
    LegalHistoryExtends(p.history, q.status);
    if a.CreateCommit? && q != p { ReadingsAgree(s.procs[a.pr].reported); }
    if WritesRow(s, a, id) && !a.RefundCommit? {
      var c := s.procs[a.pr];
      if Edge(c.from, c.to) { StaleWriteLegalIff(c.from, p.status, c.to); }
    }
  }

  /** What the commit stores. */
  predicate IsWritten(s: State, a: Action, q: Payment)
    requires Commits(s, a)
  {
    match s.procs[a.pr]
    case RefundPaid(_, id, from, total, asked) =>
      PhaseOf(from) == Paid && total == s.payments[id].amount && q == RecordRefund(s.payments[id], asked, total)
    case WebhookChecked(_, id, from, to, job) =>
      Edge(from, to) && q == Write(s.payments[id], to, WebhookEvent(job.reported))
    case ReconcileChecked(id, from, to) =>
      Edge(from, to) && q == Write(s.payments[id], to, ReconciledEvent(from, to))
    case _ => false
  }

  lemma CommitWrites(s: State, a: Action, id: PaymentId)
    requires Inv(s) && WritesRow(s, a, id)
    ensures id in Apply(s, a).payments && IsWritten(s, a, Apply(s, a).payments[id])
  {
    assert ProcOk(s.payments, s.procs[a.pr]);
  }

  lemma StepLegalIff(s: State, a: Action)
    requires Inv(s)
    ensures AllLegal(Apply(s, a).payments) <==> AllLegal(s.payments) && Fits(s, a)
  {
    hide RowStep, IsWritten, StillFits, RowOk, KeysUnique, ProcsOk, ChargesOk, AnswersOk;
    var t := Apply(s, a);
    forall id | id in s.payments
      ensures id in t.payments
      ensures LegalHistory(t.payments[id].history)
        <==> LegalHistory(s.payments[id].history) && (WritesRow(s, a, id) ==> Fits(s, a))
    {
      StepWrites(s, a, id);
      if WritesRow(s, a, id) { CommitWrites(s, a, id); }
      RowLegalIff(s, a, id, t.payments[id]);
    }
    forall id | id in t.payments && id !in s.payments ensures LegalHistory(t.payments[id].history) {
      NewRowsAreNew(s, a, id);
    }
    if !Fits(s, a) { assert WritesRow(s, a, s.procs[a.pr].id); }
  }

  lemma RowBelowIff(s: State, a: Action, id: PaymentId, q: Payment)
    requires id in s.payments && RowStep(s, a, id, q) && (WritesRow(s, a, id) ==> IsWritten(s, a, q))
    ensures RowsBelow(q) <==> RowsBelow(s.payments[id]) && (WritesRow(s, a, id) ==> FindsNoFullRow(s, a))
  {
    var p := s.payments[id];
    if WritesRow(s, a, id) && a.RefundCommit? {
      AddedRow(p, s.procs[a.pr].asked);
    } else {
      assert q.refunds == p.refunds && q.amount == p.amount;
    }
  }

  lemma StepBelowIff(s: State, a: Action)
    requires Inv(s)
    ensures AllBelow(Apply(s, a).payments) <==> AllBelow(s.payments) && FindsNoFullRow(s, a)
  {
    hide RowStep, IsWritten, RowOk, KeysUnique, ProcsOk, ChargesOk, AnswersOk;
    var t := Apply(s, a);
    forall id | id in s.payments
      ensures id in t.payments
      ensures RowsBelow(t.payments[id]) <==> RowsBelow(s.payments[id]) && (WritesRow(s, a, id) ==> FindsNoFullRow(s, a))
    {
      StepWrites(s, a, id);
      if WritesRow(s, a, id) { CommitWrites(s, a, id); }
      RowBelowIff(s, a, id, t.payments[id]);
    }
    forall id | id in t.payments && id !in s.payments ensures RowsBelow(t.payments[id]) {
      NewRowsAreNew(s, a, id);
    }
    if !FindsNoFullRow(s, a) { assert WritesRow(s, a, s.procs[a.pr].id); }
  }

  lemma RowStaysClosed(s: State, a: Action, id: PaymentId, q: Payment)
    requires id in s.payments && RowOk(s.payments[id]) && RowStep(s, a, id, q)
      && (WritesRow(s, a, id) ==> IsWritten(s, a, q))
    requires FullRowCloses(s.payments[id]) && (WritesRow(s, a, id) ==> Fits(s, a))
    ensures FullRowCloses(q)
  {
    if WritesRow(s, a, id) && a.RefundCommit? { AddedRow(s.payments[id], s.procs[a.pr].asked); }
  }

  lemma StepStaysClosed(s: State, a: Action)
    requires Inv(s) && AllClosed(s.payments) && Fits(s, a)
    ensures AllClosed(Apply(s, a).payments)
  {
    var t := Apply(s, a);
    forall id | id in t.payments ensures FullRowCloses(t.payments[id]) {
      if id in s.payments {
        StepWrites(s, a, id);
        if WritesRow(s, a, id) { CommitWrites(s, a, id); }
        RowStaysClosed(s, a, id, t.payments[id]);
      } else {
        NewRowsAreNew(s, a, id);
      }
    }
  }

  // ---- runs: the exact conditions ----

  /** Every change of every payment is an edge exactly if every commit of the run fits what it finds. */
  lemma {:induction false} RunLegalIff(run: seq<Action>)
    ensures AllLegal(Exec(INIT, run).payments) <==> Throughout(run, Fits)
    decreases |run|
  {
    hide Inv, Fits, LegalHistory, Apply;
    if run != [] {
      var n := |run| - 1;
      RunLegalIff(run[..n]);
      Reachable(run[..n]);
      StepLegalIff(Exec(INIT, run[..n]), run[n]);
      ExecLast(INIT, run);
      ThroughoutLast(run, Fits);
    }
  }

  /** Every payment keeps the row bound exactly if no refund's transaction finds a row that reaches the amount. */
  lemma {:induction false} RunBelowIff(run: seq<Action>)
    ensures AllBelow(Exec(INIT, run).payments) <==> Throughout(run, FindsNoFullRow)
    decreases |run|
  {
    hide Inv, FindsNoFullRow, RowsBelow, Apply;
    if run != [] {
      var n := |run| - 1;
      RunBelowIff(run[..n]);
      Reachable(run[..n]);
      StepBelowIff(Exec(INIT, run[..n]), run[n]);
      ExecLast(INIT, run);
      ThroughoutLast(run, FindsNoFullRow);
    }
  }

  lemma {:induction false} RunStaysClosed(run: seq<Action>)
    requires Throughout(run, Fits)
    ensures AllClosed(Exec(INIT, run).payments)
    decreases |run|
  {
    if run != [] {
      var n := |run| - 1;
      ThroughoutLast(run, Fits);
      RunStaysClosed(run[..n]);
      Reachable(run[..n]);
      StepStaysClosed(Exec(INIT, run[..n]), run[n]);
      ExecLast(INIT, run);
    }
  }

  // ---- runs: a check that is enough ----

  /** On a ledger in order, the repeated guard leaves no full row to be found. */
  lemma GuardFindsNoFullRow(s: State, a: Action)
    requires Inv(s) && AllBelow(s.payments) && AllClosed(s.payments) && PassesGuard(s, a)
    ensures FindsNoFullRow(s, a)
  {
  }

  /**
   Transactions that repeat the guard, refunds that the payment is still refundable and
   workers that the write still fits, keep everything in every interleaving: legal
   histories, the row bound, and full rows that close their payment.
  */
  lemma {:induction false} GuardedRunsKeepLedger(run: seq<Action>)
    requires Throughout(run, PassesGuard)
    ensures AllLegal(Exec(INIT, run).payments) && AllBelow(Exec(INIT, run).payments)
      && AllClosed(Exec(INIT, run).payments)
    decreases |run|
  {
    if run != [] {
      var n := |run| - 1;
      var s := Exec(INIT, run[..n]);
      ThroughoutLast(run, PassesGuard);
      GuardedRunsKeepLedger(run[..n]);
      Reachable(run[..n]);
      GuardFindsNoFullRow(s, run[n]);
      StepLegalIff(s, run[n]);
      StepBelowIff(s, run[n]);
      StepStaysClosed(s, run[n]);
      ExecLast(INIT, run);
    }
  }

  lemma UndisturbedPasses(s: State, a: Action)
    requires Inv(s) && Undisturbed(s, a)
    ensures PassesGuard(s, a)
  {
    if Commits(s, a) { assert ProcOk(s.payments, s.procs[a.pr]); }
  }

  /** In particular, so do runs in which every commit finds the status that its call read. */
  lemma UndisturbedRunsKeepLedger(run: seq<Action>, id: PaymentId)
    requires Throughout(run, Undisturbed) && id in Exec(INIT, run).payments
    ensures var p := Exec(INIT, run).payments[id];
      && LegalHistory(p.history)
      && (forall i :: 0 <= i < |p.refunds| - 1 ==> p.refunds[i] < p.amount)
      && (p.refunds != [] && p.refunds[|p.refunds| - 1] >= p.amount ==> p.status == Refunded)
  {
    hide Exec, Inv, LegalHistory, Undisturbed, PassesGuard;
    forall i | 0 <= i < |run| ensures PassesGuard(Exec(INIT, run[..i]), run[i]) {
      Reachable(run[..i]);
      UndisturbedPasses(Exec(INIT, run[..i]), run[i]);
    }
    GuardedRunsKeepLedger(run);
  }
}
