/**
 Two runs that show what overlapping calls can do, and why the results of the serial
 granularity are not claimed of every interleaving.
*/
module Races {
  import opened Options
  import opened StateMachine
  import opened Rows
  import opened Payments
  import opened Invariant
  import opened Ledger

  lemma Extend(run: seq<Action>, s: State, a: Action) returns (run': seq<Action>, s': State)
    requires s == Exec(INIT, run)
    ensures run' == run + [a] && s' == Apply(s, a) == Exec(INIT, run')
  {
    run', s' := run + [a], Apply(s, a);
    ExecConcat(INIT, run, [a]);
    assert Exec(Apply(s, a), []) == Apply(s, a);
  }

  lemma OneInserted() returns (run: seq<Action>, s: State)
    ensures s == Exec(INIT, run) && s.procs == map[0 := Inserted(1, "k", 5)]
    ensures s.payments == map[5 := NewPayment(1, "k", 100, 7, 0)] && s.intake == INIT.intake
  {
    run, s := [], INIT;
    assert 'k' in "k" && !IsSpace('k');
    run, s := Extend(run, s, CreateLookup(0, 1, "k", 100, Some(7), None));
    assert s.procs == map[0 := Routed(1, "k", 100, 7)];
    run, s := Extend(run, s, CreateInsert(0, 5, 0));
  }

  /** One payment, created with the given provider status. */
  lemma OnePayment(reported: ProviderStatus) returns (run: seq<Action>, s: State, p: Payment)
    ensures s == Exec(INIT, run)
    ensures p == SettleCharge(NewPayment(1, "k", 100, 7, 0), 9, reported)
    ensures s.payments == map[5 := p] && s.procs == map[] && s.intake == INIT.intake
  {
    hide Exec;
    run, s := OneInserted();
    run, s := Extend(run, s, CreateCharge(0, ChargeResult(9, reported)));
    assert s.procs == map[0 := Charged(1, "k", 5, 9, reported)];
    run, s := Extend(run, s, CreateCommit(0));
    p := SettleCharge(NewPayment(1, "k", 100, 7, 0), 9, reported);
  }

  lemma TwoReconciliations() returns (run: seq<Action>, s: State, p: Payment)
    ensures s == Exec(INIT, run) && s.payments == map[5 := p] && p.status == Pending
    ensures s.procs == map[1 := ReconcileChecked(5, Pending, Authorized), 2 := ReconcileChecked(5, Pending, Captured)]
  {
    hide Exec;
    run, s, p := OnePayment(SaysPending);
    run, s := Extend(run, s, ReconcileStart(1, 5));
    assert s.procs == map[1 := ReconcileRead(5, Pending)];
    run, s := Extend(run, s, ReconcileRetrieve(1, SaysAuthorized));
    assert s.procs == map[1 := ReconcileChecked(5, Pending, Authorized)];
    run, s := Extend(run, s, ReconcileStart(2, 5));
    assert s.procs == map[1 := ReconcileChecked(5, Pending, Authorized), 2 := ReconcileRead(5, Pending)];
    run, s := Extend(run, s, ReconcileRetrieve(2, SaysCaptured));
  }

  /**
   Two reconciliations of a pending payment overlap. The later answer, captured, is stored
   first; the earlier one, authorized, then overwrites it along no edge of the table.
  */
  lemma CapturedCanFallBack() returns (run: seq<Action>, a: Action)
    ensures a.ReconcileCommit?
    ensures var s := Exec(INIT, run);
      5 in s.payments && 5 in Apply(s, a).payments
      && s.payments[5].status == Captured && Apply(s, a).payments[5].status == Authorized
      && !ValidTransition(s.payments[5].status, Apply(s, a).payments[5].status)
  {
    hide Exec;
    var s, p;
    run, s, p := TwoReconciliations();
    run, s := Extend(run, s, ReconcileCommit(2));
    assert s.payments == map[5 := Write(p, Captured, ReconciledEvent(Pending, Captured))];
    assert s.procs == map[1 := ReconcileChecked(5, Pending, Authorized)];
    a := ReconcileCommit(1);
  }

  /** A full refund of the payment has been read and is about to be carried out. */
  const FULL_REFUND := RefundChecked(1, 5, Captured, 100, None)
  const FULL_REFUND_DONE := RefundPaid(1, 5, Captured, 100, None)

  lemma TwoRefundsRead() returns (run: seq<Action>, s: State, p: Payment)
    ensures s == Exec(INIT, run) && s.payments == map[5 := p] && s.procs == map[1 := FULL_REFUND, 2 := FULL_REFUND]
    ensures p.amount == 100 && p.refunds == [] && p.refundCalls == 0
  {
    hide Exec;
    run, s, p := OnePayment(SaysCaptured);
    run, s := Extend(run, s, RefundRead(1, 1, 5, None));
    assert s.procs == map[1 := FULL_REFUND];
    run, s := Extend(run, s, RefundRead(2, 1, 5, None));
  }

  lemma TwoRefundsCalled() returns (run: seq<Action>, s: State, p: Payment)
    ensures s == Exec(INIT, run) && s.payments == map[5 := p]
      && s.procs == map[1 := FULL_REFUND_DONE, 2 := FULL_REFUND_DONE]
    ensures p.amount == 100 && p.refunds == [] && p.refundCalls == 2
  {
    hide Exec;
    run, s, p := TwoRefundsRead();
    run, s := Extend(run, s, RefundCall(1, true));
    p := CountCall(p);
    assert s.payments == map[5 := p] && s.procs == map[1 := FULL_REFUND_DONE, 2 := FULL_REFUND];
    run, s := Extend(run, s, RefundCall(2, true));
    p := CountCall(p);
  }

  lemma OneRefundDone() returns (run: seq<Action>, s: State, p: Payment)
    ensures s == Exec(INIT, run) && s.payments == map[5 := p] && s.procs == map[2 := FULL_REFUND_DONE]
    ensures p.amount == 100 && p.refunds == [100] && p.refundCalls == 2
    ensures |p.history| > 0 && p.history[|p.history| - 1] == Refunded
  {
    hide Exec;
    run, s, p := TwoRefundsCalled();
    run, s := Extend(run, s, RefundCommit(1));
    p := RecordRefund(p, None, 100);
  }

  /**
   Two full refunds of one captured payment overlap, and both are carried out and recorded.
   The status stays within the table, going from refunded to refunded; what breaks is the
   ledger, in which a row that reaches the amount should be the last.
  */
  lemma FullRefundTwice() returns (run: seq<Action>)
    ensures var s := Exec(INIT, run);
      5 in s.payments &&
      var p := s.payments[5];
      && p.amount == 100 && p.refunds == [100, 100] && p.refundCalls == 2 && !RowsBelow(p)
      && |p.history| >= 2 && p.history[|p.history| - 2..] == [Refunded, Refunded]
  {
    hide Exec;
    var s, p;
    run, s, p := OneRefundDone();
    run, s := Extend(run, s, RefundCommit(2));
    TwoFullRows(p);
    assert s.payments == map[5 := RecordRefund(p, None, 100)];
  }

  lemma TwoFullRows(p: Payment)
    requires p.amount == 100 && p.refunds == [100] && |p.history| > 0 && p.history[|p.history| - 1] == Refunded
    ensures var q := RecordRefund(p, None, 100);
      q.refunds == [100, 100] && !RowsBelow(q) && q.history[|q.history| - 2..] == [Refunded, Refunded]
  {
    assert RecordRefund(p, None, 100).refunds[0] == 100;
  }
}
