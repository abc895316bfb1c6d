/**
 What holds in every run: any number of calls of every kind, their steps interleaved in
 any order, with a crash after any step.
*/
module Interleaved {
  import opened Options
  import opened StateMachine
  import opened Rows
  import opened Payments
  import opened Invariant

  // ---- what one step can do to one row ----

  /** All the ways in which an action changes a stored row, each with what the row was before. */
  predicate RowStep(s: State, a: Action, id: PaymentId, q: Payment)
    requires id in s.payments
  {
    var p := s.payments[id];
    || q == p
    || (a.pr in s.procs &&
        match s.procs[a.pr]
        case Charged(_, _, cid, ext, reported) => a.CreateCommit? && cid == id && Untouched(p)
          && q == SettleCharge(p, ext, reported)
        case Failing(_, _, cid) => a.CreateCatch? && cid == id && Untouched(p) && q == FailCharge(p)
        case RefundChecked(_, cid, from, _, _) => a.RefundCall? && cid == id && Seen(p, from) && q == CountCall(p)
        case RefundPaid(_, cid, from, _, asked) =>
          a.RefundCommit? && cid == id && Seen(p, from) && PhaseOf(from) == Paid
            && q == RecordRefund(p, asked, p.amount)
        case WebhookChecked(hook, cid, from, to, job) =>
          && a.WebhookCommit? && cid == id && Seen(p, from) && Edge(from, to) && HookOf(p) == Some(hook)
          && StatusMap(job.reported) == Some(to) && q == Write(p, to, WebhookEvent(job.reported))
        case ReconcileChecked(cid, from, to) =>
          a.ReconcileCommit? && cid == id && Seen(p, from) && Edge(from, to)
            && q == Write(p, to, ReconciledEvent(from, to))
        case _ => false)
  }

  lemma ReadersWriteNothing(s: State, a: Action)
    requires !a.CreateInsert? && !a.CreateCommit? && !a.CreateCatch? && !a.RefundCall? && !a.RefundCommit?
    requires !a.WebhookCommit? && !a.ReconcileCommit?
    ensures Apply(s, a).payments == s.payments
  {
  }

  lemma InsertWrites(s: State, pr: ProcId, i: PaymentId, now: int, id: PaymentId)
    requires id in s.payments
    ensures var t := StepCreateInsert(s, pr, i, now); id in t.payments && t.payments[id] == s.payments[id]
  {
  }

  lemma SettleWrites(s: State, pr: ProcId, id: PaymentId)
    requires Inv(s) && id in s.payments
    ensures var t := StepCreateCommit(s, pr); id in t.payments && RowStep(s, CreateCommit(pr), id, t.payments[id])
  {
    if pr in s.procs { assert ProcOk(s.payments, s.procs[pr]); }
  }

  lemma CatchWrites(s: State, pr: ProcId, id: PaymentId)
    requires Inv(s) && id in s.payments
    ensures var t := StepCreateCatch(s, pr); id in t.payments && RowStep(s, CreateCatch(pr), id, t.payments[id])
  {
    if pr in s.procs { assert ProcOk(s.payments, s.procs[pr]); }
  }

  lemma RefundCallWrites(s: State, pr: ProcId, succeeds: bool, id: PaymentId)
    requires Inv(s) && id in s.payments
    ensures var t := StepRefundCall(s, pr, succeeds);
      id in t.payments && RowStep(s, RefundCall(pr, succeeds), id, t.payments[id])
  {
    if pr in s.procs && s.procs[pr].RefundChecked? {
      RefundCallIs(s, pr);
      assert ProcOk(s.payments, s.procs[pr]);
    }
  }

  lemma RefundCommitWrites(s: State, pr: ProcId, id: PaymentId)
    requires Inv(s) && id in s.payments
    ensures var t := StepRefundCommit(s, pr); id in t.payments && RowStep(s, RefundCommit(pr), id, t.payments[id])
  {
    if pr in s.procs { assert ProcOk(s.payments, s.procs[pr]); }
  }

  lemma WorkerWrites(s: State, a: Action, id: PaymentId)
    requires Inv(s) && id in s.payments
    requires a.WebhookCommit? || a.ReconcileCommit?
    ensures id in Apply(s, a).payments && RowStep(s, a, id, Apply(s, a).payments[id])
  {
    hide RowsOk, KeysUnique, ChargesOk, AnswersOk;
    if a.pr in s.procs { assert ProcOk(s.payments, s.procs[a.pr]); }
  }

  lemma StepWrites(s: State, a: Action, id: PaymentId)
    requires Inv(s) && id in s.payments
    ensures id in Apply(s, a).payments && RowStep(s, a, id, Apply(s, a).payments[id])
  {
    hide Inv;
    if a.CreateInsert? {
      InsertWrites(s, a.pr, a.id, a.now, id);
    } else if a.CreateCommit? {
      SettleWrites(s, a.pr, id);
    } else if a.CreateCatch? {
      CatchWrites(s, a.pr, id);
    } else if a.RefundCall? {
      RefundCallWrites(s, a.pr, a.succeeds, id);
    } else if a.RefundCommit? {
      RefundCommitWrites(s, a.pr, id);
    } else if a.WebhookCommit? || a.ReconcileCommit? {
      WorkerWrites(s, a, id);
    } else {
      ReadersWriteNothing(s, a);
    }
  }

  lemma RowStepEvolves(s: State, a: Action, id: PaymentId)
    requires Inv(s) && id in s.payments
    ensures id in Apply(s, a).payments && Evolves(s.payments[id], Apply(s, a).payments[id])
  {
    hide Inv, Apply;
    StepWrites(s, a, id);
  }

  lemma EvolvesTransitive(p: Payment, q: Payment, r: Payment)
    requires Evolves(p, q) && Evolves(q, r)
    ensures Evolves(p, r)
  {
  }

  /**
   Rows are never deleted or reassigned: over any continuation the organization, key and
   amount stay, a set external id stays, and events, refund rows and history only grow.
  */
  lemma {:induction false} RowsPersist(s: State, run: seq<Action>, id: PaymentId)
    requires Inv(s) && id in s.payments
    ensures id in Exec(s, run).payments && Evolves(s.payments[id], Exec(s, run).payments[id])
    decreases |run|
  {
    hide Inv, Apply;
    if run != [] {
      var t := Apply(s, run[0]);
      RowStepEvolves(s, run[0], id);
      StepKeepsInv(s, run[0]);
      RowsPersist(t, run[1..], id);
      EvolvesTransitive(s.payments[id], t.payments[id], Exec(t, run[1..]).payments[id]);
    }
  }

  // ---- creation ----

  /**
   The two status writes of creation are not checked against the table, and yet each one
   finds the row pending, without external id and with the created event alone, so it is
   always a legal transition.
  */
  lemma CreateWritesAreLegal(run: seq<Action>, a: Action, id: PaymentId)
    requires a.CreateCommit? || a.CreateCatch?
    requires var s := Exec(INIT, run);
      id in s.payments && Apply(s, a).payments[id] != s.payments[id]
    ensures var s := Exec(INIT, run);
      var p, q := s.payments[id], Apply(s, a).payments[id];
      && p.status == Pending && p.externalId.None? && p.events == [CreatedEvent]
      && ValidTransition(p.status, q.status) && (a.CreateCatch? ==> q.status == Failed)
  {
    var s := Exec(INIT, run);
    Reachable(run);
    StepWrites(s, a, id);
    if a.CreateCommit? { ReadingsAgree(s.procs[a.pr].reported); }
    assert RowOk(s.payments[id]);
  }

  /** Until creation itself settles or fails it, no step of any other actor touches a row. */
  lemma OnlyCreationTouchesUnsettled(run: seq<Action>, a: Action, id: PaymentId)
    requires id in Exec(INIT, run).payments && Exec(INIT, run).payments[id].externalId.None?
    requires !a.CreateCommit? && !a.CreateCatch?
    ensures id in Apply(Exec(INIT, run), a).payments
    ensures Apply(Exec(INIT, run), a).payments[id] == Exec(INIT, run).payments[id]
  {
    hide Exec, Inv, Apply;
    Reachable(run);
    StepWrites(Exec(INIT, run), a, id);
  }

  /** However calls overlap: one row, at most one provider charge, and one answer for a key. */
  lemma OncePerKey(run: seq<Action>, org: OrgId, key: Key)
    ensures var rows := Exec(INIT, run).payments;
      forall a, b :: Matches(rows, a, org, key) && Matches(rows, b, org, key) ==> a == b
    ensures Exec(INIT, run).charged[(org, key)] <= 1
    ensures Exec(INIT, run).charged[(org, key)] == 1 ==> exists id :: Matches(Exec(INIT, run).payments, id, org, key)
    ensures var answers := Exec(INIT, run).answers;
      forall x, y :: x in answers && y in answers && AnswersFor(x, org, key) && AnswersFor(y, org, key) ==> x.id == y.id
  {
    Reachable(run);
  }

  predicate AnswersFor(answer: Answer, org: OrgId, key: Key) {
    answer.CreatedAnswer? && answer.org == org && answer.key == key
  }

  // ---- the event log ----

  /**
   Every stored status comes with the event that announces it, in the same step; the one
   exception is the catch block. Nothing else changes status, history or log.
  */
  lemma StatusAndEventTogether(run: seq<Action>, a: Action, id: PaymentId)
    requires id in Exec(INIT, run).payments
    ensures var s := Exec(INIT, run);
      var p, q := s.payments[id], Apply(s, a).payments[id];
      || (q.history == p.history && q.events == p.events && q.status == p.status)
      || (q.history == p.history + [q.status] && |q.events| == |p.events| + 1 && p.events <= q.events
          && q.status == EventTarget(q.events[|p.events|], p.amount))
      || (a.CreateCatch? && p.externalId.None? && q.history == p.history + [Failed] && q.status == Failed
        && q.events == p.events)
  {
    var s := Exec(INIT, run);
    Reachable(run);
    StepWrites(s, a, id);
    WrittenTogether(s, a, id, Apply(s, a).payments[id]);
  }

  lemma WrittenTogether(s: State, a: Action, id: PaymentId, q: Payment)
    requires id in s.payments && RowStep(s, a, id, q)
    ensures var p := s.payments[id];
      || (q.history == p.history && q.events == p.events && q.status == p.status)
      || (q.history == p.history + [q.status] && |q.events| == |p.events| + 1 && p.events <= q.events
          && q.status == EventTarget(q.events[|p.events|], p.amount))
      || (a.CreateCatch? && p.externalId.None? && q.history == p.history + [Failed] && q.status == Failed
        && q.events == p.events)
  {
  }

  /** A status is the one its newest event announces, except on rows failed by the catch block. */
  lemma StatusIsNewestEvent(run: seq<Action>, id: PaymentId)
    requires id in Exec(INIT, run).payments
    ensures var p := Exec(INIT, run).payments[id];
      && |p.events| > 0 && p.events[0] == CreatedEvent
      && if p.failureCode.Some? then p.status == Failed && p.externalId.None? && |p.events| == 1
         else p.status == EventTarget(p.events[|p.events| - 1], p.amount)
  {
    Reachable(run);
    var p := Exec(INIT, run).payments[id];
    assert RowOk(p);
  }

  lemma FailedStep(s: State, a: Action, id: PaymentId)
    requires Inv(s) && id in s.payments && s.payments[id].failureCode.Some?
    ensures id in Apply(s, a).payments && Apply(s, a).payments[id] == s.payments[id]
  {
    hide Apply, HistoryOk, KeysUnique, ProcsOk, ChargesOk, AnswersOk;
    assert RowOk(s.payments[id]);
    StepWrites(s, a, id);
  }

  /** A row failed by the catch block is never written again. */
  lemma {:induction false} FailedForever(s: State, run: seq<Action>, id: PaymentId)
    requires Inv(s) && id in s.payments && s.payments[id].failureCode.Some?
    ensures id in Exec(s, run).payments && Exec(s, run).payments[id] == s.payments[id]
    decreases |run|
  {
    hide Inv, Apply;
    if run != [] {
      FailedStep(s, run[0], id);
      StepKeepsInv(s, run[0]);
      FailedForever(Apply(s, run[0]), run[1..], id);
    }
  }

  // ---- histories ----

  lemma {:induction false} HistoryMeans(history: seq<Status>)
    requires HistoryOk(history)
    ensures forall i, j :: 0 <= i < j < |history| && history[j] == Pending ==> history[i] == Pending
    ensures forall j :: 0 <= j < |history| && (history[j] == Refunded || history[j] == PartiallyRefunded)
                        ==> exists i :: 0 <= i < j && history[i] == Captured
  {
    var n := |history|;
    if n > 1 {
      var shorter := history[..n - 1];
      HistoryMeans(shorter);
      forall i, j | 0 <= i < j < n && history[j] == Pending ensures history[i] == Pending {
        if j == n - 1 && i < n - 2 { assert shorter[n - 2] == Pending && shorter[i] == Pending; }
        assert history[i] == shorter[i];
      }
      forall j | 0 <= j < n && (history[j] == Refunded || history[j] == PartiallyRefunded)
        ensures exists i :: 0 <= i < j && history[i] == Captured
      {
        if j == n - 1 {
          var i :| 0 <= i < n - 1 && shorter[i] == Captured;
          assert history[i] == Captured;
        } else {
          assert shorter[j] == history[j];
          var i :| 0 <= i < j && shorter[i] == Captured;
          assert history[i] == Captured;
        }
      }
    }
  }

  /**
   Even with stale snapshots: nothing returns to Pending once it has left it, refund rows
   and refunded statuses appear only after the payment was stored as captured, and the
   history ends in the current status.
  */
  lemma RefundsFollowCapture(run: seq<Action>, id: PaymentId)
    requires id in Exec(INIT, run).payments
    ensures var p := Exec(INIT, run).payments[id]; var h := p.history;
      && |h| > 0 && h[0] == Pending && h[|h| - 1] == p.status
      && (forall i, j :: 0 <= i < j < |h| && h[j] == Pending ==> h[i] == Pending)
      && (forall j :: 0 <= j < |h| && (h[j] == Refunded || h[j] == PartiallyRefunded)
                      ==> exists i :: 0 <= i < j && h[i] == Captured)
      && (p.refunds != [] ==> Captured in h)
  {
    Reachable(run);
    var p := Exec(INIT, run).payments[id];
    assert RowOk(p);
    HistoryMeans(p.history);
    StartsPending(p.history);
  }

  lemma {:induction false} StartsPending(history: seq<Status>)
    requires HistoryOk(history)
    ensures history[0] == Pending
  {
    if |history| > 1 { StartsPending(history[..|history| - 1]); }
  }

  // ---- stale writes ----

  /**
   The workers write from a snapshot, so their writes need not be legal. A write by the
   webhook or reconciliation worker is legal exactly when the row still fits the snapshot.
  */
  lemma StaleCommitLegalIff(run: seq<Action>, a: Action)
    requires a.WebhookCommit? || a.ReconcileCommit?
    requires var s := Exec(INIT, run);
      a.pr in s.procs && (if a.WebhookCommit? then s.procs[a.pr].WebhookChecked? else s.procs[a.pr].ReconcileChecked?)
    ensures var s := Exec(INIT, run);
      var c, t := s.procs[a.pr], Apply(s, a);
      && c.id in s.payments && c.id in t.payments && t.payments[c.id].status == c.to
      && (ValidTransition(s.payments[c.id].status, t.payments[c.id].status)
          <==> StillFits(c.from, s.payments[c.id].status, c.to))
  {
    var s := Exec(INIT, run);
    Reachable(run);
    var c := s.procs[a.pr];
    assert ProcOk(s.payments, c);
    StaleWriteLegalIff(c.from, s.payments[c.id].status, c.to);
  }

  /** A refund's write is legal exactly when the payment may still be refunded or is already there. */
  lemma StaleRefundLegalIff(run: seq<Action>, pr: ProcId)
    requires var s := Exec(INIT, run); pr in s.procs && s.procs[pr].RefundPaid?
    ensures var s := Exec(INIT, run);
      var c, t := s.procs[pr], Apply(s, RefundCommit(pr));
      && c.id in s.payments && c.id in t.payments
      && (ValidTransition(s.payments[c.id].status, t.payments[c.id].status)
          <==> PhaseOf(s.payments[c.id].status) == Paid || s.payments[c.id].status == t.payments[c.id].status)
  {
    hide Exec, RowsOk, KeysUnique, ChargesOk, AnswersOk;
    var s := Exec(INIT, run);
    Reachable(run);
    assert ProcOk(s.payments, s.procs[pr]);
  }

  /** The transition check that follows the provider's refund never throws. */
  lemma RefundCheckNeverThrows(run: seq<Action>, pr: ProcId)
    requires var s := Exec(INIT, run); pr in s.procs && s.procs[pr].RefundChecked?
    ensures var s := Exec(INIT, run);
      var t := Apply(s, RefundCall(pr, true));
      pr in t.procs && t.procs[pr].RefundPaid? && t.answers == s.answers
  {
    hide Exec, RowsOk, KeysUnique, ChargesOk, AnswersOk;
    Reachable(run);
    assert ProcOk(Exec(INIT, run).payments, Exec(INIT, run).procs[pr]);
  }
}
