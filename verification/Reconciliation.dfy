/**
 Reconciliation of payments that stayed pending: the scheduler that queues a batch of at
 most a hundred, the worker that corrects one payment, and why the backlog drains.
*/
module Reconciliation {
  import opened Arithmetic
  import opened Options
  import opened StateMachine
  import opened Rows
  import opened Listing
  import opened Serial
  import opened Calls
  import opened Services

  const PENDING_THRESHOLD_MIN := 30
  const BATCH := 100

  function Threshold(nowMs: int): int {
    nowMs - PENDING_THRESHOLD_MIN * 60 * 1_000
  }

  predicate IsStale(p: Payment, threshold: int) {
    p.status == Pending && p.externalId.Some? && p.createdAt < threshold
  }

  function Stale(payments: map<PaymentId, Payment>, threshold: int): set<PaymentId> {
    set id | id in payments && IsStale(payments[id], threshold)
  }

  /** What the query may return: some hundred stale rows, or all of them if there are fewer. */
  ghost predicate IsBatch(batch: seq<PaymentId>, payments: map<PaymentId, Payment>, threshold: int) {
    && (forall i, j :: 0 <= i < j < |batch| ==> batch[i] != batch[j])
    && (forall id :: id in batch ==> id in Stale(payments, threshold))
    && |batch| == Min(BATCH, |Stale(payments, threshold)|)
  }

  /** Bulk insertion by job id: a payment that is queued already is not queued again. */
  function AddBulk(queue: seq<PaymentId>, batch: seq<PaymentId>): seq<PaymentId>
    decreases |batch|
  {
    if batch == [] then queue
    else AddBulk(if batch[0] in queue then queue else queue + [batch[0]], batch[1..])
  }

  lemma {:induction false} AddBulkHolds(queue: seq<PaymentId>, batch: seq<PaymentId>)
    ensures forall id :: id in AddBulk(queue, batch) <==> id in queue || id in batch
    ensures NoRepeats(queue) ==> NoRepeats(AddBulk(queue, batch))
    decreases |batch|
  {
    if batch != [] {
      AddBulkHolds(if batch[0] in queue then queue else queue + [batch[0]], batch[1..]);
      assert batch == [batch[0]] + batch[1..];
    }
  }

  ghost predicate NoRepeats(queue: seq<PaymentId>) {
    forall i, j :: 0 <= i < j < |queue| ==> queue[i] != queue[j]
  }

  /** Pending at the provider, and created more than half an hour before. */
  predicate IsOverdue(p: Payment, nowMs: int) {
    p.status == Pending && p.externalId.Some? && nowMs - p.createdAt > 1_800_000
  }

  lemma StaleIsOverdue(payments: map<PaymentId, Payment>, nowMs: int)
    ensures forall id :: id in Stale(payments, Threshold(nowMs)) <==> id in payments && IsOverdue(payments[id], nowMs)
  {
  }

  class ReconciliationService {
    const prisma: Store
    var queue: seq<PaymentId>

    constructor (prisma: Store)
      ensures this.prisma == prisma && queue == []
    {
      this.prisma := prisma;
      queue := [];
    }

    method SchedulePendingReconciliation(nowMs: int) returns (batch: seq<PaymentId>)
      modifies this
      ensures IsBatch(batch, prisma.payments, Threshold(nowMs))
      ensures queue == AddBulk(old(queue), batch)
      ensures forall id :: id in batch ==> id in prisma.payments && IsOverdue(prisma.payments[id], nowMs)
      ensures |batch| <= 100
      ensures |batch| < 100 ==>
        forall id :: id in prisma.payments && IsOverdue(prisma.payments[id], nowMs) ==> id in batch
      ensures forall id :: id in queue <==> id in old(queue) || id in batch
    {
      StaleIsOverdue(prisma.payments, nowMs);
      var rest := Stale(prisma.payments, Threshold(nowMs));
      ghost var stale := rest;
      batch := [];
      while |batch| < BATCH && rest != {}
        invariant rest <= stale && |rest| + |batch| == |stale| && |batch| <= BATCH
        invariant forall id :: id in stale <==> id in batch || id in rest
        invariant forall id :: id in batch ==> id !in rest
        invariant NoRepeats(batch)
        decreases |rest|
      {
        var id :| id in rest;
        batch := batch + [id];
        rest := rest - {id};
      }
      AddBulkHolds(queue, batch);
      var i := 0;
      while i < |batch|
        invariant 0 <= i <= |batch|
        invariant AddBulk(queue, batch[i..]) == AddBulk(old(queue), batch)
      {
        if batch[i] !in queue { queue := queue + [batch[i]]; }
        i := i + 1;
      }
    }

    method ReconcileOne(id: PaymentId, reported: ProviderStatus)
      requires prisma.Valid()
      modifies prisma
      ensures prisma.Valid()
      ensures prisma.Snapshot() == Perform(old(prisma.Snapshot()), ReconcileRun(0, id, reported))
      ensures prisma.payments == AfterJob(old(prisma.payments), id, reported)
      ensures if id in old(prisma.payments) && old(prisma.payments)[id].externalId.Some? then
                && id in prisma.payments && prisma.payments == old(prisma.payments)[id := prisma.payments[id]]
                && var p, q := old(prisma.payments)[id], prisma.payments[id];
                Follows(p, q, reported, ReconciledEvent(p.status, q.status))
              else prisma.payments == old(prisma.payments)
    {
      ghost var s := prisma.Snapshot();
      ReconcileCallEffect(s, id, reported);
      RunKeepsValid(s, Expand(ReconcileRun(0, id, reported)));
      if id in s.payments {
        PutSame(s, id);
        WorkerRowsFollow(s.payments[id], reported);
      }
      hide Follows;
      if id !in prisma.payments || prisma.payments[id].externalId.None? {
        return;
      }
      var payment := prisma.payments[id];
      var newStatus := StatusMap(reported);
      if newStatus.None? || payment.status == newStatus.value {
        return;
      }
      if !ValidTransition(payment.status, newStatus.value) {
        return;
      }
      var updated := Write(payment, newStatus.value, ReconciledEvent(payment.status, newStatus.value));
      prisma.payments := prisma.payments[id := updated];
    }
  }

  function AfterJob(payments: map<PaymentId, Payment>, id: PaymentId, reported: ProviderStatus)
    : map<PaymentId, Payment>
  {
    if id in payments then payments[id := ReconciledRow(payments[id], reported)] else payments
  }

  /** Asking again and getting the same answer changes neither the status nor the log. */
  lemma {:induction false} ReconcileIsIdempotent(payments: map<PaymentId, Payment>, id: PaymentId,
      reported: ProviderStatus)
    ensures AfterJob(AfterJob(payments, id, reported), id, reported) == AfterJob(payments, id, reported)
  {
    if id in payments {
      var q := ReconciledRow(payments[id], reported);
      assert ReconciledRow(q, reported) == q;
    }
  }

  // ---- draining ----

  /** Every job of a batch run once. */
  function AfterRound(payments: map<PaymentId, Payment>, batch: seq<PaymentId>,
      reply: PaymentId -> ProviderStatus): map<PaymentId, Payment>
    decreases |batch|
  {
    if batch == [] then payments
    else AfterRound(AfterJob(payments, batch[0], reply(batch[0])), batch[1..], reply)
  }

  predicate Resolves(reported: ProviderStatus) {
    reported.SaysAuthorized? || reported.SaysCaptured? || reported.SaysFailed? || reported.SaysCancelled?
  }

  datatype Round = Round(batch: seq<PaymentId>, reply: PaymentId -> ProviderStatus)

  ghost function AfterRounds(payments: map<PaymentId, Payment>, rounds: seq<Round>): map<PaymentId, Payment>
    decreases |rounds|
  {
    if rounds == [] then payments
    else AfterRounds(AfterRound(payments, rounds[0].batch, rounds[0].reply), rounds[1..])
  }

  /** Each round queues a batch of what is stale by then, and the provider has an answer for each. */
  ghost predicate Proceed(payments: map<PaymentId, Payment>, rounds: seq<Round>, threshold: int)
    decreases |rounds|
  {
    rounds != [] ==>
      && IsBatch(rounds[0].batch, payments, threshold)
      && (forall id :: id in rounds[0].batch ==> Resolves(rounds[0].reply(id)))
      && Proceed(AfterRound(payments, rounds[0].batch, rounds[0].reply), rounds[1..], threshold)
  }

  function Ids(batch: seq<PaymentId>): set<PaymentId> {
    set id | id in batch
  }

  lemma {:induction false} RoundEffect(payments: map<PaymentId, Payment>, batch: seq<PaymentId>,
      reply: PaymentId -> ProviderStatus, threshold: int)
    requires NoRepeats(batch) && (forall id :: id in batch ==> id in Stale(payments, threshold) && Resolves(reply(id)))
    ensures var after := AfterRound(payments, batch, reply);
      && after.Keys == payments.Keys
      && Stale(after, threshold) == Stale(payments, threshold) - Ids(batch)
      && (forall id :: id in payments && id !in batch ==> after[id] == payments[id])
      && (forall id :: id in batch ==> id in after && StatusMap(reply(id)) == Some(after[id].status))
    decreases |batch|
  {
    if batch != [] {
      var id, rest := batch[0], batch[1..];
      var next := AfterJob(payments, id, reply(id));
      assert batch == [id] + rest;
      assert id in Stale(payments, threshold);
      assert Stale(next, threshold) == Stale(payments, threshold) - {id};
      forall other | other in rest ensures other != id && other in Stale(next, threshold) {
        var k :| 0 <= k < |rest| && rest[k] == other;
        assert batch[k + 1] == other;
      }
      RoundEffect(next, rest, reply, threshold);
      assert id !in rest;
    }
  }

  lemma {:induction false} DistinctCount(batch: seq<PaymentId>)
    requires NoRepeats(batch)
    ensures |Ids(batch)| == |batch|
  {
    if batch != [] {
      var n := |batch| - 1;
      var shorter := batch[..n];
      DistinctCount(shorter);
      assert batch == shorter + [batch[n]];
      assert batch[n] !in shorter;
      assert Ids(batch) == Ids(shorter) + {batch[n]};
    }
  }

  lemma RemoveCount<T>(all: set<T>, some: set<T>)
    requires some <= all
    ensures |all - some| == |all| - |some|
  {
  }

  /** How many stale payments remain after a number of rounds. */
  function Remaining(stale: nat, rounds: nat): nat {
    if stale <= rounds * BATCH then 0 else stale - rounds * BATCH
  }

  /** One round of at most a hundred. */
  lemma RoundCounts(payments: map<PaymentId, Payment>, round: Round, threshold: int)
    requires IsBatch(round.batch, payments, threshold) && forall id :: id in round.batch ==> Resolves(round.reply(id))
    ensures var next := AfterRound(payments, round.batch, round.reply);
      && next.Keys == payments.Keys
      && |Stale(next, threshold)| == Remaining(|Stale(payments, threshold)|, 1)
      && Stale(next, threshold) <= Stale(payments, threshold)
      && (forall id :: id in payments && id !in Stale(payments, threshold) ==> next[id] == payments[id])
      && (forall id :: id in Stale(payments, threshold) && id !in Stale(next, threshold) ==> next[id].status != Pending)
  {
    var before, batch := Stale(payments, threshold), round.batch;
    RoundEffect(payments, batch, round.reply, threshold);
    var next := AfterRound(payments, batch, round.reply);
    var after := Stale(next, threshold);
    assert after == before - Ids(batch);
    assert |after| == |before| - |batch| by {
      DistinctCount(batch);
      RemoveCount(before, Ids(batch));
    }
    forall id | id in before && id !in after ensures next[id].status != Pending {
      assert id in batch && Resolves(round.reply(id));
    }
  }

  lemma {:induction false} RoundsEffect(payments: map<PaymentId, Payment>, rounds: seq<Round>, threshold: int)
    requires Proceed(payments, rounds, threshold)
    ensures var after := AfterRounds(payments, rounds);
      && after.Keys == payments.Keys
      && |Stale(after, threshold)| == Remaining(|Stale(payments, threshold)|, |rounds|)
      && Stale(after, threshold) <= Stale(payments, threshold)
      && (forall id :: id in payments && id !in Stale(payments, threshold) ==> after[id] == payments[id])
      && (forall id :: id in Stale(payments, threshold) && id !in Stale(after, threshold)
            ==> after[id].status != Pending)
    decreases |rounds|
  {
    if rounds != [] {
      var next := AfterRound(payments, rounds[0].batch, rounds[0].reply);
      RoundCounts(payments, rounds[0], threshold);
      RoundsEffect(next, rounds[1..], threshold);
      forall id | id in Stale(payments, threshold) ensures id in payments && id in next {
      }
    }
  }

  /**
   The backlog is gone after as many rounds as it has batches, and not before; payments
   that were not stale keep their row, with status and log, untouched.
  */
  lemma BacklogDrains(payments: map<PaymentId, Payment>, rounds: seq<Round>, threshold: int)
    requires Proceed(payments, rounds, threshold)
    ensures var after := AfterRounds(payments, rounds);
      && (Stale(after, threshold) == {} <==> |rounds| >= PageCount(|Stale(payments, threshold)|, BATCH))
      && after.Keys == payments.Keys
      && (|rounds| >= PageCount(|Stale(payments, threshold)|, BATCH)
          ==> forall id :: id in Stale(payments, threshold) ==> after[id].status != Pending)
      && (forall id :: id in payments && id !in Stale(payments, threshold) ==> after[id] == payments[id])
  {
    RoundsEffect(payments, rounds, threshold);
    PageCountCovers(|Stale(payments, threshold)|, BATCH);
  }

  /**
   In numbers: with every job of a round run before the next, no overdue payment is left
   exactly if a hundred times as many payments as there were rounds cover the overdue ones.
  */
  lemma BacklogDrainsInHundreds(payments: map<PaymentId, Payment>, rounds: seq<Round>, nowMs: int)
    requires Proceed(payments, rounds, Threshold(nowMs))
    ensures var overdue := set id | id in payments && IsOverdue(payments[id], nowMs);
      (forall id :: id in AfterRounds(payments, rounds) ==> !IsOverdue(AfterRounds(payments, rounds)[id], nowMs))
      <==> |rounds| * 100 >= |overdue|
  {
    hide Proceed, AfterRounds, IsStale, IsOverdue;
    var after := AfterRounds(payments, rounds);
    var overdue := set id | id in payments && IsOverdue(payments[id], nowMs);
    StaleIsOverdue(payments, nowMs);
    StaleIsOverdue(after, nowMs);
    assert overdue == Stale(payments, Threshold(nowMs));
    RoundsEffect(payments, rounds, Threshold(nowMs));
    var left := Stale(after, Threshold(nowMs));
    assert |left| == 0 <==> left == {};
    if id :| id in after && IsOverdue(after[id], nowMs) { assert id in left; }
  }
}
