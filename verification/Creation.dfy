/**
 What a creation leaves behind, told from what its call brought along: in every interleaving
 the row holds the organization, key, amount, provider and instant of the call and the very
 external id that the provider answered, and the provider's notification finds that row.
*/
module Creation {
  import opened Options
  import opened StateMachine
  import opened Rows
  import opened Payments
  import opened Invariant
  import opened Interleaved
  import opened Serial

  /** Everything that the steps of one successful creation bring along. */
  datatype Brought = Brought(
    pr: ProcId,
    org: OrgId,
    key: Key,
    amount: int,
    provider: ProviderId,
    id: PaymentId,
    now: int,
    externalId: ExternalId,
    reported: ProviderStatus)

  // ---- rows in field values ----

  predicate HoldsCall(p: Payment, org: OrgId, key: Key, amount: int, provider: ProviderId, now: int) {
    p.org == org && p.tenant == org && p.key == key && p.amount == amount && p.provider == provider
      && p.createdAt == now
  }

  /** The two rows are of the same call. */
  predicate SameCharge(p: Payment, q: Payment) {
    && p.org == q.org && p.tenant == q.tenant && p.key == q.key && p.amount == q.amount
    && p.provider == q.provider && p.createdAt == q.createdAt
  }

  /** The row between its insertion and the provider's answer. */
  predicate IsNew(p: Payment) {
    && p.status == Pending && p.externalId.None? && p.failureCode.None? && p.events == [CreatedEvent]
    && p.refunds == [] && p.history == [Pending] && p.refundCalls == 0
  }

  /** The row with the provider's answer: a known word gives the status of that name, any other gives pending. */
  predicate IsSettled(p: Payment, externalId: ExternalId, reported: ProviderStatus) {
    && p.externalId == Some(externalId) && p.failureCode.None? && p.refunds == [] && p.refundCalls == 0
    && p.events == [CreatedEvent, ProviderEvent(reported)] && p.history == [Pending, p.status]
    && Name(p.status) == (if reported.Other? || Text(reported) == "refunded" then "pending" else Text(reported))
  }

  predicate IsFailed(p: Payment) {
    && p.status == Failed && p.externalId.None? && p.failureCode == Some("PROVIDER_ERROR") && p.events == [CreatedEvent]
    && p.refunds == [] && p.history == [Pending, Failed] && p.refundCalls == 0
  }

  lemma NewRowHolds(org: OrgId, key: Key, amount: int, provider: ProviderId, now: int)
    ensures var p := NewPayment(org, key, amount, provider, now);
      HoldsCall(p, org, key, amount, provider, now) && IsNew(p)
  {
  }

  lemma SettledRowHolds(p: Payment, externalId: ExternalId, reported: ProviderStatus)
    requires IsNew(p)
    ensures var q := SettleCharge(p, externalId, reported);
      && IsSettled(q, externalId, reported) && SameCharge(q, p)
  {
    CreationReadsNames(reported, MapProviderStatus(reported));
  }

  lemma FailedRowHolds(p: Payment)
    requires IsNew(p)
    ensures var q := FailCharge(p);
      && IsFailed(q) && SameCharge(q, p)
  {
  }

  // ---- a call is left alone by the steps of all others ----

  predicate Silent(run: seq<Action>, pr: ProcId) {
    forall i :: 0 <= i < |run| ==> run[i].pr != pr
  }

  predicate SameCall(s: State, t: State, pr: ProcId) {
    (pr in s.procs <==> pr in t.procs) && (pr in s.procs ==> t.procs[pr] == s.procs[pr])
  }

  lemma CreationLeavesCall(s: State, a: Action, pr: ProcId)
    requires a.pr != pr && IsCreation(a)
    ensures SameCall(s, Apply(s, a), pr)
  {
    hide IsBlank, KeyTaken, Matches, NewPayment, SettleCharge, FailCharge;
  }

  lemma ServingLeavesCall(s: State, a: Action, pr: ProcId)
    requires a.pr != pr && IsServing(a)
    ensures SameCall(s, Apply(s, a), pr)
  {
    hide RecordRefund, ValidTransition;
  }

  lemma StepLeavesCall(s: State, a: Action, pr: ProcId)
    requires a.pr != pr
    ensures SameCall(s, Apply(s, a), pr)
  {
    if IsCreation(a) { CreationLeavesCall(s, a, pr); } else if IsServing(a) { ServingLeavesCall(s, a, pr); }
  }

  lemma {:induction false} RunLeavesCall(s: State, run: seq<Action>, pr: ProcId)
    requires Silent(run, pr)
    ensures SameCall(s, Exec(s, run), pr)
    decreases |run|
  {
    hide Apply;
    if run != [] {
      assert forall i :: 0 <= i < |run| - 1 ==> run[1..][i] == run[i + 1];
      StepLeavesCall(s, run[0], pr);
      RunLeavesCall(Apply(s, run[0]), run[1..], pr);
    }
  }

  /** While a creation is under way, nobody but itself writes its row. */
  lemma StepLeavesRow(s: State, a: Action, pr: ProcId)
    requires Inv(s) && pr in s.procs && Creating(s.procs[pr]) && a.pr != pr
    ensures var id := s.procs[pr].id;
      id in s.payments && id in Apply(s, a).payments && Apply(s, a).payments[id] == s.payments[id]
  {
    hide Apply, RowOk, KeysUnique, ChargesOk, AnswersOk;
    assert ProcOk(s.payments, s.procs[pr]);
    StepWrites(s, a, s.procs[pr].id);
  }

  lemma {:induction false} RunLeavesRow(s: State, run: seq<Action>, pr: ProcId)
    requires Inv(s) && pr in s.procs && Creating(s.procs[pr]) && Silent(run, pr)
    ensures var id := s.procs[pr].id;
      id in s.payments && id in Exec(s, run).payments && Exec(s, run).payments[id] == s.payments[id]
    decreases |run|
  {
    hide Apply;
    if run != [] {
      assert forall i :: 0 <= i < |run| - 1 ==> run[1..][i] == run[i + 1];
      StepLeavesRow(s, run[0], pr);
      StepLeavesCall(s, run[0], pr);
      StepKeepsInv(s, run[0]);
      RunLeavesRow(Apply(s, run[0]), run[1..], pr);
    } else {
      assert ProcOk(s.payments, s.procs[pr]);
    }
  }

  // ---- the four own steps, each followed by steps of others ----

  lemma AfterLookup(s: State, c: Brought, between: seq<Action>)
    requires Inv(s) && c.pr !in s.procs && Silent(between, c.pr)
    ensures var t := Exec(StepCreateLookup(s, c.pr, c.org, c.key, c.amount, Some(c.provider), None), between);
      Inv(t) && (c.pr in t.procs ==> t.procs[c.pr] == Routed(c.org, c.key, c.amount, c.provider))
  {
    hide Exec, Inv;
    var s1 := StepCreateLookup(s, c.pr, c.org, c.key, c.amount, Some(c.provider), None);
    CreateLookupKeeps(s, c.pr, c.org, c.key, c.amount, Some(c.provider), None);
    RunKeepsInv(s1, between);
    RunLeavesCall(s1, between, c.pr);
  }

  /** The call has inserted its row, and is to charge next. */
  predicate Awaits(t: State, c: Brought) {
    && c.pr in t.procs && t.procs[c.pr] == Inserted(c.org, c.key, c.id)
    && c.id in t.payments && HoldsCall(t.payments[c.id], c.org, c.key, c.amount, c.provider, c.now)
      && IsNew(t.payments[c.id])
  }

  lemma InsertStores(s: State, c: Brought)
    requires c.pr in s.procs ==> s.procs[c.pr] == Routed(c.org, c.key, c.amount, c.provider)
    requires c.id !in s.payments && c.id in StepCreateInsert(s, c.pr, c.id, c.now).payments
    ensures Awaits(StepCreateInsert(s, c.pr, c.id, c.now), c)
  {
    hide KeyTaken;
    NewRowHolds(c.org, c.key, c.amount, c.provider, c.now);
  }

  lemma AfterInsert(s: State, c: Brought, between: seq<Action>)
    requires Inv(s) && Silent(between, c.pr)
    requires c.pr in s.procs ==> s.procs[c.pr] == Routed(c.org, c.key, c.amount, c.provider)
    requires c.id !in s.payments && c.id in StepCreateInsert(s, c.pr, c.id, c.now).payments
    ensures var t := Exec(StepCreateInsert(s, c.pr, c.id, c.now), between); Inv(t) && Awaits(t, c)
  {
    hide Exec, Inv;
    var s1 := StepCreateInsert(s, c.pr, c.id, c.now);
    CreateInsertKeeps(s, c.pr, c.id, c.now);
    InsertStores(s, c);
    RunKeepsInv(s1, between);
    RunLeavesCall(s1, between, c.pr);
    RunLeavesRow(s1, between, c.pr);
  }

  /** The provider has answered, and the update transaction is to come. */
  predicate Answered(t: State, c: Brought) {
    && c.pr in t.procs && t.procs[c.pr] == Charged(c.org, c.key, c.id, c.externalId, c.reported)
    && c.id in t.payments && HoldsCall(t.payments[c.id], c.org, c.key, c.amount, c.provider, c.now)
      && IsNew(t.payments[c.id])
  }

  lemma AfterCharge(s: State, c: Brought, between: seq<Action>)
    requires Inv(s) && Awaits(s, c) && Silent(between, c.pr)
    ensures var t := Exec(StepCreateCharge(s, c.pr, ChargeResult(c.externalId, c.reported)), between);
      Inv(t) && Answered(t, c)
  {
    hide Exec, Inv;
    var s1 := StepCreateCharge(s, c.pr, ChargeResult(c.externalId, c.reported));
    CreateChargeKeeps(s, c.pr, ChargeResult(c.externalId, c.reported));
    RunKeepsInv(s1, between);
    RunLeavesCall(s1, between, c.pr);
    RunLeavesRow(s1, between, c.pr);
  }

  /** The row and the answer that the commit leaves. */
  predicate Settled(t: State, c: Brought) {
    && c.id in t.payments
    && var p := t.payments[c.id];
    && HoldsCall(p, c.org, c.key, c.amount, c.provider, c.now) && IsSettled(p, c.externalId, c.reported)
    && t.answers != [] && t.answers[|t.answers| - 1] == CreatedAnswer(c.org, c.key, c.id, p)
  }

  lemma AfterCommit(s: State, c: Brought)
    requires Answered(s, c)
    ensures Settled(StepCreateCommit(s, c.pr), c)
  {
    SettledRowHolds(s.payments[c.id], c.externalId, c.reported);
  }

  // ---- whole runs ----

  /** The four steps of a creation, with any steps of other calls in between. */
  function CreationRun(c: Brought, r1: seq<Action>, r2: seq<Action>, r3: seq<Action>): seq<Action> {
    [CreateLookup(c.pr, c.org, c.key, c.amount, Some(c.provider), None)] + r1
    + ([CreateInsert(c.pr, c.id, c.now)] + r2
       + ([CreateCharge(c.pr, ChargeResult(c.externalId, c.reported))] + r3 + [CreateCommit(c.pr)]))
  }

  /** The row is stored by the call's own insertion. */
  ghost predicate Stores(s: State, c: Brought, r1: seq<Action>) {
    var t := Exec(Apply(s, CreateLookup(c.pr, c.org, c.key, c.amount, Some(c.provider), None)), r1);
    c.id !in t.payments && c.id in Apply(t, CreateInsert(c.pr, c.id, c.now)).payments
  }

  lemma ExecPrefix(s: State, a: Action, rest: seq<Action>, more: seq<Action>)
    ensures Exec(s, [a] + rest + more) == Exec(Exec(Apply(s, a), rest), more)
  {
    ExecConcat(s, [a] + rest, more);
    ExecConcat(s, [a], rest);
    ExecOne(s, a);
  }

  lemma CreationRunSettles(s: State, c: Brought, r1: seq<Action>, r2: seq<Action>, r3: seq<Action>)
    requires Inv(s) && c.pr !in s.procs && Silent(r1, c.pr) && Silent(r2, c.pr) && Silent(r3, c.pr) && Stores(s, c, r1)
    ensures Settled(Exec(s, CreationRun(c, r1, r2, r3)), c)
  {
    hide Exec, Inv, Awaits, Answered, Settled, StepCreateLookup, StepCreateInsert, StepCreateCharge, StepCreateCommit;
    var charge := CreateCharge(c.pr, ChargeResult(c.externalId, c.reported));
    var lookup, insert := CreateLookup(c.pr, c.org, c.key, c.amount, Some(c.provider), None),
      CreateInsert(c.pr, c.id, c.now);
    var s1 := Exec(Apply(s, lookup), r1);
    AfterLookup(s, c, r1);
    var s2 := Exec(Apply(s1, insert), r2);
    AfterInsert(s1, c, r2);
    var s3 := Exec(Apply(s2, charge), r3);
    AfterCharge(s2, c, r3);
    AfterCommit(s3, c);
    var rest := [charge] + r3 + [CreateCommit(c.pr)];
    ExecPrefix(s, lookup, r1, [insert] + r2 + rest);
    ExecPrefix(s1, insert, r2, rest);
    ExecPrefix(s2, charge, r3, [CreateCommit(c.pr)]);
    ExecOne(s3, CreateCommit(c.pr));
  }

  /**
   In every interleaving, once a creation that stored its row and got the provider's answer
   has committed, its answer and its row hold what the call brought along and the external
   id of that answer; the row does for ever.
  */
  lemma SettledAsBrought(before: seq<Action>, c: Brought, r1: seq<Action>, r2: seq<Action>, r3: seq<Action>,
      after: seq<Action>)
    requires c.pr !in Exec(INIT, before).procs && Stores(Exec(INIT, before), c, r1)
    requires Silent(r1, c.pr) && Silent(r2, c.pr) && Silent(r3, c.pr)
    ensures var s := Exec(INIT, before + CreationRun(c, r1, r2, r3));
      && c.id in s.payments
      && var p := s.payments[c.id];
      && p.org == c.org && p.tenant == c.org && p.key == c.key && p.amount == c.amount
      && p.provider == c.provider && p.createdAt == c.now && p.externalId == Some(c.externalId) && p.failureCode.None?
      && Name(p.status) == (if c.reported.Other? || Text(c.reported) == "refunded" then "pending" else Text(c.reported))
      && s.answers != [] && s.answers[|s.answers| - 1] == CreatedAnswer(c.org, c.key, c.id, p)
    ensures var t := Exec(INIT, before + CreationRun(c, r1, r2, r3) + after);
      && c.id in t.payments
      && var q := t.payments[c.id];
      && q.org == c.org && q.tenant == c.org && q.key == c.key && q.amount == c.amount
      && q.provider == c.provider && q.createdAt == c.now && q.externalId == Some(c.externalId)
  {
    hide Exec, Inv, CreationRun, Stores;
    var run := before + CreationRun(c, r1, r2, r3);
    Reachable(before);
    Reachable(run);
    CreationRunSettles(Exec(INIT, before), c, r1, r2, r3);
    ExecConcat(INIT, before, CreationRun(c, r1, r2, r3));
    ExecConcat(INIT, run, after);
    RowsPersist(Exec(INIT, run), after, c.id);
  }

  /**
   A worker that takes up a notification under that provider and external id, at any later
   time, takes up this payment and no other, where external ids are distinct; and it does
   take it up unless the status check refuses the word.
  */
  lemma NotificationFindsIt(before: seq<Action>, c: Brought, r1: seq<Action>, r2: seq<Action>, r3: seq<Action>,
      after: seq<Action>, worker: ProcId, other: PaymentId)
    requires c.pr !in Exec(INIT, before).procs && Stores(Exec(INIT, before), c, r1)
    requires Silent(r1, c.pr) && Silent(r2, c.pr) && Silent(r3, c.pr)
    requires var t := Exec(INIT, before + CreationRun(c, r1, r2, r3) + after);
      DistinctExternalIds(t.payments) && worker !in t.procs && Hook(c.provider, c.externalId) in t.intake.jobs
    ensures var t := Exec(INIT, before + CreationRun(c, r1, r2, r3) + after);
      var hook := Hook(c.provider, c.externalId);
      var word := t.intake.jobs[hook].reported;
      && c.id in t.payments
      && (worker in Apply(t, WebhookRead(worker, hook, other)).procs
          <==> other == c.id && (word.Other? || Name(t.payments[c.id].status) == Text(word)
                                 || exists to :: Edge(t.payments[c.id].status, to) && Name(to) == Text(word)))
  {
    hide Exec, CreationRun, Stores;
    SettledAsBrought(before, c, r1, r2, r3, after);
    var t := Exec(INIT, before + CreationRun(c, r1, r2, r3) + after);
    WorkerTakes(t, worker, Hook(c.provider, c.externalId), other);
  }

  lemma WorkerTakes(t: State, worker: ProcId, hook: Hook, id: PaymentId)
    requires worker !in t.procs && hook in t.intake.jobs
    ensures var word := t.intake.jobs[hook].reported;
      worker in StepWebhookRead(t, worker, hook, id).procs
      <==> id in t.payments
           && var p := t.payments[id];
           && p.provider == hook.provider && p.externalId == Some(hook.externalId)
           && (word.Other? || Name(p.status) == Text(word) || exists to :: Edge(p.status, to) && Name(to) == Text(word))
  {
    hide Text, Name, Edge, StatusMap;
    var word := t.intake.jobs[hook].reported;
    WorkersReadEvery(word);
  }
}
