/**
 The services themselves, as classes that update the shared tables in place. Each method
 runs one call from start to end and is proved to do what the call's steps do, so the
 results about runs apply to it.
*/
module Services {
  import opened Options
  import opened StateMachine
  import opened Rows
  import opened Listing
  import opened Payments
  import opened Invariant
  import opened Conservation
  import opened Serial
  import opened Calls
  import opened Creation
  import Reading

  /** The tables and the job queue; the ghost fields record calls and answers for the specifications. */
  class Store {
    var payments: map<PaymentId, Payment>
    var inbound: map<InboundId, Inbound>
    var jobs: map<Hook, Job>
    ghost var charged: multiset<(OrgId, Key)>
    ghost var answers: seq<Answer>
    ghost var enqueued: multiset<Hook>

    constructor ()
      ensures Snapshot() == INIT && Valid()
    {
      payments, inbound, jobs := map[], map[], map[];
      charged, answers, enqueued := multiset{}, [], multiset{};
    }

    ghost function Snapshot(): State
      reads this
    {
      State(payments, charged, answers, Intake(inbound, jobs, enqueued), map[])
    }

    ghost predicate Valid()
      reads this
    {
      Inv(Snapshot()) && IntakeInv(Snapshot())
    }

    method FindByKey(org: OrgId, key: Key) returns (found: Option<PaymentId>)
      ensures found.Some? ==> Matches(payments, found.value, org, key)
      ensures found.None? ==> !(exists id :: id in payments && Matches(payments, id, org, key))
    {
      if id :| id in payments && Matches(payments, id, org, key) {
        return Some(id);
      } else {
        return None;
      }
    }

    method FindByHook(hook: Hook) returns (found: Option<PaymentId>)
      ensures found.Some? ==> found.value in payments && HookOf(payments[found.value]) == Some(hook)
      ensures found.None? ==> forall id :: id in payments ==> HookOf(payments[id]) != Some(hook)
    {
      if id :| id in payments && HookOf(payments[id]) == Some(hook) {
        return Some(id);
      } else {
        return None;
      }
    }
  }

  /** A run that starts between calls keeps the store valid. */
  lemma RunKeepsValid(s: State, run: seq<Action>)
    requires Inv(s) && IntakeInv(s)
    ensures Inv(Exec(s, run)) && IntakeInv(Exec(s, run))
  {
    RunKeepsInv(s, run);
    RunKeepsIntake(s, run);
  }

  class PaymentsService {
    const prisma: Store

    constructor (prisma: Store)
      ensures this.prisma == prisma
    {
      this.prisma := prisma;
    }

    method Create(org: OrgId, key: Key, amount: int, provider: Option<ProviderId>, id: PaymentId, now: int,
        reply: Reply, commits: bool)
      returns (answer: Answer, ghost found: Option<PaymentId>)
      requires prisma.Valid()
      modifies prisma
      ensures prisma.Valid()
      ensures prisma.Snapshot() == Exec(old(prisma.Snapshot()),
        CreateRun(CreateCall(org, key, amount, provider, found, id, now, reply, commits)))
      ensures prisma.answers == old(prisma.answers) + [answer]
      ensures answer.CreatedAnswer? && found.None? ==>
        && provider.Some? && reply.ChargeResult? && commits && answer.org == org && answer.key == key && answer.id == id
        && HoldsCall(answer.payment, org, key, amount, provider.value, now)
        && IsSettled(answer.payment, reply.externalId, reply.reported)
        && id !in old(prisma.payments) && prisma.payments == old(prisma.payments)[id := answer.payment]
      ensures answer.CreatedAnswer? && found.Some? ==>
        && found.value in old(prisma.payments) && prisma.payments == old(prisma.payments)
        && answer == CreatedAnswer(org, key, found.value, old(prisma.payments)[found.value])
      ensures answer.ErrorAnswer? && answer.error == ProviderFailed ==>
        && provider.Some? && id !in old(prisma.payments) && id in prisma.payments
        && HoldsCall(prisma.payments[id], org, key, amount, provider.value, now) && IsFailed(prisma.payments[id])
        && prisma.payments == old(prisma.payments)[id := prisma.payments[id]]
      ensures answer.ErrorAnswer? && answer.error != ProviderFailed ==> prisma.payments == old(prisma.payments)
      ensures answer.CreatedAnswer? || answer.ErrorAnswer?
    {
      hide Exec, Inv, IntakeInv, HoldsCall, IsSettled, IsFailed, SettleCharge, NewPayment, FailCharge;
      ghost var s := prisma.Snapshot();
      var existing := None;
      if !IsBlank(key) { existing := prisma.FindByKey(org, key); }
      found := existing;
      ghost var c := CreateCall(org, key, amount, provider, found, id, now, reply, commits);
      CreateEffect(s, c);
      RunKeepsValid(s, CreateRun(c));
      if IsBlank(key) {
        answer := ErrorAnswer(org, BlankKey);
      } else if existing.Some? {
        answer := CreatedAnswer(org, key, existing.value, prisma.payments[existing.value]);
      } else if provider.None? {
        answer := ErrorAnswer(org, NoProvider);
      } else if id in prisma.payments || KeyTaken(prisma.payments, org, key) {
        answer := ErrorAnswer(org, DuplicateKey);
      } else {
        answer := ChargeNew(org, key, amount, provider.value, id, now, reply, commits);
      }
      prisma.answers := prisma.answers + [answer];
      assert prisma.Snapshot() == CreateResult(s, c);
    }

    /** The insert transaction, the provider call, and the update or the catch block. */
    method ChargeNew(org: OrgId, key: Key, amount: int, provider: ProviderId, id: PaymentId, now: int, reply: Reply,
        commits: bool)
      returns (answer: Answer)
      modifies prisma
      ensures var settled := reply.ChargeResult? && commits;
        var row := NewPayment(org, key, amount, provider, now);
        var last := if settled then SettleCharge(row, reply.externalId, reply.reported) else FailCharge(row);
        && prisma.payments == old(prisma.payments)[id := last]
        && answer == (if settled then CreatedAnswer(org, key, id, last) else ErrorAnswer(org, ProviderFailed))
        && HoldsCall(last, org, key, amount, provider, now)
        && if settled then IsSettled(last, reply.externalId, reply.reported) else IsFailed(last)
      ensures prisma.charged == old(prisma.charged) + multiset{(org, key)}
      ensures prisma.answers == old(prisma.answers)
      ensures unchanged(prisma`inbound, prisma`jobs, prisma`enqueued)
    {
      NewRowHolds(org, key, amount, provider, now);
      if reply.ChargeResult? { SettledRowHolds(NewPayment(org, key, amount, provider, now), reply.externalId,
        reply.reported); }
      FailedRowHolds(NewPayment(org, key, amount, provider, now));
      prisma.payments := prisma.payments[id := NewPayment(org, key, amount, provider, now)];
      prisma.charged := prisma.charged + multiset{(org, key)};
      if reply.ChargeResult? && commits {
        var updated := SettleCharge(prisma.payments[id], reply.externalId, reply.reported);
        prisma.payments := prisma.payments[id := updated];
        answer := CreatedAnswer(org, key, id, updated);
      } else {
        prisma.payments := prisma.payments[id := FailCharge(prisma.payments[id])];
        answer := ErrorAnswer(org, ProviderFailed);
      }
    }

    method Refund(org: OrgId, id: PaymentId, asked: Option<int>, succeeds: bool) returns (answer: Answer)
      requires prisma.Valid()
      modifies prisma
      ensures prisma.Valid()
      ensures prisma.Snapshot() == Perform(old(prisma.Snapshot()), RefundRun(0, org, id, asked, succeeds))
      ensures prisma.answers == old(prisma.answers) + [answer]
      ensures id !in old(prisma.payments) || old(prisma.payments)[id].org != org
        ==> answer == ErrorAnswer(org, NotFound)
      ensures id in old(prisma.payments) && old(prisma.payments)[id].org == org ==>
        var p := old(prisma.payments)[id];
        if (p.status != Captured && p.status != PartiallyRefunded) || p.externalId.None? then
          answer == ErrorAnswer(org, NotRefundable)
        else if !succeeds then answer == ErrorAnswer(org, ProviderFailed)
        else
          var amount := if asked.Some? && asked.value != 0 then asked.value else p.amount;
          && id in prisma.payments && answer == RefundAnswer(org, id, prisma.payments[id], amount)
          && prisma.payments[id].refunds == p.refunds + [amount]
          && prisma.payments[id].status == (if amount < p.amount then PartiallyRefunded else Refunded)
          && prisma.payments == old(prisma.payments)[id := prisma.payments[id]]
      ensures answer.ErrorAnswer? ==> prisma.payments == old(prisma.payments)
    {
      hide Exec, Inv, IntakeInv;
      ghost var s := prisma.Snapshot();
      RefundCallEffect(s, org, id, asked, succeeds);
      RunKeepsValid(s, Expand(RefundRun(0, org, id, asked, succeeds)));
      if id !in prisma.payments || prisma.payments[id].org != org {
        answer := ErrorAnswer(org, NotFound);
      } else {
        var payment := prisma.payments[id];
        if payment.status != Captured && payment.status != PartiallyRefunded {
          answer := ErrorAnswer(org, NotRefundable);
        } else if payment.externalId.None? {
          answer := ErrorAnswer(org, NotRefundable);
        } else if !succeeds {
          answer := ErrorAnswer(org, ProviderFailed);
        } else {
          var updated := RecordRefund(CountCall(payment), asked, payment.amount);
          prisma.payments := prisma.payments[id := updated];
          answer := RefundAnswer(org, id, updated, RefundRow(asked, payment.amount));
        }
      }
      prisma.answers := prisma.answers + [answer];
      if id in s.payments { PutSame(s, id); }
      assert prisma.Snapshot() == RefundResult(s, org, id, asked, succeeds);
    }

    method FindOne(org: OrgId, id: PaymentId) returns (answer: Answer)
      requires prisma.Valid()
      modifies prisma
      ensures prisma.Valid()
      ensures prisma.Snapshot() == StepFindOne(old(prisma.Snapshot()), 0, org, id)
      ensures prisma.answers == old(prisma.answers) + [answer]
      ensures prisma.payments == old(prisma.payments)
      ensures answer
           == if id in prisma.payments && prisma.payments[id].org == org then FoundAnswer(org, id, prisma.payments[id])
              else ErrorAnswer(org, NotFound)
    {
      FindOneKeeps(prisma.Snapshot(), 0, org, id);
      if id in prisma.payments && prisma.payments[id].org == org {
        answer := FoundAnswer(org, id, prisma.payments[id]);
      } else {
        answer := ErrorAnswer(org, NotFound);
      }
      prisma.answers := prisma.answers + [answer];
    }

    method FindAll(org: OrgId, status: Option<Status>, page: Option<nat>, limit: Option<nat>) returns (answer: Answer)
      requires prisma.Valid()
      requires (page.Some? ==> page.value >= 1) && (limit.Some? ==> limit.value >= 1)   // the query is validated before
      modifies prisma
      ensures prisma.Valid()
      ensures prisma.Snapshot()
           == StepFindAll(old(prisma.Snapshot()), 0, org, status, if page.Some? then page.value else 1,
                        if limit.Some? then limit.value else 20)
      ensures prisma.answers == old(prisma.answers) + [answer]
      ensures prisma.payments == old(prisma.payments)
      ensures Reading.IsListOf(answer, prisma.payments, org, status, if page.Some? then page.value else 1,
                               if limit.Some? then limit.value else 20)
      ensures forall i, j :: 0 <= i < j < |answer.data| ==> answer.data[i].createdAt >= answer.data[j].createdAt
      ensures forall i :: 0 <= i < |answer.data| ==>
        answer.data[i].org == org && (status.Some? ==> answer.data[i].status == status.value)
    {
      hide Inv, Exec, Selected, Newest, Page, PageCount;
      var p := if page.Some? then page.value else 1;
      var n := if limit.Some? then limit.value else 20;
      FindAllKeeps(prisma.Snapshot(), 0, org, status, p, n);
      var rows := Sorted(Selected(prisma.payments, org, status));
      Reading.ListIsRight(prisma.payments, org, status, p, n);
      answer := ListAnswer(org, Page(rows, p, n), Meta(|rows|, p, n, PageCount(|rows|, n)));
      Reading.ListMeans(answer.data, prisma.payments, org, status, p, n);
      prisma.answers := prisma.answers + [answer];
    }
  }

  /** The database's ordering: take the first remaining row until none is left. */
  method Sorted(rows: map<PaymentId, Payment>) returns (list: seq<Payment>)
    ensures list == Newest(rows)
  {
    list := [];
    var rest := rows;
    while rest != map[]
      invariant Newest(rows) == list + Newest(rest)
      decreases |rest|
    {
      FirstExists(rest);
      var id :| id in rest && IsFirst(rest, id);
      NewestStep(rest, id);
      assert (rest - {id}).Keys == rest.Keys - {id};
      list := list + [rest[id]];
      rest := rest - {id};
    }
    assert Newest(rest) == [];
  }

  lemma OneFirst(rows: map<PaymentId, Payment>, a: PaymentId, b: PaymentId)
    requires IsFirst(rows, a) && IsFirst(rows, b)
    ensures a == b
  {
  }

  lemma OrderStep(rows: map<PaymentId, Payment>, id: PaymentId)
    requires IsFirst(rows, id)
    ensures Order(rows) == [id] + Order(rows - {id})
  {
    hide IsFirst;
    assert rows != map[] by { assert id in rows by { FirstIsRow(rows, id); } }
    var first :| IsFirst(rows, first) && Order(rows) == [first] + Order(rows - {first});
    OneFirst(rows, id, first);
  }

  lemma NewestStep(rows: map<PaymentId, Payment>, id: PaymentId)
    requires IsFirst(rows, id)
    ensures Newest(rows) == [rows[id]] + Newest(rows - {id})
  {
    hide IsFirst, Order, Lists;
    FirstIsRow(rows, id);
    OrderStep(rows, id);
    OrderLists(rows - {id});
    ListedAreIn(Order(rows - {id}), rows - {id});
    RowsAtCons(rows, id, Order(rows - {id}));
  }

  lemma RowsAtCons(rows: map<PaymentId, Payment>, id: PaymentId, rest: seq<PaymentId>)
    requires id in rows && AllIn(rest, rows - {id})
    ensures AllIn([id] + rest, rows) && RowsAt([id] + rest, rows) == [rows[id]] + RowsAt(rest, rows - {id})
  {
  }

  /** A job is queued only for a stored notification. */
  lemma JobHasRow(s: State, hook: Hook)
    requires IntakeInv(s) && hook in s.intake.jobs
    ensures HookTaken(s.intake.inbound, hook)
  {
    assert StoredAs(s.intake, hook, s.intake.jobs[hook].inbound);
  }

  class WebhooksController {
    const prisma: Store

    constructor (prisma: Store)
      ensures this.prisma == prisma
    {
      this.prisma := prisma;
    }

    /** Signature checking comes before; i is the id a new row gets. */
    method Handle(hook: Hook, reported: ProviderStatus, i: InboundId) returns (received: bool)
      requires prisma.Valid()
      modifies prisma
      ensures prisma.Valid()
      ensures prisma.Snapshot() == Exec(old(prisma.Snapshot()), Reception(hook, reported, i))
      ensures received <==> i !in old(prisma.inbound) || HookTaken(old(prisma.inbound), hook)
      ensures prisma.payments == old(prisma.payments)
      ensures (exists j :: j in old(prisma.inbound) && old(prisma.inbound)[j].hook == hook) || !received
        ==> prisma.inbound == old(prisma.inbound) && prisma.jobs == old(prisma.jobs)
      ensures received && (forall j :: j in old(prisma.inbound) ==> old(prisma.inbound)[j].hook != hook) ==>
        && prisma.inbound == old(prisma.inbound)[i := Inbound(hook, false)]
        && prisma.jobs == old(prisma.jobs)[hook := Job(i, reported)]
    {
      hide Exec, Inv, IntakeInv;
      ghost var s := prisma.Snapshot();
      ReceptionEffect(s, hook, reported, i);
      RunKeepsValid(s, Reception(hook, reported, i));
      if hook in prisma.jobs { JobHasRow(s, hook); }
      if HookTaken(prisma.inbound, hook) {
        return true;
      }
      if i in prisma.inbound {
        return false;                 // the insert is refused
      }
      prisma.inbound := prisma.inbound[i := Inbound(hook, false)];
      if hook !in prisma.jobs {
        prisma.jobs := prisma.jobs[hook := Job(i, reported)];
      }
      prisma.enqueued := prisma.enqueued + multiset{hook};
      return true;
    }
  }

  class WebhookProcessor {
    const prisma: Store

    constructor (prisma: Store)
      ensures this.prisma == prisma
    {
      this.prisma := prisma;
    }

    /** False stands for a thrown error, after which the queue retries the job. */
    method Process(hook: Hook) returns (done: bool, found: Option<PaymentId>)
      requires prisma.Valid() && hook in prisma.jobs
      modifies prisma
      ensures prisma.Valid()
      ensures found.None? ==> !done && prisma.Snapshot() == old(prisma.Snapshot())
                              && forall id :: id in prisma.payments ==> HookOf(prisma.payments[id]) != Some(hook)
      ensures found.Some? ==> prisma.Snapshot() == Exec(old(prisma.Snapshot()), WebhookDelivery(hook, found.value))
      ensures found.Some? ==> (done <==> Deliverable(old(prisma.Snapshot()), hook, found.value))
      ensures found.Some? ==>
        && found.value in old(prisma.payments) && found.value in prisma.payments
        && var p, q := old(prisma.payments)[found.value], prisma.payments[found.value];
        var word := old(prisma.jobs)[hook].reported;
        && p.provider == hook.provider && p.externalId == Some(hook.externalId)
        && prisma.payments == old(prisma.payments)[found.value := q]
        && (if !done || word.Other? || Name(p.status) == Text(word) then q == p
            else Name(q.status) == Text(word) && Edge(p.status, q.status) && q.events == p.events + [WebhookEvent(word)]
                 && q == p.(status := q.status, events := q.events, history := p.history + [q.status]))
        && (!done <==> !word.Other? && Name(p.status) != Text(word)
                       && forall to :: Name(to) == Text(word) ==> !Edge(p.status, to))
      ensures found.Some? && old(prisma.payments)[found.value].status == Captured
        && old(prisma.jobs)[hook].reported == SaysRefunded
        ==> done && prisma.payments[found.value].status == Refunded && IsTerminal(Refunded)
      ensures found.None? ==> forall id :: id in prisma.payments ==>
        prisma.payments[id].provider != hook.provider || prisma.payments[id].externalId != Some(hook.externalId)
      ensures done ==>
        var i := old(prisma.jobs)[hook].inbound; i in prisma.inbound && prisma.inbound[i].processed
    {
      hide Exec, Inv;
      ghost var s := prisma.Snapshot();
      found := prisma.FindByHook(hook);
      if found.None? {
        return false, None;
      }
      var id := found.value;
      assert StoredAs(s.intake, hook, s.intake.jobs[hook].inbound);
      DeliveryEffect(s, hook, id);
      RunKeepsValid(s, WebhookDelivery(hook, id));
      PutSame(s, id);
      var payment, job := prisma.payments[id], prisma.jobs[hook];
      var newStatus := StatusMap(job.reported);
      WorkersReadEvery(job.reported);
      if newStatus.Some? && payment.status != newStatus.value {
        if !ValidTransition(payment.status, newStatus.value) {
          return false, found;
        }
        prisma.payments := prisma.payments[id := Write(payment, newStatus.value, WebhookEvent(job.reported))];
      }
      prisma.inbound := prisma.inbound[job.inbound := prisma.inbound[job.inbound].(processed := true)];
      return true, found;
    }
  }
}
