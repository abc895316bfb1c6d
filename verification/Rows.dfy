/** One payment row together with its events and refund rows, and the writes made to it. */
module Rows {
  import opened Options
  import opened StateMachine

  type PaymentId = nat
  type OrgId = nat
  type Key = string

  datatype Event =
    | CreatedEvent
    | ProviderEvent(reported: ProviderStatus)
    | WebhookEvent(reported: ProviderStatus)
    | ReconciledEvent(from: Status, to: Status)
    | RefundedEvent(amount: int)

  datatype Payment = Payment(
    org: OrgId,
    tenant: OrgId,
    key: Key,
    amount: int,
    provider: nat,
    createdAt: int,
    status: Status,
    externalId: Option<nat>,
    failureCode: Option<string>,
    events: seq<Event>,             // the append-only log, oldest first
    refunds: seq<int>,              // amounts of the refund rows, oldest first
    history: seq<Status>,           // every status ever stored, oldest first
    refundCalls: nat)               // refunds the provider has carried out

  // ---- the writes ----

  function NewPayment(org: OrgId, key: Key, amount: int, provider: nat, now: int): Payment {
    Payment(org, org, key, amount, provider, now, Pending, None, None, [CreatedEvent], [], [Pending], 0)
  }

  /** A status update and its event, in one transaction. */
  function Write(p: Payment, to: Status, event: Event): Payment {
    p.(status := to, history := p.history + [to], events := p.events + [event])
  }

  function SettleCharge(p: Payment, externalId: nat, reported: ProviderStatus): Payment {
    Write(p.(externalId := Some(externalId)), MapProviderStatus(reported), ProviderEvent(reported))
  }

  /** The update in the catch block: no event, no external id. */
  function FailCharge(p: Payment): Payment {
    p.(status := Failed, history := p.history + [Failed], failureCode := Some("PROVIDER_ERROR"))
  }

  // In the refund body a missing amount and the number 0 are both falsy, but only a
  // missing one is replaced by ??, which is what the event payload uses.

  function RefundTarget(amount: Option<int>, total: int): Status {
    if amount.Some? && amount.value != 0 && amount.value < total then PartiallyRefunded else Refunded
  }

  function RefundRow(amount: Option<int>, total: int): int {
    if amount.Some? && amount.value != 0 then amount.value else total
  }

  function RefundPayload(amount: Option<int>, total: int): int {
    if amount.Some? then amount.value else total
  }

  function RecordRefund(p: Payment, amount: Option<int>, total: int): Payment {
    Write(p, RefundTarget(amount, total), RefundedEvent(RefundPayload(amount, total)))
      .(refunds := p.refunds + [RefundRow(amount, total)])
  }

  /** The header check: a key that is empty once trimmed is refused. */
  predicate IsBlank(key: Key) {
    forall c :: c in key ==> IsSpace(c)
  }

  predicate IsLetterOrDigit(c: char) {
    'a' <= c <= 'z' || 'A' <= c <= 'Z' || '0' <= c <= '9'
  }

  /** A key with a letter or a digit is never refused as blank; one of spaces, tabs and line ends always is. */
  lemma BlankKeys(key: Key)
    ensures (exists i :: 0 <= i < |key| && IsLetterOrDigit(key[i])) ==> !IsBlank(key)
    ensures (forall i :: 0 <= i < |key| ==> key[i] == ' ' || key[i] == '\t' || key[i] == '\r' || key[i] == '\n')
      ==> IsBlank(key)
  {
    if i :| 0 <= i < |key| && IsLetterOrDigit(key[i]) {
      assert key[i] in key;
      LettersAreNoSpace(key[i]);
    }
  }

  lemma LettersAreNoSpace(c: char)
    requires IsLetterOrDigit(c)
    ensures !IsSpace(c)
  {
  }

  predicate IsSpace(c: char) {
    || c in " \t\n\r\U{000B}\U{000C}\U{00A0}\U{1680}\U{2028}\U{2029}\U{202F}\U{205F}\U{3000}\U{FEFF}"
    || '\U{2000}' <= c <= '\U{200A}'
  }
}
