/**
 The payment status graph and its two readers.

 The table is a constant; everything else here is about paths through it.
*/
module StateMachine {
  import opened Options

  datatype Status = Pending | Authorized | Captured | Failed | Cancelled | Refunded | PartiallyRefunded

  /** What a payment provider reports; any other string is Other. */
  datatype ProviderStatus =
    | SaysPending | SaysAuthorized | SaysCaptured | SaysFailed | SaysCancelled | SaysRefunded
    | Other(text: string)

  function Allowed(from: Status): seq<Status> {
    match from
    case Pending => [Authorized, Captured, Failed, Cancelled]
    case Authorized => [Captured, Failed, Cancelled]
    case Captured => [Refunded, PartiallyRefunded]
    case PartiallyRefunded => [Refunded]
    case Failed => []
    case Cancelled => []
    case Refunded => []
  }

  predicate Edge(from: Status, to: Status) {
    to in Allowed(from)
  }

  /** The transition check returns normally; otherwise it throws. */
  predicate ValidTransition(from: Status, to: Status) {
    from == to || Edge(from, to)
  }

  predicate IsTerminal(status: Status) {
    |Allowed(status)| == 0
  }

  /** How the webhook and reconciliation workers read a provider status; None is an unknown one. */
  function StatusMap(reported: ProviderStatus): Option<Status> {
    match reported
    case SaysPending => Some(Pending)
    case SaysAuthorized => Some(Authorized)
    case SaysCaptured => Some(Captured)
    case SaysFailed => Some(Failed)
    case SaysCancelled => Some(Cancelled)
    case SaysRefunded => Some(Refunded)
    case Other(_) => None
  }

  /** How payment creation reads the same word: it has no entry for refunded and defaults to Pending. */
  function MapProviderStatus(reported: ProviderStatus): Status {
    match reported
    case SaysAuthorized => Authorized
    case SaysCaptured => Captured
    case SaysFailed => Failed
    case SaysCancelled => Cancelled
    case SaysPending => Pending
    case SaysRefunded => Pending
    case Other(_) => Pending
  }

  // ---- the words themselves ----

  /** The word as the provider sends it. */
  function Text(word: ProviderStatus): string {
    match word
    case SaysPending => "pending"
    case SaysAuthorized => "authorized"
    case SaysCaptured => "captured"
    case SaysFailed => "failed"
    case SaysCancelled => "cancelled"
    case SaysRefunded => "refunded"
    case Other(text) => text
  }

  /** The name of a stored status, in lower case. */
  function Name(status: Status): string {
    match status
    case Pending => "pending"
    case Authorized => "authorized"
    case Captured => "captured"
    case Failed => "failed"
    case Cancelled => "cancelled"
    case Refunded => "refunded"
    case PartiallyRefunded => "partially_refunded"
  }

  lemma NamesDiffer(a: Status, b: Status)
    ensures Name(a) == Name(b) <==> a == b
  {
    assert Name(a)[0] != Name(b)[0] || |Name(a)| != |Name(b)| || a == b;
  }

  /** The workers store the status whose name the provider sends, and ignore every other word. */
  lemma WorkersReadNames(word: ProviderStatus, status: Status)
    ensures StatusMap(word) == Some(status) <==> !word.Other? && Name(status) == Text(word)
    ensures StatusMap(word) != Some(PartiallyRefunded)
  {
    match StatusMap(word)
    case None =>
    case Some(s) => NamesDiffer(s, status);
  }

  /** The map in terms of the words: every known word but no other is read, as the status of its name. */
  lemma WorkersReadEvery(word: ProviderStatus)
    ensures StatusMap(word).None? <==> word.Other?
    ensures forall s :: StatusMap(word) == Some(s) <==> !word.Other? && Name(s) == Text(word)
  {
    forall s ensures StatusMap(word) == Some(s) <==> !word.Other? && Name(s) == Text(word) {
      WorkersReadNames(word, s);
    }
  }

  /** So does creation for all but refunded; that and every unknown word it stores as pending. */
  lemma CreationReadsNames(word: ProviderStatus, status: Status)
    ensures MapProviderStatus(word) == status
      <==> if word.Other? || Text(word) == "refunded" then Name(status) == "pending" else Name(status) == Text(word)
  {
    NamesDiffer(MapProviderStatus(word), status);
    assert !word.Other? ==> (Text(word) == "refunded" <==> word == SaysRefunded) by {
      assert !word.Other? && |Text(word)| == 8 ==> Text(word)[0] == "refunded"[0] ==> word == SaysRefunded;
    }
  }

  /** The two readings differ exactly on refunded and on unknown words. */
  lemma ReadingsAgree(reported: ProviderStatus)
    ensures StatusMap(reported) == Some(MapProviderStatus(reported))
        <==> !reported.SaysRefunded? && !reported.Other?
    ensures ValidTransition(Pending, MapProviderStatus(reported))
  {
  }

  /** A height that every edge climbs, so the graph has no cycle. */
  function Rank(status: Status): nat {
    match status
    case Pending => 0
    case Authorized => 1
    case Captured => 2
    case PartiallyRefunded => 3
    case Refunded => 4
    case Failed => 4
    case Cancelled => 4
  }

  lemma EdgesClimb(from: Status, to: Status)
    requires Edge(from, to)
    ensures Rank(from) < Rank(to) <= 4
  {
  }

  /** A history of stored statuses, oldest first, in which every write was an edge or a repeat. */
  predicate LegalHistory(history: seq<Status>) {
    var n := |history|;
    n < 2 || (LegalHistory(history[..n - 1]) && ValidTransition(history[n - 2], history[n - 1]))
  }

  /** How often the stored status really changed. */
  function Changes(history: seq<Status>): nat {
    var n := |history|;
    if n < 2 then 0
    else Changes(history[..n - 1]) + (if history[n - 2] == history[n - 1] then 0 else 1)
  }

  lemma LegalHistoryExtends(history: seq<Status>, next: Status)
    requires |history| > 0
    ensures LegalHistory(history + [next])
        <==> LegalHistory(history) && ValidTransition(history[|history| - 1], next)
  {
    assert (history + [next])[..|history|] == history;
  }

  /** Along a legal history the rank never falls, and stays only while the status stays. */
  lemma {:induction false} LegalHistoryClimbs(history: seq<Status>, i: nat, j: nat)
    requires LegalHistory(history) && i <= j < |history|
    ensures Rank(history[i]) <= Rank(history[j])
    ensures Rank(history[i]) == Rank(history[j]) ==> history[i] == history[j]
    decreases |history|
  {
    var n := |history|;
    if j < n - 1 {
      LegalHistoryClimbs(history[..n - 1], i, j);
    } else if i < j {
      LegalHistoryClimbs(history[..n - 1], i, j - 1);
    }
  }

  /** Each change climbs, so a legal history has at most four of them. */
  lemma {:induction false} ChangesBounded(history: seq<Status>)
    requires LegalHistory(history) && |history| > 0
    ensures Rank(history[0]) + Changes(history) <= Rank(history[|history| - 1])
  {
    var n := |history|;
    if n > 1 {
      ChangesBounded(history[..n - 1]);
    }
  }

  /** Nothing leaves a terminal status. */
  lemma TerminalAbsorbs(history: seq<Status>, i: nat, j: nat)
    requires LegalHistory(history) && i <= j < |history| && IsTerminal(history[i])
    ensures history[j] == history[i]
  {
    LegalHistoryClimbs(history, i, j);
  }

  /** Open payments may still be charged, paid ones may be refunded, closed ones are done. */
  datatype Phase = Open | Paid | Closed

  function PhaseOf(status: Status): Phase {
    match status
    case Pending => Open
    case Authorized => Open
    case Captured => Paid
    case PartiallyRefunded => Paid
    case Failed => Closed
    case Cancelled => Closed
    case Refunded => Closed
  }

  /**
   A write that was checked against an old status lands legally on the current one
   exactly when the row has not moved, is already there, or has stayed in the phase
   it was read in and the write leaves that phase.
  */
  predicate StillFits(snapshot: Status, current: Status, target: Status) {
    || current == snapshot
    || current == target
    || (PhaseOf(current) == PhaseOf(snapshot) && PhaseOf(target) != PhaseOf(snapshot))
  }

  lemma StaleWriteLegalIff(snapshot: Status, current: Status, target: Status)
    requires Edge(snapshot, target)
    ensures ValidTransition(current, target) <==> StillFits(snapshot, current, target)
  {
  }
}
