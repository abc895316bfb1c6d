/** What the two reading calls answer, told on the fields of the rows and of the answer. */
module Reading {
  import opened Arithmetic
  import opened Options
  import opened StateMachine
  import opened Rows
  import opened Listing
  import opened Payments
  import opened Invariant

  /** The payments that a list is asked for. */
  function Asked(payments: map<PaymentId, Payment>, org: OrgId, status: Option<Status>): set<PaymentId> {
    set id | id in payments && payments[id].org == org && (status.Some? ==> payments[id].status == status.value)
  }

  /** The ids name each payment asked for exactly once, and none stands before a newer one. */
  ghost predicate NewestFirst(ids: seq<PaymentId>, payments: map<PaymentId, Payment>, asked: set<PaymentId>) {
    && (forall id :: id in ids <==> id in asked)
    && (forall i, j :: 0 <= i < j < |ids| ==> ids[i] != ids[j])
    && (forall i, j :: 0 <= i < j < |ids| && ids[i] in payments && ids[j] in payments
          ==> payments[ids[i]].createdAt >= payments[ids[j]].createdAt)
  }

  /** How many rows the earlier pages hold. */
  function Skipped(page: nat, limit: nat): nat
    requires page >= 1
  {
    (page - 1) * limit
  }

  /** The data are the stretch of the list that begins after the skipped ids, as far as limit and list reach. */
  predicate IsStretch(data: seq<Payment>, ids: seq<PaymentId>, payments: map<PaymentId, Payment>, skip: nat,
      limit: nat) {
    && |data| == (if skip >= |ids| then 0 else if skip + limit <= |ids| then limit else |ids| - skip)
    && forall i :: 0 <= i < |data| ==> IsRowAt(data, ids, payments, skip, i)
  }

  predicate IsRowAt(data: seq<Payment>, ids: seq<PaymentId>, payments: map<PaymentId, Payment>, skip: nat, i: nat)
    requires i < |data|
  {
    skip + i < |ids| && ids[skip + i] in payments && data[i] == payments[ids[skip + i]]
  }

  lemma OrderIsNewestFirst(payments: map<PaymentId, Payment>, org: OrgId, status: Option<Status>)
    ensures NewestFirst(Order(Selected(payments, org, status)), payments, Asked(payments, org, status))
  {
    var rows := Selected(payments, org, status);
    hide Order;
    OrderLists(rows);
  }

  lemma SliceIsStretch(rows: seq<Payment>, ids: seq<PaymentId>, payments: map<PaymentId, Payment>, skip: nat,
      limit: nat)
    requires |rows| == |ids| && forall k :: 0 <= k < |ids| ==> ids[k] in payments && rows[k] == payments[ids[k]]
    ensures IsStretch(rows[Min(skip, |rows|)..Min(skip + limit, |rows|)], ids, payments, skip, limit)
  {
  }

  lemma ListedRows(payments: map<PaymentId, Payment>, org: OrgId, status: Option<Status>)
    ensures var rows := Selected(payments, org, status);
      && |Newest(rows)| == |Order(rows)|
      && forall k :: 0 <= k < |Order(rows)| ==>
           Order(rows)[k] in payments && Newest(rows)[k] == payments[Order(rows)[k]]
  {
    var rows := Selected(payments, org, status);
    hide Order, Lists;
    OrderLists(rows);
    ListedAreIn(Order(rows), rows);
  }

  lemma PageIsStretch(payments: map<PaymentId, Payment>, org: OrgId, status: Option<Status>, page: nat, limit: nat)
    requires page >= 1
    ensures var rows := Selected(payments, org, status);
      IsStretch(Page(Newest(rows), page, limit), Order(rows), payments, Skipped(page, limit), limit)
  {
    var rows := Selected(payments, org, status);
    hide Order, Newest, Selected, IsStretch;
    ListedRows(payments, org, status);
    SliceIsStretch(Newest(rows), Order(rows), payments, Skipped(page, limit), limit);
  }

  /**
   A list answer: the asked page of the list of all payments of the organization with the
   asked status, newest first, each once; with their number, the page, the limit and the
   least number of pages that hold them all.
  */
  ghost predicate IsListOf(answer: Answer, payments: map<PaymentId, Payment>, org: OrgId, status: Option<Status>,
      page: nat, limit: nat)
    requires page >= 1
  {
    && answer.ListAnswer? && answer.org == org
    && answer.meta.total == |Asked(payments, org, status)| && answer.meta.page == page && answer.meta.limit == limit
    && answer.meta.total <= answer.meta.pages * limit < answer.meta.total + limit
    && IsPageOf(answer.data, payments, Asked(payments, org, status), page, limit)
  }

  ghost predicate IsPageOf(data: seq<Payment>, payments: map<PaymentId, Payment>, asked: set<PaymentId>, page: nat,
      limit: nat)
    requires page >= 1
  {
    exists ids :: NewestFirst(ids, payments, asked) && IsStretch(data, ids, payments, Skipped(page, limit), limit)
  }

  lemma ListIsRight(payments: map<PaymentId, Payment>, org: OrgId, status: Option<Status>, page: nat, limit: nat)
    requires page >= 1 && limit >= 1
    ensures var rows := Newest(Selected(payments, org, status));
      var answer := ListAnswer(org, Page(rows, page, limit), Meta(|rows|, page, limit, PageCount(|rows|, limit)));
      IsListOf(answer, payments, org, status, page, limit)
  {
    var rows := Selected(payments, org, status);
    hide Order, NewestFirst, IsStretch, Newest, Page, PageCount;
    OrderIsNewestFirst(payments, org, status);
    PageIsStretch(payments, org, status, page, limit);
    assert rows.Keys == Asked(payments, org, status);
    assert |rows| == |rows.Keys|;
    PageCountCovers(|rows|, limit);
  }

  lemma StretchAt(data: seq<Payment>, ids: seq<PaymentId>, payments: map<PaymentId, Payment>, skip: nat, limit: nat,
      i: nat)
    requires IsStretch(data, ids, payments, skip, limit) && i < |data|
    ensures |data| <= limit && skip + i < |ids| && ids[skip + i] in ids && ids[skip + i] in payments
    ensures data[i] == payments[ids[skip + i]]
  {
    assert IsRowAt(data, ids, payments, skip, i);
  }

  /** Rows of one stretch, and of two stretches of which one ends before the other begins, come newest first. */
  lemma StretchesDescend(ids: seq<PaymentId>, payments: map<PaymentId, Payment>, asked: set<PaymentId>, limit: nat,
      first: seq<Payment>, skip: nat, i: nat, second: seq<Payment>, further: nat, j: nat)
    requires NewestFirst(ids, payments, asked) && i < |first| && j < |second|
    requires (skip == further && i < j) || skip + limit <= further
    requires IsStretch(first, ids, payments, skip, limit) && IsStretch(second, ids, payments, further, limit)
    ensures first[i].createdAt >= second[j].createdAt
  {
    StretchAt(first, ids, payments, skip, limit, i);
    StretchAt(second, ids, payments, further, limit, j);
  }

  lemma LaterPagesSkipMore(p: nat, q: nat, limit: nat)
    requires 1 <= p < q
    ensures Skipped(p, limit) + limit <= Skipped(q, limit)
  {
    TimesKeepsOrder(p, q - 1, limit);
    assert (p - 1) * limit + limit == p * limit;
  }

  /** The data of an answer belong to the organization, have the asked status, and come newest first. */
  lemma ListMeans(data: seq<Payment>, payments: map<PaymentId, Payment>, org: OrgId, status: Option<Status>,
      page: nat, limit: nat)
    requires page >= 1 && IsPageOf(data, payments, Asked(payments, org, status), page, limit)
    ensures forall i :: 0 <= i < |data| ==> data[i].org == org && (status.Some? ==> data[i].status == status.value)
    ensures forall i, j :: 0 <= i < j < |data| ==> data[i].createdAt >= data[j].createdAt
    ensures |data| <= limit
  {
    hide NewestFirst, IsStretch, Skipped;
    var asked, skip := Asked(payments, org, status), Skipped(page, limit);
    var ids :| NewestFirst(ids, payments, asked) && IsStretch(data, ids, payments, skip, limit);
    forall i | 0 <= i < |data| ensures data[i].org == org && (status.Some? ==> data[i].status == status.value) {
      StretchAt(data, ids, payments, skip, limit, i);
      ListedIsAsked(ids, payments, asked, ids[skip + i]);
    }
    forall i, j | 0 <= i < j < |data| ensures data[i].createdAt >= data[j].createdAt {
      StretchesDescend(ids, payments, asked, limit, data, skip, i, data, skip, j);
    }
    if data != [] { StretchAt(data, ids, payments, skip, limit, 0); }
  }

  lemma ListedIsAsked(ids: seq<PaymentId>, payments: map<PaymentId, Payment>, asked: set<PaymentId>, id: PaymentId)
    requires NewestFirst(ids, payments, asked) && id in ids
    ensures id in asked
  {
  }

  // ---- the calls ----

  function Last(answers: seq<Answer>): Answer
    requires answers != []
  {
    answers[|answers| - 1]
  }

  lemma FindAllAnswers(s: State, pr: ProcId, org: OrgId, status: Option<Status>, page: nat, limit: nat)
    requires pr !in s.procs && page >= 1 && limit >= 1
    ensures var t := Apply(s, FindAll(pr, org, status, page, limit));
      && t.payments == s.payments && |t.answers| == |s.answers| + 1 && t.answers[..|s.answers|] == s.answers
      && IsListOf(Last(t.answers), s.payments, org, status, page, limit)
  {
    hide IsListOf, Newest, Selected, Page, PageCount;
    ListIsRight(s.payments, org, status, page, limit);
  }

  /** Two pages read from one table: no row of the earlier page is older than one of the later page. */
  lemma PagesDescend(payments: map<PaymentId, Payment>, org: OrgId, status: Option<Status>, limit: nat, p: nat, q: nat)
    requires 1 <= p < q
    ensures var rows := Newest(Selected(payments, org, status));
      forall x, y :: x in Page(rows, p, limit) && y in Page(rows, q, limit) ==> x.createdAt >= y.createdAt
  {
    hide Page, Newest, Order, IsStretch, NewestFirst, Asked, Skipped;
    LaterPagesSkipMore(p, q, limit);
    var rows, ids := Newest(Selected(payments, org, status)), Order(Selected(payments, org, status));
    OrderIsNewestFirst(payments, org, status);
    PageIsStretch(payments, org, status, p, limit);
    PageIsStretch(payments, org, status, q, limit);
    var first, second := Page(rows, p, limit), Page(rows, q, limit);
    forall x, y | x in first && y in second ensures x.createdAt >= y.createdAt {
      var i :| 0 <= i < |first| && first[i] == x;
      var j :| 0 <= j < |second| && second[j] == y;
      StretchesDescend(ids, payments, Asked(payments, org, status), limit, first, Skipped(p, limit), i, second,
        Skipped(q, limit), j);
    }
  }

  /** The same, told on the answers of two calls. */
  lemma ListsDescend(s: State, pr: ProcId, org: OrgId, status: Option<Status>, limit: nat, p: nat, q: nat)
    requires pr !in s.procs && limit >= 1 && 1 <= p < q
    ensures var first := Apply(s, FindAll(pr, org, status, p, limit)).answers;
      var second := Apply(s, FindAll(pr, org, status, q, limit)).answers;
      && first != [] && second != [] && Last(first).ListAnswer? && Last(second).ListAnswer?
      && forall x, y :: x in Last(first).data && y in Last(second).data ==> x.createdAt >= y.createdAt
  {
    hide Newest, Selected, Page, PageCount;
    PagesDescend(s.payments, org, status, limit, p, q);
  }

  /** Every list ever answered, in any run, comes newest first and holds the asker's payments only. */
  ghost predicate ListsInOrder(answers: seq<Answer>) {
    forall k :: 0 <= k < |answers| && answers[k].ListAnswer? ==> InOrder(answers[k])
  }

  predicate InOrder(a: Answer)
    requires a.ListAnswer?
  {
    && (forall i :: 0 <= i < |a.data| ==> a.data[i].org == a.org)
    && (forall i, j :: 0 <= i < j < |a.data| ==> a.data[i].createdAt >= a.data[j].createdAt)
  }

  /** Only listing answers with a list, and each step adds at most one answer. */
  ghost predicate AddsNoList(before: seq<Answer>, after: seq<Answer>) {
    after == before || (after != [] && after[..|after| - 1] == before && !Last(after).ListAnswer?)
  }

  lemma CreationAddsNoList(s: State, a: Action)
    requires IsCreation(a)
    ensures AddsNoList(s.answers, Apply(s, a).answers)
  {
    hide IsBlank, KeyTaken, Matches, NewPayment, SettleCharge, FailCharge;
  }

  lemma ServingAddsNoList(s: State, a: Action)
    requires IsServing(a) && !a.FindAll?
    ensures AddsNoList(s.answers, Apply(s, a).answers)
  {
    hide RecordRefund, ValidTransition;
  }

  lemma WorkAddsNoList(s: State, a: Action)
    requires !IsCreation(a) && !IsServing(a)
    ensures Apply(s, a).answers == s.answers
  {
  }

  lemma FindAllKeepsOrder(s: State, pr: ProcId, org: OrgId, status: Option<Status>, page: nat, limit: nat)
    requires ListsInOrder(s.answers)
    ensures ListsInOrder(StepFindAll(s, pr, org, status, page, limit).answers)
  {
    if pr !in s.procs && page >= 1 && limit >= 1 {
      hide ListsInOrder;
      var answers := StepFindAll(s, pr, org, status, page, limit).answers;
      FindAllAnswers(s, pr, org, status, page, limit);
      ListMeans(Last(answers).data, s.payments, org, status, page, limit);
      OneMoreInOrder(s.answers, answers);
    }
  }

  lemma NoListKeepsOrder(before: seq<Answer>, after: seq<Answer>)
    requires ListsInOrder(before) && AddsNoList(before, after)
    ensures ListsInOrder(after)
  {
    if after != before { OneMoreInOrder(before, after); }
  }

  lemma StepKeepsOrder(s: State, a: Action)
    requires ListsInOrder(s.answers)
    ensures ListsInOrder(Apply(s, a).answers)
  {
    if a.FindAll? {
      FindAllKeepsOrder(s, a.pr, a.org, a.status, a.page, a.limit);
    } else {
      hide Apply, ListsInOrder;
      if IsCreation(a) {
        CreationAddsNoList(s, a);
      } else if IsServing(a) {
        ServingAddsNoList(s, a);
      } else {
        WorkAddsNoList(s, a);
      }
      NoListKeepsOrder(s.answers, Apply(s, a).answers);
    }
  }

  lemma OneMoreInOrder(before: seq<Answer>, after: seq<Answer>)
    requires ListsInOrder(before) && |after| == |before| + 1 && after[..|before|] == before
    requires Last(after).ListAnswer? ==> InOrder(Last(after))
    ensures ListsInOrder(after)
  {
    assert forall k :: 0 <= k < |before| ==> after[k] == before[k];
  }

  lemma {:induction false} ListsStayInOrder(s: State, run: seq<Action>)
    requires ListsInOrder(s.answers)
    ensures ListsInOrder(Exec(s, run).answers)
    decreases |run|
  {
    hide Apply, ListsInOrder;
    if run != [] {
      StepKeepsOrder(s, run[0]);
      ListsStayInOrder(Apply(s, run[0]), run[1..]);
    }
  }

  lemma EveryListIsNewestFirst(run: seq<Action>, k: nat)
    requires k < |Exec(INIT, run).answers| && Exec(INIT, run).answers[k].ListAnswer?
    ensures var a := Exec(INIT, run).answers[k];
      && (forall i :: 0 <= i < |a.data| ==> a.data[i].org == a.org)
      && (forall i, j :: 0 <= i < j < |a.data| ==> a.data[i].createdAt >= a.data[j].createdAt)
  {
    hide Exec;
    ListsStayInOrder(INIT, run);
  }

  /** A single read answers the stored row to its own organization, and not found to everyone else. */
  lemma FindOneAnswers(s: State, pr: ProcId, org: OrgId, id: PaymentId)
    requires pr !in s.procs
    ensures var t := Apply(s, FindOne(pr, org, id));
      && t.payments == s.payments && |t.answers| == |s.answers| + 1
      && Last(t.answers) == if id in s.payments && s.payments[id].org == org then FoundAnswer(org, id, s.payments[id])
                            else ErrorAnswer(org, NotFound)
  {
  }
}
