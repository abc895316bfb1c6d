/**
 The order in which an organization's payments are listed, and the pages cut from it.
*/
module Listing {
  import opened Arithmetic
  import opened Options
  import opened StateMachine
  import opened Rows

  predicate Wanted(p: Payment, org: OrgId, status: Option<Status>) {
    p.org == org && (status.Some? ==> p.status == status.value)
  }

  function Selected(payments: map<PaymentId, Payment>, org: OrgId, status: Option<Status>): map<PaymentId, Payment> {
    map id | id in payments && Wanted(payments[id], org, status) :: payments[id]
  }

  /** Newest first; rows of one instant keep a fixed order, here that of their ids. */
  predicate Before(rows: map<PaymentId, Payment>, a: PaymentId, b: PaymentId)
    requires a in rows && b in rows
  {
    || rows[a].createdAt > rows[b].createdAt
    || (rows[a].createdAt == rows[b].createdAt && a <= b)
  }

  predicate IsFirst(rows: map<PaymentId, Payment>, id: PaymentId) {
    id in rows && forall other :: other in rows ==> Before(rows, id, other)
  }

  lemma {:induction false} FirstExists(rows: map<PaymentId, Payment>)
    requires rows != map[]
    ensures exists first :: IsFirst(rows, first)
    decreases |rows|
  {
    var id :| id in rows;
    var rest := rows - {id};
    assert forall other :: other in rows ==> other == id || other in rest;
    if rest == map[] {
      assert IsFirst(rows, id);
    } else {
      assert rest.Keys == rows.Keys - {id};
      FirstExists(rest);
      var first :| IsFirst(rest, first);
      assert IsFirst(rows, if Before(rows, id, first) then id else first);
    }
  }

  /** The ids of the rows in listing order. */
  ghost function Order(rows: map<PaymentId, Payment>): seq<PaymentId>
    decreases |rows|
  {
    if rows == map[] then []
    else
      FirstExists(rows);
      var id :| IsFirst(rows, id);
      assert (rows - {id}).Keys == rows.Keys - {id};
      [id] + Order(rows - {id})
  }

  /** The ids name every row exactly once, and no row stands before a newer one. */
  ghost predicate Lists(ids: seq<PaymentId>, rows: map<PaymentId, Payment>) {
    && |ids| == |rows|
    && (forall id :: id in rows <==> id in ids)
    && (forall i, j :: 0 <= i < j < |ids| ==>
         ids[i] in rows && ids[j] in rows && ids[i] != ids[j] && Before(rows, ids[i], ids[j]))
  }

  lemma {:induction false} OrderLists(rows: map<PaymentId, Payment>)
    ensures Lists(Order(rows), rows)
    decreases |rows|
  {
    if rows != map[] {
      FirstExists(rows);
      var id :| IsFirst(rows, id) && Order(rows) == [id] + Order(rows - {id});
      var rest, tail := rows - {id}, Order(rows - {id});
      assert rest.Keys == rows.Keys - {id};
      OrderLists(rest);
      ListsCons(id, tail, rows);
    }
  }

  /** A sequence with one more element in front has that element and those of the rest. */
  lemma InCons(id: PaymentId, tail: seq<PaymentId>, other: PaymentId)
    ensures other in [id] + tail <==> other == id || other in tail
  {
  }

  lemma OrderedCons(id: PaymentId, tail: seq<PaymentId>, rows: map<PaymentId, Payment>, i: nat, j: nat)
    requires IsFirst(rows, id) && Lists(tail, rows - {id}) && i < j <= |tail|
    ensures var ids := [id] + tail; ids[i] in rows && ids[j] in rows && ids[i] != ids[j] && Before(rows, ids[i], ids[j])
  {
    var rest := rows - {id};
    assert tail[j - 1] in tail;
    if i > 0 { assert Before(rest, tail[i - 1], tail[j - 1]); }
  }

  lemma ListsCons(id: PaymentId, tail: seq<PaymentId>, rows: map<PaymentId, Payment>)
    requires IsFirst(rows, id) && Lists(tail, rows - {id})
    ensures Lists([id] + tail, rows)
  {
    hide Before, IsFirst;
    var rest, ids := rows - {id}, [id] + tail;
    assert rest.Keys == rows.Keys - {id};
    FirstIsRow(rows, id);
    forall i, j | 0 <= i < j < |ids|
      ensures ids[i] in rows && ids[j] in rows && ids[i] != ids[j] && Before(rows, ids[i], ids[j])
    {
      OrderedCons(id, tail, rows, i, j);
    }
    forall other ensures other in rows <==> other in ids {
      InCons(id, tail, other);
      assert other in rows <==> other == id || other in rest;
    }
  }

  lemma FirstIsRow(rows: map<PaymentId, Payment>, id: PaymentId)
    requires IsFirst(rows, id)
    ensures id in rows
  {
  }

  predicate AllIn(ids: seq<PaymentId>, rows: map<PaymentId, Payment>) {
    forall i :: 0 <= i < |ids| ==> ids[i] in rows
  }

  lemma ListedAreIn(ids: seq<PaymentId>, rows: map<PaymentId, Payment>)
    requires Lists(ids, rows)
    ensures AllIn(ids, rows)
  {
    assert forall i :: 0 <= i < |ids| ==> ids[i] in ids;
  }

  function RowsAt(ids: seq<PaymentId>, rows: map<PaymentId, Payment>): seq<Payment>
    requires AllIn(ids, rows)
  {
    seq(|ids|, i requires 0 <= i < |ids| => rows[ids[i]])
  }

  ghost function Newest(rows: map<PaymentId, Payment>): (list: seq<Payment>)
    ensures |list| == |rows|
  {
    OrderLists(rows);
    ListedAreIn(Order(rows), rows);
    RowsAt(Order(rows), rows)
  }

  // ---- pages ----

  function Page<T>(rows: seq<T>, page: nat, limit: nat): seq<T>
    requires page >= 1
  {
    var skip := (page - 1) * limit;
    rows[Min(skip, |rows|)..Min(skip + limit, |rows|)]
  }

  /** The page count reported beside the data. */
  function PageCount(total: nat, limit: nat): nat
    requires limit >= 1
  {
    (total + limit - 1) / limit
  }

  /** Pages 1 to count, one after the other. */
  function Pages<T>(rows: seq<T>, limit: nat, count: nat): seq<T> {
    if count == 0 then [] else Pages(rows, limit, count - 1) + Page(rows, count, limit)
  }

  lemma {:induction false} PagesArePrefix<T>(rows: seq<T>, limit: nat, count: nat)
    ensures Pages(rows, limit, count) == rows[..Min(count * limit, |rows|)]
  {
    if count > 0 {
      PagesArePrefix(rows, limit, count - 1);
      assert (count - 1) * limit + limit == count * limit;
    }
  }

  lemma PageCountCovers(total: nat, limit: nat)
    requires limit >= 1
    ensures total <= PageCount(total, limit) * limit < total + limit
  {
  }

  lemma PageSize<T>(rows: seq<T>, page: nat, limit: nat)
    requires 1 <= page && limit >= 1
    ensures page < PageCount(|rows|, limit) ==> |Page(rows, page, limit)| == limit
    ensures page == PageCount(|rows|, limit) ==> 1 <= |Page(rows, page, limit)| <= limit
    ensures page > PageCount(|rows|, limit) ==> Page(rows, page, limit) == []
  {
    var count := PageCount(|rows|, limit);
    PageCountCovers(|rows|, limit);
    var skip := (page - 1) * limit;
    assert skip + limit == page * limit;
    if page < count {
      TimesKeepsOrder(page, count - 1, limit);
      assert (count - 1) * limit == count * limit - limit;
    } else if page > count {
      TimesKeepsOrder(count, page - 1, limit);
    }
  }

  /**
   Reading every page of an unchanged list gives the list once and in order; all pages
   before the last are full, the last is not empty, and the pages after it are.
  */
  lemma {:induction false} PagesPartition<T>(rows: seq<T>, limit: nat)
    requires limit >= 1
    ensures Pages(rows, limit, PageCount(|rows|, limit)) == rows
    ensures forall k :: 1 <= k < PageCount(|rows|, limit) ==> |Page(rows, k, limit)| == limit
    ensures rows != [] ==> 1 <= |Page(rows, PageCount(|rows|, limit), limit)| <= limit
    ensures forall k :: k > PageCount(|rows|, limit) ==> Page(rows, k, limit) == []
  {
    var count := PageCount(|rows|, limit);
    PagesArePrefix(rows, limit, count);
    PageCountCovers(|rows|, limit);
    forall k | 1 <= k
      ensures k < count ==> |Page(rows, k, limit)| == limit
      ensures k > count ==> Page(rows, k, limit) == []
    {
      PageSize(rows, k, limit);
    }
    if rows != [] { PageSize(rows, count, limit); }
  }
}
