/**
 API keys: the raw key is shown once, its hash is stored, and its first eight random
 characters are stored beside the hash so that validation need not compare with every row.
*/
module ApiKeys {
  import opened Options

  type KeyId = nat
  type TenantId = nat

  /** An ideal password hash: comparing succeeds for the hashed text alone. */
  datatype Digest = Digest(text: string)

  datatype KeyRow = KeyRow(
    id: KeyId,
    tenant: TenantId,
    keyHash: Digest,
    prefix: string,
    active: bool,
    expiresAt: Option<int>,
    revokedAt: Option<int>,
    lastUsedAt: Option<int>)

  /** What the caller of creation gets, the raw key once and for all. */
  datatype Created = Created(id: KeyId, rawKey: string, prefix: string, expiresAt: Option<int>)

  const PREFIX_LEN := 8
  const DAY_MS := 24 * 60 * 60 * 1000

  function Slice(s: string, from: nat, to: nat): string
    requires from <= to
  {
    var n := |s|;
    s[if from < n then from else n..if to < n then to else n]
  }

  function PrefixOf(random: string): string {
    Slice(random, 0, PREFIX_LEN)
  }

  function RawKey(random: string): string {
    "pk_" + PrefixOf(random) + "_" + random
  }

  predicate Unexpired(expiresAt: Option<int>, now: int) {
    expiresAt.None? || expiresAt.value > now
  }

  /** A row that the query for the key's prefix returns. */
  predicate IsCandidate(row: KeyRow, rawKey: string, now: int) {
    row.prefix == Slice(rawKey, 3, 3 + PREFIX_LEN) && row.active && Unexpired(row.expiresAt, now)
  }

  class ApiKeyService {
    var rows: seq<KeyRow>               // in the order in which queries return them
    var tenants: map<TenantId, bool>    // whether each tenant is active

    constructor (tenants: map<TenantId, bool>)
      ensures rows == [] && this.tenants == tenants
    {
      rows := [];
      this.tenants := tenants;
    }

    /** The random part and the row id are drawn by the environment; None stands for a refused insert. */
    method Create(id: KeyId, tenant: TenantId, random: string, expiresInDays: Option<int>, now: int)
      returns (created: Option<Created>)
      modifies this
      ensures tenants == old(tenants)
      ensures rows == Apply(old(rows), CreateKey(id, tenant, random, Expiry(expiresInDays, now)))
      ensures created
           == if HasId(old(rows), id) then None
              else Some(Created(id, RawKey(random), PrefixOf(random), Expiry(expiresInDays, now)))
      ensures created.Some? && |random| >= 8 ==>
        && created.value.prefix == random[..8] && created.value.rawKey == "pk_" + random[..8] + "_" + random
        && created.value.expiresAt == (if expiresInDays == None || expiresInDays == Some(0) then None
                                       else Some(now + expiresInDays.value * 86_400_000))
        && rows == old(rows) + [KeyRow(id, tenant, Digest(created.value.rawKey), random[..8], true,
                                       created.value.expiresAt, None, None)]
    {
      var prefix := PrefixOf(random);
      var rawKey := "pk_" + prefix + "_" + random;
      var expiresAt := Expiry(expiresInDays, now);
      if HasId(rows, id) {
        return None;
      }
      rows := rows + [KeyRow(id, tenant, Digest(rawKey), prefix, true, expiresAt, None, None)];
      return Some(Created(id, rawKey, prefix, expiresAt));
    }

    /** False stands for the not-found error. */
    method Revoke(id: KeyId, tenant: TenantId, now: int) returns (found: bool)
      modifies this
      ensures tenants == old(tenants)
      ensures rows == Apply(old(rows), RevokeKey(id, tenant, now))
      ensures |rows| == |old(rows)| && forall i :: 0 <= i < |rows| ==>
        var was := old(rows)[i];
        rows[i] == if was.id == id && was.tenant == tenant then was.(active := false, revokedAt := Some(now)) else was
      ensures found <==> exists i :: 0 <= i < |old(rows)| && old(rows)[i].id == id && old(rows)[i].tenant == tenant
    {
      found := false;
      var i := 0;
      while i < |rows|
        invariant 0 <= i <= |rows| == |old(rows)| && tenants == old(tenants)
        invariant forall j :: 0 <= j < |rows| ==> rows[j] == if j < i then Revoked(old(rows)[j], id, tenant, now)
          else old(rows)[j]
        invariant found <==> exists j :: 0 <= j < i && old(rows)[j].id == id && old(rows)[j].tenant == tenant
      {
        if rows[i].id == id && rows[i].tenant == tenant {
          found := true;
          rows := rows[i := rows[i].(active := false, revokedAt := Some(now))];
        }
        i := i + 1;
      }
      RevokedRows(old(rows), rows, id, tenant, now);
    }

    method Validate(rawKey: string, now: int) returns (tenant: Option<TenantId>)
      modifies this
      ensures tenants == old(tenants)
      ensures tenant == Indexed(old(rows), tenants, rawKey, now)
      ensures tenant.None? ==> rows == old(rows)
      ensures tenant.None? && "pk_" <= rawKey && |rawKey| >= 11 ==>
        forall i :: 0 <= i < |rows| && rows[i].prefix == rawKey[3..11] ==> !LetsIn(rows[i], tenants, rawKey, now)
      ensures tenant.Some? ==>
        exists i :: 0 <= i < |old(rows)| && LetsIn(old(rows)[i], tenants, rawKey, now)
          && old(rows)[i].tenant == tenant.value
                    && rows == old(rows)[i := old(rows)[i].(lastUsedAt := Some(now))]
      ensures tenant.Some? ==> exists i: nat :: i < |old(rows)| && rows == Apply(old(rows), UseKey(i, now))
                                 && Accepts(old(rows)[i], tenants, rawKey, now, true)
                                   && old(rows)[i].tenant == tenant.value
                                 && forall j :: 0 <= j < i ==> !Accepts(old(rows)[j], tenants, rawKey, now, true)
    {
      if !("pk_" <= rawKey) {
        return None;
      }
      var i := 0;
      while i < |rows|
        invariant 0 <= i <= |rows| && rows == old(rows) && tenants == old(tenants)
        invariant FirstMatch(rows, tenants, rawKey, now, true) == FirstMatch(rows[i..], tenants, rawKey, now, true)
        invariant forall j :: 0 <= j < i ==> !Accepts(rows[j], tenants, rawKey, now, true)
      {
        var candidate := rows[i];
        if IsCandidate(candidate, rawKey, now) && candidate.tenant in tenants && tenants[candidate.tenant] {
          if candidate.keyHash == Digest(rawKey) {
            rows := rows[i := candidate.(lastUsedAt := Some(now))];
            return Some(candidate.tenant);
          }
        }
        i := i + 1;
      }
      return None;
    }
  }

  /** The row bears the key, is not revoked and not yet expired, and its tenant is active. */
  predicate LetsIn(row: KeyRow, tenants: map<TenantId, bool>, rawKey: string, now: int) {
    && row.keyHash.text == rawKey && row.active && (row.expiresAt == None || now < row.expiresAt.value)
    && row.tenant in tenants && tenants[row.tenant]
  }

  function Expiry(days: Option<int>, now: int): Option<int> {
    if days.None? || days.value == 0 then None else Some(now + days.value * DAY_MS)
  }

  // ---- the two lookups ----

  /** The row lets the key in; the prefix is compared only if asked to. */
  predicate Accepts(r: KeyRow, tenants: map<TenantId, bool>, rawKey: string, now: int, byPrefix: bool) {
    && (byPrefix ==> r.prefix == Slice(rawKey, 3, 3 + PREFIX_LEN)) && r.active && Unexpired(r.expiresAt, now)
    && r.tenant in tenants && tenants[r.tenant] && r.keyHash == Digest(rawKey)
  }

  /** The tenant of the first row that accepts the key. */
  function FirstMatch(rows: seq<KeyRow>, tenants: map<TenantId, bool>, rawKey: string, now: int,
      byPrefix: bool): Option<TenantId>
  {
    if rows == [] then None
    else if Accepts(rows[0], tenants, rawKey, now, byPrefix) then Some(rows[0].tenant)
    else FirstMatch(rows[1..], tenants, rawKey, now, byPrefix)
  }

  function Indexed(rows: seq<KeyRow>, tenants: map<TenantId, bool>, rawKey: string, now: int): Option<TenantId> {
    if "pk_" <= rawKey then FirstMatch(rows, tenants, rawKey, now, true) else None
  }

  /** Comparing the key with the hash in every row. */
  function Scan(rows: seq<KeyRow>, tenants: map<TenantId, bool>, rawKey: string, now: int): Option<TenantId> {
    FirstMatch(rows, tenants, rawKey, now, false)
  }

  // ---- runs ----

  datatype Op =
    | CreateKey(id: KeyId, tenant: TenantId, random: string, expiresAt: Option<int>)
    | RevokeKey(id: KeyId, tenant: TenantId, at: int)
    | UseKey(index: nat, at: int)           // a validation that the row at that index accepted

  predicate HasId(rows: seq<KeyRow>, id: KeyId) {
    exists i :: 0 <= i < |rows| && rows[i].id == id
  }

  function Revoked(row: KeyRow, id: KeyId, tenant: TenantId, at: int): KeyRow {
    if row.id == id && row.tenant == tenant then row.(active := false, revokedAt := Some(at)) else row
  }

  function Apply(rows: seq<KeyRow>, op: Op): seq<KeyRow> {
    match op
    case CreateKey(id, tenant, random, expiresAt) =>
      if HasId(rows, id) then rows
      else rows + [KeyRow(id, tenant, Digest(RawKey(random)), PrefixOf(random), true, expiresAt, None, None)]
    case RevokeKey(id, tenant, at) => seq(|rows|, i requires 0 <= i < |rows| => Revoked(rows[i], id, tenant, at))
    case UseKey(index, at) => if index < |rows| then rows[index := rows[index].(lastUsedAt := Some(at))] else rows
  }

  lemma RevokedRows(before: seq<KeyRow>, after: seq<KeyRow>, id: KeyId, tenant: TenantId, at: int)
    requires |after| == |before| && forall j :: 0 <= j < |after| ==> after[j] == Revoked(before[j], id, tenant, at)
    ensures after == Apply(before, RevokeKey(id, tenant, at))
  {
  }

  function RowsAfter(ops: seq<Op>): seq<KeyRow> {
    if ops == [] then [] else Apply(RowsAfter(ops[..|ops| - 1]), ops[|ops| - 1])
  }

  /** Each stored prefix is the one that validation would cut from the hashed key. */
  ghost predicate Indexable(rows: seq<KeyRow>) {
    forall i :: 0 <= i < |rows| ==>
      var text := rows[i].keyHash.text;
      "pk_" <= text && rows[i].prefix == Slice(text, 3, 3 + PREFIX_LEN)
  }

  predicate Long(op: Op) {
    op.CreateKey? ==> |op.random| >= PREFIX_LEN
  }

  lemma RawKeyShape(random: string)
    requires |random| >= PREFIX_LEN
    ensures "pk_" <= RawKey(random) && Slice(RawKey(random), 3, 3 + PREFIX_LEN) == PrefixOf(random)
    ensures RawKey(random)[4 + PREFIX_LEN..] == random
  {
    var raw := RawKey(random);
    assert raw == "pk_" + (PrefixOf(random) + "_" + random);
    assert raw[..3] == "pk_";
    assert raw == ("pk_" + PrefixOf(random) + "_") + random;
  }

  lemma RawKeysDiffer(a: string, b: string)
    requires |a| >= PREFIX_LEN && |b| >= PREFIX_LEN && a != b
    ensures RawKey(a) != RawKey(b)
  {
    RawKeyShape(a);
    RawKeyShape(b);
  }

  lemma {:induction false} RunIsIndexable(ops: seq<Op>)
    requires forall i :: 0 <= i < |ops| ==> Long(ops[i])
    ensures Indexable(RowsAfter(ops))
  {
    if ops != [] {
      var op := ops[|ops| - 1];
      RunIsIndexable(ops[..|ops| - 1]);
      assert Long(op);
      if op.CreateKey? { RawKeyShape(op.random); }
    }
  }

  lemma {:induction false} FilterLosesNothing(rows: seq<KeyRow>, tenants: map<TenantId, bool>, rawKey: string, now: int)
    requires Indexable(rows)
    ensures Indexed(rows, tenants, rawKey, now) == Scan(rows, tenants, rawKey, now)
  {
    if rows != [] { FilterLosesNothing(rows[1..], tenants, rawKey, now); }
  }

  /** On every run the indexed lookup answers every text as comparing with all rows would. */
  lemma {:induction false} IndexRefinesScan(ops: seq<Op>, tenants: map<TenantId, bool>, rawKey: string, now: int)
    requires forall i :: 0 <= i < |ops| ==> Long(ops[i])
    ensures Indexed(RowsAfter(ops), tenants, rawKey, now) == Scan(RowsAfter(ops), tenants, rawKey, now)
  {
    RunIsIndexable(ops);
    FilterLosesNothing(RowsAfter(ops), tenants, rawKey, now);
  }

  // ---- the life of one key ----

  /** Random parts are drawn long enough and never twice, and neither are row ids. */
  ghost predicate DistinctDraws(ops: seq<Op>) {
    && (forall i :: 0 <= i < |ops| ==> Long(ops[i]))
    && (forall i, j :: 0 <= i < j < |ops| && ops[i].CreateKey? && ops[j].CreateKey?
         ==> ops[i].random != ops[j].random && ops[i].id != ops[j].id)
  }

  /** The key created by operation k has been revoked by its tenant. */
  ghost predicate IsRevoked(ops: seq<Op>, k: nat)
    requires k < |ops| && ops[k].CreateKey?
  {
    exists m :: k < m < |ops| && Revokes(ops[m], ops[k])
  }

  predicate Revokes(op: Op, created: Op)
    requires created.CreateKey?
  {
    op.RevokeKey? && op.id == created.id && op.tenant == created.tenant
  }

  /** When it was last revoked. */
  function RevokedAt(ops: seq<Op>, k: nat): Option<int>
    requires k < |ops| && ops[k].CreateKey?
  {
    var n := |ops| - 1;
    if n == k then None else if Revokes(ops[n], ops[k]) then Some(ops[n].at) else RevokedAt(ops[..n], k)
  }

  lemma {:induction false} RevokedAtIff(ops: seq<Op>, k: nat)
    requires k < |ops| && ops[k].CreateKey?
    ensures RevokedAt(ops, k).Some? <==> IsRevoked(ops, k)
  {
    var n := |ops| - 1;
    if n > k {
      RevokedAtIff(ops[..n], k);
      assert forall m :: k < m < n ==> ops[..n][m] == ops[m];
    }
  }

  /** Row i is the given one, up to when it was last used, and shares its hash and its id with no other. */
  predicate OnlyRow(rows: seq<KeyRow>, i: nat, row: KeyRow) {
    && i < |rows| && rows[i].(lastUsedAt := None) == row
    && forall j :: 0 <= j < |rows| && j != i ==> rows[j].keyHash != row.keyHash && rows[j].id != row.id
  }

  /** The row that the creation of a key stores, as its revocation has left it. */
  function StoredRow(op: Op, revokedAt: Option<int>): KeyRow
    requires op.CreateKey?
  {
    KeyRow(op.id, op.tenant, Digest(RawKey(op.random)), PrefixOf(op.random), revokedAt.None?, op.expiresAt, revokedAt,
      None)
  }

  ghost predicate IsRowOf(rows: seq<KeyRow>, i: nat, ops: seq<Op>, k: nat)
    requires k < |ops| && ops[k].CreateKey?
  {
    OnlyRow(rows, i, StoredRow(ops[k], RevokedAt(ops, k)))
  }

  /** Every row comes from one creation. */
  lemma {:induction false} RowOrigin(ops: seq<Op>, i: nat) returns (k: nat)
    requires i < |RowsAfter(ops)|
    ensures k < |ops| && ops[k].CreateKey? && ops[k].id == RowsAfter(ops)[i].id
      && RowsAfter(ops)[i].keyHash == Digest(RawKey(ops[k].random))
    decreases |ops|
  {
    var n := |ops| - 1;
    if i < |RowsAfter(ops[..n])| {
      k := RowOrigin(ops[..n], i);
    } else {
      k := n;
    }
  }

  lemma {:induction false} KeyHasOneRow(ops: seq<Op>, k: nat) returns (i: nat)
    requires DistinctDraws(ops) && k < |ops| && ops[k].CreateKey?
    ensures IsRowOf(RowsAfter(ops), i, ops, k)
    decreases |ops|
  {
    var n := |ops| - 1;
    var before, rows := ops[..n], RowsAfter(ops[..n]);
    assert ops == before + [ops[n]];
    if k == n {
      i := |rows|;
      forall j | 0 <= j < |rows| ensures rows[j].id != ops[n].id && rows[j].keyHash != Digest(RawKey(ops[n].random)) {
        var o := RowOrigin(before, j);
        assert ops[o] == before[o] && Long(ops[o]);
        RawKeysDiffer(ops[o].random, ops[n].random);
      }
      assert !HasId(rows, ops[n].id);
    } else {
      i := KeyHasOneRow(before, k);
      StepKeepsRow(ops, k, i);
    }
  }

  lemma AppendKeepsRow(rows: seq<KeyRow>, i: nat, row: KeyRow, op: Op)
    requires OnlyRow(rows, i, row) && op.CreateKey? && op.id != row.id && Digest(RawKey(op.random)) != row.keyHash
    ensures OnlyRow(Apply(rows, op), i, row)
  {
  }

  lemma RevokeKeepsRow(rows: seq<KeyRow>, i: nat, row: KeyRow, op: Op)
    requires OnlyRow(rows, i, row) && op.RevokeKey?
    ensures OnlyRow(Apply(rows, op), i, Revoked(row, op.id, op.tenant, op.at))
  {
  }

  lemma UseKeepsRow(rows: seq<KeyRow>, i: nat, row: KeyRow, op: Op)
    requires OnlyRow(rows, i, row) && op.UseKey?
    ensures OnlyRow(Apply(rows, op), i, row)
  {
  }

  lemma OpKeepsRow(rows: seq<KeyRow>, i: nat, created: Op, revokedAt: Option<int>, op: Op)
    requires created.CreateKey? && Long(created) && Long(op) && OnlyRow(rows, i, StoredRow(created, revokedAt))
    requires op.CreateKey? ==> op.id != created.id && op.random != created.random
    ensures OnlyRow(Apply(rows, op), i, StoredRow(created, if Revokes(op, created) then Some(op.at) else revokedAt))
  {
    hide OnlyRow, RawKey, PrefixOf;
    var row := StoredRow(created, revokedAt);
    match op
    case CreateKey(_, _, random, _) =>
      RawKeysDiffer(random, created.random);
      AppendKeepsRow(rows, i, row, op);
    case RevokeKey(_, _, _) => RevokeKeepsRow(rows, i, row, op);
    case UseKey(_, _) => UseKeepsRow(rows, i, row, op);
  }

  lemma StepKeepsRow(ops: seq<Op>, k: nat, i: nat)
    requires DistinctDraws(ops) && k < |ops| - 1 && ops[k].CreateKey?
    requires IsRowOf(RowsAfter(ops[..|ops| - 1]), i, ops[..|ops| - 1], k)
    ensures IsRowOf(RowsAfter(ops), i, ops, k)
  {
    hide OnlyRow, StoredRow, Apply, Long, Revokes;
    var n := |ops| - 1;
    OpKeepsRow(RowsAfter(ops[..n]), i, ops[k], RevokedAt(ops[..n], k), ops[n]);
  }

  lemma {:induction false} OneRowDecides(rows: seq<KeyRow>, i: nat, tenants: map<TenantId, bool>, rawKey: string,
      now: int)
    requires i < |rows| && rows[i].keyHash == Digest(rawKey)
    requires forall j :: 0 <= j < |rows| && j != i ==> rows[j].keyHash != Digest(rawKey)
    ensures Scan(rows, tenants, rawKey, now)
         == if rows[i].active && Unexpired(rows[i].expiresAt, now) && rows[i].tenant in tenants
           && tenants[rows[i].tenant]
            then Some(rows[i].tenant) else None
  {
    if i > 0 {
      OneRowDecides(rows[1..], i - 1, tenants, rawKey, now);
    } else {
      NoRowDecides(rows[1..], tenants, rawKey, now);
    }
  }

  lemma {:induction false} NoRowDecides(rows: seq<KeyRow>, tenants: map<TenantId, bool>, rawKey: string, now: int)
    requires forall j :: 0 <= j < |rows| ==> rows[j].keyHash != Digest(rawKey)
    ensures Scan(rows, tenants, rawKey, now) == None
  {
    if rows != [] { NoRowDecides(rows[1..], tenants, rawKey, now); }
  }

  /**
   After any run, a key created in it names its tenant exactly while the tenant is active,
   the key has no expiry or the clock has not reached it, and its tenant has not revoked it.
   Nothing else that is created, revoked or used before or after enters into the answer.
  */
  lemma {:induction false} KeyLife(ops: seq<Op>, k: nat, tenants: map<TenantId, bool>, now: int)
    requires DistinctDraws(ops) && k < |ops| && ops[k].CreateKey?
    ensures var e := ops[k].expiresAt;
      Indexed(RowsAfter(ops), tenants, RawKey(ops[k].random), now)
      == if (e == None || now < e.value) && !IsRevoked(ops, k) && ops[k].tenant in tenants && tenants[ops[k].tenant]
         then Some(ops[k].tenant) else None
  {
    var i := KeyHasOneRow(ops, k);
    RevokedAtIff(ops, k);
    IndexRefinesScan(ops, tenants, RawKey(ops[k].random), now);
    OneRowDecides(RowsAfter(ops), i, tenants, RawKey(ops[k].random), now);
  }

  /**
   A key created at some instant for some days validates exactly before that many times
   86 400 000 milliseconds have passed; with no number of days, or 0, it never expires.
  */
  lemma KeyLifeInDays(ops: seq<Op>, k: nat, tenants: map<TenantId, bool>, created: int, days: Option<int>, now: int)
    requires DistinctDraws(ops) && k < |ops| && ops[k].CreateKey? && ops[k].expiresAt == Expiry(days, created)
    requires !IsRevoked(ops, k) && ops[k].tenant in tenants && tenants[ops[k].tenant]
    ensures Indexed(RowsAfter(ops), tenants, RawKey(ops[k].random), now) == Some(ops[k].tenant)
      <==> days == None || days == Some(0) || now < created + days.value * 86_400_000
  {
    KeyLife(ops, k, tenants, now);
  }

  /** On the same rows and tenants, a key that validates now did at every earlier instant, to the same tenant. */
  lemma KeysOnlyExpire(ops: seq<Op>, k: nat, tenants: map<TenantId, bool>, earlier: int, now: int)
    requires DistinctDraws(ops) && k < |ops| && ops[k].CreateKey? && earlier <= now
    requires Indexed(RowsAfter(ops), tenants, RawKey(ops[k].random), now).Some?
    ensures Indexed(RowsAfter(ops), tenants, RawKey(ops[k].random), earlier)
         == Indexed(RowsAfter(ops), tenants, RawKey(ops[k].random), now)
  {
    KeyLife(ops, k, tenants, earlier);
    KeyLife(ops, k, tenants, now);
  }

  /** Once its expiry has come a key never validates again, whatever is done afterwards and whoever is active. */
  lemma ExpiredForEver(ops: seq<Op>, more: seq<Op>, k: nat, tenants: map<TenantId, bool>, now: int)
    requires DistinctDraws(ops + more) && k < |ops| && ops[k].CreateKey?
    requires ops[k].expiresAt.Some? && ops[k].expiresAt.value <= now
    ensures Indexed(RowsAfter(ops + more), tenants, RawKey(ops[k].random), now) == None
  {
    assert (ops + more)[k] == ops[k];
    KeyLife(ops + more, k, tenants, now);
  }

  /** Nor does a revoked key, at any instant. */
  lemma RevokedForEver(ops: seq<Op>, more: seq<Op>, k: nat, tenants: map<TenantId, bool>, now: int)
    requires DistinctDraws(ops + more) && k < |ops| && ops[k].CreateKey? && IsRevoked(ops, k)
    ensures Indexed(RowsAfter(ops + more), tenants, RawKey(ops[k].random), now) == None
  {
    var all := ops + more;
    var m :| k < m < |ops| && Revokes(ops[m], ops[k]);
    assert all[k] == ops[k] && all[m] == ops[m];
    KeyLife(all, k, tenants, now);
  }
}
