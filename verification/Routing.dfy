/**
 Choosing a provider: a cached priority list from the route table, a health filter, and
 the registry as a fallback. The cache is proved to be invisible but for its bounded age.
*/
module Routing {
  import opened Options
  import opened Registry

  const CACHE_TTL_MS := 5 * 60 * 1_000

  datatype RouteKey = RouteKey(country: string, currency: string, pay: string)
  datatype Route = Route(key: RouteKey, provider: string, priority: int, active: bool)
  datatype Health = Closed | Open | HalfOpen | Unknown

  /** The cached list; an empty list is cached, too. */
  datatype Entry = Entry(ids: seq<string>, expires: int)

  // ---- the query ----

  /** Some ordering of the active routes of the key by falling priority; ties are the database's choice. */
  ghost predicate IsResult(rows: seq<Route>, table: set<Route>, key: RouteKey) {
    && (forall r :: r in rows <==> r in table && r.key == key && r.active)
    && (forall i, j :: 0 <= i < j < |rows| ==> rows[i].priority >= rows[j].priority)
  }

  function Ids(rows: seq<Route>): seq<string> {
    seq(|rows|, i requires 0 <= i < |rows| => rows[i].provider)
  }

  // ---- the choice ----

  /** The breaker lets charges through and the provider is registered. */
  predicate Available(id: string, health: string -> Health, providers: seq<Provider>) {
    (health(id).Closed? || health(id).Unknown?) && Lookup(providers, id).Some?
  }

  function Pick(ids: seq<string>, health: string -> Health, providers: seq<Provider>): Option<Provider> {
    if ids == [] then None
    else if Available(ids[0], health, providers) then Lookup(providers, ids[0])
    else Pick(ids[1..], health, providers)
  }

  function Choose(ids: seq<string>, key: RouteKey, health: string -> Health,
      providers: seq<Provider>): Option<Provider>
  {
    var picked := Pick(ids, health, providers);
    if picked.Some? then picked else Earliest(providers, key.country, key.currency)
  }

  class RoutingService {
    const registry: ProviderRegistry
    var cache: map<RouteKey, Entry>

    constructor (registry: ProviderRegistry)
      ensures this.registry == registry && cache == map[]
    {
      this.registry := registry;
      cache := map[];
    }

    /** The rows are what the query returns if it is made; None stands for the not-found error. */
    method SelectProvider(key: RouteKey, now: int, rows: seq<Route>, health: string -> Health)
        returns (answer: Option<Provider>)
      requires DistinctIds(registry.providers)
      modifies this
      ensures cache == Refreshed(old(cache), key, now, rows)
      ensures if key in old(cache) && now <= old(cache)[key].expires then cache == old(cache)
              else key in cache && cache == old(cache)[key := cache[key]] && cache[key].expires == now + 300_000
                   && |cache[key].ids| == |rows|
                   && forall i :: 0 <= i < |rows| ==> cache[key].ids[i] == rows[i].provider
      ensures answer == Choose(cache[key].ids, key, health, registry.providers)
    {
      var providerIds: seq<string>;
      if Fresh(cache, key, now) {
        providerIds := cache[key].ids;
      } else {
        providerIds := Ids(rows);
        cache := cache[key := Entry(providerIds, now + CACHE_TTL_MS)];
      }
      var i := 0;
      while i < |providerIds|
        invariant 0 <= i <= |providerIds|
        invariant cache == Refreshed(old(cache), key, now, rows) && cache[key].ids == providerIds
        invariant Pick(providerIds, health, registry.providers) == Pick(providerIds[i..], health, registry.providers)
      {
        var state := health(providerIds[i]);
        if state == Closed || state == Unknown {
          var found := registry.Get(providerIds[i]);
          if found.Some? { return found; }
        }
        i := i + 1;
      }
      answer := registry.SelectFor(key.country, key.currency);
    }

    method InvalidateRoute(key: RouteKey)
      modifies this
      ensures cache == old(cache) - {key}
    {
      cache := cache - {key};
    }
  }

  predicate Fresh(cache: map<RouteKey, Entry>, key: RouteKey, now: int) {
    key in cache && now <= cache[key].expires
  }

  function Refreshed(cache: map<RouteKey, Entry>, key: RouteKey, now: int,
      rows: seq<Route>): (after: map<RouteKey, Entry>)
    ensures key in after
  {
    if Fresh(cache, key, now) then cache else cache[key := Entry(Ids(rows), now + CACHE_TTL_MS)]
  }

  // ---- the choice is optimal ----

  lemma {:induction false} PickIsFirst(ids: seq<string>, health: string -> Health, providers: seq<Provider>)
    ensures var p := Pick(ids, health, providers);
      && (p.None? <==> forall i :: 0 <= i < |ids| ==> !Available(ids[i], health, providers))
      && (p.Some? ==> exists i :: 0 <= i < |ids| && Available(ids[i], health, providers)
                        && p == Lookup(providers, ids[i])
                        && forall j :: 0 <= j < i ==> !Available(ids[j], health, providers))
  {
    if ids != [] && !Available(ids[0], health, providers) {
      var rest := ids[1..];
      PickIsFirst(rest, health, providers);
      assert forall i :: 1 <= i < |ids| ==> ids[i] == rest[i - 1];
      if Pick(rest, health, providers).Some? {
        var i :| 0 <= i < |rest| && Available(rest[i], health, providers)
          && Pick(rest, health, providers) == Lookup(providers, rest[i])
          && forall j :: 0 <= j < i ==> !Available(rest[j], health, providers);
        assert ids[i + 1] == rest[i];
        assert forall j :: 0 <= j < i + 1 ==> !Available(ids[j], health, providers);
      }
    }
  }

  /** An active route of the key whose provider can take a charge. */
  predicate Qualifies(r: Route, key: RouteKey, health: string -> Health, providers: seq<Provider>) {
    r.key == key && r.active && Available(r.provider, health, providers)
  }

  lemma PickedIsBest(rows: seq<Route>, table: set<Route>, key: RouteKey, health: string -> Health,
      providers: seq<Provider>) returns (best: Route)
    requires IsResult(rows, table, key) && Pick(Ids(rows), health, providers).Some?
    ensures best in table && Qualifies(best, key, health, providers)
    ensures Pick(Ids(rows), health, providers) == Lookup(providers, best.provider)
    ensures forall other :: other in table && Qualifies(other, key, health, providers)
                            ==> other.priority <= best.priority
  {
    var ids := Ids(rows);
    PickIsFirst(ids, health, providers);
    var i :| 0 <= i < |ids| && Available(ids[i], health, providers)
      && Pick(ids, health, providers) == Lookup(providers, ids[i])
      && forall j :: 0 <= j < i ==> !Available(ids[j], health, providers);
    best := rows[i];
    assert best in rows;
    forall other | other in table && Qualifies(other, key, health, providers) ensures other.priority <= best.priority {
      var j :| 0 <= j < |rows| && rows[j] == other;
      assert ids[j] == other.provider;
    }
  }

  lemma NothingPicked(rows: seq<Route>, table: set<Route>, key: RouteKey, health: string -> Health,
      providers: seq<Provider>, r: Route)
    requires IsResult(rows, table, key) && Pick(Ids(rows), health, providers).None?
    ensures !(r in table && Qualifies(r, key, health, providers))
  {
    PickIsFirst(Ids(rows), health, providers);
    forall k | 0 <= k < |rows| ensures !Available(rows[k].provider, health, providers) {
      assert Ids(rows)[k] == rows[k].provider;
    }
  }

  /**
   On the table as queried, the answer is the provider of a qualifying route that no
   qualifying route outranks; if none qualifies, it is the earliest registered provider
   that serves country and currency, if there is one.
  */
  lemma ChoiceIsOptimal(rows: seq<Route>, table: set<Route>, key: RouteKey, health: string -> Health,
      providers: seq<Provider>)
    requires IsResult(rows, table, key)
    ensures var answer := Choose(Ids(rows), key, health, providers);
      if exists r :: r in table && Qualifies(r, key, health, providers) then
        answer.Some? && exists r :: r in table && Qualifies(r, key, health, providers)
                          && answer == Lookup(providers, r.provider)
                          && forall other :: other in table && Qualifies(other, key, health, providers)
                                             ==> other.priority <= r.priority
      else answer == Earliest(providers, key.country, key.currency)
  {
    var p := Pick(Ids(rows), health, providers);
    if exists r :: r in table && Qualifies(r, key, health, providers) {
      var r :| r in table && Qualifies(r, key, health, providers);
      if p.None? { NothingPicked(rows, table, key, health, providers, r); }
      var best := PickedIsBest(rows, table, key, health, providers);
      assert best in table && Qualifies(best, key, health, providers);
    } else if p.Some? {
      var best := PickedIsBest(rows, table, key, health, providers);
    }
  }

  /** An active route of the key whose breaker is closed or unknown and whose provider is registered. */
  predicate CanTake(r: Route, key: RouteKey, health: string -> Health, providers: seq<Provider>) {
    && r.key == key && r.active && (health(r.provider) == Closed || health(r.provider) == Unknown)
    && exists i :: 0 <= i < |providers| && providers[i].id == r.provider
  }

  lemma {:induction false} LookupFinds(providers: seq<Provider>, id: string)
    ensures Lookup(providers, id).Some? <==> exists i :: 0 <= i < |providers| && providers[i].id == id
    ensures var found := Lookup(providers, id); found.Some? ==> found.value in providers && found.value.id == id
  {
    if providers != [] {
      LookupFinds(providers[1..], id);
      assert forall i :: 1 <= i < |providers| ==> providers[i] == providers[1..][i - 1];
    }
  }

  lemma QualifiesIff(r: Route, key: RouteKey, health: string -> Health, providers: seq<Provider>)
    ensures Qualifies(r, key, health, providers) <==> CanTake(r, key, health, providers)
  {
    LookupFinds(providers, r.provider);
  }

  lemma {:induction false} EarliestIs(providers: seq<Provider>, country: string, currency: string)
    ensures var e := Earliest(providers, country, currency);
      && (e.None? <==> forall p :: p in providers ==> country !in p.countries || currency !in p.currencies)
      && (e.Some? ==> exists i :: 0 <= i < |providers| && providers[i] == e.value
                        && country in e.value.countries && currency in e.value.currencies
                        && forall j :: 0 <= j < i ==>
                             country !in providers[j].countries || currency !in providers[j].currencies)
  {
    if providers != [] {
      EarliestIs(providers[1..], country, currency);
      assert providers == [providers[0]] + providers[1..];
      assert forall i :: 1 <= i < |providers| ==> providers[i] == providers[1..][i - 1];
      var e := Earliest(providers[1..], country, currency);
      if !Serves(providers[0], country, currency) && e.Some? {
        var i :| 0 <= i < |providers| - 1 && providers[1..][i] == e.value
          && forall j :: 0 <= j < i ==>
               country !in providers[1..][j].countries || currency !in providers[1..][j].currencies;
        assert providers[i + 1] == e.value;
      }
    }
  }

  /** The choice in the fields of routes and providers. */
  lemma ChoiceInFields(rows: seq<Route>, table: set<Route>, key: RouteKey, health: string -> Health,
      providers: seq<Provider>)
    requires IsResult(rows, table, key)
    ensures var answer := Choose(Ids(rows), key, health, providers);
      if exists r :: r in table && CanTake(r, key, health, providers) then
        && answer.Some? && answer.value in providers
        && exists r :: r in table && CanTake(r, key, health, providers) && answer.value.id == r.provider
             && forall other :: other in table && CanTake(other, key, health, providers)
                                ==> other.priority <= r.priority
      else
        && (answer.None?
            <==> forall p :: p in providers ==> key.country !in p.countries || key.currency !in p.currencies)
        && (answer.Some? ==> answer.value in providers
                             && key.country in answer.value.countries && key.currency in answer.value.currencies)
  {
    hide CanTake, Qualifies, IsResult, Choose, Lookup, Earliest;
    forall r ensures Qualifies(r, key, health, providers) <==> CanTake(r, key, health, providers) {
      QualifiesIff(r, key, health, providers);
    }
    ChoiceIsOptimal(rows, table, key, health, providers);
    EarliestIs(providers, key.country, key.currency);
    if exists r :: r in table && CanTake(r, key, health, providers) {
      var answer := Choose(Ids(rows), key, health, providers);
      var r :| r in table && Qualifies(r, key, health, providers) && answer == Lookup(providers, r.provider)
        && forall other :: other in table && Qualifies(other, key, health, providers) ==> other.priority <= r.priority;
      LookupFinds(providers, r.provider);
      assert CanTake(r, key, health, providers);
    }
  }

  // ---- runs ----

  /** Route-table changes, lookups and invalidations, each at a clock reading. */
  datatype Event =
    | ChangeTable(at: int, table: set<Route>)
    | Select(at: int, key: RouteKey, rows: seq<Route>, health: string -> Health, providers: seq<Provider>)
    | Invalidate(at: int, key: RouteKey)

  function TableAfter(events: seq<Event>): set<Route> {
    if events == [] then {}
    else if events[|events| - 1].ChangeTable? then events[|events| - 1].table
    else TableAfter(events[..|events| - 1])
  }

  function CacheAfter(events: seq<Event>): map<RouteKey, Entry> {
    if events == [] then map[]
    else
      var before := CacheAfter(events[..|events| - 1]);
      match events[|events| - 1]
      case ChangeTable(_, _) => before
      case Select(at, key, rows, _, _) => Refreshed(before, key, at, rows)
      case Invalidate(_, key) => before - {key}
  }

  /** Every query that is made returns what the table holds at that moment. */
  ghost predicate Honest(events: seq<Event>) {
    forall i :: 0 <= i < |events| && events[i].Select?
      ==> IsResult(events[i].rows, TableAfter(events[..i]), events[i].key)
  }

  /** The answer of the lookup that is the i-th event. */
  function AnswerAt(events: seq<Event>, i: nat): Option<Provider>
    requires i < |events| && events[i].Select?
  {
    var e := events[i];
    Choose(Refreshed(CacheAfter(events[..i]), e.key, e.at, e.rows)[e.key].ids, e.key, e.health, e.providers)
  }

  ghost predicate LoadedAt(events: seq<Event>, key: RouteKey, entry: Entry, j: nat) {
    && j < |events| && events[j].Select? && events[j].key == key
    && entry == Entry(Ids(events[j].rows), events[j].at + CACHE_TTL_MS)
    && forall m :: j < m < |events| ==> !(events[m].Invalidate? && events[m].key == key)
  }

  /** Each cached list was read by one earlier lookup, and was not invalidated since. */
  lemma {:induction false} CacheOrigin(events: seq<Event>, key: RouteKey) returns (j: nat)
    requires key in CacheAfter(events)
    ensures LoadedAt(events, key, CacheAfter(events)[key], j)
    decreases |events|
  {
    var n := |events| - 1;
    var before := events[..n];
    if events[n].Select? && events[n].key == key && !Fresh(CacheAfter(before), key, events[n].at) {
      j := n;
    } else {
      j := CacheOrigin(before, key);
      assert events[j] == before[j];
      forall m | j < m < |events| ensures !(events[m].Invalidate? && events[m].key == key) {
        if m < n { assert events[m] == before[m]; }
      }
    }
  }

  /**
   Every answer is the one a service without cache gives on the table as it stood at some
   earlier lookup: at most the cache's lifetime ago, after every invalidation of the key
   made so far, and with health and registry as they are now.
  */
  lemma BoundedStaleness(events: seq<Event>, i: nat) returns (j: nat)
    requires Honest(events) && i < |events| && events[i].Select?
    ensures j <= i && events[j].Select? && events[j].key == events[i].key
    ensures events[i].at - events[j].at <= 300_000
    ensures forall m :: 0 <= m < i && events[m].Invalidate? && events[m].key == events[i].key ==> m < j
    ensures IsResult(events[j].rows, TableAfter(events[..j]), events[i].key)
    ensures AnswerAt(events, i) == Choose(Ids(events[j].rows), events[i].key, events[i].health, events[i].providers)
  {
    var e, before := events[i], events[..i];
    if Fresh(CacheAfter(before), e.key, e.at) {
      j := CacheOrigin(before, e.key);
      assert events[j] == before[j];
      forall m | 0 <= m < i && events[m].Invalidate? && events[m].key == e.key ensures m < j {
        assert before[m] == events[m];
      }
    } else {
      j := i;
    }
  }
}
