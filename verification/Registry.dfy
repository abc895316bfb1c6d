/** The in-memory provider registry: a map that remembers the order of first insertion. */
module Registry {
  import opened Options

  /** The instance number tells apart two objects registered under one id. */
  datatype Provider = Provider(id: string, countries: seq<string>, currencies: seq<string>, instance: nat)

  predicate Serves(p: Provider, country: string, currency: string) {
    country in p.countries && currency in p.currencies
  }

  ghost predicate DistinctIds(providers: seq<Provider>) {
    forall i, j :: 0 <= i < j < |providers| ==> providers[i].id != providers[j].id
  }

  predicate Has(providers: seq<Provider>, id: string) {
    exists i :: 0 <= i < |providers| && providers[i].id == id
  }

  /** The providers after p is registered. */
  function Registered(providers: seq<Provider>, p: Provider): seq<Provider> {
    if providers == [] then [p]
    else if providers[0].id == p.id then [p] + providers[1..]
    else [providers[0]] + Registered(providers[1..], p)
  }

  lemma {:induction false} RegisteredAt(providers: seq<Provider>, p: Provider, k: nat)
    requires k <= |providers| && (forall j :: 0 <= j < k ==> providers[j].id != p.id)
    requires k < |providers| ==> providers[k].id == p.id
    ensures Registered(providers, p) == if k < |providers| then providers[k := p] else providers + [p]
    decreases k
  {
    if k > 0 {
      RegisteredAt(providers[1..], p, k - 1);
    }
  }

  /** Registering an id again replaces its provider in place; a new id goes last. Nothing else moves. */
  lemma {:induction false} RegisteredInPlace(providers: seq<Provider>, p: Provider, k: nat)
    requires DistinctIds(providers) && k <= |providers|
    requires if k < |providers| then providers[k].id == p.id else !Has(providers, p.id)
    ensures DistinctIds(Registered(providers, p))
    ensures Registered(providers, p) == if k < |providers| then providers[k := p] else providers + [p]
  {
    RegisteredAt(providers, p, k);
  }

  class ProviderRegistry {
    var providers: seq<Provider>

    constructor ()
      ensures providers == [] && DistinctIds(providers)
    {
      providers := [];
    }

    method Register(p: Provider)
      requires DistinctIds(providers)
      modifies this
      ensures providers == Registered(old(providers), p) && DistinctIds(providers)
    {
      var i := 0;
      while i < |providers| && providers[i].id != p.id
        invariant 0 <= i <= |providers|
        invariant forall j :: 0 <= j < i ==> providers[j].id != p.id
      {
        i := i + 1;
      }
      RegisteredInPlace(providers, p, i);
      if i < |providers| {
        providers := providers[i := p];
      } else {
        providers := providers + [p];
      }
    }

    /** None stands for the thrown error. */
    method Get(id: string) returns (found: Option<Provider>)
      requires DistinctIds(providers)
      ensures found.None? ==> !Has(providers, id)
      ensures found.Some? ==> found.value in providers && found.value.id == id
      ensures found == Lookup(providers, id)
    {
      var i := 0;
      while i < |providers|
        invariant 0 <= i <= |providers|
        invariant forall j :: 0 <= j < i ==> providers[j].id != id
        invariant Lookup(providers, id) == Lookup(providers[i..], id)
      {
        if providers[i].id == id { return Some(providers[i]); }
        i := i + 1;
      }
      return None;
    }

    method SelectFor(country: string, currency: string) returns (found: Option<Provider>)
      ensures found == Earliest(providers, country, currency)
      ensures found.None? ==> forall i :: 0 <= i < |providers| ==> !Serves(providers[i], country, currency)
      ensures found.Some? ==> exists i :: 0 <= i < |providers| && providers[i] == found.value
                                && Serves(found.value, country, currency)
                                && country in found.value.countries && currency in found.value.currencies
                                && forall j :: 0 <= j < i ==> !Serves(providers[j], country, currency)
    {
      var i := 0;
      while i < |providers|
        invariant 0 <= i <= |providers|
        invariant forall j :: 0 <= j < i ==> !Serves(providers[j], country, currency)
        invariant Earliest(providers, country, currency) == Earliest(providers[i..], country, currency)
      {
        if Serves(providers[i], country, currency) { return Some(providers[i]); }
        i := i + 1;
      }
      return None;
    }
  }

  function Lookup(providers: seq<Provider>, id: string): Option<Provider> {
    if providers == [] then None else if providers[0].id == id then Some(providers[0]) else Lookup(providers[1..], id)
  }

  function Earliest(providers: seq<Provider>, country: string, currency: string): Option<Provider> {
    if providers == [] then None
    else if Serves(providers[0], country, currency) then Some(providers[0])
    else Earliest(providers[1..], country, currency)
  }
}
