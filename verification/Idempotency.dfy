/**
 The response cache in front of creation: a request runs its handler at most once while the
 cached answer lives, and the unique index takes over when it has expired or was lost.
*/
module Idempotency {
  import opened Options
  import opened StateMachine
  import opened Rows
  import opened Payments
  import opened Invariant
  import opened Interleaved
  import opened Calls
  import opened Services

  const TTL_MS := 86_400 * 1000

  /** An ideal hash of the request body. */
  datatype Digest = Digest(body: string)
  datatype Entry = Entry(bodyHash: Digest, statusCode: nat, response: Answer, expiresAt: int)

  datatype Request = Request(
    body: string,
    statusCode: nat,          // what the framework sets when the handler succeeds
    call: CreateCall,         // call.org and call.key are the tenant and the header
    now: int,
    saves: bool)              // false: the process dies before the entry is stored

  datatype Outcome = Success(statusCode: nat, response: Answer) | Conflict | Failure

  datatype World = World(store: State, redis: map<string, Entry>)

  // ---- the cache key ----

  /** Tenant ids, as texts, are distinct and hold no colon. */
  ghost predicate ProperNames(name: OrgId -> string) {
    && (forall org :: ':' !in name(org))
    && (forall a, b :: name(a) == name(b) ==> a == b)
  }

  function RedisKey(name: OrgId -> string, org: OrgId, key: Key): string {
    "idemp:" + (name(org) + ":" + key)
  }

  lemma {:induction false} ColonSplits(a: string, b: string, x: string, y: string)
    requires ':' !in a && ':' !in x && a + ":" + b == x + ":" + y
    ensures a == x && b == y
  {
    var s := a + ":" + b;
    assert s[|a|] == ':' && s[|x|] == ':';
    assert forall i :: 0 <= i < |a| ==> s[i] == a[i];
    assert forall i :: 0 <= i < |x| ==> s[i] == x[i];
    assert |a| == |x|;
    assert s[..|a|] == a && s[..|x|] == x && s[|a| + 1..] == b && s[|x| + 1..] == y;
  }

  /** Two requests share an entry exactly if tenant and header agree, colons in the header included. */
  lemma SharedEntryIff(name: OrgId -> string, a: OrgId, b: OrgId, k: Key, l: Key)
    requires ProperNames(name)
    ensures RedisKey(name, a, k) == RedisKey(name, b, l) <==> a == b && k == l
  {
    if RedisKey(name, a, k) == RedisKey(name, b, l) {
      var s, t := name(a) + ":" + k, name(b) + ":" + l;
      assert ("idemp:" + s)[6..] == s && ("idemp:" + t)[6..] == t;
      ColonSplits(name(a), k, name(b), l);
    }
  }

  // ---- one request ----

  predicate Live(redis: map<string, Entry>, k: string, now: int) {
    k in redis && now < redis[k].expiresAt
  }

  /** The answer of a successful creation; errors are thrown, and are not answers. */
  ghost function Handled(s: State, c: CreateCall): Option<Answer> {
    var t := Exec(s, CreateRun(c));
    if |t.answers| > |s.answers| && t.answers[|t.answers| - 1].CreatedAnswer? then Some(t.answers[|t.answers| - 1])
      else None
  }

  ghost function Intercept(name: OrgId -> string, w: World, r: Request): (World, Outcome) {
    var k := RedisKey(name, r.call.org, r.call.key);
    if r.call.key != "" && Live(w.redis, k, r.now) then
      (w, if w.redis[k].bodyHash == Digest(r.body) then Success(w.redis[k].statusCode, w.redis[k].response)
        else Conflict)
    else
      var store, handled := Exec(w.store, CreateRun(r.call)), Handled(w.store, r.call);
      if handled.None? then (World(store, w.redis), Failure)
      else (World(store, if r.call.key != "" && r.saves
                         then w.redis[k := Entry(Digest(r.body), r.statusCode, handled.value, r.now + TTL_MS)]
                           else w.redis),
            Success(r.statusCode, handled.value))
  }

  /** A request that is handed on, and answered by the handler. */
  lemma HandedOn(name: OrgId -> string, w: World, r: Request, store: State, answer: Answer)
    requires r.call.key == "" || !Live(w.redis, RedisKey(name, r.call.org, r.call.key), r.now)
    requires store == Exec(w.store, CreateRun(r.call)) && store.answers == w.store.answers + [answer]
    ensures Intercept(name, w, r)
         == (World(store, if answer.CreatedAnswer? && r.call.key != "" && r.saves
                          then w.redis[RedisKey(name, r.call.org, r.call.key)
                            := Entry(Digest(r.body), r.statusCode, answer, r.now + TTL_MS)]
                          else w.redis),
             if answer.CreatedAnswer? then Success(r.statusCode, answer) else Failure)
  {
    assert store.answers[|store.answers| - 1] == answer;
  }

  class IdempotencyInterceptor {
    const name: OrgId -> string
    const next: PaymentsService
    var redis: map<string, Entry>

    constructor (name: OrgId -> string, next: PaymentsService)
      ensures this.name == name && this.next == next && redis == map[]
    {
      this.name, this.next, redis := name, next, map[];
    }

    ghost function Snapshot(): World
      reads this, next.prisma
    {
      World(next.prisma.Snapshot(), redis)
    }

    /** The parameters from provider on are what the environment decides about the handler. */
    method Handle(org: OrgId, key: Key, body: string, now: int, statusCode: nat, saves: bool,
                  amount: int, provider: Option<ProviderId>, id: PaymentId, reply: Reply, commits: bool)
      returns (outcome: Outcome, ghost found: Option<PaymentId>)
      requires next.prisma.Valid()
      modifies this, next.prisma
      ensures next.prisma.Valid()
      ensures (Snapshot(), outcome)
           == Intercept(name, old(Snapshot()),
                        Request(body, statusCode,
                          CreateCall(org, key, amount, provider, found, id, now, reply, commits), now, saves))
    {
      hide Exec, Inv, CreateRun;
      ghost var w := Snapshot();
      found := None;
      var redisKey := RedisKey(name, org, key);
      if key != "" && redisKey in redis && now < redis[redisKey].expiresAt {
        var entry := redis[redisKey];
        if entry.bodyHash != Digest(body) {
          return Conflict, found;
        }
        return Success(entry.statusCode, entry.response), found;
      }
      var answer;
      answer, found := next.Create(org, key, amount, provider, id, now, reply, commits);
      HandedOn(name, w, Request(body, statusCode,
        CreateCall(org, key, amount, provider, found, id, now, reply, commits), now, saves),
               next.prisma.Snapshot(), answer);
      if !answer.CreatedAnswer? {
        return Failure, found;
      }
      if key != "" && saves {
        redis := redis[redisKey := Entry(Digest(body), statusCode, answer, now + TTL_MS)];
      }
      return Success(statusCode, answer), found;
    }
  }

  // ---- runs ----

  /** A request, or work of the other actors that leaves no call in flight. */
  datatype Step = Ask(request: Request) | Background(run: seq<Action>)

  ghost function Next(name: OrgId -> string, w: World, step: Step): World {
    match step
    case Ask(request) => Intercept(name, w, request).0
    case Background(run) => if Exec(w.store, run).procs == map[] then w.(store := Exec(w.store, run)) else w
  }

  ghost function After(name: OrgId -> string, w: World, steps: seq<Step>): World {
    if steps == [] then w else Next(name, After(name, w, steps[..|steps| - 1]), steps[|steps| - 1])
  }

  const EMPTY := World(INIT, map[])

  /** Every entry holds a created answer for its own tenant and header, and the payment it names exists. */
  ghost predicate EntriesOk(name: OrgId -> string, w: World) {
    forall k :: k in w.redis ==>
      var a := w.redis[k].response;
      a.CreatedAnswer? && k == RedisKey(name, a.org, a.key) && Matches(w.store.payments, a.id, a.org, a.key)
  }

  ghost predicate WorldOk(name: OrgId -> string, w: World) {
    Inv(w.store) && w.store.procs == map[] && EntriesOk(name, w)
  }

  /** A creation that runs undisturbed adds at most one answer, which is its own, and ends its call. */
  lemma CreationAnswers(s: State, c: CreateCall)
    requires s.procs == map[]
    ensures var t := Exec(s, CreateRun(c));
      t.procs == map[] && (t.answers == s.answers || exists a :: IsOwn(a, c) && t.answers == s.answers + [a])
  {
    if IsFresh(s, c) {
      FreshCreate(s, c);
      assert IsOwn(if c.reply.ChargeResult? && c.commits then CreatedAnswer(c.org, c.key, c.id, CreatedRow(c))
        else ErrorAnswer(c.org, ProviderFailed), c);
    } else {
      StaleCreate(s, c);
      assert IsOwn(ErrorAnswer(c.org, BlankKey), c)
        && IsOwn(ErrorAnswer(c.org, if c.provider.None? then NoProvider else DuplicateKey), c);
      if c.found.Some? && c.found.value in s.payments { assert IsOwn(CreatedAnswer(c.org, c.key, c.found.value,
        s.payments[c.found.value]), c); }
    }
  }

  predicate IsOwn(a: Answer, c: CreateCall) {
    a.CreatedAnswer? ==> a.org == c.org && a.key == c.key
  }

  /** A successful creation answers for its own organization and key, and names a stored row. */
  lemma HandledNames(s: State, c: CreateCall)
    requires Inv(s) && s.procs == map[]
    ensures Inv(Exec(s, CreateRun(c))) && Exec(s, CreateRun(c)).procs == map[]
    ensures Handled(s, c).Some? ==>
      AnswersFor(Handled(s, c).value, c.org, c.key)
        && Matches(Exec(s, CreateRun(c)).payments, Handled(s, c).value.id, c.org, c.key)
  {
    var t := Exec(s, CreateRun(c));
    RunKeepsInv(s, CreateRun(c));
    CreationAnswers(s, c);
    assert Handled(s, c).Some? ==> t.answers[|t.answers| - 1] == Handled(s, c).value;
  }

  lemma MatchesPersists(s: State, run: seq<Action>, id: PaymentId, org: OrgId, key: Key)
    requires Inv(s) && Matches(s.payments, id, org, key)
    ensures Matches(Exec(s, run).payments, id, org, key)
  {
    RowsPersist(s, run, id);
  }

  lemma EntriesPersist(name: OrgId -> string, w: World, run: seq<Action>)
    requires Inv(w.store) && EntriesOk(name, w)
    ensures EntriesOk(name, w.(store := Exec(w.store, run)))
  {
    forall k | k in w.redis
      ensures var a := w.redis[k].response; Matches(Exec(w.store, run).payments, a.id, a.org, a.key)
    {
      var a := w.redis[k].response;
      MatchesPersists(w.store, run, a.id, a.org, a.key);
    }
  }

  lemma NextKeeps(name: OrgId -> string, w: World, step: Step)
    requires WorldOk(name, w)
    ensures WorldOk(name, Next(name, w, step))
  {
    match step
    case Ask(r) =>
      HandledNames(w.store, r.call);
      EntriesPersist(name, w, CreateRun(r.call));
    case Background(run) =>
      RunKeepsInv(w.store, run);
      EntriesPersist(name, w, run);
  }

  lemma {:induction false} AfterKeeps(name: OrgId -> string, w: World, steps: seq<Step>)
    requires WorldOk(name, w)
    ensures WorldOk(name, After(name, w, steps))
  {
    if steps != [] {
      AfterKeeps(name, w, steps[..|steps| - 1]);
      NextKeeps(name, After(name, w, steps[..|steps| - 1]), steps[|steps| - 1]);
    }
  }

  /** What the store goes through is a run of the underlying steps. */
  lemma {:induction false} StoreRun(name: OrgId -> string, w: World, steps: seq<Step>) returns (run: seq<Action>)
    ensures After(name, w, steps).store == Exec(w.store, run)
  {
    if steps == [] {
      run := [];
    } else {
      var earlier := StoreRun(name, w, steps[..|steps| - 1]);
      var mid := After(name, w, steps[..|steps| - 1]);
      var last := match steps[|steps| - 1] case Ask(r) => CreateRun(r.call) case Background(more) => more;
      run := if After(name, w, steps).store == mid.store then earlier else earlier + last;
      ExecConcat(w.store, earlier, last);
    }
  }

  lemma {:induction false} AfterConcat(name: OrgId -> string, w: World, first: seq<Step>, second: seq<Step>)
    ensures After(name, w, first + second) == After(name, After(name, w, first), second)
  {
    if second == [] {
      assert first + second == first;
    } else {
      assert (first + second)[..|first + second| - 1] == first + second[..|second| - 1];
      AfterConcat(name, w, first, second[..|second| - 1]);
    }
  }

  // ---- one payment per key ----

  /** A success, replayed or handled, names a stored row of its organization and key. */
  lemma SuccessNames(name: OrgId -> string, w: World, r: Request)
    requires ProperNames(name) && WorldOk(name, w) && Intercept(name, w, r).1.Success?
    ensures var a := Intercept(name, w, r).1.response;
      AnswersFor(a, r.call.org, r.call.key)
        && Matches(Intercept(name, w, r).0.store.payments, a.id, r.call.org, r.call.key)
  {
    var k := RedisKey(name, r.call.org, r.call.key);
    if r.call.key != "" && Live(w.redis, k, r.now) {
      var a := w.redis[k].response;
      SharedEntryIff(name, a.org, r.call.org, a.key, r.call.key);
    } else {
      HandledNames(w.store, r.call);
    }
  }

  /**
   Whatever happens in between, and however often entries expire or are lost, any two
   successes for one tenant and key name the same payment.
  */
  lemma OnePaymentPerKey(name: OrgId -> string, before: seq<Step>, r: Request, between: seq<Step>, again: Request)
    requires ProperNames(name)
    requires r.call.org == again.call.org && r.call.key == again.call.key
    requires var w := After(name, EMPTY, before);
      var v := After(name, Intercept(name, w, r).0, between);
      Intercept(name, w, r).1.Success? && Intercept(name, v, again).1.Success?
    ensures var w := After(name, EMPTY, before);
      var v := After(name, Intercept(name, w, r).0, between);
      && Intercept(name, w, r).1.response.CreatedAnswer? && Intercept(name, v, again).1.response.CreatedAnswer?
      && Intercept(name, w, r).1.response.id == Intercept(name, v, again).1.response.id
  {
    AfterKeeps(name, EMPTY, before);
    var w := After(name, EMPTY, before);
    SuccessNames(name, w, r);
    NextKeeps(name, w, Ask(r));
    var w1 := Intercept(name, w, r).0;
    AfterKeeps(name, w1, between);
    var v := After(name, w1, between);
    SuccessNames(name, v, again);
    NextKeeps(name, v, Ask(again));
    var first := Intercept(name, w, r).1.response;
    var run := StoreRun(name, w1, between + [Ask(again)]);
    assert (between + [Ask(again)])[..|between|] == between;
    MatchesPersists(w1.store, run, first.id, r.call.org, r.call.key);
  }

  // ---- within the lifetime of an entry ----

  /** No request is made at a later reading of the clock. */
  predicate ClockBelow(steps: seq<Step>, now: int) {
    forall i :: 0 <= i < |steps| && steps[i].Ask? ==> steps[i].request.now <= now
  }

  lemma EntryKept(name: OrgId -> string, w: World, step: Step, k: string, now: int)
    requires ProperNames(name) && Live(w.redis, k, now) && ClockBelow([step], now)
    ensures Live(Next(name, w, step).redis, k, now) && Next(name, w, step).redis[k] == w.redis[k]
  {
    if step.Ask? {
      assert [step][0] == step;
    }
  }

  lemma {:induction false} EntryLives(name: OrgId -> string, w: World, steps: seq<Step>, k: string, now: int)
    requires ProperNames(name) && Live(w.redis, k, now) && ClockBelow(steps, now)
    ensures Live(After(name, w, steps).redis, k, now) && After(name, w, steps).redis[k] == w.redis[k]
  {
    if steps != [] {
      EntryLives(name, w, steps[..|steps| - 1], k, now);
      EntryKept(name, After(name, w, steps[..|steps| - 1]), steps[|steps| - 1], k, now);
    }
  }

  /**
   Once a request has been handled and stored, then until its lifetime is over, and
   whatever comes in between: the same body gets the very same answer, another body gets a
   conflict, and neither changes anything.
  */
  lemma {:induction false} RepeatWithinLifetime(name: OrgId -> string, w: World, r: Request, between: seq<Step>,
      again: Request)
    requires ProperNames(name)
    requires r.call.key != "" && r.saves && !Live(w.redis, RedisKey(name, r.call.org, r.call.key), r.now)
    requires Intercept(name, w, r).1.Success?
    requires r.call.org == again.call.org && r.call.key == again.call.key
    requires ClockBelow(between, again.now) && again.now < r.now + 86_400_000
    ensures var v := After(name, Intercept(name, w, r).0, between);
      Intercept(name, v, again) == (v, if again.body == r.body then Intercept(name, w, r).1 else Conflict)
  {
    EntryLives(name, Intercept(name, w, r).0, between, RedisKey(name, r.call.org, r.call.key), again.now);
  }

  /** Once the lifetime is over the entry answers no more: the request is handed on like a first one. */
  lemma RepeatAfterLifetime(name: OrgId -> string, w: World, r: Request, again: Request)
    requires r.call.key != "" && r.saves && !Live(w.redis, RedisKey(name, r.call.org, r.call.key), r.now)
    requires Intercept(name, w, r).1.Success?
    requires r.call.org == again.call.org && r.call.key == again.call.key && again.now >= r.now + 86_400_000
    ensures var v := Intercept(name, w, r).0;
      Intercept(name, v, again).0.store == Exec(v.store, CreateRun(again.call))
      && Intercept(name, v, again).1 == (if Handled(v.store, again.call).None? then Failure
                                         else Success(again.statusCode, Handled(v.store, again.call).value))
  {
    hide Exec, Handled, RedisKey;
  }

  // ---- failures ----

  lemma FailureIsNotCached(name: OrgId -> string, w: World, r: Request)
    requires w.store.procs == map[] && IsFresh(w.store, r.call)
    requires !Live(w.redis, RedisKey(name, r.call.org, r.call.key), r.now)
    requires r.call.reply.ChargeError? || !r.call.commits
    ensures Intercept(name, w, r) == (World(CreateResult(w.store, r.call), w.redis), Failure)
  {
    FreshCreate(w.store, r.call);
    HandedOn(name, w, r, CreateResult(w.store, r.call), ErrorAnswer(r.call.org, ProviderFailed));
  }

  /** Creation under the key of a stored row stores nothing, and can answer with that row only. */
  lemma HandledWithRow(s: State, c: CreateCall, id: PaymentId)
    requires Inv(s) && s.procs == map[] && Matches(s.payments, id, c.org, c.key)
    ensures Exec(s, CreateRun(c)).payments == s.payments && Exec(s, CreateRun(c)).charged == s.charged
    ensures Handled(s, c).Some? ==> Handled(s, c).value == CreatedAnswer(c.org, c.key, id, s.payments[id])
    ensures Truthful(s, c) && !IsBlank(c.key) ==> Handled(s, c).Some?
  {
    StaleCreate(s, c);
    var t := Exec(s, CreateRun(c));
    if |t.answers| > |s.answers| { assert t.answers[..|s.answers|] == s.answers; }
  }

  /** The row of a failed creation, and no cached entry under its key but for that row. */
  ghost predicate HoldsFailure(name: OrgId -> string, w: World, id: PaymentId, p: Payment) {
    && WorldOk(name, w) && id in w.store.payments && w.store.payments[id] == p && p.failureCode.Some?
    && var k := RedisKey(name, p.org, p.key);
    k in w.redis ==> w.redis[k].response == CreatedAnswer(p.org, p.key, id, p)
  }

  lemma StoreKeepsFailure(s: State, run: seq<Action>, id: PaymentId, p: Payment)
    requires Inv(s) && id in s.payments && s.payments[id] == p && p.failureCode.Some?
    ensures id in Exec(s, run).payments && Exec(s, run).payments[id] == p
  {
    FailedForever(s, run, id);
  }

  lemma AskKeepsFailure(name: OrgId -> string, w: World, r: Request, id: PaymentId, p: Payment)
    requires ProperNames(name) && HoldsFailure(name, w, id, p)
    ensures HoldsFailure(name, Intercept(name, w, r).0, id, p)
  {
    hide Exec, Inv, RedisKey, EntriesOk;
    NextKeeps(name, w, Ask(r));
    StoreKeepsFailure(w.store, CreateRun(r.call), id, p);
    EntryKeepsFailure(name, w, r, id, p);
  }

  lemma EntryKeepsFailure(name: OrgId -> string, w: World, r: Request, id: PaymentId, p: Payment)
    requires ProperNames(name) && HoldsFailure(name, w, id, p)
    ensures var k, t := RedisKey(name, p.org, p.key), Intercept(name, w, r).0;
      k in t.redis ==> t.redis[k].response == CreatedAnswer(p.org, p.key, id, p)
  {
    hide Exec, Inv, Matches;
    SharedEntryIff(name, r.call.org, p.org, r.call.key, p.key);
    if r.call.org == p.org && r.call.key == p.key { HandledWithRow(w.store, r.call, id); }
  }

  lemma {:induction false} FailureIsHeld(name: OrgId -> string, w: World, steps: seq<Step>, id: PaymentId, p: Payment)
    requires ProperNames(name) && HoldsFailure(name, w, id, p)
    ensures HoldsFailure(name, After(name, w, steps), id, p)
  {
    if steps != [] {
      var v, last := After(name, w, steps[..|steps| - 1]), steps[|steps| - 1];
      FailureIsHeld(name, w, steps[..|steps| - 1], id, p);
      match last {
        case Ask(r) => AskKeepsFailure(name, v, r, id, p);
        case Background(run) =>
          NextKeeps(name, v, last);
          StoreKeepsFailure(v.store, run, id, p);
      }
    }
  }

  /** How a request is answered once a creation with its key has failed at the provider. */
  lemma AnsweredWithFailure(name: OrgId -> string, v: World, again: Request, id: PaymentId, p: Payment)
    requires ProperNames(name) && HoldsFailure(name, v, id, p) && p.org == again.call.org && p.key == again.call.key
    requires !IsBlank(p.key) && Truthful(v.store, again.call)
    ensures var k := RedisKey(name, p.org, p.key);
      var outcome := Intercept(name, v, again).1;
      if !Live(v.redis, k, again.now) then outcome == Success(again.statusCode, CreatedAnswer(p.org, p.key, id, p))
      else if v.redis[k].bodyHash == Digest(again.body) then
        outcome == Success(v.redis[k].statusCode, CreatedAnswer(p.org, p.key, id, p))
      else outcome == Conflict
    ensures var t := Intercept(name, v, again).0.store; t.payments == v.store.payments && t.charged == v.store.charged
  {
    HandledWithRow(v.store, again.call, id);
  }

  lemma NoRowNoEntry(name: OrgId -> string, w: World, org: OrgId, key: Key)
    requires ProperNames(name) && EntriesOk(name, w) && forall id :: !Matches(w.store.payments, id, org, key)
    ensures RedisKey(name, org, key) !in w.redis
  {
    forall k | k in w.redis ensures k != RedisKey(name, org, key) {
      var a := w.redis[k].response;
      SharedEntryIff(name, a.org, org, a.key, key);
    }
  }

  lemma FailureIsStored(name: OrgId -> string, w: World, r: Request)
    requires ProperNames(name) && WorldOk(name, w) && IsFresh(w.store, r.call)
    requires r.call.reply.ChargeError? || !r.call.commits
    ensures Intercept(name, w, r) == (World(CreateResult(w.store, r.call), w.redis), Failure)
    ensures HoldsFailure(name, Intercept(name, w, r).0, r.call.id, CreatedRow(r.call))
  {
    NoRowNoEntry(name, w, r.call.org, r.call.key);
    FailureIsNotCached(name, w, r);
    NextKeeps(name, w, Ask(r));
  }

  /**
   A creation that the provider refuses is not cached, but its row stays. From then on,
   whatever comes in between, a request with that key and a lookup that misses no row is
   answered with the failed payment as a success, or with a conflict if such an answer is
   still cached for another body. It never charges again, and changes no row.
  */
  lemma RetryAfterFailure(name: OrgId -> string, w: World, r: Request, between: seq<Step>, again: Request)
    requires ProperNames(name) && WorldOk(name, w)
    requires IsFresh(w.store, r.call) && (r.call.reply.ChargeError? || !r.call.commits)
    requires again.call.org == r.call.org && again.call.key == r.call.key
    requires Truthful(After(name, Intercept(name, w, r).0, between).store, again.call)
    ensures Intercept(name, w, r).1 == Failure && Intercept(name, w, r).0.redis == w.redis
    ensures CreatedRow(r.call).status == Failed && CreatedRow(r.call).failureCode.Some?
    ensures var v := After(name, Intercept(name, w, r).0, between);
      var k, failed := RedisKey(name, r.call.org, r.call.key),
        CreatedAnswer(r.call.org, r.call.key, r.call.id, CreatedRow(r.call));
      && Intercept(name, v, again).1
         == (if !Live(v.redis, k, again.now) then Success(again.statusCode, failed)
             else if v.redis[k].bodyHash == Digest(again.body) then Success(v.redis[k].statusCode, failed)
             else Conflict)
      && var t := Intercept(name, v, again).0.store; t.payments == v.store.payments && t.charged == v.store.charged
  {
    var w1, p := Intercept(name, w, r).0, CreatedRow(r.call);
    FailureIsStored(name, w, r);
    FailureIsHeld(name, w1, between, r.call.id, p);
    var v := After(name, w1, between);
    AnsweredWithFailure(name, v, again, r.call.id, p);
  }
}
