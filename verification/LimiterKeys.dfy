/** The strings that name a rate-limit budget (app/ratelimit/middleware.py:21, app/ratelimit/limiter.py:99). */
module LimiterKeys {
  import opened Common
  import opened MemoryLimiter

  predicate ColonFree(s: string) {
    forall i :: 0 <= i < |s| ==> s[i] != ':'
  }

  /** "{tenant}:{user}:{scope}" */
  function BudgetKey(tenant: string, user: string, scope: string): string {
    tenant + ":" + user + ":" + scope
  }

  /** "ratelimit:{key}:{window_start}" */
  function RedisKey(key: string, windowStart: nat): string {
    "ratelimit:" + key + ":" + Decimal(windowStart)
  }

  /** Where the parts of a key stand: tenant, user and scope, in this order, a colon between them. */
  lemma BudgetKeyReads(tenant: string, user: string, scope: string)
    ensures var key := BudgetKey(tenant, user, scope); var t, u := |tenant|, |user|;
      && |key| == t + u + |scope| + 2 && key[t] == ':' && key[t + u + 1] == ':'
      && key[..t] == tenant && key[t + 1..t + u + 1] == user && key[t + u + 2..] == scope
  {
  }

  /** ... and of a Redis key: the prefix, the budget key, the decimal start of the window. */
  lemma RedisKeyReads(key: string, windowStart: nat)
    ensures var text := RedisKey(key, windowStart); var k := |key|;
      && |text| > k + 11 && text[..10] == "ratelimit:" && text[10..k + 10] == key && text[k + 10] == ':'
      && (forall i :: k + 11 <= i < |text| ==> IsDigit(text[i])) && Reads(text[k + 11..]) == windowStart
  {
    DecimalReads(windowStart);
    var text, k := RedisKey(key, windowStart), |key|;
    assert text[k + 11..] == Decimal(windowStart);
  }

  lemma HeadsAgree(a: string, x: string, b: string, y: string)
    requires ColonFree(a) && ColonFree(b) && a + ":" + x == b + ":" + y
    ensures a == b && x == y
  {
    var s, t := a + ":" + x, b + ":" + y;
    assert s[|a|] == ':' && t[|b|] == ':';
    assert forall i :: 0 <= i < |a| ==> s[i] == a[i];
    assert forall i :: 0 <= i < |b| ==> t[i] == b[i];
    assert |a| == |b|;
    assert a == s[..|a|] && b == t[..|b|] && x == s[|a| + 1..] && y == t[|b| + 1..];
  }

  lemma TailsAgree(a: string, x: string, b: string, y: string)
    requires ColonFree(x) && ColonFree(y) && a + ":" + x == b + ":" + y
    ensures a == b && x == y
  {
    var s, t := a + ":" + x, b + ":" + y;
    assert s[|a|] == ':' && t[|b|] == ':';
    assert forall i :: |a| < i < |s| ==> s[i] == x[i - |a| - 1];
    assert forall i :: |b| < i < |t| ==> t[i] == y[i - |b| - 1];
    assert |a| == |b|;
    assert a == s[..|a|] && b == t[..|b|] && x == s[|a| + 1..] && y == t[|b| + 1..];
  }

  /** With colon-free tenant and user ids, as UUIDs are, no two budgets share a key. */
  lemma BudgetKeyInjective(tenant: string, user: string, scope: string, tenant': string, user': string, scope': string)
    requires ColonFree(tenant) && ColonFree(user) && ColonFree(tenant') && ColonFree(user')
    requires BudgetKey(tenant, user, scope) == BudgetKey(tenant', user', scope')
    ensures tenant == tenant' && user == user' && scope == scope'
  {
    assert BudgetKey(tenant, user, scope) == tenant + ":" + (user + ":" + scope);
    assert BudgetKey(tenant', user', scope') == tenant' + ":" + (user' + ":" + scope');
    HeadsAgree(tenant, user + ":" + scope, tenant', user' + ":" + scope');
    HeadsAgree(user, scope, user', scope');
  }

  function Colons(s: string): nat {
    if s == "" then 0 else Colons(s[1..]) + (if s[0] == ':' then 1 else 0)
  }

  lemma {:induction false} ColonsAdd(a: string, b: string)
    ensures Colons(a + b) == Colons(a) + Colons(b)
    decreases |a|
  {
    if a == "" {
      assert a + b == b;
    } else {
      ColonsAdd(a[1..], b);
      assert (a + b)[1..] == a[1..] + b;
    }
  }

  lemma {:induction false} NoColons(s: string)
    ensures Colons(s) == 0 <==> ColonFree(s)
    decreases |s|
  {
    if s != "" {
      NoColons(s[1..]);
      assert forall i :: 1 <= i < |s| ==> s[i] == s[1..][i - 1];
      assert forall i :: 0 <= i < |s| - 1 ==> s[1..][i] == s[i + 1];
    }
  }

  lemma ColonsOfKey(tenant: string, user: string, scope: string)
    ensures Colons(BudgetKey(tenant, user, scope)) == Colons(tenant) + Colons(user) + Colons(scope) + 2
  {
    ColonsAdd(tenant, ":");
    ColonsAdd(tenant + ":", user);
    ColonsAdd(tenant + ":" + user, ":");
    ColonsAdd(tenant + ":" + user + ":", scope);
    assert ":"[1..] == "";
  }

  /** No other budget is counted under this one's key. */
  ghost predicate Alone(tenant: string, user: string, scope: string) {
    forall t, u, s :: BudgetKey(t, u, s) == BudgetKey(tenant, user, scope) ==> t == tenant && u == user && s == scope
  }

  lemma CutAtColon(s: string) returns (head: string, tail: string)
    requires !ColonFree(s)
    ensures s == head + ":" + tail
  {
    var i :| 0 <= i < |s| && s[i] == ':';
    head, tail := s[..i], s[i + 1..];
  }

  /** A colon in the tenant id could as well end a shorter one, a colon in the user id extend the tenant's. */
  lemma ColonsCollide(tenant: string, user: string, scope: string)
    requires !ColonFree(tenant) || !ColonFree(user)
    ensures !Alone(tenant, user, scope)
  {
    if !ColonFree(tenant) {
      var head, tail := CutAtColon(tenant);
      assert BudgetKey(head, tail + ":" + user, scope) == BudgetKey(tenant, user, scope);
      assert |head| < |tenant|;
    } else {
      var head, tail := CutAtColon(user);
      assert BudgetKey(tenant + ":" + head, tail, scope) == BudgetKey(tenant, user, scope);
      assert |tenant + ":" + head| > |tenant|;
    }
  }

  /** For the colon-free scopes there are, a budget has its key to itself if and only if neither id has a colon. */
  lemma AloneExactly(tenant: string, user: string, scope: string)
    requires ColonFree(scope)
    ensures Alone(tenant, user, scope) <==> ColonFree(tenant) && ColonFree(user)
  {
    if ColonFree(tenant) && ColonFree(user) {
      NoColons(tenant);
      NoColons(user);
      NoColons(scope);
      ColonsOfKey(tenant, user, scope);
      forall t, u, s | BudgetKey(t, u, s) == BudgetKey(tenant, user, scope)
        ensures t == tenant && u == user && s == scope
      {
        ColonsOfKey(t, u, s);
        NoColons(t);
        NoColons(u);
        BudgetKeyInjective(t, u, s, tenant, user, scope);
      }
    } else {
      ColonsCollide(tenant, user, scope);
    }
  }

  /** A Redis counter belongs to one budget key and one window, whatever the key contains. */
  lemma RedisKeyInjective(key: string, start: nat, key': string, start': nat)
    requires RedisKey(key, start) == RedisKey(key', start')
    ensures key == key' && start == start'
  {
    TailsAgree("ratelimit:" + key, Decimal(start), "ratelimit:" + key', Decimal(start'));
    assert key == ("ratelimit:" + key)[10..] && key' == ("ratelimit:" + key')[10..];
    DecimalInjective(start, start');
  }

  // ---------------------------------------------------------------- budgets do not influence each other

  /** One call of enforce_rate_limit. */
  datatype Request = Request(tenant: string, user: string, scope: string, limit: int, window: real, now: real)

  function CallOf(q: Request): Call {
    Call(BudgetKey(q.tenant, q.user, q.scope), q.limit, q.window, q.now)
  }

  function CallsOf(qs: seq<Request>): (calls: seq<Call>)
    ensures |calls| == |qs| && forall i :: 0 <= i < |qs| ==>
      var q := qs[i]; calls[i] == Call(BudgetKey(q.tenant, q.user, q.scope), q.limit, q.window, q.now)
  {
    seq(|qs|, i requires 0 <= i < |qs| => CallOf(qs[i]))
  }

  predicate SameBudget(p: Request, q: Request) {
    p.tenant == q.tenant && p.user == q.user && p.scope == q.scope
  }

  /** The requests of one tenant, user and scope, in order. */
  function OfBudget(qs: seq<Request>, q: Request): seq<Request>
    decreases |qs|
  {
    if qs == [] then []
    else OfBudget(qs[..|qs| - 1], q) + (if SameBudget(qs[|qs| - 1], q) then [qs[|qs| - 1]] else [])
  }

  predicate ColonFreeIds(q: Request) {
    ColonFree(q.tenant) && ColonFree(q.user)
  }

  lemma SameKeyIsSameBudget(p: Request, q: Request)
    requires ColonFreeIds(p) && ColonFreeIds(q)
    ensures CallOf(p).key == CallOf(q).key <==> SameBudget(p, q)
  {
    if CallOf(p).key == CallOf(q).key {
      BudgetKeyInjective(p.tenant, p.user, p.scope, q.tenant, q.user, q.scope);
    }
  }

  /** Selecting by key and selecting by budget are the same. */
  lemma {:induction false} KeySelectsBudget(qs: seq<Request>, q: Request)
    requires ColonFreeIds(q) && forall i :: 0 <= i < |qs| ==> ColonFreeIds(qs[i])
    ensures ForKey(CallsOf(qs), CallOf(q).key) == CallsOf(OfBudget(qs, q))
    decreases |qs|
  {
    if qs == [] {
      assert CallsOf(qs) == [];
    } else {
      var n := |qs| - 1;
      KeySelectsBudget(qs[..n], q);
      SameKeyIsSameBudget(qs[n], q);
      assert CallsOf(qs)[..n] == CallsOf(qs[..n]);
      var mine := OfBudget(qs[..n], q);
      assert CallsOf(mine + [qs[n]]) == CallsOf(mine) + [CallOf(qs[n])];
    }
  }

  /** With colon-free ids, deleting every other budget's requests changes none of a budget's decisions: the
      j-th of its requests is decided as in a history of its own. */
  lemma OtherBudgetsDoNotMatter(qs: seq<Request>, i: nat)
    requires i < |qs| && forall k :: 0 <= k < |qs| ==> ColonFreeIds(qs[k])
    ensures var own := OfBudget(qs, qs[i]); var j := |OfBudget(qs[..i], qs[i])|;
      && j < |own| && own[j] == qs[i]
      && DecisionAt(CallsOf(own), j)
         == Decide(BucketAfter(ForKey(CallsOf(qs)[..i], CallOf(qs[i]).key)), CallOf(qs[i]))
  {
    var calls := CallsOf(qs);
    OtherKeysDoNotMatter(calls, i);
    KeySelectsBudget(qs, qs[i]);
    KeySelectsBudget(qs[..i], qs[i]);
    assert calls[..i] == CallsOf(qs[..i]);
    BudgetPosition(qs, i);
  }

  lemma {:induction false} BudgetPosition(qs: seq<Request>, i: nat)
    requires i < |qs|
    ensures var own := OfBudget(qs, qs[i]); var j := |OfBudget(qs[..i], qs[i])|; j < |own| && own[j] == qs[i]
    decreases |qs|
  {
    var n := |qs| - 1;
    if i < n {
      BudgetPosition(qs[..n], i);
      assert qs[..n][..i] == qs[..i];
    }
  }
}
