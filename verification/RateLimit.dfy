/**
  The rate limiter of rag/app/rate_limit.py: token buckets kept in a map that forgets its
  least recently used entry.  `now` is whatever the clock returned; a hash is a parameter.
 */
module RateLimit {
  import opened Prelude

  const ANONYMOUS_KEY := "anonymous"

  /** A bucket is kept per hashed credential and scope. */
  datatype Slot = Slot(key: string, scope: string)

  datatype Wait = Seconds(seconds: real) | Forever

  datatype Decision = Decision(allowed: bool, retryAfterSeconds: Wait, remaining: real) {
    /** Whole seconds, rounded up.  The source raises on an infinite wait, which `Valid` rules out. */
    function RetryAfter(): Option<int> {
      if allowed then Some(0)
      else match retryAfterSeconds
           case Forever => None
           case Seconds(s) => Some(if Ceil(s) < 1 then 1 else Ceil(s))
    }
  }

  datatype Bucket = Bucket(capacity: real, refill: real, tokens: real, updated: real)

  datatype Config = Config(enabled: bool, requestsPerMinute: int, burst: int,
                           ingestRequestsPerMinute: int, ingestBurst: int,
                           anonymousRequestsPerMinute: int, anonymousBurst: int, maxTrackedKeys: int) {
    predicate Valid() {
      && requestsPerMinute > 0 && burst >= requestsPerMinute
      && ingestRequestsPerMinute > 0 && ingestBurst > 0
      && anonymousRequestsPerMinute > 0 && anonymousBurst > 0
      && maxTrackedKeys > 0
    }

    function LimitsFor(slot: Slot): (real, real) {
      if slot.key == ANONYMOUS_KEY then (anonymousBurst as real, anonymousRequestsPerMinute as real / 60.0)
      else if slot.scope == "ingest" then (ingestBurst as real, ingestRequestsPerMinute as real / 60.0)
      else (burst as real, requestsPerMinute as real / 60.0)
    }
  }

  function Ceil(x: real): int { -(-x).Floor }

  function Min(x: real, y: real): real { if x <= y then x else y }

  function Max(x: real, y: real): real { if x >= y then x else y }

  function CredentialKey(hash: string -> string, token: Option<string>): string {
    match token
    case None => ANONYMOUS_KEY
    case Some(t) => if t == "" then ANONYMOUS_KEY else hash(t)
  }

  // ----- Specification of the limiter, on values

  function NewBucket(limits: (real, real), now: real): Bucket {
    Bucket(limits.0, limits.1, limits.0, now)
  }

  function Refilled(b: Bucket, now: real): real {
    Min(b.capacity, b.tokens + Max(0.0, now - b.updated) * b.refill)
  }

  function Spend(b: Bucket, now: real, amount: real): (Bucket, Decision) {
    var tokens := Refilled(b, now);
    if tokens >= amount then
      (b.(tokens := tokens - amount, updated := now), Decision(true, Seconds(0.0), tokens - amount))
    else
      (b.(tokens := tokens, updated := now),
       Decision(false, if b.refill > 0.0 then Seconds((amount - tokens) / b.refill) else Forever, tokens))
  }

  /** The ordered map: `order` lists the keys of `buckets`, least recently used first. */
  datatype Limiter = Limiter(order: seq<Slot>, buckets: map<Slot, Bucket>)

  const EMPTY := Limiter([], map[])

  function Without(order: seq<Slot>, slot: Slot): seq<Slot> {
    if order == [] then []
    else if order[0] == slot then Without(order[1..], slot)
    else [order[0]] + Without(order[1..], slot)
  }

  function Evict(l: Limiter, max: nat): Limiter
    decreases |l.order|
  {
    if |l.order| <= max then l
    else Evict(Limiter(l.order[1..], l.buckets - {l.order[0]}), max)
  }

  /** Makes `slot` the most recent entry; a new one may push out the oldest. */
  function Place(bound: Option<nat>, l: Limiter, slot: Slot, bucket: Bucket): Limiter {
    if slot in l.buckets then Limiter(Without(l.order, slot) + [slot], l.buckets)
    else
      var grown := Limiter(l.order + [slot], l.buckets[slot := bucket]);
      if bound.Some? then Evict(grown, bound.value) else grown
  }

  /** The bucket a call on `slot` is charged to. */
  function Charged(config: Config, l: Limiter, slot: Slot, now: real): Bucket {
    if slot in l.buckets then l.buckets[slot] else NewBucket(config.LimitsFor(slot), now)
  }

  /** `check` for an enabled limiter; `bound` is None for the limiter that never evicts. */
  function Check(config: Config, bound: Option<nat>, l: Limiter, slot: Slot, now: real): (Limiter, Decision) {
    var bucket := Charged(config, l, slot, now);
    var placed := Place(bound, l, slot, bucket);
    var (spent, decision) := Spend(bucket, now, 1.0);
    (if slot in placed.buckets then placed.(buckets := placed.buckets[slot := spent]) else placed, decision)
  }

  // ----- The classes

  class TokenBucket {
    const capacity: real
    const refill: real
    var tokens: real
    var updated: real

    ghost function View(): Bucket
      reads this
    {
      Bucket(capacity, refill, tokens, updated)
    }

    constructor (capacity: real, refillPerSecond: real, now: real)
      ensures View() == NewBucket((capacity, refillPerSecond), now)
    {
      this.capacity, refill := capacity, refillPerSecond;
      tokens, updated := capacity, now;
    }

    method Consume(now: real, amount: real := 1.0) returns (decision: Decision)
      modifies this
      ensures (View(), decision) == Spend(old(View()), now, amount)
    {
      var elapsed := Max(0.0, now - updated);
      ghost var before := View();
      tokens := Min(capacity, tokens + elapsed * refill);
      updated := now;
      assert tokens == Refilled(before, now);
      hide Refilled, Min, Max;
      if tokens >= amount {
        tokens := tokens - amount;
        return Decision(true, Seconds(0.0), tokens);
      }
      var deficit := amount - tokens;
      var wait := if refill > 0.0 then Seconds(deficit / refill) else Forever;
      return Decision(false, wait, tokens);
    }
  }

  class RateLimiter {
    const config: Config
    const hash: string -> string
    var order: seq<Slot>
    var buckets: map<Slot, TokenBucket>

    ghost predicate Valid()
      reads this
    {
      config.Valid() && Tracks(order, buckets)
    }

    ghost function View(): Limiter
      reads this, buckets.Values
    {
      Limiter(order, map s | s in buckets :: buckets[s].View())
    }

    constructor (config: Config, hash: string -> string)
      requires config.Valid()
      ensures Valid() && this.config == config && this.hash == hash && View() == EMPTY
    {
      this.config, this.hash := config, hash;
      order, buckets := [], map[];
    }

    method EvictIfNeeded()
      requires Valid()
      modifies this`order, this`buckets
      ensures Valid()
      ensures order == old(order)[Excess(old(order), config.maxTrackedKeys)..]
      ensures buckets == old(buckets) - Elements(old(order)[..Excess(old(order), config.maxTrackedKeys)])
    {
      hide Tracks, Elements;
      NothingDropped(order, buckets);
      ghost var gone := 0;
      while |order| > config.maxTrackedKeys
        invariant gone <= Excess(old(order), config.maxTrackedKeys) && order == old(order)[gone..]
        invariant buckets == old(buckets) - Elements(old(order)[..gone])
        decreases |order|
      {
        OneMoreDropped(old(order), old(buckets), gone);
        order, buckets := order[1..], buckets - {order[0]};
        gone := gone + 1;
      }
      DroppingKeepsTracks(old(order), old(buckets), gone);
    }

    method Insert(slot: Slot, bucket: TokenBucket)
      requires Valid() && slot !in buckets && bucket !in buckets.Values
      modifies this`order, this`buckets
      ensures Valid()
      ensures View() == Evict(Limiter(old(order) + [slot], old(View()).buckets[slot := bucket.View()]),
                              config.maxTrackedKeys)
      ensures slot in buckets ==> buckets[slot] == bucket
      ensures forall s :: s in buckets && s != slot ==> s in old(buckets) && buckets[s] == old(buckets)[s]
      ensures slot !in buckets ==> bucket !in buckets.Values
    {
      hide Tracks, Elements, Evict, Excess;
      InsertTracks(order, buckets, slot, bucket);
      order, buckets := order + [slot], buckets[slot := bucket];
      ghost var grown := View();
      assert grown == Limiter(old(order) + [slot], old(View()).buckets[slot := bucket.View()]);
      EvictIfNeeded();
      EvictDropsExcess(grown, config.maxTrackedKeys);
      assert View() == Evict(grown, config.maxTrackedKeys);
    }

    /** Finds or creates the bucket of `slot` and makes it the most recent one. */
    method Touch(slot: Slot, now: real) returns (bucket: TokenBucket)
      requires Valid()
      modifies this`order, this`buckets
      ensures Valid()
      ensures bucket.View() == Charged(config, old(View()), slot, now)
      ensures View() == Place(Some(config.maxTrackedKeys), old(View()), slot, bucket.View())
      ensures slot in buckets ==> buckets[slot] == bucket
      ensures bucket in old(buckets.Values) || fresh(bucket)
      ensures forall s :: s in buckets && s != slot ==> s in old(buckets) && buckets[s] == old(buckets)[s]
      ensures slot !in buckets ==> bucket !in buckets.Values
    {
      hide Tracks, Without, Evict, Config.LimitsFor;
      if slot in buckets {
        bucket := buckets[slot];
        MovingTracks(order, buckets, slot);
        order := Without(order, slot) + [slot];
      } else {
        var (capacity, refill) := config.LimitsFor(slot);
        bucket := new TokenBucket(capacity, refill, now);
        assert View() == old(View());
        Insert(slot, bucket);
      }
    }

    method CheckLimit(token: Option<string>, now: real, scope: string := "read") returns (decision: Decision)
      requires Valid()
      modifies this`order, this`buckets, buckets.Values
      ensures Valid()
      ensures !config.enabled ==> decision == Decision(true, Seconds(0.0), 0.0) && View() == old(View())
      ensures config.enabled ==>
                (View(), decision)
                == Check(config, Some(config.maxTrackedKeys), old(View()), Slot(CredentialKey(hash, token), scope), now)
      ensures forall b :: b in buckets.Values ==> b in old(buckets.Values) || fresh(b)
    {
      if !config.enabled {
        return Decision(true, Seconds(0.0), 0.0);
      }
      hide Tracks, Place, Spend, Charged;
      var slot := Slot(CredentialKey(hash, token), scope);
      var bucket := Touch(slot, now);
      ghost var placed := View();
      decision := bucket.Consume(now);
      OneBucketSpent(slot, bucket, placed);
    }

    /** Spending from `bucket` alone turns the view `placed` into the present one. */
    lemma OneBucketSpent(slot: Slot, bucket: TokenBucket, placed: Limiter)
      requires Tracks(order, buckets) && placed.order == order && placed.buckets.Keys == buckets.Keys
      requires if slot in buckets then buckets[slot] == bucket else bucket !in buckets.Values
      requires forall s :: s in buckets && buckets[s] != bucket ==> placed.buckets[s] == buckets[s].View()
      ensures View()
           == if slot in placed.buckets then placed.(buckets := placed.buckets[slot := bucket.View()]) else placed
    {
      NotShared(order, buckets, slot, bucket);
      hide Tracks;
    }
  }

  // ----- Facts about the ordered map

  /** `order` lists the keys of the map once each, and no bucket is shared. */
  ghost predicate Tracks(order: seq<Slot>, buckets: map<Slot, TokenBucket>) {
    && NoDuplicates(order) && (forall s :: s in order <==> s in buckets)
    && forall s, t :: s in buckets && t in buckets && buckets[s] == buckets[t] ==> s == t
  }

  lemma MovingTracks(order: seq<Slot>, buckets: map<Slot, TokenBucket>, slot: Slot)
    requires Tracks(order, buckets) && slot in buckets
    ensures Tracks(Without(order, slot) + [slot], buckets)
    ensures forall s :: s in buckets && s != slot ==> buckets[s] != buckets[slot]
  {
    WithoutRemoves(order, slot);
    hide NoDuplicates, Without;
  }

  lemma NotShared(order: seq<Slot>, buckets: map<Slot, TokenBucket>, slot: Slot, bucket: TokenBucket)
    requires Tracks(order, buckets)
    requires if slot in buckets then buckets[slot] == bucket else bucket !in buckets.Values
    ensures forall s :: s in buckets && s != slot ==> buckets[s] != bucket
  {
  }

  function Excess(order: seq<Slot>, max: nat): nat {
    if |order| <= max then 0 else |order| - max
  }

  function Elements(order: seq<Slot>): set<Slot> {
    set s | s in order
  }

  lemma {:induction false} EvictDropsExcess(l: Limiter, max: nat)
    ensures var k := Excess(l.order, max);
            Evict(l, max) == Limiter(l.order[k..], l.buckets - Elements(l.order[..k]))
    decreases |l.order|
  {
    var k := Excess(l.order, max);
    if k > 0 {
      var tail := l.order[1..];
      EvictDropsExcess(Limiter(tail, l.buckets - {l.order[0]}), max);
      assert tail[..k - 1] == l.order[1..k] && l.order[..k] == [l.order[0]] + tail[..k - 1];
      assert l.buckets - Elements(l.order[..k]) == l.buckets - {l.order[0]} - Elements(tail[..k - 1]);
    } else {
      assert l.buckets - Elements(l.order[..0]) == l.buckets;
    }
  }

  lemma InsertTracks(order: seq<Slot>, buckets: map<Slot, TokenBucket>, slot: Slot, bucket: TokenBucket)
    requires Tracks(order, buckets) && slot !in buckets && bucket !in buckets.Values
    ensures Tracks(order + [slot], buckets[slot := bucket])
  {
  }

  lemma NothingDropped<V>(order: seq<Slot>, buckets: map<Slot, V>)
    ensures order == order[0..] && buckets == buckets - Elements(order[..0])
  {
  }

  lemma OneMoreDropped<V>(order: seq<Slot>, buckets: map<Slot, V>, k: nat)
    requires k < |order|
    ensures order[k..][1..] == order[k + 1..] && order[k..][0] == order[k]
    ensures buckets - Elements(order[..k]) - {order[k]} == buckets - Elements(order[..k + 1])
  {
    assert order[..k + 1] == order[..k] + [order[k]];
  }

  lemma {:induction false} DroppingKeepsTracks(order: seq<Slot>, buckets: map<Slot, TokenBucket>, k: nat)
    requires Tracks(order, buckets) && k <= |order|
    ensures Tracks(order[k..], buckets - Elements(order[..k]))
  {
    if k == 0 {
      NothingDropped(order, buckets);
    } else {
      DroppingKeepsTracks(order, buckets, k - 1);
      OneMoreDropped(order, buckets, k - 1);
      TailHasNoHead(order[k - 1..]);
    }
  }

  predicate NoDuplicates(order: seq<Slot>) {
    forall i, j :: 0 <= i < j < |order| ==> order[i] != order[j]
  }

  ghost predicate Valid(l: Limiter) {
    NoDuplicates(l.order) && forall s :: s in l.order <==> s in l.buckets
  }

  lemma TailHasNoHead(order: seq<Slot>)
    requires NoDuplicates(order) && order != []
    ensures NoDuplicates(order[1..]) && forall s :: s in order[1..] <==> s in order && s != order[0]
  {
    forall s | s in order && s != order[0]
      ensures s in order[1..]
    {
      var i :| 0 <= i < |order| && order[i] == s;
      assert order[1..][i - 1] == s;
    }
  }

  lemma {:induction false} WithoutRemoves(order: seq<Slot>, slot: Slot)
    requires NoDuplicates(order)
    ensures forall s :: s in Without(order, slot) <==> s in order && s != slot
    ensures NoDuplicates(Without(order, slot) + [slot])
    ensures |Without(order, slot)| == |order| - (if slot in order then 1 else 0)
  {
    if order != [] {
      TailHasNoHead(order);
      WithoutRemoves(order[1..], slot);
      assert order == [order[0]] + order[1..];
      if order[0] != slot {
        var rest := Without(order[1..], slot) + [slot];
        assert order[0] !in rest && Without(order, slot) + [slot] == [order[0]] + rest;
      }
    }
  }

  lemma {:induction false} EvictKeepsSuffix(l: Limiter, max: nat)
    requires Valid(l)
    ensures var e := Evict(l, max);
            && Valid(e) && |e.order| == (if |l.order| <= max then |l.order| else max)
            && e.order == l.order[|l.order| - |e.order|..]
            && forall s :: s in e.buckets ==> s in l.buckets && e.buckets[s] == l.buckets[s]
    decreases |l.order|
  {
    if |l.order| > max {
      DropOldest(l);
      hide Valid;
      var t := Limiter(l.order[1..], l.buckets - {l.order[0]});
      EvictKeepsSuffix(t, max);
      assert Evict(l, max) == Evict(t, max);
      hide Evict;
      SuffixOfTail(l.order, |Evict(t, max).order|);
    } else {
      assert l.order[0..] == l.order;
    }
  }

  lemma DropOldest(l: Limiter)
    requires Valid(l) && l.order != []
    ensures Valid(Limiter(l.order[1..], l.buckets - {l.order[0]}))
  {
    TailHasNoHead(l.order);
    hide NoDuplicates;
  }

  lemma SuffixOfTail(order: seq<Slot>, n: nat)
    requires n < |order|
    ensures order[1..][|order| - 1 - n..] == order[|order| - n..]
  {
  }

  // ----- What every check keeps

  /** Every tracked bucket has the limits of its slot and a balance within them. */
  ghost predicate Sound(config: Config, l: Limiter) {
    && Valid(l)
    && forall s :: s in l.buckets ==>
                     var b := l.buckets[s];
                     (b.capacity, b.refill) == config.LimitsFor(s) && 0.0 <= b.tokens <= b.capacity
  }

  lemma LimitsArePositive(config: Config, slot: Slot)
    requires config.Valid()
    ensures config.LimitsFor(slot).0 >= 1.0 && config.LimitsFor(slot).1 > 0.0
  {
  }

  lemma RefillIsBounded(b: Bucket, now: real)
    requires 0.0 <= b.tokens <= b.capacity && b.refill >= 0.0
    ensures b.tokens <= Refilled(b, now) <= b.capacity
  {
  }

  lemma PlaceEffect(bound: Option<nat>, l: Limiter, slot: Slot, bucket: Bucket)
    requires Valid(l) && (bound.Some? ==> bound.value > 0) && (slot in l.buckets ==> bucket == l.buckets[slot])
    ensures var p := Place(bound, l, slot, bucket);
            && Valid(p) && slot in p.buckets && p.buckets[slot] == bucket
            && p.order[|p.order| - 1] == slot
            && (forall s :: s != slot && s in p.buckets ==> s in l.buckets && p.buckets[s] == l.buckets[s])
            && (bound.None? ==> forall s :: s in l.buckets ==> s in p.buckets)
            && (bound.Some? && |l.order| <= bound.value ==> |p.order| <= bound.value)
  {
    hide Evict;
    if slot in l.buckets {
      WithoutRemoves(l.order, slot);
    } else {
      var grown := Limiter(l.order + [slot], l.buckets[slot := bucket]);
      assert Valid(grown) && grown.buckets[grown.order[|grown.order| - 1]] == bucket;
      hide Valid;
      if bound.Some? {
        EvictKeepsLast(grown, bound.value);
      }
    }
  }

  lemma EvictKeepsLast(l: Limiter, max: nat)
    requires Valid(l) && l.order != [] && max > 0
    ensures var e, slot := Evict(l, max), l.order[|l.order| - 1];
            && Valid(e) && e.order != [] && e.order[|e.order| - 1] == slot
            && slot in e.buckets && e.buckets[slot] == l.buckets[slot]
            && |e.order| == (if |l.order| <= max then |l.order| else max)
            && forall s :: s in e.buckets ==> s in l.buckets && e.buckets[s] == l.buckets[s]
  {
    EvictKeepsSuffix(l, max);
    hide Evict;
    var e := Evict(l, max);
    assert e.order[|e.order| - 1] in e.order;
  }

  /** What a check leading from `l` to `l'` with decision `d` may do. */
  ghost predicate Effect(config: Config, bound: Option<nat>, l: Limiter, slot: Slot, now: real, l': Limiter,
                         d: Decision) {
    && Sound(config, l') && slot in l'.buckets
    && l'.order != [] && l'.order[|l'.order| - 1] == slot
    && (l'.buckets[slot], d) == Spend(Charged(config, l, slot, now), now, 1.0)
    && (forall s :: s != slot && s in l'.buckets ==> s in l.buckets && l'.buckets[s] == l.buckets[s])
    && (bound.None? ==> forall s :: s in l.buckets ==> s in l'.buckets)
    && (bound.Some? && |l.order| <= bound.value ==> |l'.order| <= bound.value)
  }

  /**
    One check: the slot just used is tracked as the most recent one, its bucket is spent
    from what it held (full when new), the others are untouched or, if there is a bound,
    forgotten; the balances stay within their limits and the map within its bound.
   */
  lemma CheckEffect(config: Config, bound: Option<nat>, l: Limiter, slot: Slot, now: real)
    requires config.Valid() && Sound(config, l) && (bound.Some? ==> bound.value > 0)
    ensures var (l', d) := Check(config, bound, l, slot, now); Effect(config, bound, l, slot, now, l', d)
  {
    hide Place, Spend, NoDuplicates;
    var bucket := Charged(config, l, slot, now);
    LimitsArePositive(config, slot);
    PlaceEffect(bound, l, slot, bucket);
    SpendStaysWithin(bucket, now);
  }

  lemma SpendStaysWithin(b: Bucket, now: real)
    requires 0.0 <= b.tokens <= b.capacity && b.refill >= 0.0
    ensures var b' := Spend(b, now, 1.0).0; 0.0 <= b'.tokens <= b.capacity == b'.capacity && b'.refill == b.refill
  {
    RefillIsBounded(b, now);
  }

  // ----- Runs

  datatype Call = Call(slot: Slot, now: real)

  function Run(config: Config, bound: Option<nat>, l: Limiter, calls: seq<Call>): Limiter
    decreases |calls|
  {
    if calls == [] then l
    else Run(config, bound, Check(config, bound, l, calls[0].slot, calls[0].now).0, calls[1..])
  }

  /** How many of the calls on `slot` are admitted. */
  function Admitted(config: Config, bound: Option<nat>, l: Limiter, calls: seq<Call>, slot: Slot): nat
    decreases |calls|
  {
    if calls == [] then 0
    else
      var (l', d) := Check(config, bound, l, calls[0].slot, calls[0].now);
      (if calls[0].slot == slot && d.allowed then 1 else 0) + Admitted(config, bound, l', calls[1..], slot)
  }

  /** How many times the bucket of `slot` is forgotten. */
  function Evictions(config: Config, bound: Option<nat>, l: Limiter, calls: seq<Call>, slot: Slot): nat
    decreases |calls|
  {
    if calls == [] then 0
    else
      var l' := Check(config, bound, l, calls[0].slot, calls[0].now).0;
      (if slot in l.buckets && slot !in l'.buckets then 1 else 0) + Evictions(config, bound, l', calls[1..], slot)
  }

  lemma {:induction false} RunIsSound(config: Config, bound: Option<nat>, l: Limiter, calls: seq<Call>)
    requires config.Valid() && Sound(config, l) && (bound.Some? ==> bound.value > 0)
    ensures Sound(config, Run(config, bound, l, calls))
    decreases |calls|
  {
    hide Check;
    if calls != [] {
      CheckEffect(config, bound, l, calls[0].slot, calls[0].now);
      RunIsSound(config, bound, Check(config, bound, l, calls[0].slot, calls[0].now).0, calls[1..]);
    }
  }

  /**
    The bounded limiter tracks exactly the most recently used slots: its order is a suffix
    of the recency order kept by the limiter that never evicts, as long as the bound allows.
   */
  predicate TracksMostRecent(max: nat, l: Limiter, u: Limiter) {
    && |l.order| == (if |u.order| <= max then |u.order| else max)
    && l.order == u.order[|u.order| - |l.order|..]
  }

  lemma {:induction false} WithoutConcat(a: seq<Slot>, b: seq<Slot>, slot: Slot)
    ensures Without(a + b, slot) == Without(a, slot) + Without(b, slot)
  {
    if a == [] {
      assert a + b == b;
    } else {
      assert (a + b)[1..] == a[1..] + b;
      WithoutConcat(a[1..], b, slot);
    }
  }

  lemma {:induction false} WithoutAbsent(a: seq<Slot>, slot: Slot)
    requires slot !in a
    ensures Without(a, slot) == a
  {
    if a != [] {
      WithoutAbsent(a[1..], slot);
    }
  }

  lemma PlaceTracksMostRecent(max: nat, l: Limiter, u: Limiter, slot: Slot, b: Bucket, c: Bucket)
    requires max > 0 && Valid(l) && Valid(u) && TracksMostRecent(max, l, u)
    ensures TracksMostRecent(max, Place(Some(max), l, slot, b), Place(None, u, slot, c))
  {
    hide Without, Evict, NoDuplicates;
    assert |u.order| > |l.order| ==> |l.order| == max;
    var n := |u.order| - |l.order|;
    var old_, recent := u.order[..n], u.order[n..];
    assert u.order == old_ + recent;
    if slot in l.buckets {
      PlaceKnownTracksMostRecent(max, l, u, slot, b, c, old_, recent);
    } else {
      PlaceNewTracksMostRecent(max, l, u, slot, b, c, old_, recent);
    }
  }

  lemma PlaceKnownTracksMostRecent(max: nat, l: Limiter, u: Limiter, slot: Slot, b: Bucket, c: Bucket,
                                   old_: seq<Slot>, recent: seq<Slot>)
    requires max > 0 && Valid(l) && Valid(u) && TracksMostRecent(max, l, u)
    requires u.order == old_ + recent && recent == l.order && slot in l.buckets
    ensures TracksMostRecent(max, Place(Some(max), l, slot, b), Place(None, u, slot, c))
  {
    hide Without, Evict, NoDuplicates;
    RecentIsReplaced(old_, recent, slot);
    UnboundedOrder(u, slot, c);
    var p := Place(Some(max), l, slot, b);
    assert p.order == Without(recent, slot) + [slot];
    hide Valid, Place;
    assert old_ + Without(recent, slot) + [slot] == old_ + (Without(recent, slot) + [slot]);
    SuffixTracks(max, p, Place(None, u, slot, c), old_, p.order);
  }

  lemma PlaceNewTracksMostRecent(max: nat, l: Limiter, u: Limiter, slot: Slot, b: Bucket, c: Bucket,
                                 old_: seq<Slot>, recent: seq<Slot>)
    requires max > 0 && Valid(l) && Valid(u) && TracksMostRecent(max, l, u)
    requires u.order == old_ + recent && recent == l.order && slot !in l.buckets
    ensures TracksMostRecent(max, Place(Some(max), l, slot, b), Place(None, u, slot, c))
  {
    hide Without, Evict, NoDuplicates;
    NewestIsKept(max, l, slot, b);
    OldIsReplaced(old_, recent, slot);
    UnboundedOrder(u, slot, c);
    hide Valid, Place;
    var front := Without(old_, slot);
    assert front + recent + [slot] == front + (recent + [slot]);
    SuffixTracks(max, Place(Some(max), l, slot, b), Place(None, u, slot, c), front, recent + [slot]);
  }

  lemma UnboundedOrder(u: Limiter, slot: Slot, c: Bucket)
    requires Valid(u)
    ensures Place(None, u, slot, c).order == Without(u.order, slot) + [slot]
  {
    if slot !in u.order {
      WithoutAbsent(u.order, slot);
    }
  }

  lemma SuffixTracks(max: nat, l: Limiter, u: Limiter, front: seq<Slot>, back: seq<Slot>)
    requires u.order == front + back && |l.order| <= |back| && l.order == back[|back| - |l.order|..]
    requires |l.order| == if |u.order| <= max then |u.order| else max
    ensures TracksMostRecent(max, l, u)
  {
  }

  lemma RecentIsReplaced(old_: seq<Slot>, recent: seq<Slot>, slot: Slot)
    requires NoDuplicates(old_ + recent) && slot in recent
    ensures Without(old_ + recent, slot) == old_ + Without(recent, slot)
    ensures |Without(recent, slot)| == |recent| - 1
  {
    WithoutConcat(old_, recent, slot);
    forall i | 0 <= i < |old_|
      ensures old_[i] != slot
    {
      var j :| 0 <= j < |recent| && recent[j] == slot;
      assert (old_ + recent)[i] != (old_ + recent)[|old_| + j];
    }
    WithoutAbsent(old_, slot);
    NoDuplicatesSuffix(old_, recent);
    WithoutRemoves(recent, slot);
  }

  lemma OldIsReplaced(old_: seq<Slot>, recent: seq<Slot>, slot: Slot)
    requires NoDuplicates(old_ + recent) && slot !in recent
    ensures Without(old_ + recent, slot) == Without(old_, slot) + recent
    ensures |Without(old_, slot)| == |old_| - (if slot in old_ then 1 else 0)
  {
    WithoutConcat(old_, recent, slot);
    WithoutAbsent(recent, slot);
    WithoutRemoves(old_ + recent, slot);
  }

  lemma NoDuplicatesSuffix(a: seq<Slot>, b: seq<Slot>)
    requires NoDuplicates(a + b)
    ensures NoDuplicates(b)
  {
    forall i, j | 0 <= i < j < |b|
      ensures b[i] != b[j]
    {
      assert (a + b)[|a| + i] != (a + b)[|a| + j];
    }
  }

  lemma NewestIsKept(max: nat, l: Limiter, slot: Slot, b: Bucket)
    requires Valid(l) && slot !in l.buckets
    ensures var order := Place(Some(max), l, slot, b).order;
            && |order| == (if |l.order| < max then |l.order| + 1 else max)
            && order == (l.order + [slot])[|l.order| + 1 - |order|..]
  {
    var grown := Limiter(l.order + [slot], l.buckets[slot := b]);
    assert Valid(grown);
    EvictKeepsSuffix(grown, max);
  }

  lemma {:induction false} LruTracksMostRecent(config: Config, max: nat, l: Limiter, u: Limiter, calls: seq<Call>)
    requires config.Valid() && max > 0 && Sound(config, l) && Sound(config, u) && TracksMostRecent(max, l, u)
    ensures TracksMostRecent(max, Run(config, Some(max), l, calls), Run(config, None, u, calls))
    decreases |calls|
  {
    hide TracksMostRecent, Effect, Place, Sound;
    if calls != [] {
      var slot, now := calls[0].slot, calls[0].now;
      CheckEffect(config, Some(max), l, slot, now);
      CheckEffect(config, None, u, slot, now);
      var (l', d) := Check(config, Some(max), l, slot, now);
      var (u', e) := Check(config, None, u, slot, now);
      EffectIsSound(config, Some(max), l, slot, now, l', d);
      EffectIsSound(config, None, u, slot, now, u', e);
      CheckTracksMostRecent(config, max, l, u, slot, now);
      LruTracksMostRecent(config, max, l', u', calls[1..]);
    }
  }

  lemma CheckTracksMostRecent(config: Config, max: nat, l: Limiter, u: Limiter, slot: Slot, now: real)
    requires max > 0 && Sound(config, l) && Sound(config, u) && TracksMostRecent(max, l, u)
    ensures TracksMostRecent(max, Check(config, Some(max), l, slot, now).0, Check(config, None, u, slot, now).0)
  {
    hide Place;
    PlaceTracksMostRecent(max, l, u, slot, Charged(config, l, slot, now), Charged(config, u, slot, now));
  }

  // ----- Main result 1: forgetting a bucket never costs admissions

  /** The bounded limiter is `lead` admissions ahead on `slot`, and can afford it. */
  predicate Ahead(config: Config, l: Limiter, u: Limiter, slot: Slot, lead: int) {
    && lead >= 0
    && (slot in l.buckets ==>
          && slot in u.buckets && l.buckets[slot].updated == u.buckets[slot].updated
          && l.buckets[slot].tokens + lead as real >= u.buckets[slot].tokens)
  }

  lemma ConsumeKeepsLead(b: Bucket, c: Bucket, now: real, lead: nat)
    requires b.capacity == c.capacity && b.refill == c.refill >= 0.0
    requires Refilled(b, now) + lead as real >= Refilled(c, now)
    ensures var (b', d) := Spend(b, now, 1.0);
            var (c', e) := Spend(c, now, 1.0);
            var lead' := lead + (if d.allowed then 1 else 0) - (if e.allowed then 1 else 0);
            lead' >= 0 && b'.updated == c'.updated && b'.tokens + lead' as real >= c'.tokens
  {
  }

  function Gain(call: Call, slot: Slot, d: Decision, e: Decision): int {
    if call.slot != slot then 0 else (if d.allowed then 1 else 0) - (if e.allowed then 1 else 0)
  }

  lemma EffectKeepsLead(config: Config, max: nat, l: Limiter, u: Limiter, call: Call, slot: Slot, lead: nat,
                        l': Limiter, d: Decision, u': Limiter, e: Decision)
    requires config.Valid() && Sound(config, l) && Sound(config, u) && Ahead(config, l, u, slot, lead)
    requires Effect(config, Some(max), l, call.slot, call.now, l', d)
    requires Effect(config, None, u, call.slot, call.now, u', e)
    ensures Ahead(config, l', u', slot, lead + Gain(call, slot, d, e))
  {
    if call.slot == slot {
      var b, c := Charged(config, l, slot, call.now), Charged(config, u, slot, call.now);
      LimitsArePositive(config, slot);
      RefillIsBounded(c, call.now);
      RefillKeepsLead(b, c, call.now, lead as real);
      ConsumeKeepsLead(b, c, call.now, lead);
    }
  }

  lemma RefillKeepsLead(b: Bucket, c: Bucket, now: real, lead: real)
    requires b.capacity == c.capacity && b.refill == c.refill >= 0.0 && lead >= 0.0
    requires 0.0 <= c.tokens <= c.capacity
    requires (b.updated == c.updated && b.tokens + lead >= c.tokens) || b.tokens == b.capacity
    ensures Refilled(b, now) + lead >= Refilled(c, now)
  {
    RefillIsBounded(c, now);
  }

  lemma {:induction false} LeadLasts(config: Config, max: nat, l: Limiter, u: Limiter, calls: seq<Call>, slot: Slot,
                                     lead: nat)
    requires config.Valid() && max > 0 && Sound(config, l) && Sound(config, u) && Ahead(config, l, u, slot, lead)
    ensures lead + Admitted(config, Some(max), l, calls, slot) >= Admitted(config, None, u, calls, slot)
    decreases |calls|
  {
    if calls != [] {
      var call := calls[0];
      CheckEffect(config, Some(max), l, call.slot, call.now);
      CheckEffect(config, None, u, call.slot, call.now);
      var (l', d) := Check(config, Some(max), l, call.slot, call.now);
      var (u', e) := Check(config, None, u, call.slot, call.now);
      EffectKeepsLead(config, max, l, u, call, slot, lead, l', d, u', e);
      LeadLasts(config, max, l', u', calls[1..], slot, lead + Gain(call, slot, d, e));
    }
  }

  /**
    Eviction only ever grants budget: on every sequence of calls, with any clock, the limiter
    that forgets has admitted at least as many requests of every slot as one that never does.
   */
  lemma EvictionNeverRevokes(config: Config, calls: seq<Call>, slot: Slot)
    requires config.Valid()
    ensures Admitted(config, Some(config.maxTrackedKeys), EMPTY, calls, slot)
         >= Admitted(config, None, EMPTY, calls, slot)
  {
    LeadLasts(config, config.maxTrackedKeys, EMPTY, EMPTY, calls, slot, 0);
  }

  /** The calls on one slot. */
  function OwnCalls(calls: seq<Call>, slot: Slot): seq<Call> {
    if calls == [] then []
    else if calls[0].slot == slot then [calls[0]] + OwnCalls(calls[1..], slot)
    else OwnCalls(calls[1..], slot)
  }

  /** The two limiters keep the same bucket for `slot`, if any. */
  predicate SameBucket(l: Limiter, m: Limiter, slot: Slot) {
    (slot in l.buckets <==> slot in m.buckets) && (slot in l.buckets ==> l.buckets[slot] == m.buckets[slot])
  }

  lemma {:induction false} OthersDoNotMatter(config: Config, l: Limiter, m: Limiter, calls: seq<Call>, slot: Slot)
    requires config.Valid() && Sound(config, l) && Sound(config, m) && SameBucket(l, m, slot)
    ensures Admitted(config, None, l, calls, slot) == Admitted(config, None, m, OwnCalls(calls, slot), slot)
    decreases |calls|
  {
    hide Check, Sound;
    if calls != [] {
      var call := calls[0];
      CheckEffect(config, None, l, call.slot, call.now);
      CheckEffect(config, None, m, call.slot, call.now);
      var (l', d) := Check(config, None, l, call.slot, call.now);
      var (m', e) := Check(config, None, m, call.slot, call.now);
      if call.slot == slot {
        assert OwnCalls(calls, slot)[1..] == OwnCalls(calls[1..], slot);
        OthersDoNotMatter(config, l', m', calls[1..], slot);
      } else {
        OthersDoNotMatter(config, l', m, calls[1..], slot);
      }
    }
  }

  /**
    No traffic on other slots, however heavy, costs a slot admissions: the limiter admits at
    least as many of its calls as one that never evicts and sees only those.
   */
  lemma OthersCannotStarve(config: Config, calls: seq<Call>, slot: Slot)
    requires config.Valid()
    ensures Admitted(config, Some(config.maxTrackedKeys), EMPTY, calls, slot)
         >= Admitted(config, None, EMPTY, OwnCalls(calls, slot), slot)
  {
    EvictionNeverRevokes(config, calls, slot);
    OthersDoNotMatter(config, EMPTY, EMPTY, calls, slot);
  }

  // ----- Main result 2: at most the budget per window

  predicate NonDecreasing(calls: seq<Call>) {
    forall i, j :: 0 <= i < j < |calls| ==> calls[i].now <= calls[j].now
  }

  /** What flows into a bucket in `time`. */
  function Inflow(refill: real, time: real): real { refill * time }

  /** The budget of `n` full buckets. */
  function Bursts(n: nat, capacity: real): real { n as real * capacity }

  /** What `slot` could spend at `now`. */
  function Available(config: Config, l: Limiter, slot: Slot, now: real): real {
    if slot in l.buckets then Refilled(l.buckets[slot], now) else config.LimitsFor(slot).0
  }

  predicate UpdatedBy(l: Limiter, now: real) {
    forall s :: s in l.buckets ==> l.buckets[s].updated <= now
  }

  lemma InflowAdds(refill: real, x: real, y: real)
    requires refill >= 0.0 && x >= 0.0 && y >= 0.0
    ensures 0.0 <= Inflow(refill, x + y) == Inflow(refill, x) + Inflow(refill, y)
    ensures Inflow(refill, x) >= 0.0 && Inflow(refill, y) >= 0.0
  {
  }

  lemma RefillGrows(b: Bucket, now: real, later: real)
    requires b.refill >= 0.0 && b.updated <= now <= later
    ensures Refilled(b, later) <= Refilled(b, now) + Inflow(b.refill, later - now)
  {
    var x, y := now - b.updated, later - now;
    InflowAdds(b.refill, x, y);
    assert Refilled(b, now) == Min(b.capacity, b.tokens + Inflow(b.refill, x));
    assert Refilled(b, later) == Min(b.capacity, b.tokens + Inflow(b.refill, x + y));
  }

  lemma AvailableGrows(config: Config, l: Limiter, slot: Slot, now: real, later: real)
    requires config.Valid() && Sound(config, l) && UpdatedBy(l, now) && now <= later
    ensures 0.0 <= Available(config, l, slot, now) <= config.LimitsFor(slot).0
    ensures Available(config, l, slot, later)
         <= Available(config, l, slot, now) + Inflow(config.LimitsFor(slot).1, later - now)
  {
    hide Refilled, Inflow;
    LimitsArePositive(config, slot);
    if slot in l.buckets {
      RefillIsBounded(l.buckets[slot], now);
      RefillGrows(l.buckets[slot], now, later);
    } else {
      InflowAdds(config.LimitsFor(slot).1, later - now, 0.0);
    }
  }

  lemma EffectSpendsAvailable(config: Config, max: nat, l: Limiter, call: Call, slot: Slot, l': Limiter, d: Decision)
    requires config.Valid() && Sound(config, l) && UpdatedBy(l, call.now)
    requires Effect(config, Some(max), l, call.slot, call.now, l', d)
    ensures UpdatedBy(l', call.now)
    ensures (if call.slot == slot && d.allowed then 1.0 else 0.0) + Available(config, l', slot, call.now)
         <= Available(config, l, slot, call.now)
            + (if slot in l.buckets && slot !in l'.buckets then config.LimitsFor(slot).0 else 0.0)
  {
    AvailableGrows(config, l, slot, call.now, call.now);
    LimitsArePositive(config, slot);
  }

  lemma {:induction false} SpendingIsBounded(config: Config, max: nat, l: Limiter, calls: seq<Call>, slot: Slot)
    requires config.Valid() && max > 0 && Sound(config, l)
    requires calls != [] && NonDecreasing(calls) && UpdatedBy(l, calls[0].now)
    ensures var (capacity, refill) := config.LimitsFor(slot);
            Admitted(config, Some(max), l, calls, slot) as real
            <= Available(config, l, slot, calls[0].now) + Bursts(Evictions(config, Some(max), l, calls, slot), capacity)
               + Inflow(refill, calls[|calls| - 1].now - calls[0].now)
    decreases |calls|
  {
    hide *;
    var (capacity, refill) := config.LimitsFor(slot);
    var call, rest := calls[0], calls[1..];
    CheckEffect(config, Some(max), l, call.slot, call.now);
    var (l', d) := Check(config, Some(max), l, call.slot, call.now);
    EffectIsSound(config, Some(max), l, call.slot, call.now, l', d);
    EffectSpendsAvailable(config, max, l, call, slot, l', d);
    UnfoldCounts(config, Some(max), l, calls, slot);
    if rest == [] {
      UnfoldCounts(config, Some(max), l', rest, slot);
      NothingFlows(capacity, refill);
      AvailableGrows(config, l', slot, call.now, call.now);
      AddWindows(if call.slot == slot && d.allowed then 1 else 0, 0,
                 if slot in l.buckets && slot !in l'.buckets then 1 else 0, 0,
                 Available(config, l, slot, call.now), Available(config, l', slot, call.now),
                 Available(config, l', slot, call.now),
                 capacity, refill, call.now, call.now, call.now);
    } else {
      NonDecreasingTail(calls, l');
      SpendingIsBounded(config, max, l', rest, slot);
      AvailableGrows(config, l', slot, call.now, rest[0].now);
      AddWindows(if call.slot == slot && d.allowed then 1 else 0, Admitted(config, Some(max), l', rest, slot),
                 if slot in l.buckets && slot !in l'.buckets then 1 else 0,
                    Evictions(config, Some(max), l', rest, slot),
                 Available(config, l, slot, call.now), Available(config, l', slot, call.now),
                 Available(config, l', slot, rest[0].now),
                 capacity, refill, call.now, rest[0].now, calls[|calls| - 1].now);
    }
  }

  lemma EffectIsSound(config: Config, bound: Option<nat>, l: Limiter, slot: Slot, now: real, l': Limiter, d: Decision)
    requires Effect(config, bound, l, slot, now, l', d)
    ensures Sound(config, l')
  {
  }

  lemma NonDecreasingTail(calls: seq<Call>, l: Limiter)
    requires |calls| > 1 && NonDecreasing(calls) && UpdatedBy(l, calls[0].now)
    ensures NonDecreasing(calls[1..]) && calls[0].now <= calls[1..][0].now && UpdatedBy(l, calls[1..][0].now)
    ensures calls[1..][|calls[1..]| - 1] == calls[|calls| - 1]
  {
  }

  lemma UnfoldCounts(config: Config, bound: Option<nat>, l: Limiter, calls: seq<Call>, slot: Slot)
    ensures calls == [] ==> Admitted(config, bound, l, calls, slot) == Evictions(config, bound, l, calls, slot) == 0
    ensures calls != [] ==>
              var (l', d) := Check(config, bound, l, calls[0].slot, calls[0].now);
              && Admitted(config, bound, l, calls, slot)
              == (if calls[0].slot == slot && d.allowed then 1 else 0) + Admitted(config, bound, l', calls[1..], slot)
              && Evictions(config, bound, l, calls, slot)
              == (if slot in l.buckets && slot !in l'.buckets then 1 else 0)
                 + Evictions(config, bound, l', calls[1..], slot)
  {
    hide Check;
  }

  lemma NothingFlows(capacity: real, refill: real)
    ensures Inflow(refill, 0.0) == Bursts(0, capacity) == 0.0
  {
  }

  /** Joins what happened at t0 with what happened from t1 to t2. */
  lemma AddWindows(spent: nat, a: nat, lost: nat, e: nat, v: real, v0: real, v1: real,
                   capacity: real, refill: real, t0: real, t1: real, t2: real)
    requires lost <= 1 && spent as real + v0 <= v + (if lost == 1 then capacity else 0.0)
    requires v0 >= 0.0 && v1 <= v0 + Inflow(refill, t1 - t0)
    requires a as real <= v1 + Bursts(e, capacity) + Inflow(refill, t2 - t1)
    ensures (spent + a) as real <= v + Bursts(lost + e, capacity) + Inflow(refill, t2 - t0)
  {
    var e' := e as real;
    assert (lost + e) as real == lost as real + e';
    assert (lost as real + e') * capacity == lost as real * capacity + e' * capacity;
    assert refill * (t2 - t0) == refill * (t2 - t1) + refill * (t1 - t0);
  }

  lemma {:induction false} RunIsUpdatedBy(config: Config, max: nat, l: Limiter, calls: seq<Call>, now: real)
    requires config.Valid() && max > 0 && Sound(config, l) && UpdatedBy(l, now)
    requires forall i :: 0 <= i < |calls| ==> calls[i].now <= now
    ensures UpdatedBy(Run(config, Some(max), l, calls), now)
    decreases |calls|
  {
    hide Check;
    if calls != [] {
      CheckEffect(config, Some(max), l, calls[0].slot, calls[0].now);
      RunIsUpdatedBy(config, max, Check(config, Some(max), l, calls[0].slot, calls[0].now).0, calls[1..], now);
    }
  }

  /**
    In any window of any run whose clock does not go back, a slot is admitted at most one
    burst, plus one burst for each time it was forgotten, plus what flowed in meanwhile.
   */
  lemma WindowBound(config: Config, before: seq<Call>, window: seq<Call>, slot: Slot)
    requires config.Valid() && window != [] && NonDecreasing(before + window)
    ensures var max := Some(config.maxTrackedKeys);
            var (burst, refill) := config.LimitsFor(slot);
            var l := Run(config, max, EMPTY, before);
            Admitted(config, max, l, window, slot) as real
            <= Bursts(1 + Evictions(config, max, l, window, slot), burst)
               + Inflow(refill, window[|window| - 1].now - window[0].now)
  {
    hide Check, Available, Run, Admitted, Evictions, Inflow, Bursts, UpdatedBy, Sound, NonDecreasing;
    var max := config.maxTrackedKeys;
    var l := Run(config, Some(max), EMPTY, before);
    SplitClock(before, window);
    EmptyIsSound(config, window[0].now);
    RunIsSound(config, Some(max), EMPTY, before);
    RunIsUpdatedBy(config, max, EMPTY, before, window[0].now);
    WindowFrom(config, max, l, window, slot);
  }

  lemma SplitClock(before: seq<Call>, window: seq<Call>)
    requires window != [] && NonDecreasing(before + window)
    ensures NonDecreasing(window) && NonDecreasing(before)
    ensures forall i :: 0 <= i < |before| ==> before[i].now <= window[0].now
  {
    var all, n := before + window, |before|;
    forall i | 0 <= i < n
      ensures before[i].now <= window[0].now
    {
      assert all[i].now <= all[n].now;
    }
    forall i, j | 0 <= i < j < |window|
      ensures window[i].now <= window[j].now
    {
      assert all[n + i].now <= all[n + j].now;
    }
    forall i, j | 0 <= i < j < n
      ensures before[i].now <= before[j].now
    {
      assert all[i].now <= all[j].now;
    }
  }

  lemma EmptyIsSound(config: Config, now: real)
    ensures Sound(config, EMPTY) && UpdatedBy(EMPTY, now)
  {
  }

  lemma WindowFrom(config: Config, max: nat, l: Limiter, window: seq<Call>, slot: Slot)
    requires config.Valid() && max > 0 && Sound(config, l)
    requires window != [] && NonDecreasing(window) && UpdatedBy(l, window[0].now)
    ensures var (burst, refill) := config.LimitsFor(slot);
            Admitted(config, Some(max), l, window, slot) as real
            <= Bursts(1 + Evictions(config, Some(max), l, window, slot), burst)
               + Inflow(refill, window[|window| - 1].now - window[0].now)
  {
    hide *;
    SpendingIsBounded(config, max, l, window, slot);
    AvailableGrows(config, l, slot, window[0].now, window[0].now);
    OneMore(Evictions(config, Some(max), l, window, slot), config.LimitsFor(slot).0);
  }

  lemma OneMore(e: nat, capacity: real)
    ensures Bursts(1 + e, capacity) == capacity + Bursts(e, capacity)
  {
    assert (1 + e) as real == 1.0 + e as real;
  }

  // ----- Main result 3: the advertised wait is exact

  /**
    After a refusal, and without other requests, the request is admitted from the advertised
    wait on and not before; rounding up to whole seconds therefore never advertises too early.
   */
  lemma RetryAfterIsExact(b: Bucket, now: real, delay: real)
    requires b.capacity >= 1.0 && b.refill > 0.0 && 0.0 <= b.tokens <= b.capacity && delay >= 0.0
    requires !Spend(b, now, 1.0).1.allowed
    ensures var (b', d) := Spend(b, now, 1.0);
            && d.retryAfterSeconds.Seconds?
            && (Spend(b', now + delay, 1.0).1.allowed <==> delay >= d.retryAfterSeconds.seconds)
            && d.RetryAfter().Some?
            && (delay >= d.RetryAfter().value as real ==> Spend(b', now + delay, 1.0).1.allowed)
  {
    var (b', d) := Spend(b, now, 1.0);
    var wait := d.retryAfterSeconds.seconds;
    assert wait * b.refill == 1.0 - b'.tokens;
    if delay >= wait {
      assert delay * b.refill >= wait * b.refill;
    } else {
      assert delay * b.refill < wait * b.refill;
    }
  }

  // ----- Request by request, the two limiters differ

  const TINY := Config(true, 1, 1, 1, 1, 1, 1, 1)

  /**
    The comparison with the limiter that never evicts is about totals: the two limiters below
    start alike, and after three calls the same fourth call is admitted only by the one that
    never evicts.
   */
  lemma SingleRequestsMayDiffer(bound: Option<nat>)
    requires bound == None || bound == Some(TINY.maxTrackedKeys)
    ensures var a, b := Slot(ANONYMOUS_KEY, "read"), Slot(ANONYMOUS_KEY, "ingest");
            var calls := [Call(a, 0.0), Call(b, 59.0), Call(a, 59.0)];
            && TINY.Valid() && NonDecreasing(calls)
            && (Check(TINY, bound, Run(TINY, bound, EMPTY, calls), a, 60.0).1.allowed <==> bound == None)
  {
    var a, b := Slot(ANONYMOUS_KEY, "read"), Slot(ANONYMOUS_KEY, "ingest");
    assert |"read"| != |"ingest"|;
    TinyIsValid();
    assert TINY.maxTrackedKeys == 1;
    assert NonDecreasing([Call(a, 0.0), Call(b, 59.0), Call(a, 59.0)]);
    hide *;
    RunOfThree(bound, Call(a, 0.0), Call(b, 59.0), Call(a, 59.0));
    FourthCall(bound, a, b);
  }

  lemma FourthCall(bound: Option<nat>, a: Slot, b: Slot)
    requires bound == None || bound == Some(1)
    requires a.key == b.key == ANONYMOUS_KEY && a != b
    ensures var l1 := Check(TINY, bound, EMPTY, a, 0.0).0;
            var l2 := Check(TINY, bound, l1, b, 59.0).0;
            var l3 := Check(TINY, bound, l2, a, 59.0).0;
            Check(TINY, bound, l3, a, 60.0).1.allowed <==> bound == None
  {
    TinyIsValid();
    EmptyIsSound(TINY, 0.0);
    hide *;
    CheckEffect(TINY, bound, EMPTY, a, 0.0);
    var (l1, d1) := Check(TINY, bound, EMPTY, a, 0.0);
    EffectIsSound(TINY, bound, EMPTY, a, 0.0, l1, d1);
    CheckEffect(TINY, bound, l1, b, 59.0);
    var (l2, d2) := Check(TINY, bound, l1, b, 59.0);
    EffectIsSound(TINY, bound, l1, b, 59.0, l2, d2);
    CheckEffect(TINY, bound, l2, a, 59.0);
    var (l3, d3) := Check(TINY, bound, l2, a, 59.0);
    EffectIsSound(TINY, bound, l2, a, 59.0, l3, d3);
    CheckEffect(TINY, bound, l3, a, 60.0);
    var (l4, d4) := Check(TINY, bound, l3, a, 60.0);
    FourthDecision(bound, a, b, l1, d1, l2, d2, l3, d3, l4, d4);
  }

  lemma TinyIsValid()
    ensures TINY.Valid()
  {
  }

  lemma RunOfThree(bound: Option<nat>, c0: Call, c1: Call, c2: Call)
    ensures Run(TINY, bound, EMPTY, [c0, c1, c2])
         == Check(TINY, bound, Check(TINY, bound, Check(TINY, bound, EMPTY, c0.slot, c0.now).0, c1.slot, c1.now).0,
                  c2.slot, c2.now).0
  {
    hide Check;
    var l1 := Check(TINY, bound, EMPTY, c0.slot, c0.now).0;
    var l2 := Check(TINY, bound, l1, c1.slot, c1.now).0;
    assert [c0, c1, c2][1..] == [c1, c2] && [c1, c2][1..] == [c2] && [c2][1..] == [];
    assert Run(TINY, bound, EMPTY, [c0, c1, c2]) == Run(TINY, bound, l1, [c1, c2]);
    assert Run(TINY, bound, l1, [c1, c2]) == Run(TINY, bound, l2, [c2]);
  }

  lemma FourthDecision(bound: Option<nat>, a: Slot, b: Slot, l1: Limiter, d1: Decision, l2: Limiter, d2: Decision,
                       l3: Limiter, d3: Decision, l4: Limiter, d4: Decision)
    requires bound == None || bound == Some(1)
    requires a.key == b.key == ANONYMOUS_KEY && a != b
    requires Effect(TINY, bound, EMPTY, a, 0.0, l1, d1) && Effect(TINY, bound, l1, b, 59.0, l2, d2)
    requires Effect(TINY, bound, l2, a, 59.0, l3, d3) && Effect(TINY, bound, l3, a, 60.0, l4, d4)
    ensures d4.allowed <==> bound == None
  {
    hide Effect;
    ThirdState(bound, a, b, l1, d1, l2, d2, l3, d3);
    LastSpend(bound, a, l3, l4, d4);
  }

  lemma LastSpend(bound: Option<nat>, a: Slot, l3: Limiter, l4: Limiter, d4: Decision)
    requires a in l3.buckets && Effect(TINY, bound, l3, a, 60.0, l4, d4)
    requires l3.buckets[a] == Bucket(1.0, 1.0 / 60.0, if bound == None then 59.0 / 60.0 else 0.0, 59.0)
    ensures d4.allowed <==> bound == None
  {
  }

  lemma ThirdState(bound: Option<nat>, a: Slot, b: Slot, l1: Limiter, d1: Decision, l2: Limiter, d2: Decision,
                   l3: Limiter, d3: Decision)
    requires bound == None || bound == Some(1)
    requires a.key == b.key == ANONYMOUS_KEY && a != b
    requires Effect(TINY, bound, EMPTY, a, 0.0, l1, d1) && Effect(TINY, bound, l1, b, 59.0, l2, d2)
    requires Effect(TINY, bound, l2, a, 59.0, l3, d3)
    ensures a in l3.buckets && l3.buckets[a]
            == Bucket(1.0, 1.0 / 60.0, if bound == None then 59.0 / 60.0 else 0.0, 59.0)
  {
    SecondState(bound, a, b, l1, d1, l2, d2);
    SpentBucket(bound, l2, a, 59.0, l3, d3);
    TinyLimits(a);
    TinySpends(0.0, 0.0);
    TinySpends(1.0, 59.0);
    hide Effect, Spend, Config.LimitsFor;
  }

  lemma TinyLimits(slot: Slot)
    requires slot.key == ANONYMOUS_KEY
    ensures TINY.LimitsFor(slot) == (1.0, 1.0 / 60.0)
  {
  }

  lemma SpentBucket(bound: Option<nat>, l: Limiter, slot: Slot, now: real, l': Limiter, d: Decision)
    requires Effect(TINY, bound, l, slot, now, l', d)
    ensures slot in l'.buckets && l'.buckets[slot] == Spend(Charged(TINY, l, slot, now), now, 1.0).0
  {
  }

  lemma TinySpends(tokens: real, updated: real)
    requires (tokens, updated) == (0.0, 0.0) || (tokens, updated) == (1.0, 59.0)
    ensures Spend(Bucket(1.0, 1.0 / 60.0, tokens, updated), 59.0, 1.0).0
         == Bucket(1.0, 1.0 / 60.0, if updated == 0.0 then 59.0 / 60.0 else 0.0, 59.0)
  {
  }

  lemma SecondState(bound: Option<nat>, a: Slot, b: Slot, l1: Limiter, d1: Decision, l2: Limiter, d2: Decision)
    requires bound == None || bound == Some(1)
    requires a.key == b.key == ANONYMOUS_KEY && a != b
    requires Effect(TINY, bound, EMPTY, a, 0.0, l1, d1) && Effect(TINY, bound, l1, b, 59.0, l2, d2)
    ensures bound == None ==> a in l2.buckets && l2.buckets[a] == Bucket(1.0, 1.0 / 60.0, 0.0, 0.0)
    ensures bound == Some(1) ==> a !in l2.buckets
  {
    FirstBucket(bound, a, l1, d1);
    OthersAfter(bound, EMPTY, a, 0.0, l1, d1, b);
    OthersAfter(bound, l1, b, 59.0, l2, d2, a);
    hide *;
  }

  lemma OthersAfter(bound: Option<nat>, l: Limiter, slot: Slot, now: real, l': Limiter, d: Decision, other: Slot)
    requires Effect(TINY, bound, l, slot, now, l', d) && other != slot && (bound == None || bound == Some(1))
    ensures bound == None && other in l.buckets ==> other in l'.buckets && l'.buckets[other] == l.buckets[other]
    ensures bound == Some(1) && |l.order| <= 1 ==> other !in l'.buckets && |l'.order| <= 1
  {
    hide Spend, Charged, Config.LimitsFor;
    if bound == Some(1) && |l.order| <= 1 {
      assert l'.order == [slot];
    }
  }

  lemma FirstBucket(bound: Option<nat>, a: Slot, l1: Limiter, d1: Decision)
    requires a.key == ANONYMOUS_KEY && Effect(TINY, bound, EMPTY, a, 0.0, l1, d1)
    ensures a in l1.buckets && l1.buckets[a] == Bucket(1.0, 1.0 / 60.0, 0.0, 0.0)
  {
    SpentBucket(bound, EMPTY, a, 0.0, l1, d1);
    TinyLimits(a);
    hide Effect, Config.LimitsFor;
    assert Spend(Bucket(1.0, 1.0 / 60.0, 1.0, 0.0), 0.0, 1.0).0 == Bucket(1.0, 1.0 / 60.0, 0.0, 0.0);
  }

  /** What the calls are answered, one by one. */
  function Decisions(config: Config, bound: Option<nat>, l: Limiter, calls: seq<Call>): (r: seq<Decision>)
    ensures |r| == |calls|
    decreases |calls|
  {
    if calls == [] then []
    else
      var (l', d) := Check(config, bound, l, calls[0].slot, calls[0].now);
      [d] + Decisions(config, bound, l', calls[1..])
  }

  predicate Over(calls: seq<Call>, slots: set<Slot>) {
    forall i :: 0 <= i < |calls| ==> calls[i].slot in slots
  }

  lemma {:induction false} OrderSize(order: seq<Slot>)
    requires NoDuplicates(order)
    ensures |Elements(order)| == |order|
  {
    if order != [] {
      TailHasNoHead(order);
      OrderSize(order[1..]);
      assert Elements(order) == Elements(order[1..]) + {order[0]};
    }
  }

  /** While all slots fit into the map, nothing is evicted. */
  lemma FewSlotsCheckAlike(config: Config, max: nat, slots: set<Slot>, l: Limiter, slot: Slot, now: real)
    requires Valid(l) && |slots| <= max && l.buckets.Keys <= slots && slot in slots
    ensures Check(config, Some(max), l, slot, now) == Check(config, None, l, slot, now)
  {
    hide Spend, NoDuplicates;
    if slot !in l.buckets {
      OrderSize(l.order);
      assert Elements(l.order) == l.buckets.Keys;
      SubsetSize(l.buckets.Keys + {slot}, slots);
    }
  }

  lemma {:induction false} FewSlotsAgree(config: Config, max: nat, slots: set<Slot>, l: Limiter, calls: seq<Call>)
    requires config.Valid() && max > 0 && Sound(config, l)
    requires |slots| <= max && l.buckets.Keys <= slots && Over(calls, slots)
    ensures Run(config, Some(max), l, calls) == Run(config, None, l, calls)
    ensures Decisions(config, Some(max), l, calls) == Decisions(config, None, l, calls)
    decreases |calls|
  {
    hide Check, NoDuplicates;
    if calls != [] {
      var slot, now := calls[0].slot, calls[0].now;
      FewSlotsCheckAlike(config, max, slots, l, slot, now);
      CheckEffect(config, None, l, slot, now);
      var l' := Check(config, None, l, slot, now).0;
      assert l'.buckets.Keys <= slots;
      FewSlotsAgree(config, max, slots, l', calls[1..]);
    }
  }

  lemma {:induction false} RunConcat(config: Config, bound: Option<nat>, l: Limiter, a: seq<Call>, b: seq<Call>)
    ensures Run(config, bound, l, a + b) == Run(config, bound, Run(config, bound, l, a), b)
    ensures Decisions(config, bound, l, a + b)
         == Decisions(config, bound, l, a) + Decisions(config, bound, Run(config, bound, l, a), b)
    decreases |a|
  {
    hide Check;
    if a == [] {
      assert a + b == b;
    } else {
      assert (a + b)[1..] == a[1..] + b;
      RunConcat(config, bound, Check(config, bound, l, a[0].slot, a[0].now).0, a[1..], b);
    }
  }

  function Repeat(call: Call, n: nat): (r: seq<Call>)
    ensures |r| == n && forall i :: 0 <= i < n ==> r[i] == call
  {
    if n == 0 then [] else [call] + Repeat(call, n - 1)
  }

  function CallsOn(slots: seq<Slot>, now: real): (r: seq<Call>)
    ensures |r| == |slots| && forall i :: 0 <= i < |r| ==> r[i] == Call(slots[i], now)
  {
    seq(|slots|, i requires 0 <= i < |slots| => Call(slots[i], now))
  }

  /** The bucket of `slot` holds `tokens` as of `now`. */
  predicate Holds(l: Limiter, slot: Slot, tokens: real, now: real) {
    slot in l.buckets && l.buckets[slot].tokens == tokens && l.buckets[slot].updated == now
  }

  lemma RefilledAtOnce(b: Bucket, now: real)
    requires b.updated == now && b.tokens <= b.capacity
    ensures Refilled(b, now) == b.tokens
  {
  }

  /** One call with `tokens` available. */
  lemma CallSpends(config: Config, bound: Option<nat>, l: Limiter, slot: Slot, now: real, tokens: real)
    requires config.Valid() && Sound(config, l) && (bound.Some? ==> bound.value > 0)
    requires Refilled(Charged(config, l, slot, now), now) == tokens
    ensures var (l', d) := Check(config, bound, l, slot, now);
            && Sound(config, l') && (d.allowed <==> tokens >= 1.0)
            && Holds(l', slot, if tokens >= 1.0 then tokens - 1.0 else tokens, now)
            && Refilled(Charged(config, l', slot, now), now) == l'.buckets[slot].tokens
  {
    CheckEffect(config, bound, l, slot, now);
    hide Check, Refilled, NoDuplicates, Config.LimitsFor;
    RefilledAtOnce(Check(config, bound, l, slot, now).0.buckets[slot], now);
  }

  /** Of `n` calls at once, as many are admitted as there are tokens. */
  lemma {:induction false} CallsAtOnce(config: Config, bound: Option<nat>, l: Limiter, slot: Slot, now: real,
                                       tokens: nat, n: nat)
    requires config.Valid() && Sound(config, l) && (bound.Some? ==> bound.value > 0) && n > 0
    requires Refilled(Charged(config, l, slot, now), now) == tokens as real
    ensures var calls := Repeat(Call(slot, now), n);
            var l' := Run(config, bound, l, calls);
            && Sound(config, l') && Holds(l', slot, if n < tokens then (tokens - n) as real else 0.0, now)
            && Admitted(config, bound, l, calls, slot) == if n < tokens then n else tokens
    decreases n
  {
    hide Check, Sound, Refilled, Charged;
    CallSpends(config, bound, l, slot, now, tokens as real);
    var l' := Check(config, bound, l, slot, now).0;
    var left := if tokens > 0 then tokens - 1 else 0;
    assert Repeat(Call(slot, now), n)[1..] == Repeat(Call(slot, now), n - 1);
    if n > 1 {
      CallsAtOnce(config, bound, l', slot, now, left, n - 1);
    }
  }

  /** As many calls at once as there are tokens empty the bucket. */
  lemma BurstEmpties(config: Config, bound: Option<nat>, l: Limiter, slot: Slot, now: real, n: nat)
    requires config.Valid() && Sound(config, l) && (bound.Some? ==> bound.value > 0) && n > 0
    requires Refilled(Charged(config, l, slot, now), now) == n as real
    ensures var l' := Run(config, bound, l, Repeat(Call(slot, now), n)); Sound(config, l') && Holds(l', slot, 0.0, now)
  {
    hide *;
    CallsAtOnce(config, bound, l, slot, now, n, n);
  }

  /** Calls at once with less than a token only note the time. */
  lemma {:induction false} RefusalsKeep(config: Config, bound: Option<nat>, l: Limiter, slot: Slot, now: real,
                                        n: nat, tokens: real)
    requires config.Valid() && Sound(config, l) && (bound.Some? ==> bound.value > 0) && n > 0 && tokens < 1.0
    requires Refilled(Charged(config, l, slot, now), now) == tokens
    ensures var l' := Run(config, bound, l, Repeat(Call(slot, now), n));
            Sound(config, l') && Holds(l', slot, tokens, now)
    decreases n
  {
    hide Check, Sound, Refilled, Charged;
    CallSpends(config, bound, l, slot, now, tokens);
    var l' := Check(config, bound, l, slot, now).0;
    if n > 1 {
      RefusalsKeep(config, bound, l', slot, now, n - 1, tokens);
    } else {
      assert Repeat(Call(slot, now), 1)[1..] == [];
    }
  }

  /** Without a bound, calls on other, new slots only add entries. */
  lemma {:induction false} NewSlotsAppend(config: Config, l: Limiter, slots: seq<Slot>, now: real)
    requires config.Valid() && Sound(config, l) && NoDuplicates(l.order + slots)
    ensures var l' := Run(config, None, l, CallsOn(slots, now));
            && Sound(config, l') && l'.order == l.order + slots
            && forall s :: s in l.buckets ==> s in l'.buckets && l'.buckets[s] == l.buckets[s]
    decreases |slots|
  {
    if slots != [] {
      var l' := Check(config, None, l, slots[0], now).0;
      CheckEffect(config, None, l, slots[0], now);
      IsNew(l.order, slots);
      assert l'.order == l.order + [slots[0]];
      assert l.order + slots == l'.order + slots[1..];
      assert CallsOn(slots, now)[1..] == CallsOn(slots[1..], now);
      hide Check, Sound, NoDuplicates, Spend, Charged;
      NewSlotsAppend(config, l', slots[1..], now);
    }
  }

  lemma IsNew(order: seq<Slot>, slots: seq<Slot>)
    requires NoDuplicates(order + slots) && slots != []
    ensures slots[0] !in order
  {
    forall i | 0 <= i < |order|
      ensures order[i] != slots[0]
    {
      assert (order + slots)[i] != (order + slots)[|order|];
    }
  }

  lemma {:induction false} RepeatOrder(config: Config, l: Limiter, slot: Slot, now: real, n: nat)
    requires config.Valid() && Sound(config, l) && n > 0
    requires l.order == [] || l.order == [slot]
    ensures Run(config, None, l, Repeat(Call(slot, now), n)).order == [slot]
    decreases n
  {
    StaysAlone(config, l, slot, now);
    assert Repeat(Call(slot, now), n)[1..] == Repeat(Call(slot, now), n - 1);
    hide Check, Sound;
    if n > 1 {
      RepeatOrder(config, Check(config, None, l, slot, now).0, slot, now, n - 1);
    }
  }

  lemma StaysAlone(config: Config, l: Limiter, slot: Slot, now: real)
    requires config.Valid() && Sound(config, l) && (l.order == [] || l.order == [slot])
    ensures var l' := Check(config, None, l, slot, now).0; Sound(config, l') && l'.order == [slot]
  {
    CheckEffect(config, None, l, slot, now);
    assert [slot][1..] == [] && Without([slot], slot) == [];
    assert slot in l.order <==> slot in l.buckets;
    hide Spend, Charged, Without, NoDuplicates, Config.LimitsFor;
  }

  lemma HalfToken(capacity: real, refill: real, now: real)
    requires capacity >= 1.0 && refill > 0.0
    ensures var half := 0.5 / refill;
            && half > 0.0
            && Refilled(Bucket(capacity, refill, 0.0, now), now + half) == 0.5
            && Refilled(Bucket(capacity, refill, 0.5, now), now + half) == 1.0
            && Refilled(Bucket(capacity, refill, capacity, now), now) == capacity
  {
    var half := 0.5 / refill;
    assert half * refill == 0.5;
    assert now + half - now == half;
  }

  /** How many tokens a bucket of `slot` holds. */
  function Capacity(config: Config, slot: Slot): (n: nat)
    requires config.Valid()
    ensures n > 0 && n as real == config.LimitsFor(slot).0
  {
    if slot.key == ANONYMOUS_KEY then config.anonymousBurst
    else if slot.scope == "ingest" then config.ingestBurst
    else config.burst
  }

  /** The time in which half a token flows into a bucket of `slot`. */
  function Half(config: Config, slot: Slot): real
    requires config.Valid()
  {
    0.5 / config.LimitsFor(slot).1
  }

  /** As many calls on `slot` as its bucket holds. */
  function Burst(config: Config, slot: Slot, now: real): seq<Call>
    requires config.Valid()
  {
    Repeat(Call(slot, now), Capacity(config, slot))
  }

  /** A burst on `a`; half a token later a call on each of the others, and the burst again. */
  function Trial(config: Config, a: Slot, rest: seq<Slot>): seq<Call>
    requires config.Valid()
  {
    var half := Half(config, a);
    Burst(config, a, 0.0) + (CallsOn(rest, half) + Burst(config, a, half))
  }

  /** The state before the second burst. */
  function BeforeSecondBurst(config: Config, bound: Option<nat>, a: Slot, rest: seq<Slot>): Limiter
    requires config.Valid()
  {
    Run(config, bound, Run(config, bound, EMPTY, Burst(config, a, 0.0)), CallsOn(rest, Half(config, a)))
  }

  lemma TrialRuns(config: Config, bound: Option<nat>, a: Slot, rest: seq<Slot>)
    requires config.Valid()
    ensures Run(config, bound, EMPTY, Trial(config, a, rest))
         == Run(config, bound, BeforeSecondBurst(config, bound, a, rest), Burst(config, a, Half(config, a)))
    ensures BeforeSecondBurst(config, bound, a, rest)
         == Run(config, bound, EMPTY, Burst(config, a, 0.0) + CallsOn(rest, Half(config, a)))
  {
    var first, others, second := Burst(config, a, 0.0), CallsOn(rest, Half(config, a)),
                                 Burst(config, a, Half(config, a));
    hide *;
    RunConcat(config, bound, EMPTY, first, others + second);
    RunConcat(config, bound, Run(config, bound, EMPTY, first), others, second);
    RunConcat(config, bound, EMPTY, first, others);
    hide Run;
  }

  /** The unbounded limiter still knows that the bucket of `a` is empty. */
  lemma UnboundedRemembers(config: Config, a: Slot, rest: seq<Slot>)
    requires config.Valid() && NoDuplicates([a] + rest)
    ensures var u := BeforeSecondBurst(config, None, a, rest);
            Sound(config, u) && Holds(u, a, 0.0, 0.0) && u.order == [a] + rest
  {
    var c := Capacity(config, a);
    EmptyIsSound(config, 0.0);
    FullBucket(config, EMPTY, a, 0.0);
    BurstEmpties(config, None, EMPTY, a, 0.0, c);
    RepeatOrder(config, EMPTY, a, 0.0, c);
    NewSlotsAppend(config, Run(config, None, EMPTY, Repeat(Call(a, 0.0), c)), rest, Half(config, a));
    hide Run, Sound, NoDuplicates, Half, Capacity, Config.LimitsFor;
  }

  lemma FullBucket(config: Config, l: Limiter, a: Slot, now: real)
    requires config.Valid() && a !in l.buckets
    ensures Refilled(Charged(config, l, a, now), now) == config.LimitsFor(a).0
  {
    LimitsArePositive(config, a);
    HalfToken(config.LimitsFor(a).0, config.LimitsFor(a).1, now);
    hide Config.LimitsFor;
  }

  /** The bounded one has forgotten it. */
  lemma BoundedForgets(config: Config, max: nat, a: Slot, rest: seq<Slot>)
    requires config.Valid() && max > 0 && NoDuplicates([a] + rest) && |rest| == max
    ensures var l := BeforeSecondBurst(config, Some(max), a, rest); Sound(config, l) && a !in l.buckets
  {
    var calls := Burst(config, a, 0.0) + CallsOn(rest, Half(config, a));
    EmptyIsSound(config, 0.0);
    TrialRuns(config, Some(max), a, rest);
    TrialRuns(config, None, a, rest);
    UnboundedRemembers(config, a, rest);
    RunIsSound(config, Some(max), EMPTY, calls);
    LruTracksMostRecent(config, max, EMPTY, EMPTY, calls);
    var l := BeforeSecondBurst(config, Some(max), a, rest);
    hide Run, BeforeSecondBurst, Burst, CallsOn, Half, Config.LimitsFor, Trial;
    assert l.order == ([a] + rest)[1..] == rest;
    NotInRest(a, rest);
  }

  lemma NotInRest(a: Slot, rest: seq<Slot>)
    requires NoDuplicates([a] + rest)
    ensures a !in rest
  {
    forall i | 0 <= i < |rest|
      ensures rest[i] != a
    {
      assert ([a] + rest)[0] != ([a] + rest)[i + 1];
    }
  }

  lemma HalfATokenFlowsIn(config: Config, l: Limiter, a: Slot, tokens: real, now: real)
    requires config.Valid() && Sound(config, l) && Holds(l, a, tokens, now) && (tokens == 0.0 || tokens == 0.5)
    ensures Refilled(Charged(config, l, a, now + Half(config, a)), now + Half(config, a)) == tokens + 0.5
  {
    var (capacity, refill) := config.LimitsFor(a);
    LimitsArePositive(config, a);
    HalfToken(capacity, refill, now);
    hide Config.LimitsFor, Refilled, NoDuplicates;
    assert l.buckets[a] == Bucket(capacity, refill, tokens, now);
  }

  lemma BurstRepeats(config: Config, slot: Slot, now: real)
    requires config.Valid()
    ensures Burst(config, slot, now) == Repeat(Call(slot, now), Capacity(config, slot))
  {
    hide Capacity;
  }

  lemma UnboundedSavesHalf(config: Config, a: Slot, rest: seq<Slot>)
    requires config.Valid() && NoDuplicates([a] + rest)
    ensures var v := Run(config, None, EMPTY, Trial(config, a, rest));
            Sound(config, v) && Holds(v, a, 0.5, Half(config, a))
  {
    hide *;
    BurstRepeats(config, a, Half(config, a));
    var u := BeforeSecondBurst(config, None, a, rest);
    TrialRuns(config, None, a, rest);
    UnboundedRemembers(config, a, rest);
    var half := Half(config, a);
    HalfATokenFlowsIn(config, u, a, 0.0, 0.0);
    assert 0.0 + half == half;
    RefusalsKeep(config, None, u, a, half, Capacity(config, a), 0.5);
  }

  lemma UnboundedAdmits(config: Config, a: Slot, rest: seq<Slot>)
    requires config.Valid() && NoDuplicates([a] + rest)
    ensures var half := Half(config, a);
            Check(config, None, Run(config, None, EMPTY, Trial(config, a, rest)), a, half + half).1.allowed
  {
    hide *;
    UnboundedSavesHalf(config, a, rest);
    var v, half := Run(config, None, EMPTY, Trial(config, a, rest)), Half(config, a);
    HalfATokenFlowsIn(config, v, a, 0.5, half);
    CallSpends(config, None, v, a, half + half, 1.0);
  }

  lemma BoundedSpendsAll(config: Config, max: nat, a: Slot, rest: seq<Slot>)
    requires config.Valid() && max > 0 && NoDuplicates([a] + rest) && |rest| == max
    ensures var m := Run(config, Some(max), EMPTY, Trial(config, a, rest));
            Sound(config, m) && Holds(m, a, 0.0, Half(config, a))
  {
    hide *;
    BurstRepeats(config, a, Half(config, a));
    var l := BeforeSecondBurst(config, Some(max), a, rest);
    TrialRuns(config, Some(max), a, rest);
    BoundedForgets(config, max, a, rest);
    FullBucket(config, l, a, Half(config, a));
    BurstEmpties(config, Some(max), l, a, Half(config, a), Capacity(config, a));
  }

  lemma BoundedRefuses(config: Config, max: nat, a: Slot, rest: seq<Slot>)
    requires config.Valid() && max > 0 && NoDuplicates([a] + rest) && |rest| == max
    ensures var half := Half(config, a);
            !Check(config, Some(max), Run(config, Some(max), EMPTY, Trial(config, a, rest)), a, half + half).1.allowed
  {
    hide *;
    BoundedSpendsAll(config, max, a, rest);
    var m, half := Run(config, Some(max), EMPTY, Trial(config, a, rest)), Half(config, a);
    HalfATokenFlowsIn(config, m, a, 0.0, half);
    CallSpends(config, Some(max), m, a, half + half, 0.5);
  }

  lemma TrialIsOrdered(config: Config, a: Slot, rest: seq<Slot>, slots: set<Slot>)
    requires config.Valid() && Elements([a] + rest) <= slots
    ensures var half := Half(config, a);
            && NonDecreasing(Trial(config, a, rest) + [Call(a, half + half)])
            && Over(Trial(config, a, rest) + [Call(a, half + half)], slots)
  {
    LimitsArePositive(config, a);
    HalfToken(config.LimitsFor(a).0, config.LimitsFor(a).1, 0.0);
    hide Config.LimitsFor, Capacity;
    assert ([a] + rest)[0] == a && forall i :: 0 <= i < |rest| ==> ([a] + rest)[i + 1] == rest[i];
  }

  lemma {:induction false} Enumerate(slots: set<Slot>, n: nat) returns (s: seq<Slot>)
    requires n <= |slots|
    ensures |s| == n && NoDuplicates(s) && Elements(s) <= slots
  {
    if n == 0 {
      s := [];
    } else {
      var x :| x in slots;
      var t := Enumerate(slots - {x}, n - 1);
      s := [x] + t;
      assert forall i :: 0 <= i < |t| ==> t[i] in Elements(t);
    }
  }

  /** With a clock that does not go back, the last call is admitted by the unbounded limiter only. */
  predicate EndsDifferently(config: Config, max: nat, calls: seq<Call>) {
    && calls != [] && NonDecreasing(calls)
    && !Decisions(config, Some(max), EMPTY, calls)[|calls| - 1].allowed
    && Decisions(config, None, EMPTY, calls)[|calls| - 1].allowed
  }

  /** With more slots than the map holds, there is such a run on them. */
  lemma ManySlotsDiffer(config: Config, max: nat, slots: set<Slot>)
    requires config.Valid() && max > 0 && |slots| > max
    ensures exists calls :: Over(calls, slots) && EndsDifferently(config, max, calls)
  {
    var s := Enumerate(slots, max + 1);
    var a, rest := s[0], s[1..];
    assert s == [a] + rest;
    var trial, last := Trial(config, a, rest), Call(a, Half(config, a) + Half(config, a));
    var calls := trial + [last];
    hide Trial, Half, Check, Over, NonDecreasing, NoDuplicates, Elements;
    TrialIsOrdered(config, a, rest, slots);
    UnboundedAdmits(config, a, rest);
    BoundedRefuses(config, max, a, rest);
    LastDecision(config, None, trial, last);
    LastDecision(config, Some(max), trial, last);
    assert EndsDifferently(config, max, calls);
  }

  lemma LastDecision(config: Config, bound: Option<nat>, calls: seq<Call>, last: Call)
    ensures Decisions(config, bound, EMPTY, calls + [last])[|calls|]
         == Check(config, bound, Run(config, bound, EMPTY, calls), last.slot, last.now).1
  {
    hide Check, Run;
    RunConcat(config, bound, EMPTY, calls, [last]);
    assert Decisions(config, bound, Run(config, bound, EMPTY, calls), [last])
        == [Check(config, bound, Run(config, bound, EMPTY, calls), last.slot, last.now).1];
  }

  /**
    The exact condition request by request: the limiter that evicts answers every call on
    these slots as one that never does, if and only if the map can hold all of them.
   */
  lemma RequestsAgreeIff(config: Config, max: nat, slots: set<Slot>)
    requires config.Valid() && max > 0
    ensures (forall calls :: Over(calls, slots) ==>
               Decisions(config, Some(max), EMPTY, calls) == Decisions(config, None, EMPTY, calls))
       <==> |slots| <= max
  {
    hide Over, Decisions, NonDecreasing;
    if |slots| <= max {
      EmptyIsSound(config, 0.0);
      forall calls | Over(calls, slots)
        ensures Decisions(config, Some(max), EMPTY, calls) == Decisions(config, None, EMPTY, calls)
      {
        FewSlotsAgree(config, max, slots, EMPTY, calls);
      }
    } else {
      ManySlotsDiffer(config, max, slots);
      var calls :| Over(calls, slots) && EndsDifferently(config, max, calls);
    }
  }

  // ----- Which limits a caller gets

  /**
    A caller without a token gets the anonymous limits, whatever the scope; one with a token
    those of the scope "ingest", or else those of reading.  From a fresh limiter, exactly the
    burst is admitted of any number of calls at once; when it is used up, the next call is
    admitted from a sixtieth of a minute's allowance on, and not before.
   */
  lemma FreshCallerGetsLimits(config: Config, bound: Option<nat>, hash: string -> string, token: Option<string>,
                              scope: string, now: real, n: nat, delay: real)
    requires config.Valid() && (bound.Some? ==> bound.value > 0) && n > 0 && delay >= 0.0
    requires token.Some? && token.value != "" ==> hash(token.value) != "anonymous"
    ensures var (burst, perMinute) :=
              if token == None || token == Some("") then (config.anonymousBurst, config.anonymousRequestsPerMinute)
              else if scope == "ingest" then (config.ingestBurst, config.ingestRequestsPerMinute)
              else (config.burst, config.requestsPerMinute);
            var slot := Slot(CredentialKey(hash, token), scope);
            var calls := Repeat(Call(slot, now), n);
            && Admitted(config, bound, EMPTY, calls, slot) == (if n < burst then n else burst)
            && (n >= burst ==>
                  (Check(config, bound, Run(config, bound, EMPTY, calls), slot, now + delay).1.allowed
                   <==> delay >= 60.0 / perMinute as real))
  {
    var slot := Slot(CredentialKey(hash, token), scope);
    var (burst, perMinute) :=
      if token == None || token == Some("") then (config.anonymousBurst, config.anonymousRequestsPerMinute)
      else if scope == "ingest" then (config.ingestBurst, config.ingestRequestsPerMinute)
      else (config.burst, config.requestsPerMinute);
    assert config.LimitsFor(slot) == (burst as real, perMinute as real / 60.0);
    assert burst > 0 && perMinute > 0;
    hide Config.LimitsFor, CredentialKey, Config.Valid;
    EmptyIsSound(config, now);
    FullBucket(config, EMPTY, slot, now);
    CallsAtOnce(config, bound, EMPTY, slot, now, burst, n);
    if n >= burst {
      NextAfter(config, bound, Run(config, bound, EMPTY, Repeat(Call(slot, now), n)), slot, now, perMinute, delay);
    }
  }

  lemma NextAfter(config: Config, bound: Option<nat>, l: Limiter, slot: Slot, now: real, perMinute: int, delay: real)
    requires config.Valid() && Sound(config, l) && (bound.Some? ==> bound.value > 0) && delay >= 0.0 && perMinute > 0
    requires Holds(l, slot, 0.0, now) && config.LimitsFor(slot).1 == perMinute as real / 60.0
    ensures Check(config, bound, l, slot, now + delay).1.allowed <==> delay >= 60.0 / perMinute as real
  {
    LimitsArePositive(config, slot);
    var b := l.buckets[slot];
    hide Config.LimitsFor, NoDuplicates;
    assert b == Bucket(b.capacity, perMinute as real / 60.0, 0.0, now) && b.capacity >= 1.0;
    var tokens := Refilled(b, now + delay);
    TokenFlowsIn(b.capacity, now, perMinute, delay);
    hide Refilled;
    CallSpends(config, bound, l, slot, now + delay, tokens);
  }

  lemma TokenFlowsIn(capacity: real, now: real, perMinute: int, delay: real)
    requires capacity >= 1.0 && perMinute > 0 && delay >= 0.0
    ensures Refilled(Bucket(capacity, perMinute as real / 60.0, 0.0, now), now + delay) >= 1.0
       <==> delay >= 60.0 / perMinute as real
  {
    var rate, wait := perMinute as real / 60.0, 60.0 / perMinute as real;
    assert now + delay - now == delay;
    ProductOrder(delay, wait, rate);
    assert wait * rate == 1.0;
  }

  lemma ProductOrder(a: real, b: real, rate: real)
    requires rate > 0.0
    ensures a * rate >= b * rate <==> a >= b
  {
    if a < b {
      assert (b - a) * rate > 0.0;
    } else {
      assert (a - b) * rate >= 0.0;
    }
  }

  /** The tokens a decision reports as remaining are those left in the bucket. */
  lemma RemainingIsLeft(config: Config, bound: Option<nat>, l: Limiter, slot: Slot, now: real)
    requires config.Valid() && Sound(config, l) && (bound.Some? ==> bound.value > 0)
    ensures var (l', d) := Check(config, bound, l, slot, now);
            slot in l'.buckets && d.remaining == l'.buckets[slot].tokens
  {
    CheckEffect(config, bound, l, slot, now);
    hide Check, Refilled, NoDuplicates, Charged;
  }

  // ----- The bounds over whole runs

  /**
    After any calls, the limiter holds at most `maxTrackedKeys` buckets, namely those of the
    slots used most recently, each within the limits of its slot.
   */
  lemma RunStaysBounded(config: Config, calls: seq<Call>)
    requires config.Valid()
    ensures var l := Run(config, Some(config.maxTrackedKeys), EMPTY, calls);
            && Sound(config, l) && |l.order| <= config.maxTrackedKeys
            && TracksMostRecent(config.maxTrackedKeys, l, Run(config, None, EMPTY, calls))
  {
    RunIsSound(config, Some(config.maxTrackedKeys), EMPTY, calls);
    LruTracksMostRecent(config, config.maxTrackedKeys, EMPTY, EMPTY, calls);
  }
}
