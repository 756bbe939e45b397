/** Per-provider sliding-window rate limiting. Time is a natural number that never goes back. */
module RateLimiters {
  import opened Common

  type Provider = nat

  type Time = nat

  datatype ProviderLimit = ProviderLimit(maxRequests: nat, window: Time, timestamps: seq<Time>)

  /** `Panicked` is the `unwrap` of an empty deque. */
  datatype Verdict = Granted | Wait(delay: Time) | Panicked

  // ---- The simple form: count all past grants younger than the window ----

  ghost predicate Sorted(ts: seq<Time>) {
    forall i, j :: 0 <= i < j < |ts| ==> ts[i] <= ts[j]
  }

  function Young(grants: seq<Time>, now: Time, window: Time): (n: nat)
    ensures n <= |grants|
  {
    if grants == [] then 0
    else Young(grants[..|grants| - 1], now, window) + if now - grants[|grants| - 1] < window then 1 else 0
  }

  /** The most recent grants that the deque still holds. */
  function Recent(grants: seq<Time>, n: nat): seq<Time>
    requires n <= |grants|
  {
    grants[|grants| - n..]
  }

  lemma {:induction false} YoungIsSuffix(grants: seq<Time>, now: Time, window: Time)
    requires Sorted(grants)
    ensures forall i :: 0 <= i < |grants| ==>
              (now - grants[i] < window <==> i >= |grants| - Young(grants, now, window))
  {
    if grants != [] {
      var n := |grants| - 1;
      YoungIsSuffix(grants[..n], now, window);
      if now - grants[n] >= window {
        NoneYoung(grants[..n], now, window);
      }
    }
  }

  lemma {:induction false} NoneYoung(grants: seq<Time>, now: Time, window: Time)
    requires forall i :: 0 <= i < |grants| ==> now - grants[i] >= window
    ensures Young(grants, now, window) == 0
  {
    if grants != [] {
      NoneYoung(grants[..|grants| - 1], now, window);
    }
  }

  /** Fewer than `m` grants are young exactly when the m-th last has left the window. */
  lemma OldestDecides(grants: seq<Time>, now: Time, m: nat, window: Time)
    requires Sorted(grants) && 0 < m <= |grants|
    ensures Young(grants, now, window) < m <==> now - grants[|grants| - m] >= window
  {
    YoungIsSuffix(grants, now, window);
  }

  /** Any `m + 1` consecutive grants span at least the window. */
  ghost predicate Spaced(grants: seq<Time>, m: nat, window: Time) {
    forall i :: 0 <= i && i + m < |grants| ==> grants[i + m] - grants[i] >= window
  }

  /** Granting when fewer than `m` grants are young keeps the spacing. */
  lemma GrantKeepsSpacing(grants: seq<Time>, now: Time, m: nat, window: Time)
    requires Sorted(grants) && Spaced(grants, m, window) && Young(grants, now, window) < m
    requires forall i :: 0 <= i < |grants| ==> grants[i] <= now
    ensures Sorted(grants + [now]) && Spaced(grants + [now], m, window)
  {
    YoungIsSuffix(grants, now, window);
  }

  // ---- The limiter ----

  /** The deque after dropping what has left the window. */
  function Evict(ts: seq<Time>, now: Time, window: Time): seq<Time> {
    if ts != [] && now - ts[0] >= window then Evict(ts[1..], now, window) else ts
  }

  /** `try_acquire` for a provider that has a limit. */
  function Decide(l: ProviderLimit, now: Time): (Verdict, ProviderLimit) {
    var ts := Evict(l.timestamps, now, l.window);
    if |ts| < l.maxRequests then (Granted, l.(timestamps := ts + [now]))
    else if ts == [] then (Panicked, l.(timestamps := ts))
    else (Wait(if now - ts[0] <= l.window then l.window - (now - ts[0]) else 0), l.(timestamps := ts))
  }

  /** The deque is the tail of all grants, and everything before it has left the window for good. */
  ghost predicate Tracks(l: ProviderLimit, grants: seq<Time>, now: Time) {
    && Sorted(grants) && (forall i :: 0 <= i < |grants| ==> grants[i] <= now)
    && Spaced(grants, l.maxRequests, l.window)
    && |l.timestamps| <= |grants| && l.timestamps == Recent(grants, |l.timestamps|)
    && (forall i :: 0 <= i < |grants| - |l.timestamps| ==> now - grants[i] >= l.window)
  }

  lemma {:induction false} EvictLeavesYoung(ts: seq<Time>, grants: seq<Time>, now: Time, window: Time)
    requires Sorted(grants) && |ts| <= |grants| && ts == Recent(grants, |ts|)
    requires forall i :: 0 <= i < |grants| - |ts| ==> now - grants[i] >= window
    ensures Evict(ts, now, window) == Recent(grants, Young(grants, now, window))
    decreases |ts|
  {
    if ts != [] && now - ts[0] >= window {
      EvictLeavesYoung(ts[1..], grants, now, window);
    } else {
      YoungIsSuffix(grants, now, window);
      var first := |grants| - |ts|;
      assert ts != [] ==> ts[0] == grants[first];
      assert first > 0 ==> now - grants[first - 1] >= window;
    }
  }

  /** The deque decides exactly as counting all past grants would: a request is granted if and only if
      fewer than `maxRequests` grants are younger than the window. It panics only for the limit 0. */
  lemma DecidesAsCounting(l: ProviderLimit, grants: seq<Time>, now: Time)
    requires Tracks(l, grants, now)
    ensures var (v, after) := Decide(l, now);
            && (v == Granted <==> Young(grants, now, l.window) < l.maxRequests)
            && (v == Panicked <==> l.maxRequests == 0 && Young(grants, now, l.window) == 0)
            && after.maxRequests == l.maxRequests && after.window == l.window
            && Tracks(after, if v == Granted then grants + [now] else grants, now)
  {
    EvictLeavesYoung(l.timestamps, grants, now, l.window);
    KeepsTracking(l, grants, now);
    hide Tracks, Recent;
    assert |Recent(grants, Young(grants, now, l.window))| == Young(grants, now, l.window) by {
      RecentLength(grants, Young(grants, now, l.window));
    }
  }

  lemma RecentLength(grants: seq<Time>, n: nat)
    requires n <= |grants|
    ensures |Recent(grants, n)| == n
  {}

  lemma KeepsTracking(l: ProviderLimit, grants: seq<Time>, now: Time)
    requires Tracks(l, grants, now)
    ensures var (v, after) := Decide(l, now);
            Tracks(after, if v == Granted then grants + [now] else grants, now)
  {
    var n := Young(grants, now, l.window);
    EvictLeavesYoung(l.timestamps, grants, now, l.window);
    var evicted := l.(timestamps := Recent(grants, n));
    EvictedTracks(l, grants, now);
    if n < l.maxRequests {
      GrantedTracks(evicted, grants, now);
    }
    hide Tracks;
  }

  lemma EvictedTracks(l: ProviderLimit, grants: seq<Time>, now: Time)
    requires Tracks(l, grants, now)
    ensures Tracks(l.(timestamps := Recent(grants, Young(grants, now, l.window))), grants, now)
  {
    YoungIsSuffix(grants, now, l.window);
    hide Spaced;
  }

  lemma GrantedTracks(l: ProviderLimit, grants: seq<Time>, now: Time)
    requires Tracks(l, grants, now) && Young(grants, now, l.window) < l.maxRequests
    ensures Tracks(l.(timestamps := l.timestamps + [now]), grants + [now], now)
  {
    GrantKeepsSpacing(grants, now, l.maxRequests, l.window);
    hide Spaced, Sorted;
    assert Recent(grants, |l.timestamps|) + [now] == Recent(grants + [now], |l.timestamps| + 1);
  }

  lemma FreshTracks(l: ProviderLimit, now: Time)
    ensures l.timestamps == [] ==> Tracks(l, [], now)
  {}

  lemma TracksSpaced(l: ProviderLimit, grants: seq<Time>, now: Time)
    requires Tracks(l, grants, now)
    ensures Spaced(grants, l.maxRequests, l.window)
  {}

  /** With no grant in between, time only makes the deque's view older. */
  lemma TracksLater(l: ProviderLimit, grants: seq<Time>, now: Time, later: Time)
    requires Tracks(l, grants, now) && now <= later
    ensures Tracks(l, grants, later)
  {}

  /** A returned wait is positive, at most the window, and the least delay after which an undisturbed retry succeeds. */
  lemma WaitIsLeast(l: ProviderLimit, grants: seq<Time>, now: Time, d: Time)
    requires Tracks(l, grants, now) && l.maxRequests > 0 && Decide(l, now).0.Wait?
    ensures var (v, after) := Decide(l, now);
            && 0 < v.delay <= l.window
            && (Decide(after, now + d).0 == Granted <==> d >= v.delay)
  {
    hide Tracks, Decide, Young, Sorted;
    var (v, after) := Decide(l, now);
    WaitsForOldest(l, grants, now);
    OldestDecides(grants, now, l.maxRequests, l.window);
    OldestDecides(grants, now + d, l.maxRequests, l.window);
    DecidesAsCounting(l, grants, now);
    TracksLater(after, grants, now, now + d);
    DecidesAsCounting(after, grants, now + d);
  }

  lemma WaitsForOldest(l: ProviderLimit, grants: seq<Time>, now: Time)
    requires Tracks(l, grants, now) && l.maxRequests > 0 && Decide(l, now).0.Wait?
    ensures Sorted(grants) && l.maxRequests <= |grants|
    ensures 0 <= now - grants[|grants| - l.maxRequests] < l.window
    ensures Decide(l, now).0.delay == l.window - (now - grants[|grants| - l.maxRequests])
  {
    EvictLeavesYoung(l.timestamps, grants, now, l.window);
    YoungAtMostLimit(l, grants, now);
    YoungIsSuffix(grants, now, l.window);
  }

  /** Never more than the limit is young. */
  lemma YoungAtMostLimit(l: ProviderLimit, grants: seq<Time>, now: Time)
    requires Tracks(l, grants, now)
    ensures Young(grants, now, l.window) <= l.maxRequests
  {
    YoungIsSuffix(grants, now, l.window);
    if l.maxRequests < |grants| {
      var i := |grants| - 1 - l.maxRequests;
      assert grants[i + l.maxRequests] - grants[i] >= l.window && grants[i + l.maxRequests] <= now;
    }
  }

  class RateLimiter {
    var providers: map<Provider, ProviderLimit>
    var defaultLimit: Option<(nat, Time)>
    /** The grants of each limited provider since its limit was set, and the time of the last call. */
    ghost var grants: map<Provider, seq<Time>>
    ghost var clock: Time

    ghost predicate Valid()
      reads this
    {
      && grants.Keys == providers.Keys
      && forall p :: p in providers ==> Tracks(providers[p], grants[p], clock)
    }

    constructor ()
      ensures Valid() && providers == map[] && defaultLimit == None && grants == map[] && clock == 0
    {
      providers, defaultLimit, grants, clock := map[], None, map[], 0;
    }

    /** Setting a limit forgets the history of the provider. */
    method SetLimit(p: Provider, maxRequests: nat, window: Time)
      requires Valid()
      modifies this
      ensures Valid() && providers == old(providers)[p := ProviderLimit(maxRequests, window, [])]
      ensures grants == old(grants)[p := []] && clock == old(clock) && defaultLimit == old(defaultLimit)
    {
      providers := providers[p := ProviderLimit(maxRequests, window, [])];
      grants := grants[p := []];
    }

    method SetDefaultLimit(maxRequests: nat, window: Time)
      requires Valid()
      modifies this`defaultLimit
      ensures Valid() && defaultLimit == Some((maxRequests, window))
      ensures providers == old(providers) && grants == old(grants) && clock == old(clock)
    {
      defaultLimit := Some((maxRequests, window));
    }

    /** The limit that applies: the provider's own, or else the default. */
    ghost function LimitOf(p: Provider): Option<(nat, Time)>
      reads this
    {
      if p in providers then Some((providers[p].maxRequests, providers[p].window)) else defaultLimit
    }

    /** The state of the provider's window, with an untouched one where the default applies. */
    ghost function WindowOf(p: Provider): ProviderLimit
      requires LimitOf(p).Some?
      reads this
    {
      if p in providers then providers[p] else ProviderLimit(defaultLimit.value.0, defaultLimit.value.1, [])
    }

    ghost function GrantsOf(p: Provider): seq<Time>
      reads this
    {
      if p in grants then grants[p] else []
    }

    /** Decides as the naive count over all grants, for the limit that applies. */
    method TryAcquire(p: Provider, now: Time) returns (v: Verdict)
      requires Valid() && clock <= now
      modifies this
      ensures Valid() && clock == now && defaultLimit == old(defaultLimit)
      ensures old(LimitOf(p)).None? ==> v == Granted && providers == old(providers)
      ensures old(LimitOf(p)).Some? ==>
                var (m, w) := old(LimitOf(p)).value;
                && LimitOf(p) == old(LimitOf(p)) && v == Decide(old(WindowOf(p)), now).0
                && (v == Granted <==> Young(old(GrantsOf(p)), now, w) < m)
                && GrantsOf(p) == (if v == Granted then old(GrantsOf(p)) + [now] else old(GrantsOf(p)))
                && Spaced(GrantsOf(p), m, w)
                && (m > 0 ==> v != Panicked)
      ensures forall q :: q != p ==> LimitOf(q) == old(LimitOf(q)) && GrantsOf(q) == old(GrantsOf(q))
    {
      hide Tracks, Decide, Young, Spaced;
      Advance(now);
      if p !in providers {
        if defaultLimit.None? {
          return Granted;
        }
        SetLimit(p, defaultLimit.value.0, defaultLimit.value.1);
      }
      DecidesAsCounting(providers[p], grants[p], now);
      v := AcquireLimited(p, now);
      TracksSpaced(providers[p], grants[p], now);
    }

    ghost method Advance(now: Time)
      requires Valid() && clock <= now
      modifies this`clock
      ensures Valid() && clock == now
    {
      forall q | q in providers ensures Tracks(providers[q], grants[q], now) {
        TracksLater(providers[q], grants[q], clock, now);
      }
      clock := now;
    }

    /** For a provider that has a limit, at the current time. */
    method AcquireLimited(p: Provider, now: Time) returns (v: Verdict)
      requires Valid() && p in providers && now == clock
      modifies this`providers, this`grants
      ensures Valid()
      ensures (v, providers) == (Decide(old(providers)[p], now).0, old(providers)[p := Decide(old(providers)[p], now).1])
      ensures grants == old(grants)[p := if v == Granted then old(grants)[p] + [now] else old(grants)[p]]
    {
      hide Tracks, Decide;
      DecidesAsCounting(providers[p], grants[p], now);
      v := DecideFor(p, now);
      grants := grants[p := if v == Granted then grants[p] + [now] else grants[p]];
    }

    method DecideFor(p: Provider, now: Time) returns (v: Verdict)
      requires p in providers
      modifies this`providers
      ensures (v, providers) == (Decide(old(providers)[p], now).0, old(providers)[p := Decide(old(providers)[p], now).1])
    {
      var limit := providers[p];
      var ts := limit.timestamps;
      while ts != [] && now - ts[0] >= limit.window
        invariant Evict(ts, now, limit.window) == Evict(limit.timestamps, now, limit.window)
        decreases |ts|
      {
        ts := ts[1..];
      }
      if |ts| < limit.maxRequests {
        ts := ts + [now];
        v := Granted;
      } else if ts == [] {
        v := Panicked;
      } else {
        v := Wait(if now - ts[0] <= limit.window then limit.window - (now - ts[0]) else 0);
      }
      providers := providers[p := limit.(timestamps := ts)];
    }

    /** Other threads ask for the same provider `n` times at time `now`. */
    method Compete(p: Provider, now: Time, n: nat)
      requires Valid() && clock <= now
      modifies this
      ensures Valid() && clock <= now && LimitOf(p) == old(LimitOf(p)) && old(GrantsOf(p)) <= GrantsOf(p)
    {
      for i := 0 to n
        invariant Valid() && clock <= now && LimitOf(p) == old(LimitOf(p)) && old(GrantsOf(p)) <= GrantsOf(p)
      {
        var v := TryAcquire(p, now);
        UnlimitedHasNoGrants(p);
      }
    }

    lemma UnlimitedHasNoGrants(p: Provider)
      requires Valid()
      ensures LimitOf(p).None? ==> GrantsOf(p) == []
    {}

    /** The blocking form: sleeps and retries. `naps[i]` says how late its i-th sleep ends and how many requests of
        other threads come before the retry; after those, sleeps are punctual and undisturbed. It is granted after at
        most one sleep more than there are such naps, each asked for at most the window; without them at the earliest
        possible time. */
    method AcquireBlocking(p: Provider, now: Time, naps: seq<Nap>) returns (done: Time)
      requires Valid() && clock <= now
      requires LimitOf(p).Some? ==> LimitOf(p).value.0 > 0
      modifies this
      ensures Valid() && now <= done == clock && LimitOf(p) == old(LimitOf(p))
      ensures old(LimitOf(p)).None? ==> done == now
      ensures old(LimitOf(p)).Some? ==>
                var (m, w) := old(LimitOf(p)).value;
                && done <= now + (|naps| + 1) * w + Late(naps) && Spaced(GrantsOf(p), m, w)
                && old(GrantsOf(p)) < GrantsOf(p) && GrantsOf(p)[|GrantsOf(p)| - 1] == done
                && (naps == [] ==> GrantsOf(p) == old(GrantsOf(p)) + [done]
                                   && forall t: Time :: now <= t < done ==> Young(old(GrantsOf(p)), t, w) >= m)
    {
      hide Tracks, Decide, Young, Spaced, Late, FirstNaps;
      ghost var limit, past := LimitOf(p), GrantsOf(p);
      done := now;
      NoNaps(naps);
      var slept := 0;
      while true
        invariant Valid() && now <= done && clock <= done && LimitOf(p) == limit && past <= GrantsOf(p)
        invariant slept <= |naps| + 1
        invariant limit.None? ==> slept == 0 && done == now
        invariant limit.Some? ==> done <= now + slept * limit.value.1 + Late(FirstNaps(naps, slept))
        invariant slept > |naps| ==> Young(GrantsOf(p), done, limit.value.1) < limit.value.0
        invariant naps == [] ==> GrantsOf(p) == past
        invariant naps == [] && limit.Some? ==>
                    forall t: Time :: now <= t < done ==> Young(past, t, limit.value.1) >= limit.value.0
        decreases |naps| + 1 - slept
      {
        var v, delay := Attempt(p, done);
        if v == Granted {
          if limit.Some? {
            OneMoreWindow(slept, |naps| + 1, limit.value.1);
            LateGrows(naps, slept);
          }
          return;
        }
        OneMoreWindow(slept, slept + 1, limit.value.1);
        LateStep(naps, slept);
        done := done + delay;
        if slept < |naps| {
          done := done + naps[slept].late;
          Compete(p, done, naps[slept].rivals);
        }
        slept := slept + 1;
      }
    }

    /** One request, and the sleep it asks for. */
    method Attempt(p: Provider, now: Time) returns (v: Verdict, delay: Time)
      requires Valid() && clock <= now
      requires LimitOf(p).Some? ==> LimitOf(p).value.0 > 0
      modifies this
      ensures Valid() && clock == now && LimitOf(p) == old(LimitOf(p)) && v != Panicked
      ensures LimitOf(p).None? ==> v == Granted
      ensures LimitOf(p).Some? ==>
                var (m, w) := LimitOf(p).value;
                && Spaced(GrantsOf(p), m, w)
                && (v == Granted <==> Young(old(GrantsOf(p)), now, w) < m)
                && GrantsOf(p) == (if v == Granted then old(GrantsOf(p)) + [now] else old(GrantsOf(p)))
                && (v != Granted ==> 0 < delay <= w)
                && (v != Granted ==> forall t: Time :: now <= t ==> (Young(GrantsOf(p), t, w) < m <==> t >= now + delay))
    {
      hide Tracks, Decide, Young, Spaced;
      ghost var limit := if LimitOf(p).Some? then WindowOf(p) else ProviderLimit(1, 0, []);
      ghost var past := if LimitOf(p).Some? then GrantsOf(p) else [];
      FreshTracks(limit, clock);
      TracksLater(limit, past, clock, now);
      v := TryAcquire(p, now);
      delay := if v.Wait? then v.delay else 0;
      DecidesAsCounting(limit, past, now);
      if v.Wait? {
        forall t: Time | now <= t ensures Young(past, t, limit.window) < limit.maxRequests <==> t >= now + delay {
          WaitMeansCount(limit, past, now, t - now);
        }
        WaitMeansCount(limit, past, now, 0);
      }
    }
  }

  /** How much later than asked a sleep ends, and how many requests come before the retry. */
  datatype Nap = Nap(late: Time, rivals: nat)

  function Late(naps: seq<Nap>): Time {
    if naps == [] then 0 else Late(naps[..|naps| - 1]) + naps[|naps| - 1].late
  }

  function FirstNaps(naps: seq<Nap>, n: nat): seq<Nap> {
    if n <= |naps| then naps[..n] else naps
  }

  lemma NoNaps(naps: seq<Nap>)
    ensures Late(FirstNaps(naps, 0)) == 0
  {}

  lemma LateStep(naps: seq<Nap>, n: nat)
    ensures Late(FirstNaps(naps, n + 1)) == Late(FirstNaps(naps, n)) + if n < |naps| then naps[n].late else 0
  {
    if n < |naps| {
      assert naps[..n + 1][..n] == naps[..n];
    } else if n == |naps| {
      assert naps[..n] == naps;
    }
  }

  lemma {:induction false} LateGrows(naps: seq<Nap>, n: nat)
    ensures Late(FirstNaps(naps, n)) <= Late(naps)
  {
    if n < |naps| {
      LateGrows(naps[..|naps| - 1], n);
      assert FirstNaps(naps[..|naps| - 1], n) == FirstNaps(naps, n);
    } else if n == |naps| {
      assert naps[..n] == naps;
    }
  }

  lemma OneMoreWindow(n: nat, m: nat, w: Time)
    requires n <= m
    ensures n * w <= m * w && (n + 1) * w == n * w + w
  {
    assert m * w - n * w == (m - n) * w;
  }

  lemma WaitMeansCount(l: ProviderLimit, grants: seq<Time>, now: Time, d: Time)
    requires Tracks(l, grants, now) && l.maxRequests > 0 && Decide(l, now).0.Wait?
    ensures 0 < Decide(l, now).0.delay <= l.window
    ensures Young(grants, now + d, l.window) < l.maxRequests <==> d >= Decide(l, now).0.delay
  {
    hide Tracks, Decide, Young;
    WaitIsLeast(l, grants, now, d);
    DecidesAsCounting(l, grants, now);
    TracksLater(Decide(l, now).1, grants, now, now + d);
    DecidesAsCounting(Decide(l, now).1, grants, now + d);
  }
}
