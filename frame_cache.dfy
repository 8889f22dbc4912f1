/**
 * The frame cache of the viewer (utils/cache.py): a least-recently-used map from keys
 * to frame bundles with a fixed capacity, hit/miss and prefetch metrics, and background
 * prefetching on a single worker thread.
 *
 * The eviction policy is specified by pure functions on `LruState` (LruGet, LruPut)
 * whose properties are proved as lemmas; the class `CacheManager` holds the same state
 * in fields and its methods are proved to follow those functions.
 */
module FrameCache {
  import opened Wrappers
  import opened Frames

  // ---------------------------------------------------------------------------
  // Metrics
  // ---------------------------------------------------------------------------

  /** Counters kept by the cache (class CacheMetrics). */
  datatype CacheMetrics = CacheMetrics(
    hits: nat,
    misses: nat,
    prefetchSuccess: nat,
    prefetchFailure: nat,
    prefetchCancelled: nat,
    totalLoadTime: real)

  /** All counters zero, as a fresh manager starts. */
  function NoMetrics(): CacheMetrics
  {
    CacheMetrics(0, 0, 0, 0, 0, 0.0)
  }

  /** `hit_rate`: the fraction of lookups that hit, 0.0 before any lookup. */
  function HitRate(m: CacheMetrics): (r: real)
    ensures 0.0 <= r <= 1.0
    ensures m.hits + m.misses == 0 ==> r == 0.0
    ensures m.hits + m.misses > 0 ==> r * (m.hits + m.misses) as real == m.hits as real
    ensures r == 1.0 <==> m.misses == 0 && m.hits > 0
  {
    var total := m.hits + m.misses;
    if total > 0 then m.hits as real / total as real else 0.0
  }

  /**
   * `average_load_time`: accumulated load time divided by the number of loads, counted
   * as misses plus successful prefetches; 0.0 when there were none.
   */
  function AverageLoadTime(m: CacheMetrics): (r: real)
    ensures m.misses + m.prefetchSuccess == 0 ==> r == 0.0
    ensures m.misses + m.prefetchSuccess > 0
            ==> r * (m.misses + m.prefetchSuccess) as real == m.totalLoadTime
    ensures m.totalLoadTime >= 0.0 ==> r >= 0.0
  {
    var loads := m.misses + m.prefetchSuccess;
    if loads > 0 then m.totalLoadTime / loads as real else 0.0
  }

  // ---------------------------------------------------------------------------
  // The LRU policy as pure functions
  // ---------------------------------------------------------------------------

  /** The entries of the frame cache and the recency order of their keys, oldest first. */
  datatype LruState = LruState(entries: map<Value, Bundle>, order: seq<Value>)

  /** The empty cache. */
  function EmptyLru(): LruState
  {
    LruState(map[], [])
  }

  /** The most entries a cache of the given capacity ever holds: none when it is below 1. */
  function Capacity(maxSize: int): nat
  {
    if maxSize < 1 then 0 else maxSize
  }

  /**
   * The order lists exactly the cached keys, each once, and the capacity is respected.
   */
  ghost predicate WellFormed(s: LruState, maxSize: int)
  {
    && Distinct(s.order)
    && |s.order| == |s.entries|
    && (forall k :: k in s.entries <==> k in s.order)
    && |s.entries| <= Capacity(maxSize)
  }

  /**
   * `list.remove(k)`: the list without the first occurrence of `k` (the list itself when
   * `k` does not occur).
   */
  function Without(ks: seq<Value>, k: Value): (r: seq<Value>)
    ensures k !in ks ==> r == ks
    ensures k in ks ==> |r| == |ks| - 1
    ensures forall x :: x in r ==> x in ks
    ensures forall x :: x in ks && x != k ==> x in r
    ensures Distinct(ks) ==> Distinct(r) && k !in r
  {
    if |ks| == 0 then []
    else if ks[0] == k then ks[1..]
    else
      var rest := Without(ks[1..], k);
      assert Distinct(ks) ==> Distinct(ks[1..]) && ks[0] !in ks[1..];
      [ks[0]] + rest
  }

  /**
   * `get(key)`: on a hit the key becomes the most recently used and its bundle is
   * returned; on a miss nothing changes and there is no bundle.
   */
  function LruGet(s: LruState, k: Value): (LruState, Option<Bundle>)
  {
    if k in s.entries then (LruState(s.entries, Without(s.order, k) + [k]), Some(s.entries[k]))
    else (s, None)
  }

  /**
   * `put(key, bundle)`: an existing key is replaced and becomes the most recent; a new key
   * first evicts the oldest key when the cache is at capacity, then is appended. When the
   * cache is at capacity and empty (capacity below 1), `pop(0)` on the empty key list
   * raises and nothing changes.
   */
  function LruPut(s: LruState, k: Value, b: Bundle, maxSize: int): Outcome<LruState>
  {
    if k in s.entries then
      Returns(LruState(s.entries[k := b], Without(s.order, k) + [k]))
    else if |s.entries| >= maxSize then
      if |s.order| == 0 then Raises
      else Returns(LruState((s.entries - {s.order[0]})[k := b], s.order[1..] + [k]))
    else
      Returns(LruState(s.entries[k := b], s.order + [k]))
  }

  /** A lookup keeps the cache well formed and never changes what is cached. */
  lemma LruGetKeepsWellFormed(s: LruState, k: Value, maxSize: int)
    requires WellFormed(s, maxSize)
    ensures WellFormed(LruGet(s, k).0, maxSize)
    ensures LruGet(s, k).0.entries == s.entries
    ensures LruGet(s, k).1 == (if k in s.entries then Some(s.entries[k]) else None)
  {
    if k in s.entries {
      var o := Without(s.order, k) + [k];
      assert Distinct(o);
      forall x ensures x in s.entries <==> x in o {
        if x in s.entries && x != k { assert x in s.order; }
      }
    }
  }

  /** A hit makes the key the most recently used and keeps the relative order of the rest. */
  lemma LruGetHitIsMostRecent(s: LruState, k: Value, maxSize: int)
    requires WellFormed(s, maxSize)
    requires k in s.entries
    ensures LruGet(s, k).0.order == Without(s.order, k) + [k]
    ensures LruGet(s, k).0.order[|LruGet(s, k).0.order| - 1] == k
    ensures |LruGet(s, k).0.order| == |s.order|
  {
    assert k in s.order;
  }

  /** `put` raises exactly when the key is new and the capacity is below one. */
  lemma LruPutRaisesIff(s: LruState, k: Value, b: Bundle, maxSize: int)
    requires WellFormed(s, maxSize)
    ensures LruPut(s, k, b, maxSize).Raises? <==> k !in s.entries && maxSize < 1
  {
    if maxSize < 1 {
      assert |s.entries| == 0;
    }
  }

  /** The three ways a successful `put` changes the cache. */
  lemma LruPutReplace(s: LruState, k: Value, b: Bundle, maxSize: int)
    requires WellFormed(s, maxSize) && k in s.entries
    ensures var t := LruPut(s, k, b, maxSize).value;
      WellFormed(t, maxSize) && t.entries == s.entries[k := b] && t.order == Without(s.order, k) + [k]
  {
    var t := LruPut(s, k, b, maxSize).value;
    assert k in s.order;
    forall x ensures x in t.entries <==> x in t.order {
      if x in s.entries && x != k { assert x in s.order; }
    }
  }

  lemma LruPutEvict(s: LruState, k: Value, b: Bundle, maxSize: int)
    requires WellFormed(s, maxSize) && k !in s.entries && |s.entries| >= maxSize && maxSize >= 1
    ensures |s.order| > 0 && |s.entries| == maxSize
    ensures var t := LruPut(s, k, b, maxSize).value;
      && WellFormed(t, maxSize)
      && t.entries == (s.entries - {s.order[0]})[k := b]
      && t.order == s.order[1..] + [k]
      && s.order[0] !in t.entries
  {
    var t := LruPut(s, k, b, maxSize).value;
    var old0 := s.order[0];
    assert s.order == [old0] + s.order[1..];
    assert old0 !in s.order[1..];
    assert k !in s.order;
    assert Distinct(s.order[1..] + [k]);
    forall x ensures x in t.entries <==> x in t.order {
      if x in s.order[1..] { assert x != old0; }
      if x in s.entries && x != old0 {
        assert x in s.order;
        assert x in s.order[1..];
      }
    }
    assert old0 in s.entries;
    assert |s.entries - {old0}| == |s.entries| - 1;
  }

  lemma LruPutAppend(s: LruState, k: Value, b: Bundle, maxSize: int)
    requires WellFormed(s, maxSize) && k !in s.entries && |s.entries| < maxSize
    ensures var t := LruPut(s, k, b, maxSize).value;
      WellFormed(t, maxSize) && t.entries == s.entries[k := b] && t.order == s.order + [k]
  {
    assert k !in s.order;
    assert Distinct(s.order + [k]);
  }

  /**
   * After a successful `put` the cache is still well formed, the key maps to the new
   * bundle and is the most recently used, every other surviving key keeps its bundle,
   * and the only key that can disappear is the least recently used one, which
   * disappears exactly when the key was new and the cache was full.
   */
  lemma LruPutSpec(s: LruState, k: Value, b: Bundle, maxSize: int)
    requires WellFormed(s, maxSize)
    requires LruPut(s, k, b, maxSize).Returns?
    ensures WellFormed(LruPut(s, k, b, maxSize).value, maxSize)
    ensures k in LruPut(s, k, b, maxSize).value.entries && LruPut(s, k, b, maxSize).value.entries[k] == b
    ensures var o := LruPut(s, k, b, maxSize).value.order; |o| > 0 && o[|o| - 1] == k
    ensures var t := LruPut(s, k, b, maxSize).value;
      forall x :: x in t.entries && x != k ==> x in s.entries && t.entries[x] == s.entries[x]
    ensures var t := LruPut(s, k, b, maxSize).value;
      forall x :: x in s.entries && x !in t.entries
        ==> k !in s.entries && |s.entries| == maxSize && x == s.order[0]
    ensures k !in s.entries && |s.entries| == maxSize ==> s.order[0] !in LruPut(s, k, b, maxSize).value.entries
  {
    if k in s.entries {
      LruPutReplace(s, k, b, maxSize);
    } else if |s.entries| >= maxSize {
      LruPutRaisesIff(s, k, b, maxSize);
      LruPutEvict(s, k, b, maxSize);
    } else {
      LruPutAppend(s, k, b, maxSize);
    }
  }

  /** Reading a key right after storing it returns the stored bundle. */
  lemma LruPutThenGet(s: LruState, k: Value, b: Bundle, maxSize: int)
    requires WellFormed(s, maxSize)
    requires LruPut(s, k, b, maxSize).Returns?
    ensures LruGet(LruPut(s, k, b, maxSize).value, k).1 == Some(b)
  {
    LruPutSpec(s, k, b, maxSize);
  }

  /** Storing the same bundle under the same key twice is the same as storing it once. */
  lemma LruPutIdempotent(s: LruState, k: Value, b: Bundle, maxSize: int)
    requires WellFormed(s, maxSize)
    requires LruPut(s, k, b, maxSize).Returns?
    ensures LruPut(LruPut(s, k, b, maxSize).value, k, b, maxSize)
            == LruPut(s, k, b, maxSize)
  {
    LruPutSpec(s, k, b, maxSize);
    PutOfNewestIsNoOp(LruPut(s, k, b, maxSize).value, k, b, maxSize);
  }

  /** Storing a key's own bundle again, when it is already the newest, changes nothing. */
  lemma PutOfNewestIsNoOp(t: LruState, k: Value, b: Bundle, maxSize: int)
    requires WellFormed(t, maxSize)
    requires k in t.entries && t.entries[k] == b
    requires |t.order| > 0 && t.order[|t.order| - 1] == k
    ensures LruPut(t, k, b, maxSize) == Returns(t)
  {
    var o := t.order;
    var front := o[..|o| - 1];
    assert o == front + [k];
    assert k !in front by {
      assert Distinct(o);
      forall j | 0 <= j < |front| ensures front[j] != k {
        assert front[j] == o[j];
      }
    }
    WithoutLast(front, k);
    RewriteSameValue(t.entries, k, b);
    assert Without(o, k) + [k] == o;
  }

  /** Storing the value a key already has leaves a map as it was. */
  lemma RewriteSameValue<K, V>(m: map<K, V>, k: K, v: V)
    requires k in m && m[k] == v
    ensures m[k := v] == m
  {
  }

  /** Removing the key from a list that ends in it, and nowhere else, leaves the rest. */
  lemma {:induction false} WithoutLast(ks: seq<Value>, k: Value)
    requires k !in ks
    ensures Without(ks + [k], k) == ks
  {
    if ks != [] {
      assert (ks + [k])[1..] == ks[1..] + [k];
      WithoutLast(ks[1..], k);
    }
  }

  // ---------------------------------------------------------------------------
  // Prefetch bookkeeping
  // ---------------------------------------------------------------------------

  /** How a prefetch worker ended. */
  datatype WorkerResult =
    | Skipped           // the key was cached by the time the worker ran
    | Loaded(elapsed: real)
    | Failed            // the loader or the store raised

  /** The life cycle of a submitted prefetch task. */
  datatype FutureState = Pending | Running | Cancelled | Done(result: WorkerResult)

  /** A prefetch task handed to the executor and the request it loads. */
  datatype Future = Future(request: FrameRequest, state: FutureState)

  /** `future.done()`: cancelled or finished. */
  predicate IsDone(f: Future)
  {
    f.state.Cancelled? || f.state.Done?
  }

  /** The prefetch counters and the load time a set of tasks accounts for. */
  datatype PrefetchCounts = PrefetchCounts(success: nat, failure: nat, cancelled: nat, loadTime: real)

  function ZeroCounts(): PrefetchCounts
  {
    PrefetchCounts(0, 0, 0, 0.0)
  }

  function AddCounts(a: PrefetchCounts, b: PrefetchCounts): PrefetchCounts
  {
    PrefetchCounts(a.success + b.success, a.failure + b.failure,
                   a.cancelled + b.cancelled, a.loadTime + b.loadTime)
  }

  /** What one task contributes to the prefetch metrics. */
  function CountOf(f: Future): PrefetchCounts
  {
    match f.state
    case Cancelled => PrefetchCounts(0, 0, 1, 0.0)
    case Done(Loaded(e)) => PrefetchCounts(1, 0, 0, e)
    case Done(Failed) => PrefetchCounts(0, 1, 0, 0.0)
    case _ => ZeroCounts()
  }

  /** The prefetch metrics a history of tasks accounts for. */
  function Tally(fs: seq<Future>): PrefetchCounts
  {
    if |fs| == 0 then ZeroCounts()
    else AddCounts(Tally(fs[..|fs| - 1]), CountOf(fs[|fs| - 1]))
  }

  /** The prefetch part of the metrics. */
  function PrefetchPart(m: CacheMetrics): PrefetchCounts
  {
    PrefetchCounts(m.prefetchSuccess, m.prefetchFailure, m.prefetchCancelled, m.totalLoadTime)
  }

  /** Submitting a task adds exactly its own contribution. */
  lemma TallyAppend(fs: seq<Future>, f: Future)
    ensures Tally(fs + [f]) == AddCounts(Tally(fs), CountOf(f))
  {
    assert (fs + [f])[..|fs|] == fs;
  }

  /** Changing one task's state changes the tally by exactly the difference of the two. */
  lemma {:induction false} TallyUpdate(fs: seq<Future>, i: nat, f: Future)
    requires i < |fs|
    ensures AddCounts(Tally(fs[i := f]), CountOf(fs[i])) == AddCounts(Tally(fs), CountOf(f))
  {
    var n := |fs|;
    if i < n - 1 {
      assert fs[i := f][..n - 1] == fs[..n - 1][i := f];
      TallyUpdate(fs[..n - 1], i, f);
    } else {
      assert fs[i := f][..n - 1] == fs[..n - 1];
    }
  }

  /** Only the most recently submitted task can still be waiting in the queue. */
  predicate OnlyLastPending(fs: seq<Future>)
  {
    forall i :: 0 <= i < |fs| - 1 ==> !fs[i].state.Pending?
  }

  /** The single worker thread runs at most one task at a time. */
  predicate AtMostOneRunning(fs: seq<Future>)
  {
    forall i, j :: 0 <= i < |fs| && 0 <= j < |fs| && fs[i].state.Running? && fs[j].state.Running? ==> i == j
  }

  /** A task that finishes keeps the executor's queue discipline. */
  lemma FinishKeepsQueue(fs: seq<Future>, i: nat, f: Future)
    requires OnlyLastPending(fs) && AtMostOneRunning(fs)
    requires i < |fs| && f.state.Done?
    ensures OnlyLastPending(fs[i := f]) && AtMostOneRunning(fs[i := f])
  {
    var gs := fs[i := f];
    forall j, k | 0 <= j < |gs| && 0 <= k < |gs| && gs[j].state.Running? && gs[k].state.Running?
      ensures j == k
    {
      assert j != i && k != i;
      assert fs[j].state.Running? && fs[k].state.Running?;
    }
  }

  /** No task waits or runs. */
  predicate Idle(fs: seq<Future>)
  {
    forall i :: 0 <= i < |fs| ==> !fs[i].state.Pending? && !fs[i].state.Running?
  }

  /** The current task exists and is still queued, so `cancel()` succeeds on it. */
  predicate CurrentQueued(fs: seq<Future>)
  {
    |fs| > 0 && fs[|fs| - 1].state.Pending?
  }

  /** The tasks after `prefetch_async` tried to cancel the current one. */
  function CancelCurrent(fs: seq<Future>): (r: seq<Future>)
    ensures |r| == |fs| && !CurrentQueued(r)
    ensures OnlyLastPending(fs) ==> forall i :: 0 <= i < |r| ==> !r[i].state.Pending?
    ensures forall i :: 0 <= i < |r| && r[i].state.Running? ==> fs[i].state.Running?
  {
    if CurrentQueued(fs) then fs[|fs| - 1 := fs[|fs| - 1].(state := Cancelled)] else fs
  }

  /** Cancelling a queued current task adds one cancellation to the tally. */
  lemma TallyCancelCurrent(fs: seq<Future>)
    ensures Tally(CancelCurrent(fs))
            == AddCounts(Tally(fs), PrefetchCounts(0, 0, if CurrentQueued(fs) then 1 else 0, 0.0))
  {
    if CurrentQueued(fs) {
      var n := |fs|;
      TallyUpdate(fs, n - 1, fs[n - 1].(state := Cancelled));
    }
  }

  /** Submitting a task when none is queued keeps the executor's queue discipline. */
  lemma SubmitKeepsQueue(fs: seq<Future>, f: Future)
    requires forall i :: 0 <= i < |fs| ==> !fs[i].state.Pending?
    requires AtMostOneRunning(fs) && f.state.Pending?
    ensures OnlyLastPending(fs + [f]) && AtMostOneRunning(fs + [f])
  {
  }

  /** What `prefetch_async` did. */
  datatype PrefetchResult =
    | NotScheduled   // prefetch disabled, or the frame is already cached: returns None
    | Scheduled      // a new task was submitted and became the current one
    | SubmitRaised   // the executor was shut down: submit raised

  /** The outcome of a loader call made by a worker. */
  datatype LoadOutcome = LoadReturned(bundle: Bundle) | LoadRaised

  // ---------------------------------------------------------------------------
  // The manager
  // ---------------------------------------------------------------------------

  /**
   * class CacheManager. `futures` records every task submitted to the single-thread
   * executor, oldest first; its last element is `current_prefetch_future`. The executor
   * exists exactly when prefetch is enabled.
   */
  class CacheManager {
    const maxSize: int
    const enablePrefetch: bool
    var executorShutdown: bool
    var frameCache: map<Value, Bundle>
    var frameCacheKeys: seq<Value>
    var futures: seq<Future>
    var metrics: CacheMetrics

    /** The cache contents as the policy functions see them. */
    function State(): LruState
      reads this
    {
      LruState(frameCache, frameCacheKeys)
    }

    ghost predicate Valid()
      reads this
    {
      && WellFormed(State(), maxSize)
      && (!enablePrefetch ==> futures == [] && !executorShutdown)
      && OnlyLastPending(futures)
      && AtMostOneRunning(futures)
      && PrefetchPart(metrics) == Tally(futures)
    }

    /** `CacheManager(max_size, enable_prefetch)`: empty cache, zero metrics, no task. */
    constructor (maxSize: int, enablePrefetch: bool)
      ensures Valid()
      ensures this.maxSize == maxSize && this.enablePrefetch == enablePrefetch
      ensures State() == EmptyLru() && futures == [] && metrics == NoMetrics()
      ensures !executorShutdown
    {
      this.maxSize := maxSize;
      this.enablePrefetch := enablePrefetch;
      executorShutdown := false;
      frameCache := map[];
      frameCacheKeys := [];
      futures := [];
      metrics := NoMetrics();
    }

    /** `get(key)`: a hit refreshes the key and counts a hit; a miss counts a miss. */
    method Get(key: Value) returns (r: Option<Bundle>)
      requires Valid()
      modifies this
      ensures Valid()
      ensures State() == LruGet(old(State()), key).0 && r == LruGet(old(State()), key).1
      ensures r.Some? <==> key in old(frameCache)
      ensures metrics == if r.Some? then old(metrics).(hits := old(metrics).hits + 1)
                         else old(metrics).(misses := old(metrics).misses + 1)
      ensures futures == old(futures) && executorShutdown == old(executorShutdown)
    {
      LruGetKeepsWellFormed(State(), key, maxSize);
      if key in frameCache {
        frameCacheKeys := Without(frameCacheKeys, key) + [key];
        metrics := metrics.(hits := metrics.hits + 1);
        r := Some(frameCache[key]);
      } else {
        metrics := metrics.(misses := metrics.misses + 1);
        r := None;
      }
    }

    /**
     * `put(key, bundle)`, following LruPut; `raised` reports the IndexError of `pop(0)`
     * on an empty key list, after which nothing has changed.
     */
    method Put(key: Value, bundle: Bundle) returns (raised: bool)
      requires Valid()
      modifies this
      ensures Valid()
      ensures raised == LruPut(old(State()), key, bundle, maxSize).Raises?
      ensures raised <==> key !in old(frameCache) && maxSize < 1
      ensures !raised ==> State() == LruPut(old(State()), key, bundle, maxSize).value
      ensures raised ==> State() == old(State())
      ensures futures == old(futures) && metrics == old(metrics)
      ensures executorShutdown == old(executorShutdown)
    {
      LruPutRaisesIff(State(), key, bundle, maxSize);
      var o := LruPut(State(), key, bundle, maxSize);
      if o.Returns? {
        LruPutSpec(State(), key, bundle, maxSize);
      }
      if key in frameCache {
        frameCacheKeys := Without(frameCacheKeys, key);
      } else if |frameCache| >= maxSize {
        if |frameCacheKeys| == 0 {
          raised := true;
          return;
        }
        var oldest := frameCacheKeys[0];
        frameCacheKeys := frameCacheKeys[1..];
        frameCache := frameCache - {oldest};
      }
      frameCache := frameCache[key := bundle];
      frameCacheKeys := frameCacheKeys + [key];
      raised := false;
    }

    /** `clear()`: empties the cache; metrics and tasks are kept. */
    method Clear()
      requires Valid()
      modifies this
      ensures Valid()
      ensures State() == EmptyLru()
      ensures futures == old(futures) && metrics == old(metrics)
      ensures executorShutdown == old(executorShutdown)
    {
      frameCache := map[];
      frameCacheKeys := [];
    }

    /** `size()`: the number of cached frames, never above the capacity. */
    method Size() returns (n: nat)
      requires Valid()
      ensures n == |frameCache| == |frameCacheKeys|
      ensures n <= Capacity(maxSize)
    {
      n := |frameCache|;
    }

    /**
     * `prefetch_async(request, load_func)`. Nothing happens when prefetch is disabled or
     * the request's key is already cached. Otherwise a current task that is still queued
     * is cancelled and counted (a running one cannot be cancelled and is left alone), then
     * a new task is submitted and becomes current, unless the executor was shut down, in
     * which case submit raises.
     */
    method PrefetchAsync(request: FrameRequest) returns (res: PrefetchResult)
      requires Valid()
      modifies this
      ensures Valid()
      ensures State() == old(State()) && executorShutdown == old(executorShutdown)
      ensures res == NotScheduled <==> !enablePrefetch || RequestKey(request) in old(frameCache)
      ensures res == SubmitRaised <==> res != NotScheduled && executorShutdown
      ensures res == NotScheduled ==> futures == old(futures) && metrics == old(metrics)
      ensures res != NotScheduled ==>
        metrics == old(metrics).(prefetchCancelled := old(metrics).prefetchCancelled
                                                      + if CurrentQueued(old(futures)) then 1 else 0)
      ensures res == SubmitRaised ==> futures == CancelCurrent(old(futures))
      ensures res == Scheduled ==> futures == CancelCurrent(old(futures)) + [Future(request, Pending)]
    {
      if !enablePrefetch {
        return NotScheduled;
      }
      var key := RequestKey(request);
      if key in frameCache {
        return NotScheduled;
      }
      TallyCancelCurrent(futures);
      if CurrentQueued(futures) {
        metrics := metrics.(prefetchCancelled := metrics.prefetchCancelled + 1);
      }
      futures := CancelCurrent(futures);
      if executorShutdown {
        return SubmitRaised;
      }
      TallyAppend(futures, Future(request, Pending));
      SubmitKeepsQueue(futures, Future(request, Pending));
      futures := futures + [Future(request, Pending)];
      res := Scheduled;
    }

    /**
     * The worker thread picks up the queued task (it runs one task at a time) and repeats
     * the cache check: a frame cached in the meantime ends the task without loading.
     */
    method WorkerStart()
      requires Valid()
      requires |futures| > 0 && futures[|futures| - 1].state.Pending?
      requires forall i :: 0 <= i < |futures| ==> !futures[i].state.Running?
      modifies this
      ensures Valid()
      ensures State() == old(State()) && metrics == old(metrics)
      ensures executorShutdown == old(executorShutdown)
      ensures var n := |old(futures)|;
              var f := old(futures)[n - 1];
              futures == old(futures)[n - 1 := f.(state :=
                if RequestKey(f.request) in old(frameCache) then Done(Skipped) else Running)]
    {
      var n := |futures|;
      var f := futures[n - 1];
      var s := if RequestKey(f.request) in frameCache then Done(Skipped) else Running;
      TallyUpdate(futures, n - 1, f.(state := s));
      futures := futures[n - 1 := f.(state := s)];
    }

    /**
     * The running task's loader ended, after `elapsed` seconds of wall-clock time. A
     * returned bundle is stored with `put`; when both succeed the task counts as a success
     * and its time is added, otherwise as a failure.
     */
    method WorkerFinish(i: nat, outcome: LoadOutcome, elapsed: real)
      requires Valid()
      requires i < |futures| && futures[i].state.Running?
      modifies this
      ensures Valid()
      ensures executorShutdown == old(executorShutdown)
      ensures var key := RequestKey(old(futures)[i].request);
              var stored := outcome.LoadReturned? && LruPut(old(State()), key, outcome.bundle, maxSize).Returns?;
              && State() == (if stored then LruPut(old(State()), key, outcome.bundle, maxSize).value else old(State()))
              && futures == old(futures)[i := old(futures)[i].(state := Done(if stored then Loaded(elapsed) else Failed))]
              && metrics == if stored
                            then old(metrics).(prefetchSuccess := old(metrics).prefetchSuccess + 1,
                                               totalLoadTime := old(metrics).totalLoadTime + elapsed)
                            else old(metrics).(prefetchFailure := old(metrics).prefetchFailure + 1)
    {
      var f := futures[i];
      var key := RequestKey(f.request);
      var stored := false;
      if outcome.LoadReturned? {
        var raised := Put(key, outcome.bundle);
        stored := !raised;
      }
      var s := Done(if stored then Loaded(elapsed) else Failed);
      TallyUpdate(futures, i, f.(state := s));
      FinishKeepsQueue(futures, i, f.(state := s));
      futures := futures[i := f.(state := s)];
      if stored {
        metrics := metrics.(prefetchSuccess := metrics.prefetchSuccess + 1,
                            totalLoadTime := metrics.totalLoadTime + elapsed);
      } else {
        metrics := metrics.(prefetchFailure := metrics.prefetchFailure + 1);
      }
    }

    /**
     * `shutdown()`: shuts the executor down, if there is one, after every submitted task
     * has finished, then clears the cache.
     */
    method Shutdown()
      requires Valid()
      requires Idle(futures)
      modifies this
      ensures Valid()
      ensures executorShutdown == enablePrefetch
      ensures State() == EmptyLru()
      ensures futures == old(futures) && metrics == old(metrics)
    {
      if enablePrefetch {
        executorShutdown := true;
      }
      Clear();
    }
  }

  /**
   * The shared manager of `get_cache_manager()` on first use: the configured capacity of
   * 200 frames unless a size is given, prefetch as requested.
   */
  const MAX_FRAME_CACHE_SIZE: int := 200

  method NewDefaultCacheManager(maxSize: Option<int>, enablePrefetch: bool) returns (c: CacheManager)
    ensures fresh(c) && c.Valid()
    ensures c.maxSize == (if maxSize.Some? then maxSize.value else MAX_FRAME_CACHE_SIZE)
    ensures c.enablePrefetch == enablePrefetch
    ensures c.State() == EmptyLru() && c.futures == [] && c.metrics == NoMetrics()
  {
    var size := if maxSize.Some? then maxSize.value else MAX_FRAME_CACHE_SIZE;
    c := new CacheManager(size, enablePrefetch);
  }
}
