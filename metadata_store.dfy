/** The per-thread metadata store of src/metadata_store.py: an in-memory table
    from thread id to that thread's thinking entries, its last session
    statistics and two timestamps.

    Datetimes are integer milliseconds; each operation receives the one
    clock reading it uses as `now`. The store is generic in the payload of a
    thinking entry (`T`) and of the session statistics (`S`), which the
    source keeps as opaque dictionaries. */
module Metadata {
  import opened Wrappers

  /** A thinking entry as appended: the caller's event plus the time it was added. */
  datatype Stamped<T> = Stamped(event: T, timestamp: int)

  /** The record kept for one thread. */
  datatype Record<T, S> = Record(
    thinking: seq<Stamped<T>>,
    sessionStats: Option<S>,
    createdAt: int,
    lastUpdated: int)

  /** What `get_metadata` hands back to the `/metadata` endpoint. */
  datatype MetadataView<T, S> = MetadataView(
    thinking: seq<Stamped<T>>,
    sessionStats: Option<S>,
    lastUpdated: Option<int>)

  type Threads<T, S> = map<string, Record<T, S>>

  /** `timedelta(minutes=1)` in the store's time unit. */
  const MillisPerMinute: int := 60000

  /** The record a fresh thread starts with. */
  function FreshRecord<T, S>(now: int): Record<T, S> {
    Record([], None, now, now)
  }

  /** The store after `init_thread(tid)` at time `now`. */
  function Initialized<T, S>(m: Threads<T, S>, tid: string, now: int): (r: Threads<T, S>)
    ensures r.Keys == m.Keys + {tid}
    ensures tid in m ==> r == m
    ensures tid !in m ==> r[tid] == FreshRecord(now)
    ensures forall t :: t in m ==> r[t] == m[t]
  {
    if tid in m then m else m[tid := FreshRecord(now)]
  }

  /** What `get_metadata(tid)` returns for the store `m`. */
  function MetadataOf<T, S>(m: Threads<T, S>, tid: string): (md: MetadataView<T, S>)
    ensures tid !in m ==> md.thinking == [] && md.sessionStats == None && md.lastUpdated == None
    ensures tid in m ==> md.lastUpdated.Some? && md.lastUpdated.value == m[tid].lastUpdated
    ensures tid in m ==> md.thinking == m[tid].thinking && md.sessionStats == m[tid].sessionStats
  {
    if tid !in m then MetadataView([], None, None)
    else MetadataView(m[tid].thinking, m[tid].sessionStats, Some(m[tid].lastUpdated))
  }

  /** The store after `add_thinking(tid, e)` at time `now`: the thread exists,
      its thinking list has gained exactly `e` at the end, and nothing else
      about any thread has changed beyond its `last_updated`. */
  function WithThinking<T, S>(m: Threads<T, S>, tid: string, e: T, now: int): (r: Threads<T, S>)
    ensures r.Keys == m.Keys + {tid}
    ensures r[tid].thinking == MetadataOf(m, tid).thinking + [Stamped(e, now)]
    ensures r[tid].sessionStats == MetadataOf(m, tid).sessionStats
    ensures r[tid].lastUpdated == now
    ensures tid in m ==> r[tid].createdAt == m[tid].createdAt
    ensures forall t :: t in m && t != tid ==> r[t] == m[t]
  {
    var base := Initialized(m, tid, now);
    var rec := base[tid];
    base[tid := rec.(thinking := rec.thinking + [Stamped(e, now)], lastUpdated := now)]
  }

  /** The store after `set_session_stats(tid, stats)` at time `now`: the
      statistics are replaced, the thinking list is kept. */
  function WithSessionStats<T, S>(m: Threads<T, S>, tid: string, stats: S, now: int): (r: Threads<T, S>)
    ensures r.Keys == m.Keys + {tid}
    ensures r[tid].sessionStats == Some(stats)
    ensures r[tid].thinking == MetadataOf(m, tid).thinking
    ensures r[tid].lastUpdated == now
    ensures tid in m ==> r[tid].createdAt == m[tid].createdAt
    ensures forall t :: t in m && t != tid ==> r[t] == m[t]
  {
    var base := Initialized(m, tid, now);
    base[tid := base[tid].(sessionStats := Some(stats), lastUpdated := now)]
  }

  /** The oldest `last_updated` that survives a cleanup at `now`. */
  function Cutoff(now: int, ttlMinutes: int): int {
    now - ttlMinutes * MillisPerMinute
  }

  /** The store after `cleanup_old_threads()` at time `now`: exactly the
      threads updated before the cutoff are gone, the others are untouched. */
  function WithoutStale<T, S>(m: Threads<T, S>, now: int, ttlMinutes: int): (r: Threads<T, S>)
    ensures forall t :: t in r <==> t in m && m[t].lastUpdated >= Cutoff(now, ttlMinutes)
    ensures forall t :: t in r ==> r[t] == m[t]
  {
    map t | t in m && m[t].lastUpdated >= Cutoff(now, ttlMinutes) :: m[t]
  }

  /** `init_thread` leaves an existing thread's record untouched, so a
      second call changes nothing whatever its time. */
  lemma InitThreadIdempotent<T, S>(m: Threads<T, S>, tid: string, t1: int, t2: int)
    ensures Initialized(Initialized(m, tid, t1), tid, t2) == Initialized(m, tid, t1)
    ensures MetadataOf(Initialized(m, tid, t1), tid).thinking == MetadataOf(m, tid).thinking
  {
  }

  /** `get_metadata` sees every `add_thinking` in order: after a series of
      additions to a thread, each at its own time, its thinking list is the
      old list followed by the new entries with those times. */
  lemma {:induction false} ThinkingAppendsInOrder<T, S>(m: Threads<T, S>, tid: string, calls: seq<(T, int)>)
    ensures MetadataOf(AddAll(m, tid, calls), tid).thinking
         == MetadataOf(m, tid).thinking + Stamps(calls)
    ensures forall t :: t in m && t != tid ==> t in AddAll(m, tid, calls) && AddAll(m, tid, calls)[t] == m[t]
    decreases |calls|
  {
    if calls != [] {
      ThinkingAppendsInOrder(m, tid, calls[..|calls| - 1]);
    }
  }

  /** `add_thinking(tid, e)` for each call `(e, now)` in turn, at its own time `now`. */
  function AddAll<T, S>(m: Threads<T, S>, tid: string, calls: seq<(T, int)>): Threads<T, S>
    decreases |calls|
  {
    if calls == [] then m
    else
      var last := calls[|calls| - 1];
      WithThinking(AddAll(m, tid, calls[..|calls| - 1]), tid, last.0, last.1)
  }

  /** Each call's entry stamped with that call's time. */
  function Stamps<T>(calls: seq<(T, int)>): seq<Stamped<T>>
    decreases |calls|
  {
    if calls == [] then []
    else
      var last := calls[|calls| - 1];
      Stamps(calls[..|calls| - 1]) + [Stamped(last.0, last.1)]
  }

  /** A cleanup keeps every thread it keeps unchanged, so running it twice at
      the same time removes nothing more. */
  lemma CleanupIdempotent<T, S>(m: Threads<T, S>, now: int, ttlMinutes: int)
    ensures WithoutStale(WithoutStale(m, now, ttlMinutes), now, ttlMinutes) == WithoutStale(m, now, ttlMinutes)
  {
  }

  /** A thread just written to survives any cleanup at the same time with a
      non-negative TTL. */
  lemma FreshWriteSurvivesCleanup<T, S>(m: Threads<T, S>, tid: string, e: T, now: int, ttlMinutes: int)
    requires ttlMinutes >= 0
    ensures tid in WithoutStale(WithThinking(m, tid, e, now), now, ttlMinutes)
  {
  }

  /** The mutable store. `threads` is the source's `_store` dictionary. */
  class MetadataStore<T, S> {
    var threads: Threads<T, S>
    const ttlMinutes: int

    constructor (ttlMinutes: int)
      ensures threads == map[] && this.ttlMinutes == ttlMinutes
    {
      threads := map[];
      this.ttlMinutes := ttlMinutes;
    }

    method InitThread(tid: string, now: int)
      modifies this
      ensures threads == Initialized(old(threads), tid, now)
    {
      if tid !in threads {
        threads := threads[tid := FreshRecord(now)];
      }
    }

    method AddThinking(tid: string, e: T, now: int)
      modifies this
      ensures threads == WithThinking(old(threads), tid, e, now)
    {
      InitThread(tid, now);
      var rec := threads[tid];
      threads := threads[tid := rec.(thinking := rec.thinking + [Stamped(e, now)])];
      threads := threads[tid := threads[tid].(lastUpdated := now)];
    }

    method SetSessionStats(tid: string, stats: S, now: int)
      modifies this
      ensures threads == WithSessionStats(old(threads), tid, stats, now)
    {
      InitThread(tid, now);
      threads := threads[tid := threads[tid].(sessionStats := Some(stats))];
      threads := threads[tid := threads[tid].(lastUpdated := now)];
    }

    /** A pure read: nothing is created for an unknown thread. */
    method GetMetadata(tid: string) returns (md: MetadataView<T, S>)
      ensures tid !in threads ==> md == MetadataView([], None, None)
      ensures tid in threads ==> md == MetadataView(threads[tid].thinking, threads[tid].sessionStats, Some(threads[tid].lastUpdated))
    {
      if tid !in threads {
        return MetadataView([], None, None);
      }
      var data := threads[tid];
      md := MetadataView(data.thinking, data.sessionStats, Some(data.lastUpdated));
    }

    /** Collects the stale thread ids first, then deletes them one by one. */
    method CleanupOldThreads(now: int)
      modifies this
      ensures threads == WithoutStale(old(threads), now, ttlMinutes)
    {
      var cutoff := now - ttlMinutes * MillisPerMinute;
      var toRemove := set t | t in threads && threads[t].lastUpdated < cutoff;
      while toRemove != {}
        invariant toRemove <= threads.Keys
        invariant forall t :: t in threads <==> t in old(threads) && (old(threads)[t].lastUpdated >= cutoff || t in toRemove)
        invariant forall t :: t in threads ==> threads[t] == old(threads)[t]
        decreases toRemove
      {
        var t :| t in toRemove;
        threads := threads - {t};
        toRemove := toRemove - {t};
      }
    }
  }
}
