/**
  The loop cache of one agent (`AgentPool`): session affinity, collection of stale sessions, explicit
  clearing, and the cleanup at the end of a streamed run. Loops are numbered in the order of their
  creation.
 */
module AgentPools {

  datatype Option<T> = None | Some(value: T)

  /** `_loop_cache_key` */
  function CacheKey(session: Option<string>, thread: Option<string>): string {
    if thread.Some? && thread.value != "" then "thread:" + thread.value
    else "session:" + (if session.Some? then session.value else "")
  }

  class AgentPool {
    var loops: map<string, nat>
    var lastUsed: map<string, int>
    const ttl: int
    /** The number of loops created so far, and the key each was created for. */
    var next: nat
    var keys: seq<string>
    ghost var closed: set<nat>

    constructor (sessionTtlHours: int)
      ensures Valid() && ttl == sessionTtlHours * 3600 && loops == map[] && next == 0
    {
      ttl := sessionTtlHours * 3600;
      loops, lastUsed, next := map[], map[], 0;
      keys, closed := [], {};
    }

    ghost function Cached(): set<nat>
      reads this
    {
      set k | k in loops :: loops[k]
    }

    /** Both dictionaries have the same keys, a cached loop stands under the key it was created for
        and has not been closed, and every loop ever created is cached or closed. */
    ghost predicate Valid()
      reads this
    {
      && loops.Keys == lastUsed.Keys
      && |keys| == next && (forall i :: i in closed ==> i < next)
      && (forall k :: k in loops ==> loops[k] < next && keys[loops[k]] == k && loops[k] !in closed)
      && (forall i :: 0 <= i < next ==> i in closed || (keys[i] in loops && loops[keys[i]] == i))
    }

    /** `_drop_loop` */
    ghost method Close(loop: nat)
      modifies this`closed
      ensures closed == old(closed) + {loop}
    {
      closed := closed + {loop};
    }

    /** Whether a key is collected at this time. */
    predicate Stale(k: string, now: int)
      requires k in lastUsed
      reads this
    {
      ttl > 0 && lastUsed[k] < now - ttl
    }

    /** `_gc_stale_sessions`: exactly the keys unused for longer than the limit go, and their loops
        are closed. */
    method CollectStale(now: int)
      requires Valid()
      modifies this`loops, this`lastUsed, this`closed
      ensures Valid() && closed >= old(closed)
      ensures forall k :: k in loops <==> k in old(loops) && !old(Stale(k, now))
      ensures forall k :: k in loops ==> loops[k] == old(loops[k]) && lastUsed[k] == old(lastUsed[k])
    {
      if ttl <= 0 {
        return;
      }
      var cutoff := now - ttl;
      var stale := set k | k in lastUsed && lastUsed[k] < cutoff;
      ghost var all := stale;
      while stale != {}
        invariant stale <= all && all <= old(loops).Keys
        invariant Valid() && closed >= old(closed)
        invariant loops.Keys == old(loops).Keys - (all - stale)
        invariant forall k :: k in loops ==> loops[k] == old(loops[k]) && lastUsed[k] == old(lastUsed[k])
        decreases stale
      {
        var sid :| sid in stale;
        stale := stale - {sid};
        ghost var loop := loops[sid];
        loops := loops - {sid};
        lastUsed := lastUsed - {sid};
        Close(loop);
      }
    }

    /** `_resolve_session_id`; `threads` is the thread table of the store. */
    static function ResolveSession(session: Option<string>, thread: Option<string>, threads: map<string, string>): Option<Option<string>> {
      if session.Some? && session.value != "" then Some(session)
      else if thread.None? || thread.value == "" then Some(None)
      else if thread.value in threads then Some(Some(threads[thread.value]))
      else None
    }

    /** `_get_or_create_loop`: the cached loop, unless it went stale, else a new one; `None` when the
        thread is unknown. The clock is read once for the collection and once more afterwards. */
    method GetOrCreate(session: Option<string>, thread: Option<string>, threads: map<string, string>, now: int, later: int)
      returns (loop: Option<nat>)
      requires Valid() && now <= later
      modifies this
      ensures Valid() && closed >= old(closed) && next >= old(next)
      ensures loop.None? <==> ResolveSession(session, thread, threads).None?
      ensures loop.None? ==>
                && next == old(next) && (forall k :: k in loops <==> k in old(loops) && !old(Stale(k, now)))
                && (forall k :: k in loops ==> loops[k] == old(loops[k]) && lastUsed[k] == old(lastUsed[k]))
      ensures loop.Some? ==>
                var key := CacheKey(ResolveSession(session, thread, threads).value, thread);
                && key in loops && loops[key] == loop.value && lastUsed[key] == later
                && (if key in old(loops) && !old(Stale(key, now)) then loop.value == old(loops[key]) && next == old(next)
                    else loop.value == old(next))
                && (forall k :: k != key ==> (k in loops <==> k in old(loops) && !old(Stale(k, now))))
                && (forall k :: k != key && k in loops ==> loops[k] == old(loops[k]) && lastUsed[k] == old(lastUsed[k]))
    {
      CollectStale(now);
      var resolved := ResolveSession(session, thread, threads);
      if resolved.None? {
        return None;
      }
      var key := CacheKey(resolved.value, thread);
      if key in loops {
        lastUsed := lastUsed[key := later];
        return Some(loops[key]);
      }
      loop := Some(next);
      loops, lastUsed := loops[key := next], lastUsed[key := later];
      keys := keys + [key];
      next := next + 1;
    }

    /** `clear_cached_loops` */
    method ClearCachedLoops()
      requires Valid()
      modifies this`loops, this`lastUsed, this`closed
      ensures Valid() && loops == map[] && closed == old(closed + Cached())
    {
      closed := closed + Cached();
      loops, lastUsed := map[], map[];
    }

    /** The end of a streamed run: a loop that is no longer in the pool is closed. Whatever happened
        to the pool in the meantime, no cached loop is closed by this. */
    method EndRun(key: string, loop: nat)
      requires Valid() && loop < next && keys[loop] == key
      modifies this`closed
      ensures Valid() && loop in Cached() + closed
      ensures closed == old(closed) + (if key in loops then {} else {loop})
    {
      if key !in loops {
        Close(loop);
      }
    }

    /** The same request again within the time limit, with anything but a clear in between that keeps
        the key fresh, gets the same loop: here with a collection in between. */
    method AskTwice(session: Option<string>, threads: map<string, string>, t0: int, t1: int, t2: int)
      returns (first: Option<nat>, second: Option<nat>)
      requires Valid() && t0 <= t1 <= t2
      modifies this
      ensures Valid()
      ensures first.Some? && second.Some? && (t2 - t1 <= ttl || ttl <= 0 ==> second == first)
      ensures first.Some? && second.Some? && (0 < ttl < t2 - t1 ==> second != first && first.value in closed)
    {
      first := GetOrCreate(session, None, threads, t0, t1);
      second := GetOrCreate(session, None, threads, t2, t2);
    }
  }

  // ------------------------------------------------------------------ runs of requests

  /** What can happen to a pool. */
  datatype Event = Ask(session: Option<string>, thread: Option<string>) | Collect | Clear | End(key: string, loop: nat)

  /** When an event happens: the clock as it is read for the collection and, in a request, once more. */
  datatype Moment = Moment(now: int, later: int)

  predicate Forward(times: seq<Moment>) {
    && (forall i :: 0 <= i < |times| ==> times[i].now <= times[i].later)
    && (forall i, j :: 0 <= i < j < |times| ==> times[i].later <= times[j].now)
  }

  /** Any sequence of requests, collections, clears and run ends, under a clock that never runs
      backwards, keeps the pool's invariant; and without a clear a key used within the time limit
      before the end keeps its loop throughout. */
  method Run(pool: AgentPool, events: seq<Event>, times: seq<Moment>, threads: map<string, string>)
    requires pool.Valid() && |times| == |events| && Forward(times)
    requires times != [] ==> forall k :: k in pool.lastUsed ==> pool.lastUsed[k] <= times[0].now
    modifies pool
    ensures pool.Valid() && pool.closed >= old(pool.closed)
    ensures Clear !in events && times != [] ==>
              forall k :: k in old(pool.loops) && (pool.ttl <= 0 || old(pool.lastUsed[k]) >= times[|times| - 1].now - pool.ttl) ==>
                k in pool.loops && pool.loops[k] == old(pool.loops[k])
  {
    for i := 0 to |events|
      invariant pool.Valid() && pool.closed >= old(pool.closed)
      invariant forall k :: k in pool.lastUsed && i < |times| ==> pool.lastUsed[k] <= times[i].now
      invariant Clear !in events[..i] && times != [] ==>
                  forall k :: k in old(pool.loops) && (pool.ttl <= 0 || old(pool.lastUsed[k]) >= times[|times| - 1].now - pool.ttl) ==>
                    && k in pool.loops && pool.loops[k] == old(pool.loops[k])
                    && (pool.ttl <= 0 || pool.lastUsed[k] >= times[|times| - 1].now - pool.ttl)
    {
      assert events[..i + 1] == events[..i] + [events[i]];
      Happen(pool, events[i], times[i], threads);
      if events[i].Clear? {
        assert events[i] in events[..i + 1];
      }
    }
    assert events[..|events|] == events;
  }

  method Happen(pool: AgentPool, event: Event, at: Moment, threads: map<string, string>)
    requires pool.Valid() && at.now <= at.later
    modifies pool
    ensures pool.Valid() && pool.closed >= old(pool.closed)
    ensures forall k :: k in pool.lastUsed ==>
              (k in old(pool.lastUsed) && pool.lastUsed[k] == old(pool.lastUsed[k])) || pool.lastUsed[k] == at.later
    ensures !event.Clear? ==>
              forall k :: k in old(pool.loops) && !old(pool.Stale(k, at.now)) ==>
                k in pool.loops && pool.loops[k] == old(pool.loops[k])
  {
    match event {
      case Ask(session, thread) =>
        var _ := pool.GetOrCreate(session, thread, threads, at.now, at.later);
      case Collect =>
        pool.CollectStale(at.now);
      case Clear =>
        pool.ClearCachedLoops();
        assert pool.lastUsed.Keys == {};
      case End(key, loop) =>
        if loop < pool.next && pool.keys[loop] == key {
          pool.EndRun(key, loop);
        }
    }
  }
}
