/** Finding the Steam app id of a process by walking up the process tree, with a cache of
    per-process scan results whose entries may expire at any time. */
module ProcessWalk {
  import opened Common

  type Pid = nat
  const NO_PID: Pid := 0xFFFF_FFFF

  /** What `/proc` tells about a process: its start time if it parses, its parent, whether it
      is named `reaper`, and the app id on its command line (0 if none or unreadable). */
  datatype Process = Process(start: Option<nat>, parent: Pid, reaper: bool, appId: nat)

  /** The processes whose `/proc/<pid>/stat` can be read and parsed. */
  type Table = map<Pid, Process>

  /** The cache key: a process, robust against pid reuse. */
  datatype Key = Key(pid: Pid, start: nat)
  type Cache = map<Key, nat>

  /** What stays true of a process while its key exists: its name, its command line, and
      whether its parent is outside the tree. Other reparenting is allowed. */
  datatype Fact = Fact(reaper: bool, appId: nat, rooted: bool)

  predicate Rooted(p: Process) {
    p.parent == 0 || p.parent == NO_PID
  }

  /** There is no process 0 or 2^32-1, and the only parent cycle is pid 1 on itself: `rank`
      falls from every other process to its parent. */
  ghost predicate Tree(table: Table, rank: Pid -> nat) {
    && 0 !in table && NO_PID !in table
    && forall pid :: pid in table && pid != 1 && table[pid].parent in table ==> rank(table[pid].parent) < rank(pid)
  }

  ghost predicate Matches(table: Table, facts: Key -> Fact) {
    forall pid :: pid in table && table[pid].start.Some? ==>
      facts(Key(pid, table[pid].start.value)) == Fact(table[pid].reaper, table[pid].appId, Rooted(table[pid]))
  }

  /** Every entry holds the scan result of its process, and the processes at which the walk
      stops unread, pid 1 and those without a parent, are cached only as reapers. */
  ghost predicate Truthful(cache: Cache, facts: Key -> Fact) {
    forall k :: k in cache ==> cache[k] == facts(k).appId && (k.pid == 1 || facts(k).rooted ==> facts(k).reaper)
  }

  /** The walk without a cache. */
  ghost function Walk(table: Table, rank: Pid -> nat, pid: Pid): nat
    requires Tree(table, rank)
    decreases pid in table, rank(pid)
  {
    if pid !in table then 0
    else
      var p := table[pid];
      if p.reaper then p.appId
      else if Rooted(p) || pid == 1 then 0
      else if p.appId != 0 then p.appId
      else Walk(table, rank, p.parent)
  }

  /** The `k`-th process up the tree. */
  function Ancestor(table: Table, pid: Pid, k: nat): Pid {
    if k == 0 then pid
    else
      var below := Ancestor(table, pid, k - 1);
      if below in table then table[below].parent else below
  }

  lemma {:induction false} AncestorOfParent(table: Table, pid: Pid, k: nat)
    requires pid in table
    ensures Ancestor(table, pid, k + 1) == Ancestor(table, table[pid].parent, k)
    decreases k
  {
    if k > 0 {
      AncestorOfParent(table, pid, k - 1);
    }
  }

  /** The walk goes past a process: it is no reaper, has a parent, is not pid 1 and carries no id. */
  predicate PassedOver(table: Table, pid: Pid) {
    && pid in table && !table[pid].reaper && table[pid].appId == 0
    && table[pid].parent != 0 && table[pid].parent != 4294967295 && pid != 1
  }

  /** The walk stops at the first ancestor it does not go past. The answer is that process's id if
      it is a reaper or an ordinary process with a parent, and 0 if it cannot be read, has no parent
      or is pid 1. */
  lemma {:induction false} WalkStopsAtFirst(table: Table, rank: Pid -> nat, pid: Pid) returns (k: nat)
    requires Tree(table, rank)
    ensures forall j: nat :: j < k ==> PassedOver(table, Ancestor(table, pid, j))
    ensures var a := Ancestor(table, pid, k);
            && !PassedOver(table, a)
            && Walk(table, rank, pid) ==
               if a !in table then 0
               else if table[a].reaper then table[a].appId
               else if table[a].parent == 0 || table[a].parent == 4294967295 || a == 1 then 0
               else table[a].appId
    decreases pid in table, rank(pid)
  {
    if !PassedOver(table, pid) {
      k := 0;
    } else {
      var up := WalkStopsAtFirst(table, rank, table[pid].parent);
      k := up + 1;
      AncestorOfParent(table, pid, up);
      forall j: nat | j < k ensures PassedOver(table, Ancestor(table, pid, j)) {
        if j > 0 {
          AncestorOfParent(table, pid, j - 1);
        }
      }
    }
  }

  function Store(cache: Cache, pid: Pid, p: Process, appId: nat): Cache {
    if p.start.Some? then cache[Key(pid, p.start.value) := appId] else cache
  }

  /** The live entry of a process, and the cache once an expired one is removed. */
  function Lookup(cache: Cache, alive: Key -> bool, pid: Pid, p: Process): (Option<nat>, Cache) {
    if p.start.None? || Key(pid, p.start.value) !in cache then (None, cache)
    else
      var k := Key(pid, p.start.value);
      if alive(k) then (Some(cache[k]), cache) else (None, cache - {k})
  }

  /** The walk with the cache: the id and the cache it leaves. `alive` says which entries have
      not expired when they are looked at. */
  ghost function CachedWalk(
    table: Table, rank: Pid -> nat, facts: Key -> Fact, cache: Cache, alive: Key -> bool, pid: Pid): (nat, Cache)
    requires Tree(table, rank) && Matches(table, facts) && Truthful(cache, facts)
    decreases pid in table, rank(pid)
  {
    if pid !in table then (0, cache)
    else
      var p := table[pid];
      var (hit, live) := Lookup(cache, alive, pid, p);
      if hit.Some? then
        if hit.value != 0 then (hit.value, live)
        else if p.reaper then (0, live)
        else CachedWalk(table, rank, facts, live, alive, p.parent)
      else if p.reaper then (p.appId, Store(live, pid, p, p.appId))
      else if Rooted(p) || pid == 1 then (0, live)
      else if p.appId != 0 then (p.appId, Store(live, pid, p, p.appId))
      else CachedWalk(table, rank, facts, Store(live, pid, p, 0), alive, p.parent)
  }

  /** The cache never changes the answer, and only ever holds true scan results. */
  lemma {:induction false} CachedWalkAgrees(
    table: Table, rank: Pid -> nat, facts: Key -> Fact, cache: Cache, alive: Key -> bool, pid: Pid)
    requires Tree(table, rank) && Matches(table, facts) && Truthful(cache, facts)
    ensures CachedWalk(table, rank, facts, cache, alive, pid).0 == Walk(table, rank, pid)
    ensures Truthful(CachedWalk(table, rank, facts, cache, alive, pid).1, facts)
    decreases pid in table, rank(pid)
  {
    if pid in table {
      var p := table[pid];
      var (hit, live) := Lookup(cache, alive, pid, p);
      if hit.Some? && hit.value == 0 && !p.reaper {
        CachedWalkAgrees(table, rank, facts, live, alive, p.parent);
      } else if hit.None? && !p.reaper && !(Rooted(p) || pid == 1) && p.appId == 0 {
        CachedWalkAgrees(table, rank, facts, Store(live, pid, p, 0), alive, p.parent);
      }
    }
  }

  /** A walk further up the tree leaves the entry of a process alone. */
  lemma {:induction false} WalkKeepsEntriesBelow(
    table: Table, rank: Pid -> nat, facts: Key -> Fact, cache: Cache, alive: Key -> bool, pid: Pid, k: Key)
    requires Tree(table, rank) && Matches(table, facts) && Truthful(cache, facts)
    requires k in cache && (pid in table ==> rank(pid) < rank(k.pid))
    ensures var left := CachedWalk(table, rank, facts, cache, alive, pid).1; k in left && left[k] == cache[k]
    decreases pid in table, rank(pid)
  {
    if pid in table {
      var p := table[pid];
      var (hit, live) := Lookup(cache, alive, pid, p);
      if hit.Some? && hit.value == 0 && !p.reaper {
        WalkKeepsEntriesBelow(table, rank, facts, live, alive, p.parent, k);
      } else if hit.None? && !p.reaper && !(Rooted(p) || pid == 1) && p.appId == 0 {
        WalkKeepsEntriesBelow(table, rank, facts, Store(live, pid, p, 0), alive, p.parent, k);
      }
    }
  }

  /** The cache is used: after a walk the scanned process has an entry, and as long as that has not
      expired the next query finds it. */
  lemma ScannedProcessIsCached(
    table: Table, rank: Pid -> nat, facts: Key -> Fact, cache: Cache, alive: Key -> bool, pid: Pid, later: Key -> bool)
    requires Tree(table, rank) && Matches(table, facts) && Truthful(cache, facts)
    requires pid in table && table[pid].start.Some?
    requires table[pid].reaper || !(Rooted(table[pid]) || pid == 1)
    ensures var left := CachedWalk(table, rank, facts, cache, alive, pid).1;
            var k := Key(pid, table[pid].start.value);
            && k in left && left[k] == table[pid].appId
            && (later(k) ==> Lookup(left, later, pid, table[pid]) == (Some(table[pid].appId), left))
            && (!later(k) ==> Lookup(left, later, pid, table[pid]) == (None, left - {k}))
  {
    var p := table[pid];
    var k := Key(pid, p.start.value);
    var (hit, live) := Lookup(cache, alive, pid, p);
    if hit.Some? && hit.value == 0 && !p.reaper {
      WalkKeepsEntriesBelow(table, rank, facts, live, alive, p.parent, k);
    } else if hit.None? && !p.reaper && p.appId == 0 {
      WalkKeepsEntriesBelow(table, rank, facts, Store(live, pid, p, 0), alive, p.parent, k);
    }
  }

  /** One query: the process table at that time, the entries not yet expired, and a pid. */
  datatype Query = Query(table: Table, rank: Pid -> nat, alive: Key -> bool, pid: Pid)

  ghost predicate Proper(q: Query, facts: Key -> Fact) {
    Tree(q.table, q.rank) && Matches(q.table, facts)
  }

  ghost function Answers(facts: Key -> Fact, cache: Cache, qs: seq<Query>): seq<nat>
    requires Truthful(cache, facts) && forall i :: 0 <= i < |qs| ==> Proper(qs[i], facts)
    decreases |qs|
  {
    if qs == [] then []
    else
      assert Proper(qs[0], facts);
      var (id, left) := CachedWalk(qs[0].table, qs[0].rank, facts, cache, qs[0].alive, qs[0].pid);
      CachedWalkAgrees(qs[0].table, qs[0].rank, facts, cache, qs[0].alive, qs[0].pid);
      [id] + Answers(facts, left, qs[1..])
  }

  /** Over any history of queries, with processes coming, going and being reparented between
      them and entries expiring at will, every answer is that of the uncached walk. */
  lemma {:induction false} EveryAnswerIsUncached(facts: Key -> Fact, cache: Cache, qs: seq<Query>)
    requires Truthful(cache, facts) && forall i :: 0 <= i < |qs| ==> Proper(qs[i], facts)
    ensures |Answers(facts, cache, qs)| == |qs|
    ensures forall i :: 0 <= i < |qs| ==> Answers(facts, cache, qs)[i] == Walk(qs[i].table, qs[i].rank, qs[i].pid)
    decreases |qs|
  {
    if qs != [] {
      var (id, left) := CachedWalk(qs[0].table, qs[0].rank, facts, cache, qs[0].alive, qs[0].pid);
      CachedWalkAgrees(qs[0].table, qs[0].rank, facts, cache, qs[0].alive, qs[0].pid);
      EveryAnswerIsUncached(facts, left, qs[1..]);
    }
  }

  /** The shared cache of app ids. */
  class AppIdCache {
    var entries: Cache

    constructor ()
      ensures entries == map[]
    {
      entries := map[];
    }

    method CacheGet(alive: Key -> bool, pid: Pid, p: Process) returns (hit: Option<nat>)
      modifies this
      ensures (hit, entries) == Lookup(old(entries), alive, pid, p)
    {
      if p.start.None? || Key(pid, p.start.value) !in entries {
        return None;
      }
      var k := Key(pid, p.start.value);
      if alive(k) {
        return Some(entries[k]);
      }
      entries := entries - {k};
      return None;
    }

    method CacheSet(pid: Pid, p: Process, appId: nat)
      modifies this
      ensures entries == Store(old(entries), pid, p, appId)
    {
      if p.start.Some? {
        entries := entries[Key(pid, p.start.value) := appId];
      }
    }

    /** Walks up from `pid`; terminates and returns the id of the uncached walk. */
    method GetAppIdFromPid(
      table: Table, ghost rank: Pid -> nat, ghost facts: Key -> Fact, alive: Key -> bool, pid: Pid)
      returns (r: nat)
      requires Tree(table, rank) && Matches(table, facts) && Truthful(entries, facts)
      modifies this
      ensures r == Walk(table, rank, pid) && Truthful(entries, facts)
      ensures (r, entries) == CachedWalk(table, rank, facts, old(entries), alive, pid)
    {
      CachedWalkAgrees(table, rank, facts, entries, alive, pid);
      var next := pid;
      while next in table
        invariant Truthful(entries, facts)
        invariant CachedWalk(table, rank, facts, entries, alive, next) ==
                  CachedWalk(table, rank, facts, old(entries), alive, pid)
        decreases next in table, rank(next)
      {
        var p := table[next];
        var hit := CacheGet(alive, next, p);
        if hit.Some? {
          if hit.value != 0 {
            return hit.value;
          }
          if p.reaper {
            return 0;
          }
          next := p.parent;
          continue;
        }
        if p.reaper {
          CacheSet(next, p, p.appId);
          return p.appId;
        }
        if Rooted(p) || next == 1 {
          return 0;
        }
        CacheSet(next, p, p.appId);
        if p.appId != 0 {
          return p.appId;
        }
        next := p.parent;
      }
      return 0;
    }
  }
}
