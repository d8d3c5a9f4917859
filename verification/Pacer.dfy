/**
 The per-host navigation pacer. A host's entry holds its recent dispatch times, a lock and the
 number of pace blocks using it; entries nobody uses and nothing recent fills are forgotten.
 An event is one stretch of `pace` between two waits, of any of the tasks in flight.
 Entries are objects: a pace block keeps the one it got even if the table forgets it.
 */
module Pacer {
  import opened Wrappers

  datatype Host = Host(name: string)
  type EntryId = nat
  type TaskId = nat

  datatype Config = Config(minIntervalMs: nat, perMinute: nat)

  /** The bounds `Settings` enforces. */
  predicate ValidConfig(c: Config) { c.minIntervalMs <= 60000 && 1 <= c.perMinute <= 600 }

  function Interval(c: Config): real { c.minIntervalMs as real / 1000.0 }

  datatype Entry = Entry(dispatches: seq<real>, lock: Option<TaskId>, users: nat)

  datatype Phase = Waiting | Sleeping(until: real) | Ready | Released

  datatype Pace = Pace(host: Host, entry: EntryId, deadline: real, phase: Phase)

  /** `log` records every dispatch to each host; the code itself keeps only the recent ones. */
  datatype State = State(cfg: Config, now: real, next: EntryId, hosts: map<Host, EntryId>, entries: map<EntryId, Entry>,
                         tasks: map<TaskId, Pace>, log: map<Host, seq<real>>)

  function Init(cfg: Config): State { State(cfg, 0.0, 0, map[], map[], map[], map[]) }

  function Log(s: State, h: Host): seq<real> { if h in s.log then s.log[h] else [] }

  /** Drops the dispatches that are a minute old or older. */
  function Trim(d: seq<real>, now: real): (r: seq<real>)
    ensures |r| <= |d| && r == d[|d| - |r|..]
    ensures forall i :: 0 <= i < |d| - |r| ==> d[i] <= now - 60.0
    ensures r != [] ==> r[0] > now - 60.0
  {
    if d != [] && d[0] <= now - 60.0 then Trim(d[1..], now) else d
  }

  function Trimmed(s: State, id: EntryId): Entry
    requires id in s.entries
  {
    s.entries[id].(dispatches := Trim(s.entries[id].dispatches, s.now))
  }

  predicate Forgotten(s: State, h: Host)
    requires h in s.hosts
  {
    s.hosts[h] in s.entries && Trimmed(s, s.hosts[h]).dispatches == [] && s.entries[s.hosts[h]].users == 0
  }

  predicate Linked(s: State) { forall h :: h in s.hosts ==> s.hosts[h] in s.entries }

  predicate InTable(s: State, id: EntryId) { exists h :: h in s.hosts && s.hosts[h] == id }

  /** `expire`: trim every known entry, forget those that are empty and unused. */
  function Expire(s: State): (s': State)
    ensures s'.tasks == s.tasks && s'.cfg == s.cfg && s'.now == s.now
    ensures s'.entries.Keys == s.entries.Keys
    ensures s'.hosts.Keys <= s.hosts.Keys && forall h :: h in s'.hosts ==> s'.hosts[h] == s.hosts[h]
  {
    s.(entries := map id | id in s.entries :: if InTable(s, id) then Trimmed(s, id) else s.entries[id],
       hosts := map h | h in s.hosts && !Forgotten(s, h) :: s.hosts[h])
  }

  /** The `finally` clause: give the lock back, stop using the entry, expire. */
  function Leave(s: State, t: TaskId): (s': State)
    requires t in s.tasks && s.tasks[t].entry in s.entries
    ensures s'.cfg == s.cfg
  {
    var id := s.tasks[t].entry;
    var e := s.entries[id];
    var freed := e.(lock := if e.lock == Some(t) then None else e.lock, users := if e.users > 0 then e.users - 1 else 0);
    Expire(s.(entries := s.entries[id := freed], tasks := s.tasks - {t}))
  }

  function Max(a: real, b: real): real { if a >= b then a else b }
  function Min(a: real, b: real): real { if a <= b then a else b }

  function WaitFor(s: State, d: seq<real>): real {
    if d == [] then 0.0 else Max(0.0, d[|d| - 1] + Interval(s.cfg) - s.now)
  }

  function Locked(s: State, t: TaskId): State
    requires t in s.tasks && s.tasks[t].entry in s.entries
  {
    s.(entries := s.entries[s.tasks[t].entry := s.entries[s.tasks[t].entry].(lock := Some(t))])
  }

  /** With the lock held and old dispatches dropped: refuse, sleep, or let the block run. */
  function Decided(s: State, t: TaskId): (s': State)
    requires t in s.tasks && s.tasks[t].entry in s.entries
    ensures s'.cfg == s.cfg
  {
    var pace := s.tasks[t];
    var d := s.entries[pace.entry].dispatches;
    var wait := WaitFor(s, d);
    if |d| >= s.cfg.perMinute then Leave(s, t)
    else if wait > 0.0 && wait > pace.deadline - s.now then Leave(s, t)
    else s.(tasks := s.tasks[t := pace.(phase := if wait > 0.0 then Sleeping(s.now + wait) else Ready)])
  }

  function Acquired(s: State, t: TaskId): (s': State)
    requires t in s.tasks && s.tasks[t].entry in s.entries
    ensures s'.cfg == s.cfg
  {
    Decided(Expire(Locked(s, t)), t)
  }

  predicate HasWaiters(s: State, id: EntryId) {
    exists t :: t in s.tasks && s.tasks[t].entry == id && s.tasks[t].phase.Waiting?
  }

  /** The entry of a host, made if it is unknown. */
  function Known(s: State, h: Host): State {
    if h in s.hosts then s
    else s.(next := s.next + 1, hosts := s.hosts[h := s.next], entries := s.entries[s.next := Entry([], None, 0)])
  }

  /** One more user of a host's entry, waiting for its lock. */
  function Joined(s: State, t: TaskId, h: Host, limit: real): State
    requires h in s.hosts && s.hosts[h] in s.entries
  {
    var id := s.hosts[h];
    s.(entries := s.entries[id := s.entries[id].(users := s.entries[id].users + 1)],
       tasks := s.tasks[t := Pace(h, id, limit, Waiting)])
  }

  function WaitDeadline(now: real, deadline: Option<real>): real {
    if deadline.Some? then Min(now + 5.0, deadline.value - 0.05) else now + 5.0
  }

  /** `pace` up to its first wait. */
  function Enter(s: State, t: TaskId, h: Host, deadline: Option<real>): (s': State)
    requires Linked(s) && t !in s.tasks
    ensures s'.cfg == s.cfg
  {
    var s1 := Known(Expire(s), h);
    var e := s1.entries[s1.hosts[h]];
    var limit := WaitDeadline(s.now, deadline);
    var s2 := Joined(s1, t, h, limit);
    if e.lock.None? && !HasWaiters(s1, s1.hosts[h]) then Acquired(s2, t)
    else if e.lock.Some? && limit - s.now <= 0.0 then Leave(s2, t)
    else s2
  }

  /** The block reports its dispatch: it is recorded and the lock goes to the next. */
  function Dispatch(s: State, t: TaskId): State
    requires t in s.tasks && s.tasks[t].entry in s.entries
  {
    var pace := s.tasks[t];
    var e := s.entries[pace.entry];
    s.(entries := s.entries[pace.entry := e.(dispatches := e.dispatches + [s.now], lock := None)],
       tasks := s.tasks[t := pace.(phase := Released)],
       log := s.log[pace.host := Log(s, pace.host) + [s.now]])
  }

  datatype Event =
    | Tick(elapsed: real)
    | Arrive(task: TaskId, host: Host, deadline: Option<real>)
    | Acquire(task: TaskId)
    | Wake(task: TaskId)
    | Dispatched(task: TaskId)
    | Exit(task: TaskId)              // the block ends, fails, times out or is cancelled
    | Sweep                           // `expire` from elsewhere

  predicate Enabled(s: State, e: Event) {
    Linked(s) &&
    match e
    case Tick(elapsed) => elapsed >= 0.0
    case Arrive(t, _, _) => t !in s.tasks
    case Acquire(t) => t in s.tasks && s.tasks[t].phase.Waiting? && s.tasks[t].entry in s.entries
                       && s.entries[s.tasks[t].entry].lock.None?
    case Wake(t) => t in s.tasks && s.tasks[t].phase.Sleeping? && s.now >= s.tasks[t].phase.until
    case Dispatched(t) => t in s.tasks && s.tasks[t].phase.Ready? && s.tasks[t].entry in s.entries
    case Exit(t) => t in s.tasks && s.tasks[t].entry in s.entries
    case Sweep => true
  }

  function Next(s: State, e: Event): (s': State)
    requires Enabled(s, e)
    ensures s'.cfg == s.cfg
  {
    match e
    case Tick(elapsed) => s.(now := s.now + elapsed)
    case Arrive(t, h, deadline) => Enter(s, t, h, deadline)
    case Acquire(t) => Acquired(s, t)
    case Wake(t) => s.(tasks := s.tasks[t := s.tasks[t].(phase := Ready)])
    case Dispatched(t) => Dispatch(s, t)
    case Exit(t) => Leave(s, t)
    case Sweep => Expire(s)
  }

  function Run(s: State, events: seq<Event>): State
    decreases |events|
  {
    if events == [] then s
    else
      var before := Run(s, events[..|events| - 1]);
      var e := events[|events| - 1];
      if Enabled(before, e) then Next(before, e) else before
  }
}
