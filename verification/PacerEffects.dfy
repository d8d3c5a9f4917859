/** What the pacer does with each block: refuse it, make it wait exactly as long as needed, or let it run. */
module PacerEffects {
  import opened Wrappers
  import opened Pacer
  import opened PacerTheorems

  /** The host has used up its minute: its last `perMinute` dispatches are all less than a minute old. */
  predicate Full(c: Config, l: seq<real>, now: real) {
    |l| >= c.perMinute >= 1 && l[|l| - c.perMinute] > now - 60.0
  }

  /** When the next dispatch to the host may come. */
  function Due(c: Config, l: seq<real>, now: real): real {
    if l == [] then now else l[|l| - 1] + c.minIntervalMs as real / 1000.0
  }

  /** What becomes of a block that gets its host's lock, told by the host's dispatches alone. */
  ghost predicate Verdict(s: State, s': State, t: TaskId, h: Host, deadline: real) {
    var l := Log(s, h);
    var due := Due(s.cfg, l, s.now);
    if Full(s.cfg, l, s.now) || (due > s.now && due > deadline) then t !in s'.tasks
    else t in s'.tasks && s'.tasks[t] == Pace(h, s'.tasks[t].entry, deadline, if due > s.now then Sleeping(due) else Ready)
  }

  /** The remembered dispatches decide as the whole log does. */
  lemma SameDecision(s: State, d: seq<real>, l: seq<real>)
    requires ValidConfig(s.cfg) && Remembers(s.now, d, l) && Paced(s.cfg, l) && (d != [] ==> d[0] > s.now - 60.0)
    ensures |d| >= s.cfg.perMinute <==> Full(s.cfg, l, s.now)
    ensures WaitFor(s, d) == if Due(s.cfg, l, s.now) > s.now then Due(s.cfg, l, s.now) - s.now else 0.0
  {
    assert 0.0 <= Interval(s.cfg) <= 60.0;
    var n := s.cfg.perMinute;
    if d != [] { assert d[|d| - 1] == l[|l| - 1]; }
    if |d| >= n {
      assert l[|l| - n] == d[|d| - n];
      if |d| > n { assert l[|l| - |d|] == d[0] && l[|l| - |d|] + Interval(s.cfg) <= l[|l| - n]; }
    }
  }

  /** What the invariant says of the host of a block. */
  lemma HostFacts(s: State, skip: set<TaskId>, t: TaskId)
    requires InvBut(s, skip) && t in s.tasks
    ensures var p := s.tasks[t];
      ValidConfig(s.cfg) && p.host in s.hosts && s.hosts[p.host] == p.entry && p.entry in s.entries
      && Remembers(s.now, s.entries[p.entry].dispatches, Log(s, p.host)) && Paced(s.cfg, Log(s, p.host))
      && (t !in skip ==> (p.phase.Sleeping? || p.phase.Ready? <==> s.entries[p.entry].lock == Some(t)))
  {
    SharesIs(s, t);
    assert HostOk(s, s.tasks[t].host) && LogOk(s, s.tasks[t].host);
    hide MayDispatch, Paced, Remembers, Users;
  }

  lemma DecidedVerdict(s: State, t: TaskId)
    requires InvBut(s, {t}) && t in s.tasks && s.tasks[t].entry in s.entries
    requires var d := s.entries[s.tasks[t].entry].dispatches; d != [] ==> d[0] > s.now - 60.0
    ensures Verdict(s, Decided(s, t), t, s.tasks[t].host, s.tasks[t].deadline)
  {
    hide Leave, InvBut, Full, Due, Paced, Remembers, WaitFor, Log, ValidConfig;
    HostFacts(s, {t}, t);
    var l, d := Log(s, s.tasks[t].host), s.entries[s.tasks[t].entry].dispatches;
    SameDecision(s, d, l);
    LeaveEnds(s, t);
    var due, wait := Due(s.cfg, l, s.now), WaitFor(s, d);
    assert wait > 0.0 ==> s.now + wait == due;
  }

  /** The verdict depends on the clock and the dispatches only. */
  lemma VerdictAlike(s: State, s1: State, s': State, t: TaskId, h: Host, deadline: real)
    requires s1.cfg == s.cfg && s1.now == s.now && s1.log == s.log && Verdict(s1, s', t, h, deadline)
    ensures Verdict(s, s', t, h, deadline)
  {
    assert Log(s1, h) == Log(s, h);
  }

  lemma LeaveEnds(s: State, t: TaskId)
    requires t in s.tasks && s.tasks[t].entry in s.entries
    ensures Leave(s, t).tasks == s.tasks - {t}
  {
  }

  lemma AcquiredVerdict(s: State, t: TaskId)
    requires Inv(s) && t in s.tasks && s.tasks[t].phase.Waiting? && s.tasks[t].entry in s.entries
    requires s.entries[s.tasks[t].entry].lock.None?
    ensures Verdict(s, Acquired(s, t), t, s.tasks[t].host, s.tasks[t].deadline)
  {
    hide InvBut, Expire, Decided, Trim, Verdict;
    var s0 := Locked(s, t);
    LockedInv(s, t);
    ExpireInv(s0, {t});
    ExpireKeys(s0);
    var s1 := Expire(s0);
    assert s1.tasks == s.tasks && s1.log == s.log;
    DecidedVerdict(s1, t);
    VerdictAlike(s, s1, Acquired(s, t), t, s.tasks[t].host, s.tasks[t].deadline);
  }

  /** A waiting block that gets the lock is refused exactly when the host's minute is full or the next
      dispatch would come after its deadline; else it sleeps exactly until that is due, or runs. */
  lemma AcquireDecides(c: Config, events: seq<Event>, t: TaskId)
    requires ValidConfig(c) && Enabled(Run(Init(c), events), Acquire(t))
    ensures var s := Run(Init(c), events); Verdict(s, Next(s, Acquire(t)), t, s.tasks[t].host, s.tasks[t].deadline)
  {
    RunInv(c, events);
    AcquiredVerdict(Run(Init(c), events), t);
    hide Inv, Verdict, Acquired;
  }

  /** The latest moment a new block is ready to wait for: five seconds on, or shortly before the
      deadline it was given. */
  function LatestFor(now: real, deadline: Option<real>): real {
    match deadline
    case None => now + 5.0
    case Some(d) => if d - 0.05 <= now + 5.0 then d - 0.05 else now + 5.0
  }

  /** On a host that no other block is using a new block is decided upon at once. */
  lemma ArriveDecides(c: Config, events: seq<Event>, t: TaskId, h: Host, deadline: Option<real>)
    requires ValidConfig(c) && Enabled(Run(Init(c), events), Arrive(t, h, deadline))
    requires forall u :: u in Run(Init(c), events).tasks ==> Run(Init(c), events).tasks[u].host != h
    ensures var s := Run(Init(c), events); Verdict(s, Next(s, Arrive(t, h, deadline)), t, h, LatestFor(s.now, deadline))
  {
    RunInv(c, events);
    var s := Run(Init(c), events);
    ExpireInv(s, {});
    KnownInv(Expire(s), h);
    SameTasks(s, h);
    var s1 := Known(Expire(s), h);
    var limit := WaitDeadline(s.now, deadline);
    NobodyUses(s1, h);
    JoinInv(s1, t, h, limit);
    ExpireKeys(s);
    var s2 := Joined(s1, t, h, limit);
    AcquiredVerdict(s2, t);
    hide InvBut, Acquired, Expire, Leave, HasWaiters;
    assert Log(s2, h) == Log(s, h);
  }

  lemma NobodyUses(s: State, h: Host)
    requires Inv(s) && h in s.hosts && forall u :: u in s.tasks ==> s.tasks[u].host != h
    ensures s.hosts[h] in s.entries && s.entries[s.hosts[h]].lock.None? && !HasWaiters(s, s.hosts[h])
  {
    HostIs(s, h);
    assert HostOk(s, h);
    forall u | u in s.tasks ensures s.tasks[u].entry != s.hosts[h] { SharesIs(s, u); }
  }

  /** Behind another block of its host a new block waits for the lock; only if that is taken and there
      is no time left is it refused. */
  lemma ArriveQueues(c: Config, events: seq<Event>, t: TaskId, h: Host, deadline: Option<real>, u: TaskId)
    requires ValidConfig(c) && Enabled(Run(Init(c), events), Arrive(t, h, deadline))
    requires var s := Run(Init(c), events); u in s.tasks && s.tasks[u].host == h && !s.tasks[u].phase.Released?
    ensures var s := Run(Init(c), events);
      var s' := Next(s, Arrive(t, h, deadline));
      h in s.hosts && s.hosts[h] in s.entries
      && if s.entries[s.hosts[h]].lock.Some? && LatestFor(s.now, deadline) <= s.now then t !in s'.tasks
         else t in s'.tasks && s'.tasks[t] == Pace(h, s.hosts[h], LatestFor(s.now, deadline), Waiting)
  {
    RunInv(c, events);
    var s := Run(Init(c), events);
    QueuesBehind(s, t, h, deadline, u);
    hide Inv, Enter;
  }

  /** Expiring leaves a block's entry in the table, with its lock. */
  lemma ExpireKeepsUsed(s: State, u: TaskId)
    requires Inv(s) && u in s.tasks
    ensures var s1, h := Expire(s), s.tasks[u].host;
      h in s.hosts && s.hosts[h] in s.entries && h in s1.hosts && s1.hosts[h] == s.hosts[h] && s1.hosts[h] in s1.entries
      && s1.entries[s1.hosts[h]].lock == s.entries[s.hosts[h]].lock && s1.tasks == s.tasks && s1.now == s.now && Linked(s)
      && s.tasks[u].entry == s.hosts[h]
  {
    HostFacts(s, {}, u);
    ExpireInv(s, {});
    ExpireKeys(s);
    hide Expire, Trim;
    HostFacts(Expire(s), {}, u);
  }

  lemma QueuesBehind(s: State, t: TaskId, h: Host, deadline: Option<real>, u: TaskId)
    requires Inv(s) && Linked(s) && t !in s.tasks && u in s.tasks && s.tasks[u].host == h && !s.tasks[u].phase.Released?
    ensures var s' := Enter(s, t, h, deadline);
      h in s.hosts && s.hosts[h] in s.entries
      && if s.entries[s.hosts[h]].lock.Some? && LatestFor(s.now, deadline) <= s.now then t !in s'.tasks
         else t in s'.tasks && s'.tasks[t] == Pace(h, s.hosts[h], LatestFor(s.now, deadline), Waiting)
  {
    hide InvBut, Expire, Acquired, Leave;
    HostFacts(s, {}, u);
    ExpireKeepsUsed(s, u);
    var s1 := Expire(s);
    assert s1.entries[s1.hosts[h]].lock.Some? || HasWaiters(s1, s1.hosts[h]);
    hide HasWaiters;
    LeaveEnds(Joined(s1, t, h, WaitDeadline(s.now, deadline)), t);
  }

  /** Nobody keeps the lock from the others: when the block that holds it dispatches, ends, fails or is
      cancelled, any block that waits for the host may get it. */
  lemma LockPassesOn(c: Config, events: seq<Event>, t: TaskId, e: Event, u: TaskId)
    requires ValidConfig(c) && Enabled(Run(Init(c), events), e) && (e == Dispatched(t) || e == Exit(t))
    requires var s := Run(Init(c), events);
      t in s.tasks && (s.tasks[t].phase.Sleeping? || s.tasks[t].phase.Ready?)
      && u in s.tasks && s.tasks[u].host == s.tasks[t].host && s.tasks[u].phase.Waiting?
    ensures Enabled(Next(Run(Init(c), events), e), Acquire(u))
  {
    hide InvBut, Linked, Leave, Dispatch, Run;
    RunInv(c, events);
    var s := Run(Init(c), events);
    NextInv(s, e);
    HostFacts(s, {}, t);
    HostFacts(s, {}, u);
    AllLinked(Next(s, e), {});
    if e.Exit? { FreedLock(s, t, u); } else { PassedLock(s, t, u); }
  }

  lemma PassedLock(s: State, t: TaskId, u: TaskId)
    requires t in s.tasks && u in s.tasks && t != u && s.tasks[t].entry in s.entries && s.tasks[u].entry == s.tasks[t].entry
    ensures var s' := Dispatch(s, t);
      u in s'.tasks && s'.tasks[u] == s.tasks[u] && s.tasks[u].entry in s'.entries && s'.entries[s.tasks[u].entry].lock.None?
  {
  }

  lemma FreedLock(s: State, t: TaskId, u: TaskId)
    requires Inv(s) && t in s.tasks && u in s.tasks && t != u && s.tasks[t].entry in s.entries
    requires s.tasks[u].entry == s.tasks[t].entry && s.entries[s.tasks[t].entry].lock == Some(t)
    ensures var s' := Leave(s, t);
      u in s'.tasks && s'.tasks[u] == s.tasks[u] && s.tasks[u].entry in s'.entries && s'.entries[s.tasks[u].entry].lock.None?
  {
    StillBut(s, t);
    LeftInv(s, t);
    var s1 := Left(s, t);
    ExpireInv(s1, {});
    ExpireKeys(s1);
    hide InvBut, Expire;
  }

  /** A dispatch is recorded at its time, for its host and no other. */
  lemma DispatchIsRecorded(c: Config, events: seq<Event>, t: TaskId)
    requires Enabled(Run(Init(c), events), Dispatched(t))
    ensures var s := Run(Init(c), events);
      var s' := Next(s, Dispatched(t));
      Log(s', s.tasks[t].host) == Log(s, s.tasks[t].host) + [s.now]
      && (forall h :: h != s.tasks[t].host ==> Log(s', h) == Log(s, h))
      && t in s'.tasks && s'.tasks[t].phase == Released
  {
  }
}
