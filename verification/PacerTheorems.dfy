/** Spacing and rate of the recorded dispatches, over every interleaving of pace blocks. */
module PacerTheorems {
  import opened Wrappers
  import opened Pacer

  /** Dispatches at least the interval apart, and never more than the limit within a minute. */
  ghost predicate Paced(c: Config, l: seq<real>) {
    (forall i, j :: 0 <= i < j < |l| ==> l[i] + Interval(c) <= l[j])
    && (forall i, j :: 0 <= i && i + c.perMinute <= j < |l| ==> l[i] + 60.0 <= l[j])
  }

  /** The remembered dispatches are the end of the log, and what is forgotten is a minute old. */
  ghost predicate Remembers(now: real, d: seq<real>, l: seq<real>) {
    |d| <= |l| && d == l[|l| - |d|..] && forall i :: 0 <= i < |l| - |d| ==> l[i] <= now - 60.0
  }

  /** A dispatch at time `at` or later keeps the log paced. */
  ghost predicate MayDispatch(c: Config, l: seq<real>, at: real) {
    (forall i :: 0 <= i < |l| ==> l[i] + Interval(c) <= at)
    && (forall i :: 0 <= i < |l| && i + c.perMinute <= |l| ==> l[i] + 60.0 <= at)
  }

  ghost predicate InUse(s: State, t: TaskId, id: EntryId) { t in s.tasks && s.tasks[t].entry == id }

  ghost function Users(s: State, id: EntryId): set<TaskId> { set t | t in s.tasks && s.tasks[t].entry == id }

  /** A block in flight shares the table's entry for its host. */
  ghost predicate Shares(s: State, t: TaskId)
    requires t in s.tasks
  {
    var p := s.tasks[t];
    p.host in s.hosts && s.hosts[p.host] == p.entry && p.entry in s.entries
  }

  ghost predicate PhaseOk(s: State, t: TaskId)
    requires t in s.tasks && Shares(s, t)
  {
    var p := s.tasks[t];
    (p.phase.Sleeping? || p.phase.Ready? <==> s.entries[p.entry].lock == Some(t))
    && (p.phase.Sleeping? ==> MayDispatch(s.cfg, Log(s, p.host), p.phase.until))
    && (p.phase.Ready? ==> MayDispatch(s.cfg, Log(s, p.host), s.now))
  }

  ghost predicate HostOk(s: State, h: Host)
    requires h in s.hosts
  {
    var id := s.hosts[h];
    id in s.entries && id < s.next
    && s.entries[id].users == |Users(s, id)|
    && Remembers(s.now, s.entries[id].dispatches, Log(s, h))
    && (s.entries[id].lock.Some? ==> InUse(s, s.entries[id].lock.value, id))
    && forall g :: g in s.hosts && s.hosts[g] == id ==> g == h
  }

  ghost predicate LogOk(s: State, h: Host) {
    Paced(s.cfg, Log(s, h)) && (forall i :: 0 <= i < |Log(s, h)| ==> Log(s, h)[i] <= s.now)
    && (h !in s.hosts ==> forall i :: 0 <= i < |Log(s, h)| ==> Log(s, h)[i] <= s.now - 60.0)
  }

  /** The invariant, with the phases of some blocks left open. */
  ghost predicate InvBut(s: State, skip: set<TaskId>) {
    ValidConfig(s.cfg) && (forall t :: t in s.tasks ==> Shares(s, t) && (t !in skip ==> PhaseOk(s, t)))
    && (forall h :: h in s.hosts ==> HostOk(s, h))
    && (forall h: Host :: LogOk(s, h)) && (forall id :: id in s.entries ==> id < s.next)
  }

  ghost predicate Inv(s: State) { InvBut(s, {}) }

  lemma SharesIs(s: State, t: TaskId)
    requires t in s.tasks && Shares(s, t)
    ensures var p := s.tasks[t]; p.host in s.hosts && s.hosts[p.host] == p.entry && p.entry in s.entries
  {
  }

  lemma HostIs(s: State, h: Host)
    requires h in s.hosts && HostOk(s, h)
    ensures s.hosts[h] in s.entries && s.hosts[h] < s.next
    ensures forall g :: g in s.hosts && s.hosts[g] == s.hosts[h] ==> g == h
    ensures s.entries[s.hosts[h]].lock.Some? ==> s.entries[s.hosts[h]].lock.value in s.tasks
  {
  }

  // ---- frames -----------------------------------------------------------------------------

  lemma UsersFrame(s: State, s': State, id: EntryId)
    requires forall t :: t in s.tasks && s.tasks[t].entry == id ==> t in s'.tasks && s'.tasks[t].entry == id
    requires forall t :: t in s'.tasks && s'.tasks[t].entry == id ==> t in s.tasks && s.tasks[t].entry == id
    ensures Users(s', id) == Users(s, id)
  {
  }

  /** A host whose entry, users and log stay as they are. */
  lemma HostFrame(s: State, s': State, h: Host)
    requires h in s.hosts && HostOk(s, h) && h in s'.hosts && s'.hosts[h] == s.hosts[h]
    requires s.hosts[h] in s'.entries && s'.entries[s.hosts[h]] == s.entries[s.hosts[h]]
    requires s.now <= s'.now && s.next <= s'.next && Log(s', h) == Log(s, h)
    requires forall t :: t in s.tasks && s.tasks[t].entry == s.hosts[h] ==> t in s'.tasks && s'.tasks[t].entry == s.hosts[h]
    requires forall t :: t in s'.tasks && s'.tasks[t].entry == s.hosts[h] ==> t in s.tasks && s.tasks[t].entry == s.hosts[h]
    requires forall g :: g in s'.hosts && s'.hosts[g] == s.hosts[h] ==> g in s.hosts && s.hosts[g] == s.hosts[h]
    ensures HostOk(s', h)
  {
    UsersFrame(s, s', s.hosts[h]);
    hide Users;
  }

  lemma TaskFrame(s: State, s': State, t: TaskId)
    requires t in s.tasks && Shares(s, t) && PhaseOk(s, t) && t in s'.tasks && s'.tasks[t] == s.tasks[t]
    requires var p := s.tasks[t];
      p.host in s'.hosts && s'.hosts[p.host] == p.entry && p.entry in s'.entries
      && (s'.entries[p.entry].lock == Some(t) <==> s.entries[p.entry].lock == Some(t))
      && Log(s', p.host) == Log(s, p.host)
    requires s.now <= s'.now && s'.cfg == s.cfg
    ensures Shares(s', t) && PhaseOk(s', t)
  {
  }

  lemma LogFrame(s: State, s': State, h: Host)
    requires LogOk(s, h) && Log(s', h) == Log(s, h) && s.now <= s'.now && s'.cfg == s.cfg
    requires h !in s'.hosts ==> h !in s.hosts
    ensures LogOk(s', h)
  {
    hide Paced;
  }

  // ---- expire -----------------------------------------------------------------------------

  lemma TrimRemembers(now: real, d: seq<real>, l: seq<real>)
    requires Remembers(now, d, l)
    ensures Remembers(now, Trim(d, now), l)
  {
    var r := Trim(d, now);
    forall i | 0 <= i < |l| - |r| ensures l[i] <= now - 60.0 {
      if i >= |l| - |d| { assert l[i] == d[i - (|l| - |d|)]; }
    }
  }

  lemma AllLinked(s: State, skip: set<TaskId>)
    requires InvBut(s, skip)
    ensures Linked(s)
  {
    hide HostOk, Shares, PhaseOk, LogOk;
    forall h | h in s.hosts ensures s.hosts[h] in s.entries { HostIs(s, h); }
  }

  lemma ExpireEntry(s: State, h: Host)
    requires h in s.hosts && s.hosts[h] in s.entries
    ensures Expire(s).entries[s.hosts[h]] == Trimmed(s, s.hosts[h])
  {
    hide Trimmed;
  }

  lemma ExpireHost(s: State, h: Host)
    requires h in s.hosts && HostOk(s, h) && LogOk(s, h) && h in Expire(s).hosts
    ensures HostOk(Expire(s), h) && LogOk(Expire(s), h)
  {
    hide Trim, Forgotten, InTable, Users, Paced, Remembers;
    TrimRemembers(s.now, s.entries[s.hosts[h]].dispatches, Log(s, h));
    ExpireEntry(s, h);
    ExpireKeys(s);
    hide Expire;
    UsersFrame(s, Expire(s), s.hosts[h]);
    LogFrame(s, Expire(s), h);
    hide LogOk;
  }

  lemma ExpireGone(s: State, h: Host)
    requires h in s.hosts && HostOk(s, h) && LogOk(s, h) && h !in Expire(s).hosts
    ensures LogOk(Expire(s), h)
  {
    GoneIsOld(s, h);
    ExpireKeys(s);
    hide Expire, Paced, HostOk;
  }

  lemma GoneIsOld(s: State, h: Host)
    requires h in s.hosts && HostOk(s, h) && h !in Expire(s).hosts
    ensures forall i :: 0 <= i < |Log(s, h)| ==> Log(s, h)[i] <= s.now - 60.0
  {
    TrimRemembers(s.now, s.entries[s.hosts[h]].dispatches, Log(s, h));
    hide Users, InUse;
  }

  lemma ExpireTask(s: State, t: TaskId)
    requires t in s.tasks && Shares(s, t) && HostOk(s, s.tasks[t].host)
    ensures s.tasks[t].host in Expire(s).hosts && s.tasks[t].entry in Expire(s).entries
    ensures Expire(s).entries[s.tasks[t].entry] == Trimmed(s, s.tasks[t].entry)
  {
    assert t in Users(s, s.tasks[t].entry);
  }

  lemma ExpireTasks(s: State, skip: set<TaskId>)
    requires InvBut(s, skip)
    ensures forall t :: t in s.tasks ==> Shares(Expire(s), t) && (t !in skip ==> PhaseOk(Expire(s), t))
    ensures forall t :: t in s.tasks ==>
      s.tasks[t].entry in s.entries && s.tasks[t].entry in Expire(s).entries
      && Expire(s).entries[s.tasks[t].entry] == Trimmed(s, s.tasks[t].entry)
  {
    hide HostOk, Shares, PhaseOk, LogOk, Trimmed;
    ExpireKeys(s);
    hide Expire;
    forall t | t in s.tasks
      ensures Shares(Expire(s), t) && (t !in skip ==> PhaseOk(Expire(s), t)) && s.tasks[t].entry in s.entries
      ensures s.tasks[t].entry in Expire(s).entries && Expire(s).entries[s.tasks[t].entry] == Trimmed(s, s.tasks[t].entry)
    {
      SharesIs(s, t);
      ExpireTask(s, t);
      ExpirePhase(s, t, t in skip);
    }
  }

  lemma ExpireHosts(s: State, skip: set<TaskId>)
    requires InvBut(s, skip)
    ensures forall h :: h in Expire(s).hosts ==> h in s.hosts && HostOk(Expire(s), h)
  {
    hide HostOk, Shares, PhaseOk, LogOk;
    ExpireKeys(s);
    hide Expire;
    forall h | h in Expire(s).hosts ensures HostOk(Expire(s), h) { ExpireHost(s, h); }
  }

  lemma ExpireKeys(s: State)
    ensures Expire(s).hosts.Keys <= s.hosts.Keys && Expire(s).entries.Keys == s.entries.Keys
    ensures Expire(s).tasks == s.tasks && Expire(s).log == s.log && Expire(s).now == s.now && Expire(s).cfg == s.cfg
    ensures Expire(s).next == s.next
  {
  }

  lemma ExpireLogs(s: State, skip: set<TaskId>)
    requires InvBut(s, skip)
    ensures forall h: Host :: LogOk(Expire(s), h)
  {
    hide HostOk, Shares, PhaseOk, LogOk;
    ExpireKeys(s);
    hide Expire;
    forall h: Host ensures LogOk(Expire(s), h) {
      if h in Expire(s).hosts { ExpireHost(s, h); } else if h in s.hosts { ExpireGone(s, h); } else { LogFrame(s, Expire(s), h); }
    }
  }

  lemma ExpireInv(s: State, skip: set<TaskId>)
    requires InvBut(s, skip)
    ensures Linked(s) && InvBut(Expire(s), skip)
    ensures forall t :: t in s.tasks ==>
      s.tasks[t].entry in s.entries && s.tasks[t].entry in Expire(s).entries
      && Expire(s).entries[s.tasks[t].entry] == Trimmed(s, s.tasks[t].entry)
  {
    hide HostOk, Shares, PhaseOk, LogOk, Trimmed;
    ExpireKeys(s);
    AllLinked(s, skip);
    hide Expire, Linked;
    ExpireTasks(s, skip);
    ExpireHosts(s, skip);
    ExpireLogs(s, skip);
  }

  lemma ExpirePhase(s: State, t: TaskId, skip: bool)
    requires t in s.tasks && Shares(s, t) && (!skip ==> PhaseOk(s, t)) && s.tasks[t].host in Expire(s).hosts
    ensures Shares(Expire(s), t) && (!skip ==> PhaseOk(Expire(s), t))
  {
    hide MayDispatch, Trim, Forgotten;
  }

  // ---- leaving ----------------------------------------------------------------------------

  /** The state of `Leave` before it expires entries. */
  ghost function Left(s: State, t: TaskId): State
    requires t in s.tasks && s.tasks[t].entry in s.entries
  {
    var id := s.tasks[t].entry;
    var e := s.entries[id];
    var freed := e.(lock := if e.lock == Some(t) then None else e.lock, users := if e.users > 0 then e.users - 1 else 0);
    s.(entries := s.entries[id := freed], tasks := s.tasks - {t})
  }

  lemma LeftHost(s: State, t: TaskId)
    requires t in s.tasks && Shares(s, t) && HostOk(s, s.tasks[t].host)
    ensures HostOk(Left(s, t), s.tasks[t].host)
  {
    var id := s.tasks[t].entry;
    var s1 := Left(s, t);
    assert t in Users(s, id);
    assert Users(s1, id) == Users(s, id) - {t};
    hide Users, Remembers;
  }

  lemma LeftInv(s: State, t: TaskId)
    requires InvBut(s, {t}) && t in s.tasks
    ensures s.tasks[t].entry in s.entries && Inv(Left(s, t))
  {
    hide HostOk, Shares, PhaseOk, LogOk;
    SharesIs(s, t);
    var h := s.tasks[t].host;
    var s1 := Left(s, t);
    HostIs(s, h);
    LeftHost(s, t);
    forall g | g in s1.hosts ensures HostOk(s1, g) {
      HostIs(s, g);
      if g != h { HostFrame(s, s1, g); }
    }
    forall u | u in s1.tasks ensures Shares(s1, u) && PhaseOk(s1, u) {
      SharesIs(s, u);
      TaskFrame(s, s1, u);
    }
    forall g: Host ensures LogOk(s1, g) { LogFrame(s, s1, g); }
  }

  lemma LeaveInv(s: State, t: TaskId)
    requires InvBut(s, {t}) && t in s.tasks
    ensures s.tasks[t].entry in s.entries && Inv(Leave(s, t))
  {
    LeftInv(s, t);
    ExpireInv(Left(s, t), {});
    hide InvBut;
  }

  // ---- acquiring --------------------------------------------------------------------------

  /** The check at acquisition: what it lets through may be dispatched after the wait. */
  lemma CheckedMayDispatch(c: Config, d: seq<real>, l: seq<real>, now: real, at: real)
    requires ValidConfig(c) && Remembers(now, d, l) && Paced(c, l) && |d| < c.perMinute && at >= now
    requires d != [] ==> d[|d| - 1] + Interval(c) <= at
    ensures MayDispatch(c, l, at)
  {
    assert 0.0 <= Interval(c) <= 60.0;
    hide Interval;
    forall i | 0 <= i < |l| ensures l[i] + Interval(c) <= at {
      if i >= |l| - |d| {
        assert l[|l| - 1] == d[|d| - 1];
        if i < |l| - 1 { assert l[i] + Interval(c) <= l[|l| - 1]; }
      }
    }
  }

  lemma LockedHost(s: State, t: TaskId)
    requires t in s.tasks && Shares(s, t) && HostOk(s, s.tasks[t].host)
    ensures HostOk(Locked(s, t), s.tasks[t].host)
  {
    UsersFrame(s, Locked(s, t), s.tasks[t].entry);
    hide Users, Remembers;
  }

  lemma LockedInv(s: State, t: TaskId)
    requires Inv(s) && t in s.tasks && s.tasks[t].phase.Waiting? && s.tasks[t].entry in s.entries
    requires s.entries[s.tasks[t].entry].lock.None?
    ensures InvBut(Locked(s, t), {t})
  {
    hide HostOk, Shares, PhaseOk, LogOk;
    var s0 := Locked(s, t);
    SharesIs(s, t);
    HostIs(s, s.tasks[t].host);
    LockedHost(s, t);
    forall g | g in s0.hosts ensures HostOk(s0, g) {
      HostIs(s, g);
      if g != s.tasks[t].host { HostFrame(s, s0, g); }
    }
    forall u | u in s0.tasks ensures Shares(s0, u) && (u != t ==> PhaseOk(s0, u)) {
      SharesIs(s, u);
      if u != t { TaskFrame(s, s0, u); } else { LockedShares(s, t); }
    }
    forall g: Host ensures LogOk(s0, g) { LogFrame(s, s0, g); }
  }

  lemma LockedShares(s: State, t: TaskId)
    requires t in s.tasks && Shares(s, t)
    ensures Shares(Locked(s, t), t)
  {
  }

  /** Only a block's own phase changes. */
  lemma PhaseSet(s: State, t: TaskId, phase: Phase)
    requires InvBut(s, {t}) && t in s.tasks
    requires var s' := s.(tasks := s.tasks[t := s.tasks[t].(phase := phase)]); Shares(s', t) && PhaseOk(s', t)
    ensures Inv(s.(tasks := s.tasks[t := s.tasks[t].(phase := phase)]))
  {
    hide HostOk, Shares, PhaseOk, LogOk;
    var s' := s.(tasks := s.tasks[t := s.tasks[t].(phase := phase)]);
    forall u | u in s'.tasks ensures Shares(s', u) && PhaseOk(s', u) {
      if u != t {
        SharesIs(s, u);
        TaskFrame(s, s', u);
      }
    }
    forall h | h in s'.hosts ensures HostOk(s', h) { HostFrameSame(s, s', h); }
    forall h: Host ensures LogOk(s', h) { LogFrame(s, s', h); }
  }

  lemma HostFrameSame(s: State, s': State, h: Host)
    requires h in s.hosts && HostOk(s, h) && s'.hosts == s.hosts && s'.entries == s.entries && s'.log == s.log
    requires s.now <= s'.now && s'.next == s.next && s'.tasks.Keys == s.tasks.Keys
    requires forall t :: t in s.tasks ==> s'.tasks[t].entry == s.tasks[t].entry
    ensures HostOk(s', h)
  {
    UsersFrame(s, s', s.hosts[h]);
    hide Users;
  }

  lemma DecidedInv(s: State, t: TaskId)
    requires InvBut(s, {t}) && t in s.tasks && s.tasks[t].entry in s.entries
    requires s.entries[s.tasks[t].entry].lock == Some(t)
    ensures Inv(Decided(s, t))
  {
    hide HostOk, Shares, PhaseOk, LogOk, Leave;
    var p := s.tasks[t];
    var d := s.entries[p.entry].dispatches;
    var wait := WaitFor(s, d);
    if |d| >= s.cfg.perMinute || (wait > 0.0 && wait > p.deadline - s.now) {
      LeaveInv(s, t);
    } else {
      SharesIs(s, t);
      CheckedPhase(s, t, wait);
      PhaseSet(s, t, if wait > 0.0 then Sleeping(s.now + wait) else Ready);
    }
  }

  lemma AcquiredInv(s: State, t: TaskId)
    requires Inv(s) && t in s.tasks && s.tasks[t].phase.Waiting? && s.tasks[t].entry in s.entries
    requires s.entries[s.tasks[t].entry].lock.None?
    ensures Inv(Acquired(s, t))
  {
    hide HostOk, Shares, PhaseOk, LogOk, InvBut, Expire, Decided, Trim;
    var s0 := Locked(s, t);
    LockedInv(s, t);
    ExpireInv(s0, {t});
    ExpireKeys(s0);
    DecidedInv(Expire(s0), t);
  }

  lemma WaitSuffices(s: State, h: Host)
    requires ValidConfig(s.cfg) && h in s.hosts && HostOk(s, h) && LogOk(s, h)
    requires |s.entries[s.hosts[h]].dispatches| < s.cfg.perMinute
    ensures var wait := WaitFor(s, s.entries[s.hosts[h]].dispatches);
      wait >= 0.0 && MayDispatch(s.cfg, Log(s, h), s.now + wait)
  {
    var d := s.entries[s.hosts[h]].dispatches;
    var wait := WaitFor(s, d);
    assert d != [] ==> wait >= d[|d| - 1] + Interval(s.cfg) - s.now;
    hide Interval, WaitFor, Users;
    CheckedMayDispatch(s.cfg, d, Log(s, h), s.now, s.now + wait);
  }

  lemma CheckedPhase(s: State, t: TaskId, wait: real)
    requires ValidConfig(s.cfg) && t in s.tasks && Shares(s, t)
    requires HostOk(s, s.tasks[t].host) && LogOk(s, s.tasks[t].host) && s.entries[s.tasks[t].entry].lock == Some(t)
    requires |s.entries[s.tasks[t].entry].dispatches| < s.cfg.perMinute && wait == WaitFor(s, s.entries[s.tasks[t].entry].dispatches)
    ensures var s' := s.(tasks := s.tasks[t := s.tasks[t].(phase := if wait > 0.0 then Sleeping(s.now + wait) else Ready)]);
      Shares(s', t) && PhaseOk(s', t)
  {
    hide HostOk, LogOk, MayDispatch, WaitFor, ValidConfig;
    WaitSuffices(s, s.tasks[t].host);
  }

  // ---- entering ---------------------------------------------------------------------------

  lemma KnownNew(s: State, h: Host)
    requires InvBut(s, {}) && h !in s.hosts
    ensures HostOk(Known(s, h), h)
  {
    var s' := Known(s, h);
    assert LogOk(s, h);
    forall t | t in s'.tasks ensures s'.tasks[t].entry != s.next { assert Shares(s, t); }
    assert Users(s', s.next) == {};
    forall g | g in s.hosts ensures s.hosts[g] != s.next { HostIs(s, g); }
    hide Users;
  }

  lemma KnownInv(s: State, h: Host)
    requires Inv(s)
    ensures Inv(Known(s, h)) && h in Known(s, h).hosts && Known(s, h).hosts[h] in Known(s, h).entries
  {
    hide HostOk, Shares, PhaseOk, LogOk;
    var s' := Known(s, h);
    if h in s.hosts {
      HostIs(s, h);
    } else {
      KnownNew(s, h);
      forall g | g in s'.hosts ensures HostOk(s', g) { if g != h { KnownOld(s, h, g); } }
      forall t | t in s'.tasks ensures Shares(s', t) && PhaseOk(s', t) {
        SharesIs(s, t);
        TaskFrame(s, s', t);
      }
      forall g: Host ensures LogOk(s', g) { LogFrame(s, s', g); }
    }
  }

  lemma KnownOld(s: State, h: Host, g: Host)
    requires Inv(s) && h !in s.hosts && g in s.hosts
    ensures HostOk(Known(s, h), g)
  {
    hide HostOk, Shares, PhaseOk, LogOk;
    HostIs(s, g);
    HostFrame(s, Known(s, h), g);
  }

  lemma JoinedHost(s: State, t: TaskId, h: Host, limit: real)
    requires h in s.hosts && s.hosts[h] in s.entries && HostOk(s, h) && t !in s.tasks
    ensures HostOk(Joined(s, t, h, limit), h)
  {
    var id := s.hosts[h];
    assert Users(Joined(s, t, h, limit), id) == Users(s, id) + {t};
    assert t !in Users(s, id);
    hide Users, Remembers;
  }

  lemma JoinInv(s: State, t: TaskId, h: Host, limit: real)
    requires Inv(s) && t !in s.tasks && h in s.hosts && s.hosts[h] in s.entries
    ensures Inv(Joined(s, t, h, limit))
  {
    hide HostOk, Shares, PhaseOk, LogOk;
    var s' := Joined(s, t, h, limit);
    HostIs(s, h);
    JoinedHost(s, t, h, limit);
    forall g | g in s'.hosts ensures HostOk(s', g) {
      HostIs(s, g);
      if g != h { HostFrame(s, s', g); }
    }
    forall u | u in s'.tasks ensures Shares(s', u) && PhaseOk(s', u) {
      if u != t {
        SharesIs(s, u);
        TaskFrame(s, s', u);
      } else {
        JoinedTask(s, t, h, limit);
      }
    }
    forall g: Host ensures LogOk(s', g) { LogFrame(s, s', g); }
  }

  lemma JoinedTask(s: State, t: TaskId, h: Host, limit: real)
    requires h in s.hosts && s.hosts[h] in s.entries && s.entries[s.hosts[h]].lock != Some(t)
    ensures Shares(Joined(s, t, h, limit), t) && PhaseOk(Joined(s, t, h, limit), t)
  {
    hide MayDispatch;
  }

  lemma EnterInv(s: State, t: TaskId, h: Host, deadline: Option<real>)
    requires Inv(s) && Linked(s) && t !in s.tasks
    ensures Inv(Enter(s, t, h, deadline))
  {
    hide HostOk, Shares, PhaseOk, LogOk, InvBut, Expire, Acquired, Leave, HasWaiters;
    ExpireInv(s, {});
    KnownInv(Expire(s), h);
    var s1 := Known(Expire(s), h);
    var id := s1.hosts[h];
    var limit := WaitDeadline(s.now, deadline);
    SameTasks(s, h);
    JoinInv(s1, t, h, limit);
    var s2 := Joined(s1, t, h, limit);
    if s1.entries[id].lock.None? && !HasWaiters(s1, id) {
      AcquiredInv(s2, t);
    } else if s1.entries[id].lock.Some? && limit - s.now <= 0.0 {
      StillBut(s2, t);
      LeaveInv(s2, t);
    }
  }

  lemma SameTasks(s: State, h: Host)
    requires Linked(s)
    ensures Known(Expire(s), h).tasks == s.tasks && Known(Expire(s), h).now == s.now
  {
  }

  lemma StillBut(s: State, t: TaskId)
    requires Inv(s)
    ensures InvBut(s, {t})
  {
  }

  // ---- dispatching ------------------------------------------------------------------------

  lemma PacedAppend(c: Config, l: seq<real>, now: real)
    requires Paced(c, l) && MayDispatch(c, l, now) && ValidConfig(c)
    ensures Paced(c, l + [now])
  {
    hide Interval;
  }

  lemma DispatchLog(s: State, t: TaskId)
    requires ValidConfig(s.cfg) && t in s.tasks && s.tasks[t].entry in s.entries
    requires LogOk(s, s.tasks[t].host) && MayDispatch(s.cfg, Log(s, s.tasks[t].host), s.now) && s.tasks[t].host in s.hosts
    ensures LogOk(Dispatch(s, t), s.tasks[t].host)
    ensures Log(Dispatch(s, t), s.tasks[t].host) == Log(s, s.tasks[t].host) + [s.now]
  {
    PacedAppend(s.cfg, Log(s, s.tasks[t].host), s.now);
    hide Paced, MayDispatch;
  }

  lemma DispatchHost(s: State, t: TaskId)
    requires ValidConfig(s.cfg) && t in s.tasks && Shares(s, t) && PhaseOk(s, t) && s.tasks[t].phase.Ready?
    requires HostOk(s, s.tasks[t].host) && LogOk(s, s.tasks[t].host)
    ensures HostOk(Dispatch(s, t), s.tasks[t].host) && LogOk(Dispatch(s, t), s.tasks[t].host)
  {
    var p := s.tasks[t];
    DispatchLog(s, t);
    UsersFrame(s, Dispatch(s, t), p.entry);
    RemembersMore(s.now, s.entries[p.entry].dispatches, Log(s, p.host));
    hide Users, Remembers, MayDispatch, LogOk, Log;
  }

  lemma RemembersMore(now: real, d: seq<real>, l: seq<real>)
    requires Remembers(now, d, l)
    ensures Remembers(now, d + [now], l + [now])
  {
  }

  lemma DispatchInv(s: State, t: TaskId)
    requires Inv(s) && t in s.tasks && s.tasks[t].phase.Ready? && s.tasks[t].entry in s.entries
    ensures Inv(Dispatch(s, t))
  {
    hide HostOk, Shares, PhaseOk, LogOk;
    var p := s.tasks[t];
    var s' := Dispatch(s, t);
    SharesIs(s, t);
    HostIs(s, p.host);
    DispatchHost(s, t);
    forall g | g in s'.hosts ensures HostOk(s', g) {
      HostIs(s, g);
      if g != p.host { HostFrame(s, s', g); }
    }
    forall u | u in s'.tasks ensures Shares(s', u) && PhaseOk(s', u) {
      if u != t { OthersAfterDispatch(s, t, u); } else { OwnAfterDispatch(s, t); }
    }
    forall g: Host ensures LogOk(s', g) { if g != p.host { LogFrame(s, s', g); } }
  }

  lemma OwnAfterDispatch(s: State, t: TaskId)
    requires t in s.tasks && Shares(s, t)
    ensures Shares(Dispatch(s, t), t) && PhaseOk(Dispatch(s, t), t)
  {
    hide MayDispatch;
  }

  /** Nobody else on the host is asleep or ready while a block holds its lock. */
  lemma OthersAfterDispatch(s: State, t: TaskId, u: TaskId)
    requires t in s.tasks && u in s.tasks && u != t && Shares(s, t) && Shares(s, u) && PhaseOk(s, t) && PhaseOk(s, u)
    requires s.tasks[t].phase.Ready?
    ensures Shares(Dispatch(s, t), u) && PhaseOk(Dispatch(s, t), u)
  {
    hide MayDispatch;
  }

  // ---- time and runs ------------------------------------------------------------------------

  lemma TickInv(s: State, elapsed: real)
    requires Inv(s) && elapsed >= 0.0
    ensures Inv(s.(now := s.now + elapsed))
  {
    hide HostOk, Shares, PhaseOk, LogOk;
    var s' := s.(now := s.now + elapsed);
    forall h | h in s.hosts ensures HostOk(s', h) { HostFrameSame(s, s', h); }
    forall t | t in s.tasks ensures Shares(s', t) && PhaseOk(s', t) {
      SharesIs(s, t);
      TaskFrame(s, s', t);
    }
    forall h: Host ensures LogOk(s', h) { LogFrame(s, s', h); }
  }

  lemma WakeInv(s: State, t: TaskId)
    requires Inv(s) && t in s.tasks && s.tasks[t].phase.Sleeping? && s.now >= s.tasks[t].phase.until
    ensures Inv(s.(tasks := s.tasks[t := s.tasks[t].(phase := Ready)]))
  {
    StillBut(s, t);
    hide HostOk, Shares, PhaseOk, LogOk;
    WokenPhase(s, t);
    PhaseSet(s, t, Ready);
  }

  lemma WokenPhase(s: State, t: TaskId)
    requires t in s.tasks && s.tasks[t].phase.Sleeping? && s.now >= s.tasks[t].phase.until && Shares(s, t) && PhaseOk(s, t)
    ensures var s' := s.(tasks := s.tasks[t := s.tasks[t].(phase := Ready)]); Shares(s', t) && PhaseOk(s', t)
  {
  }

  lemma NextInv(s: State, e: Event)
    requires Inv(s) && Enabled(s, e)
    ensures Inv(Next(s, e))
  {
    hide InvBut, Enter, Acquired, Leave, Dispatch, Expire;
    match e
    case Tick(elapsed) => TickInv(s, elapsed);
    case Arrive(t, h, deadline) => EnterInv(s, t, h, deadline);
    case Acquire(t) => AcquiredInv(s, t);
    case Wake(t) => WakeInv(s, t);
    case Dispatched(t) => DispatchInv(s, t);
    case Exit(t) => StillBut(s, t); LeaveInv(s, t);
    case Sweep => ExpireInv(s, {});
  }

  lemma {:induction false} RunInv(c: Config, events: seq<Event>)
    requires ValidConfig(c)
    ensures Inv(Run(Init(c), events)) && Run(Init(c), events).cfg == c
    decreases |events|
  {
    if events != [] {
      RunInv(c, events[..|events| - 1]);
      var before := Run(Init(c), events[..|events| - 1]);
      hide InvBut, Next;
      if Enabled(before, events[|events| - 1]) { NextInv(before, events[|events| - 1]); }
    }
  }

  // ---- what every run guarantees ----------------------------------------------------------------

  /** Successive recorded dispatches to one host are at least the configured interval apart. */
  lemma DispatchesSpaced(c: Config, events: seq<Event>, h: Host, i: nat, j: nat)
    requires ValidConfig(c) && i < j < |Log(Run(Init(c), events), h)|
    ensures var l := Log(Run(Init(c), events), h); l[j] - l[i] >= Interval(c)
  {
    RunInv(c, events);
    assert LogOk(Run(Init(c), events), h);
  }

  /** The dispatches in the window (at-60, at], counted one by one. */
  ghost function InWindow(l: seq<real>, at: real): nat {
    if l == [] then 0
    else InWindow(l[..|l| - 1], at) + if at - 60.0 < l[|l| - 1] <= at then 1 else 0
  }

  /** Within a paced log, k dispatches in a window have their first at least k places before the end. */
  lemma {:induction false} WindowStart(c: Config, l: seq<real>, at: real)
    requires Paced(c, l) && ValidConfig(c)
    ensures InWindow(l, at) <= |l| && (InWindow(l, at) > 0 ==> exists i :: 0 <= i <= |l| - InWindow(l, at) && at - 60.0 < l[i] <= at)
    ensures InWindow(l, at) <= c.perMinute
    decreases |l|
  {
    if l != [] {
      var front := l[..|l| - 1];
      assert Paced(c, front);
      WindowStart(c, front, at);
      var last := l[|l| - 1];
      if at - 60.0 < last <= at {
        if InWindow(front, at) > 0 {
          var i :| 0 <= i <= |front| - InWindow(front, at) && at - 60.0 < front[i] <= at;
          assert l[i] == front[i] && i <= |l| - InWindow(l, at);
        } else {
          assert l[|l| - 1] == last;
        }
      } else if InWindow(front, at) > 0 {
        var i :| 0 <= i <= |front| - InWindow(front, at) && at - 60.0 < front[i] <= at;
        assert l[i] == front[i];
      }
    }
  }

  /** Every window (t-60, t] holds at most the configured number of dispatches to a host. */
  lemma WindowLimited(c: Config, events: seq<Event>, h: Host, at: real)
    requires ValidConfig(c)
    ensures InWindow(Log(Run(Init(c), events), h), at) <= c.perMinute
  {
    RunInv(c, events);
    assert LogOk(Run(Init(c), events), h);
    WindowStart(c, Log(Run(Init(c), events), h), at);
  }

  /** Pace blocks in flight for one host share the table's entry and its lock, and at most one of
      them is past the check and has not yet dispatched. */
  lemma LiveBlocksShare(c: Config, events: seq<Event>, t: TaskId, u: TaskId)
    requires ValidConfig(c)
    requires var s := Run(Init(c), events); t in s.tasks && u in s.tasks && s.tasks[t].host == s.tasks[u].host
    ensures var s := Run(Init(c), events);
      s.tasks[t].host in s.hosts && s.hosts[s.tasks[t].host] == s.tasks[t].entry == s.tasks[u].entry
    ensures var s := Run(Init(c), events);
      (s.tasks[t].phase.Sleeping? || s.tasks[t].phase.Ready?) && (s.tasks[u].phase.Sleeping? || s.tasks[u].phase.Ready?) ==> t == u
  {
    RunInv(c, events);
    var s := Run(Init(c), events);
    assert Shares(s, t) && PhaseOk(s, t) && Shares(s, u) && PhaseOk(s, u);
  }

  /** A host with no dispatch in the last minute and no other block is let through at once. */
  lemma QuietHostPasses(c: Config, events: seq<Event>, t: TaskId, h: Host, deadline: Option<real>)
    requires ValidConfig(c)
    requires var s := Run(Init(c), events);
      t !in s.tasks && (forall u :: u in s.tasks ==> s.tasks[u].host != h)
      && forall i :: 0 <= i < |Log(s, h)| ==> Log(s, h)[i] <= s.now - 60.0
    ensures var s := Run(Init(c), events);
      Linked(s) && var s' := Enter(s, t, h, deadline); t in s'.tasks && s'.tasks[t].phase == Ready
  {
    RunInv(c, events);
    var s := Run(Init(c), events);
    AllLinked(s, {});
    if h in s.hosts { QuietForgotten(s, h); }
    ExpireInv(s, {});
    var s1 := Known(Expire(s), h);
    FreshPasses(s, t, h, deadline);
  }

  lemma QuietForgotten(s: State, h: Host)
    requires Inv(s) && h in s.hosts && (forall u :: u in s.tasks ==> s.tasks[u].host != h)
    requires forall i :: 0 <= i < |Log(s, h)| ==> Log(s, h)[i] <= s.now - 60.0
    ensures Forgotten(s, h)
  {
    hide HostOk, LogOk, PhaseOk, Shares;
    HostIs(s, h);
    forall u | u in s.tasks ensures s.tasks[u].entry != s.hosts[h] { SharesIs(s, u); }
    NobodyThere(s, h);
  }

  lemma NobodyThere(s: State, h: Host)
    requires h in s.hosts && HostOk(s, h) && forall u :: u in s.tasks ==> s.tasks[u].entry != s.hosts[h]
    requires forall i :: 0 <= i < |Log(s, h)| ==> Log(s, h)[i] <= s.now - 60.0
    ensures Forgotten(s, h)
  {
    var d := s.entries[s.hosts[h]].dispatches;
    assert Users(s, s.hosts[h]) == {};
    assert forall i :: 0 <= i < |d| ==> d[i] == Log(s, h)[|Log(s, h)| - |d| + i];
    hide Trim, Users;
  }

  lemma FreshPasses(s: State, t: TaskId, h: Host, deadline: Option<real>)
    requires Inv(s) && Linked(s) && t !in s.tasks && h !in Expire(s).hosts
    ensures var s' := Enter(s, t, h, deadline); t in s'.tasks && s'.tasks[t].phase == Ready
  {
    hide InvBut, Expire, Linked, Acquired, Known, HasWaiters, Joined;
    FreshEntry(s, h);
    var limit := WaitDeadline(s.now, deadline);
    JoinedEmpty(Known(Expire(s), h), t, h, limit);
    EmptyPasses(Joined(Known(Expire(s), h), t, h, limit), t);
  }

  lemma JoinedEmpty(s: State, t: TaskId, h: Host, limit: real)
    requires h in s.hosts && s.hosts[h] in s.entries && s.entries[s.hosts[h]].dispatches == []
    ensures var s' := Joined(s, t, h, limit);
      s'.cfg == s.cfg && t in s'.tasks && s'.tasks[t].entry in s'.entries && s'.entries[s'.tasks[t].entry].dispatches == []
  {
  }

  lemma FreshEntry(s: State, h: Host)
    requires Inv(s) && Linked(s) && h !in Expire(s).hosts
    ensures var s1 := Known(Expire(s), h);
      h in s1.hosts && s1.hosts[h] in s1.entries && s1.entries[s1.hosts[h]] == Entry([], None, 0)
      && !HasWaiters(s1, s1.hosts[h]) && ValidConfig(s1.cfg) && Linked(s1)
  {
    ExpireKeys(s);
    hide HostOk, PhaseOk, LogOk, Expire;
    forall u | u in s.tasks ensures s.tasks[u].entry < s.next {
      SharesIs(s, u);
    }
  }

  lemma EmptyPasses(s: State, t: TaskId)
    requires t in s.tasks && s.tasks[t].entry in s.entries && ValidConfig(s.cfg)
    requires s.entries[s.tasks[t].entry].dispatches == []
    ensures t in Acquired(s, t).tasks && Acquired(s, t).tasks[t].phase == Ready
  {
    var s1 := Expire(Locked(s, t));
    assert s1.entries[s.tasks[t].entry].dispatches == [];
    hide Expire, Leave, Trim;
  }
}
