/**
 The pacer object: the host table, the entries its blocks share, and the stretches of `pace`
 that update them in place. Every method is proved to take the object from one state of the
 transition system to the next.
 */
module PacerService {
  import opened Wrappers
  import opened Pacer

  class NavigationPacer {
    const cfg: Config
    var now: real
    var next: EntryId
    var hosts: map<Host, EntryId>
    var entries: map<EntryId, Entry>
    var tasks: map<TaskId, Pace>
    var log: map<Host, seq<real>>

    function St(): State
      reads this
    {
      State(cfg, now, next, hosts, entries, tasks, log)
    }

    constructor (cfg: Config)
      ensures St() == Init(cfg)
    {
      this.cfg := cfg;
      now, next, hosts, entries, tasks, log := 0.0, 0, map[], map[], map[], map[];
    }

    /** Drops an entry's old dispatches from the front, one at a time. */
    method TrimEntry(id: EntryId)
      requires id in entries
      modifies this`entries
      ensures entries == old(entries)[id := old(entries)[id].(dispatches := Trim(old(entries)[id].dispatches, now))]
    {
      hide Trim;
      var d := entries[id].dispatches;
      while d != [] && d[0] <= now - 60.0
        invariant entries == old(entries) && Trim(d, now) == Trim(old(entries[id].dispatches), now)
        decreases |d|
      {
        TrimStep(d, now);
        d := d[1..];
      }
      TrimStep(d, now);
      entries := entries[id := entries[id].(dispatches := d)];
    }

    /** `expire`: every host of the table in turn; the empty and unused ones are deleted. */
    method Expire()
      requires Linked(St())
      modifies this`entries, this`hosts
      ensures St() == Pacer.Expire(old(St()))
    {
      hide Trim, Trimmed, Forgotten, InTable, Swept, Linked, Pacer.Expire;
      ghost var s := St();
      var todo := hosts.Keys;
      SweepStart(s);
      while todo != {}
        invariant Swept(s, todo, hosts, entries)
        decreases todo
      {
        var h :| h in todo;
        SweepHost(s, todo, hosts, entries, h);
        var id := hosts[h];
        TrimEntry(id);
        if entries[id].dispatches == [] && entries[id].users == 0 { hosts := hosts - {h}; }
        todo := todo - {h};
      }
      SweepDone(s, hosts, entries);
    }

    method Leave(t: TaskId)
      requires Linked(St()) && t in tasks && tasks[t].entry in entries
      modifies this
      ensures St() == Pacer.Leave(old(St()), t)
    {
      hide Linked, Pacer.Expire;
      var id := tasks[t].entry;
      var e := entries[id];
      if e.lock == Some(t) { e := e.(lock := None); }
      if e.users > 0 { e := e.(users := e.users - 1); }
      entries := entries[id := e];
      tasks := tasks - {t};
      LinkedKeeps(old(St()), St());
      Expire();
    }

    method Acquired(t: TaskId)
      requires Linked(St()) && t in tasks && tasks[t].entry in entries
      modifies this
      ensures St() == Pacer.Acquired(old(St()), t)
    {
      hide Linked, Pacer.Expire, Pacer.Leave;
      var pace := tasks[t];
      entries := entries[pace.entry := entries[pace.entry].(lock := Some(t))];
      LinkedAfterExpire(old(St()), t);
      Expire();
      var d := entries[pace.entry].dispatches;
      var wait := WaitFor(St(), d);
      if |d| >= cfg.perMinute || (wait > 0.0 && wait > pace.deadline - now) {
        Leave(t);
      } else if wait > 0.0 {
        tasks := tasks[t := pace.(phase := Sleeping(now + wait))];
      } else {
        tasks := tasks[t := pace.(phase := Ready)];
      }
    }

    /** `setdefault`: the host's entry, made if it is unknown. */
    method GetEntry(h: Host)
      modifies this`hosts, this`entries, this`next
      ensures St() == Known(old(St()), h)
    {
      if h !in hosts {
        hosts := hosts[h := next];
        entries := entries[next := Entry([], None, 0)];
        next := next + 1;
      }
    }

    method Join(t: TaskId, h: Host, limit: real)
      requires h in hosts && hosts[h] in entries
      modifies this`entries, this`tasks
      ensures St() == Joined(old(St()), t, h, limit)
    {
      var id := hosts[h];
      entries := entries[id := entries[id].(users := entries[id].users + 1)];
      tasks := tasks[t := Pace(h, id, limit, Waiting)];
    }

    method Enter(t: TaskId, h: Host, deadline: Option<real>)
      requires Linked(St()) && t !in tasks
      modifies this
      ensures St() == Pacer.Enter(old(St()), t, h, deadline)
    {
      StillLinked(old(St()), h);
      hide Linked, Pacer.Expire, Pacer.Leave, Pacer.Acquired, HasWaiters, Known, WaitDeadline, Joined;
      Expire();
      GetEntry(h);
      ghost var s1 := St();
      var id := hosts[h];
      var limit := WaitDeadline(now, deadline);
      var lock, waiters := entries[id].lock, HasWaiters(St(), id);
      Join(t, h, limit);
      LinkedJoined(s1, t, h, limit);
      if lock.None? && !waiters {
        Acquired(t);
      } else if lock.Some? && limit - now <= 0.0 {
        Leave(t);
      }
    }

    method Dispatched(t: TaskId)
      requires t in tasks && tasks[t].entry in entries
      modifies this`entries, this`tasks, this`log
      ensures St() == Dispatch(old(St()), t)
    {
      var pace := tasks[t];
      var dispatches := entries[pace.entry].dispatches + [now];
      entries := entries[pace.entry := entries[pace.entry].(dispatches := dispatches, lock := None)];
      tasks := tasks[t := pace.(phase := Released)];
      log := log[pace.host := Log(St(), pace.host) + [now]];
    }

    method Handle(e: Event)
      requires Enabled(St(), e)
      modifies this
      ensures St() == Next(old(St()), e)
    {
      match e {
        case Tick(elapsed) => now := now + elapsed;
        case Arrive(t, h, deadline) => Enter(t, h, deadline);
        case Acquire(t) => Acquired(t);
        case Wake(t) => tasks := tasks[t := tasks[t].(phase := Ready)];
        case Dispatched(t) => Dispatched(t);
        case Exit(t) => Leave(t);
        case Sweep => Expire();
      }
    }
  }

  /** Some host already visited uses this entry. */
  ghost predicate Done(s: State, todo: set<Host>, id: EntryId) {
    exists h :: h in s.hosts && h !in todo && s.hosts[h] == id
  }

  ghost function SweptHosts(s: State, todo: set<Host>): map<Host, EntryId> {
    map h | h in s.hosts && (h in todo || !Forgotten(s, h)) :: s.hosts[h]
  }

  ghost function SweptEntries(s: State, todo: set<Host>): map<EntryId, Entry> {
    map id | id in s.entries :: if Done(s, todo, id) then Trimmed(s, id) else s.entries[id]
  }

  /** Half-way through `expire`: the hosts still to do are untouched. */
  ghost predicate Swept(s: State, todo: set<Host>, hosts: map<Host, EntryId>, entries: map<EntryId, Entry>) {
    todo <= s.hosts.Keys && hosts == SweptHosts(s, todo) && entries == SweptEntries(s, todo)
  }

  lemma SweepStart(s: State)
    ensures Swept(s, s.hosts.Keys, s.hosts, s.entries)
  {
    hide Trimmed, Forgotten;
    assert forall id :: !Done(s, s.hosts.Keys, id);
  }

  lemma DoneMore(s: State, todo: set<Host>, h: Host, id: EntryId)
    requires h in s.hosts && h in todo
    ensures Done(s, todo - {h}, id) <==> Done(s, todo, id) || id == s.hosts[h]
  {
  }

  lemma TableWithout(s: State, todo: set<Host>, h: Host)
    requires h in s.hosts && h in todo
    ensures SweptHosts(s, todo - {h}) == if Forgotten(s, h) then SweptHosts(s, todo) - {h} else SweptHosts(s, todo)
    ensures h in SweptHosts(s, todo) && SweptHosts(s, todo)[h] == s.hosts[h]
  {
    hide Forgotten;
  }

  lemma EntriesWith(s: State, todo: set<Host>, h: Host)
    requires h in s.hosts && h in todo && s.hosts[h] in s.entries
    ensures SweptEntries(s, todo - {h}) == SweptEntries(s, todo)[s.hosts[h] := Trimmed(s, s.hosts[h])]
    ensures SweptEntries(s, todo)[s.hosts[h]] in {s.entries[s.hosts[h]], Trimmed(s, s.hosts[h])}
  {
    hide Trimmed, Done;
    forall id | id in s.entries ensures Done(s, todo - {h}, id) <==> Done(s, todo, id) || id == s.hosts[h] {
      DoneMore(s, todo, h, id);
    }
  }

  /** One host: its entry is trimmed, and the host is deleted exactly if it is to be forgotten. */
  lemma SweepHost(s: State, todo: set<Host>, hosts: map<Host, EntryId>, entries: map<EntryId, Entry>, h: Host)
    requires Linked(s) && Swept(s, todo, hosts, entries) && h in todo
    ensures h in hosts && hosts[h] in entries && hosts[h] in s.entries
    ensures var e := entries[hosts[h]].(dispatches := Trim(entries[hosts[h]].dispatches, s.now));
      Swept(s, todo - {h}, if e.dispatches == [] && e.users == 0 then hosts - {h} else hosts, entries[hosts[h] := e])
  {
    assert s.hosts[h] in s.entries && h in s.hosts && s.hosts[h] in entries;
    hide Linked, Trimmed, Forgotten, Trim, InTable, Done, SweptHosts, SweptEntries;
    TableWithout(s, todo, h);
    EntriesWith(s, todo, h);
    SweepValue(s, s.hosts[h], entries[s.hosts[h]], h);
  }

  lemma SweepValue(s: State, id: EntryId, e: Entry, h: Host)
    requires id in s.entries && (e == s.entries[id] || e == Trimmed(s, id)) && h in s.hosts && s.hosts[h] == id
    ensures e.(dispatches := Trim(e.dispatches, s.now)) == Trimmed(s, id) && InTable(s, id)
    ensures Forgotten(s, h) <==> Trimmed(s, id).dispatches == [] && Trimmed(s, id).users == 0
  {
    TrimTwice(s.entries[id].dispatches, s.now);
    hide Trim;
  }

  lemma SweepDone(s: State, hosts: map<Host, EntryId>, entries: map<EntryId, Entry>)
    requires Swept(s, {}, hosts, entries)
    ensures Pacer.Expire(s) == s.(hosts := hosts, entries := entries)
  {
    hide Trimmed, Forgotten;
    forall id ensures Done(s, {}, id) <==> InTable(s, id) { }
    hide Done, InTable;
    assert Pacer.Expire(s).hosts == hosts;
    assert Pacer.Expire(s).entries == entries;
  }

  /** Which hosts have entries does not depend on what is in the entries. */
  lemma LinkedKeeps(s: State, s': State)
    requires Linked(s) && s'.hosts == s.hosts && s.entries.Keys <= s'.entries.Keys
    ensures Linked(s')
  {
  }

  lemma LinkedJoined(s: State, t: TaskId, h: Host, limit: real)
    requires Linked(s) && h in s.hosts && s.hosts[h] in s.entries
    ensures var s' := Joined(s, t, h, limit);
      Linked(s') && t in s'.tasks && s'.tasks[t].entry in s'.entries && s'.now == s.now
  {
  }

  lemma TrimStep(d: seq<real>, now: real)
    ensures Trim(d, now) == if d != [] && d[0] <= now - 60.0 then Trim(d[1..], now) else d
  {
  }

  lemma TrimTwice(d: seq<real>, now: real)
    ensures Trim(Trim(d, now), now) == Trim(d, now)
  {
  }

  lemma LinkedAfterExpire(s: State, t: TaskId)
    requires Linked(s) && t in s.tasks && s.tasks[t].entry in s.entries
    ensures Linked(Locked(s, t)) && Linked(Pacer.Expire(Locked(s, t)))
  {
  }

  lemma StillLinked(s: State, h: Host)
    requires Linked(s)
    ensures Linked(Pacer.Expire(s)) && Linked(Known(Pacer.Expire(s), h))
    ensures var s1 := Known(Pacer.Expire(s), h);
      h in s1.hosts && s1.hosts[h] in s1.entries && s1.tasks == s.tasks && s1.now == s.now
  {
  }

  /** Serving any sequence of events is a run of the transition system. */
  method Serve(cfg: Config, events: seq<Event>) returns (pacer: NavigationPacer)
    ensures fresh(pacer) && pacer.St() == Run(Init(cfg), events)
  {
    pacer := new NavigationPacer(cfg);
    var i := 0;
    while i < |events|
      invariant 0 <= i <= |events|
      invariant fresh(pacer) && pacer.St() == Run(Init(cfg), events[..i])
    {
      assert events[..i + 1][..i] == events[..i];
      if Enabled(pacer.St(), events[i]) {
        pacer.Handle(events[i]);
      }
      i := i + 1;
    }
    assert events[..|events|] == events;
  }
}
