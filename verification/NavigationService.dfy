/**
 The service's own fields for calls and the operation journal, and the stretches of code
 between waits that update them in place. Every method is proved to take the object from one
 state of the transition system to the next, so the theorems about runs hold of it.
 */
module NavigationService {
  import opened Wrappers
  import opened Navigation

  class CallService {
    var minted: nat
    var calls: map<CallId, Call>
    var lock: Option<CallId>
    var navigations: map<Sid, Nav>
    var operations: Journal
    var history: seq<Obs>

    function St(): State
      reads this
    {
      State(minted, calls, lock, navigations, operations, history)
    }

    constructor ()
      ensures St() == Init()
    {
      minted, calls, lock, navigations, operations, history := 0, map[], None, map[], [], [];
    }

    /** Deletes completed records, oldest first, until `needed` more fit; running ones stay. */
    method ReserveOperations(needed: nat) returns (fits: bool)
      modifies this`operations
      ensures operations == Reserve(old(operations), needed)
      ensures fits == (|operations| + needed <= CAPACITY)
    {
      var i := 0;
      while i < |operations| && |operations| + needed > CAPACITY
        invariant i <= |operations| && Evict(operations, i, needed) == Reserve(old(operations), needed)
        decreases |operations| - i
      {
        if operations[i].done {
          operations := operations[..i] + operations[i + 1..];
        } else {
          i := i + 1;
        }
      }
      fits := |operations| + needed <= CAPACITY;
    }

    /** Marks the records of the given keys completed, one key at a time. */
    method CompleteAll(keys: set<Key>)
      modifies this`operations
      ensures operations == SetAllDone(old(operations), keys)
    {
      var i := 0;
      while i < |operations|
        invariant i <= |operations| == |old(operations)|
        invariant forall x :: 0 <= x < |operations| ==>
          operations[x] == if x < i then SetAllDone(old(operations), keys)[x] else old(operations)[x]
      {
        if operations[i].key in keys { operations := operations[i := operations[i].(done := true)]; }
        i := i + 1;
      }
    }

    method Conclude(c: CallId)
      requires c in calls
      modifies this`operations, this`calls, this`lock
      ensures St() == Navigation.Conclude(old(St()), c)
    {
      CompleteAll(KeysOf(calls[c]));
      if lock == Some(c) { lock := None; }
      calls := calls[c := calls[c].(pc := Done(Final), context := calls[c].context.(result := Some(Final)))];
    }

    method Start(c: CallId, kind: Kind, scope: nat, id: Option<OperationId>, digest: nat)
      modifies this`operations, this`calls
      ensures St() == Navigation.Start(old(St()), c, kind, scope, id, digest)
    {
      var key := None;
      var needed := if Timed(kind) then 1 else 0;
      if id.Some? {
        key := Some(Key(scope, id.value));
        needed := needed + 1;
        if Has(operations, key.value) {
          var record := operations[Find(operations, key.value)];
          if record.digest == Some(digest) {
            calls := calls[c := Ended(kind, scope, digest, Replayed(record))];
          } else {
            calls := calls[c := Ended(kind, scope, digest, Conflict)];
          }
          return;
        }
      }
      var fits := ReserveOperations(needed);
      if !fits {
        calls := calls[c := Ended(kind, scope, digest, Final)];
        return;
      }
      if key.Some? { operations := operations + [Entry(key.value, Some(digest), false, c)]; }
      calls := calls[c := Call(kind, scope, digest, key, Waiting, Context(false, None, None), false)];
    }

    method Provide(c: CallId, scope: nat)
      requires c in calls
      modifies this`minted, this`operations, this`calls
      ensures St() == Navigation.Provide(old(St()), c, scope)
    {
      var k := Key(scope, Minted(minted));
      minted := minted + 1;
      var fits := ReserveOperations(1);
      calls := calls[c := calls[c].(context := calls[c].context.(result := Some(Provisional(k)), operation := Some(k)))];
      operations := operations + [Entry(k, None, false, c)];
    }

    method Send(c: CallId, pc: Pc, rpc: Rpc)
      requires c in calls
      modifies this`calls, this`history
      ensures St() == Navigation.Send(old(St()), c, pc, rpc)
    {
      calls := calls[c := calls[c].(pc := pc)];
      history := history + [Issued(c, rpc)];
    }

    method Enter(c: CallId, gate: Gate, newSid: Sid, lease: nat)
      requires c in calls
      modifies this
      ensures St() == Navigation.Enter(old(St()), c, gate, newSid, lease)
    {
      var kind := calls[c].kind;
      lock := Some(c);
      if calls[c].context.abandoned || gate.RefusedEarly? {
        Conclude(c);
        return;
      }
      if kind.Other? {
        Send(c, Running, OtherRpc);
        return;
      }
      var sid := if kind.Navigate? then kind.target else if kind.existing.Some? then kind.existing.value else newSid;
      ghost var before := operations;
      var fits := ReserveOperations(1);
      if sid in navigations || !fits {
        Conclude(c);
        return;
      }
      ReservedTwice(before, operations);
      Provide(c, if kind.Navigate? then calls[c].scope else lease);
      if kind.Navigate? {
        Send(c, Beginning(sid), BeginRpc);
      } else if gate.RefusedLate? {
        Conclude(c);
      } else if kind.existing.Some? && kind.listFirst {
        Send(c, Listing(sid), ListRpc);
      } else {
        Send(c, Opening(sid), OpenRpc);
      }
    }

    method Pend(c: CallId, sid: Sid)
      requires c in calls && calls[c].context.operation.Some?
      modifies this`operations, this`calls, this`lock, this`navigations
      ensures St() == Navigation.Pend(old(St()), c, sid)
    {
      var call := calls[c];
      var op := call.context.operation.value;
      navigations := navigations[sid := Nav(c, op, KeysOf(call))];
      operations := Redigest(operations, KeysOf(call), call.digest);
      lock := None;
      calls := calls[c := call.(pc := Driving(sid), context := call.context.(result := Some(Provisional(op))))];
    }

    method Replied(c: CallId, reply: Reply)
      requires c in calls && (calls[c].context.operation.Some? || calls[c].pc.Running?)
      requires calls[c].pc.Running? || calls[c].pc.Listing? || calls[c].pc.Opening? || calls[c].pc.Beginning?
      modifies this
      ensures St() == Navigation.Replied(old(St()), c, reply)
    {
      var call := calls[c];
      if reply.Failed? || call.pc.Running? {
        Conclude(c);
      } else if call.pc.Listing? {
        Send(c, Opening(call.pc.sid), OpenRpc);
      } else if call.pc.Opening? && call.kind.Open? && call.kind.hasUrl && call.pc.sid !in navigations {
        Send(c, Beginning(call.pc.sid), BeginRpc);
      } else if call.pc.Beginning? && reply.pending {
        Pend(c, call.pc.sid);
      } else {
        Conclude(c);
      }
    }

    method FinishNavigation(sid: Sid)
      requires sid in navigations
      modifies this`operations, this`navigations
      ensures St() == Navigation.FinishNavigation(old(St()), sid)
    {
      CompleteAll(navigations[sid].keys);
      navigations := navigations - {sid};
    }

    method CallerTimeout(c: CallId)
      requires c in calls
      modifies this`calls, this`history
      ensures St() == Navigation.CallerTimeout(old(St()), c)
    {
      var call := calls[c].(answered := true);
      if call.context.result.Some? {
        history := history + [Answered(c, call.context.result.value)];
      } else {
        call := call.(context := call.context.(abandoned := true));
        history := history + [Answered(c, NotDispatched)];
      }
      calls := calls[c := call];
    }

    method Stop(c: CallId)
      requires c in calls && calls[c].pc.Driving?
      modifies this`calls
      ensures St() == Navigation.Stop(old(St()), c)
    {
      var sid := calls[c].pc.sid;
      var value := Final;
      if sid in navigations && navigations[sid].call == c {
        value := Provisional(navigations[sid].operation);
      }
      calls := calls[c := calls[c].(pc := Done(value))];
    }

    method CallerReturn(c: CallId)
      requires c in calls && calls[c].pc.Done?
      modifies this`calls, this`history
      ensures St() == Navigation.CallerReturn(old(St()), c)
    {
      history := history + [Answered(c, calls[c].pc.value)];
      calls := calls[c := calls[c].(answered := true)];
    }

    method Handle(e: Event)
      requires Enabled(St(), e)
      modifies this
      ensures St() == Next(old(St()), e)
    {
      match e {
        case Arrive(c, kind, scope, id, digest) => Start(c, kind, scope, id, digest);
        case Acquire(c, gate, newSid, lease) => Enter(c, gate, newSid, lease);
        case QueueTimeout(c) => Conclude(c);
        case RpcDone(c, reply) => Replied(c, reply);
        case NavigationDone(sid) => FinishNavigation(sid);
        case StopWaiting(c) => Stop(c);
        case Timeout(c) => CallerTimeout(c);
        case Return(c) => CallerReturn(c);
      }
    }
  }

  /** Reserving again what is already reserved evicts nothing more. */
  lemma ReservedTwice(j: Journal, r: Journal)
    requires r == Reserve(j, 1) && |r| + 1 <= CAPACITY
    ensures Reserve(r, 1) == r
  {
  }

  /** Serving any sequence of events is a run of the transition system. */
  method Serve(events: seq<Event>) returns (service: CallService)
    ensures fresh(service) && service.St() == Run(Init(), events)
  {
    service := new CallService();
    var i := 0;
    while i < |events|
      invariant 0 <= i <= |events|
      invariant fresh(service) && service.St() == Run(Init(), events[..i])
    {
      assert events[..i + 1][..i] == events[..i];
      if Enabled(service.St(), events[i]) {
        service.Handle(events[i]);
      }
      i := i + 1;
    }
    assert events[..|events|] == events;
  }
}
