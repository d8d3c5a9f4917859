/**
 Calls, their five-second callers, and the operation journal. A caller waits a bounded time
 while its task lives on; it is told "not dispatched" or given an operation id. The clock is
 abstracted to the event "the caller's wait is over", which may come at any moment.
 */
module Navigation {
  import opened Wrappers

  type Sid = nat
  type CallId = nat

  const CAPACITY: nat := 128

  /** Operation ids are chosen by the client or minted at random by the service. */
  datatype OperationId = Chosen(name: string) | Minted(number: nat)
  datatype Key = Key(scope: nat, id: OperationId)

  /** One journal record; `owner` is the call that wrote it. A provisional record has no digest
      of any arguments yet. */
  datatype Entry = Entry(key: Key, digest: Option<nat>, done: bool, owner: CallId)
  type Journal = seq<Entry>

  datatype Kind = Open(existing: Option<Sid>, hasUrl: bool, listFirst: bool) | Navigate(target: Sid) | Other(name: nat)

  datatype Answer = NotDispatched | Provisional(key: Key) | Final | Replayed(record: Entry) | Conflict

  /** The dictionary a call shares with its task. */
  datatype Context = Context(abandoned: bool, result: Option<Answer>, operation: Option<Key>)

  datatype Pc =
    | Waiting                       // validating, pacing or queued for the command lock
    | Listing(sid: Sid)
    | Opening(sid: Sid)
    | Beginning(sid: Sid)
    | Running
    | Driving(sid: Sid)             // waiting for the navigation's end
    | Done(value: Answer)           // the task has ended and returned this

  datatype Call = Call(kind: Kind, scope: nat, digest: nat, key: Option<Key>, pc: Pc, context: Context, answered: bool)

  datatype Nav = Nav(call: CallId, operation: Key, keys: set<Key>)

  datatype Rpc = ListRpc | OpenRpc | BeginRpc | OtherRpc
  datatype Obs = Issued(call: CallId, rpc: Rpc) | Answered(call: CallId, answer: Answer)

  datatype State = State(minted: nat, calls: map<CallId, Call>, lock: Option<CallId>, navigations: map<Sid, Nav>,
                         journal: Journal, history: seq<Obs>)

  function Init(): State { State(0, map[], None, map[], [], []) }

  // ---- the journal ------------------------------------------------------------------------

  function Find(j: Journal, k: Key): (i: nat)
    ensures i <= |j| && (i < |j| ==> j[i].key == k)
    ensures forall x :: 0 <= x < i ==> j[x].key != k
  {
    if j == [] || j[0].key == k then 0 else 1 + Find(j[1..], k)
  }

  predicate Has(j: Journal, k: Key) { Find(j, k) < |j| }

  function Remove(j: Journal, i: nat): (r: Journal)
    requires i < |j|
    ensures |r| == |j| - 1
  {
    j[..i] + j[i + 1..]
  }

  /** One pass over the records in insertion order, deleting completed ones until it fits. */
  function Evict(j: Journal, i: nat, needed: nat): Journal
    requires i <= |j|
    decreases |j| - i
  {
    if |j| + needed <= CAPACITY || i == |j| then j
    else if j[i].done then Evict(Remove(j, i), i, needed)
    else Evict(j, i + 1, needed)
  }

  function Reserve(j: Journal, needed: nat): Journal { Evict(j, 0, needed) }

  predicate Fits(j: Journal, needed: nat) { |Reserve(j, needed)| + needed <= CAPACITY }

  /** Marks every record of the set completed; keys that are gone are skipped. */
  function SetAllDone(j: Journal, keys: set<Key>): (r: Journal)
    ensures |r| == |j|
    ensures forall i :: 0 <= i < |j| ==> r[i] == if j[i].key in keys then j[i].(done := true) else j[i]
  {
    seq(|j|, i requires 0 <= i < |j| => if j[i].key in keys then j[i].(done := true) else j[i])
  }

  /** The records of a pending navigation carry the call's own digest from then on. */
  function Redigest(j: Journal, keys: set<Key>, digest: nat): (r: Journal)
    ensures |r| == |j|
    ensures forall i :: 0 <= i < |j| ==> r[i] == if j[i].key in keys then j[i].(digest := Some(digest)) else j[i]
  {
    seq(|j|, i requires 0 <= i < |j| => if j[i].key in keys then j[i].(digest := Some(digest)) else j[i])
  }

  // ---- call -------------------------------------------------------------------------------

  predicate Timed(k: Kind) { k.Open? || k.Navigate? }

  function Note(s: State, o: Obs): State { s.(history := s.history + [o]) }

  function Update(s: State, c: CallId, call: Call): State { s.(calls := s.calls[c := call]) }

  /** The keys whose records this call writes. */
  function KeysOf(call: Call): set<Key> {
    (if call.key.Some? then {call.key.value} else {})
    + (if call.context.operation.Some? then {call.context.operation.value} else {})
  }

  /** The call's own part ends with a final result (or an error): its records are completed. */
  function Conclude(s: State, c: CallId): State
    requires c in s.calls
  {
    var call := s.calls[c];
    Update(s.(journal := SetAllDone(s.journal, KeysOf(call)), lock := if s.lock == Some(c) then None else s.lock),
           c, call.(pc := Done(Final), context := call.context.(result := Some(Final))))
  }

  /** A repeated key is answered from its record: replayed for equal arguments, else a conflict. */
  function RepeatAnswer(j: Journal, k: Key, digest: nat): Answer
    requires Has(j, k)
  {
    var record := j[Find(j, k)];
    if record.digest == Some(digest) then Replayed(record) else Conflict
  }

  /** A call that ends where it arrives. */
  function Ended(kind: Kind, scope: nat, digest: nat, answer: Answer): Call {
    Call(kind, scope, digest, None, Done(answer), Context(false, Some(answer), None), false)
  }

  /** `_call_owned` up to the first wait: replay, conflict, refusal, or a new journal record. */
  function Start(s: State, c: CallId, kind: Kind, scope: nat, id: Option<OperationId>, digest: nat): State {
    var key := if id.Some? then Some(Key(scope, id.value)) else None;
    if key.Some? && Has(s.journal, key.value) then
      Update(s, c, Ended(kind, scope, digest, RepeatAnswer(s.journal, key.value, digest)))
    else
      var needed := (if key.Some? then 1 else 0) + if Timed(kind) then 1 else 0;
      var j := Reserve(s.journal, needed);
      if |j| + needed > CAPACITY then Update(s.(journal := j), c, Ended(kind, scope, digest, Final))
      else
        var call := Call(kind, scope, digest, key, Waiting, Context(false, None, None), false);
        Update(s.(journal := if key.Some? then j + [Entry(key.value, Some(digest), false, c)] else j), c, call)
  }

  /** The provisional answer: an operation id the caller may be given from now on, under the
      lease of the session it is about. */
  function Provide(s: State, c: CallId, scope: nat): State
    requires c in s.calls
  {
    var call := s.calls[c];
    var k := Key(scope, Minted(s.minted));
    Update(s.(minted := s.minted + 1, journal := Reserve(s.journal, 1) + [Entry(k, None, false, c)]),
           c, call.(context := call.context.(result := Some(Provisional(k)), operation := Some(k))))
  }

  function Send(s: State, c: CallId, pc: Pc, rpc: Rpc): State
    requires c in s.calls
  {
    Note(Update(s, c, s.calls[c].(pc := pc)), Issued(c, rpc))
  }

  /** The checks under the command lock, before and after the provisional answer. */
  datatype Gate = Pass | RefusedEarly | RefusedLate

  /** The call gets the command lock. `gate` says whether any of its checks fails; a full
      result budget refuses too. The abandonment check and the provisional answer are in the
      same stretch as the first worker command. An open runs under the lease of its session,
      which may be a new one; a navigation under the lease it was asked for. */
  function Enter(s: State, c: CallId, gate: Gate, newSid: Sid, lease: nat): State
    requires c in s.calls
  {
    var call := s.calls[c];
    var s0 := s.(lock := Some(c));
    if call.context.abandoned || gate.RefusedEarly? then Conclude(s0, c)
    else match call.kind
      case Other(_) => Send(s0, c, Running, OtherRpc)
      case Open(existing, _, listFirst) =>
        var sid := if existing.Some? then existing.value else newSid;
        if sid in s.navigations || !Fits(s.journal, 1) then Conclude(s0.(journal := Reserve(s.journal, 1)), c)
        else if gate.RefusedLate? then Conclude(Provide(s0, c, lease), c)
        else if existing.Some? && listFirst then Send(Provide(s0, c, lease), c, Listing(sid), ListRpc)
        else Send(Provide(s0, c, lease), c, Opening(sid), OpenRpc)
      case Navigate(sid) =>
        if sid in s.navigations || !Fits(s.journal, 1) then Conclude(s0.(journal := Reserve(s.journal, 1)), c)
        else Send(Provide(s0, c, call.scope), c, Beginning(sid), BeginRpc)
  }

  datatype Reply = Failed | Succeeded(pending: bool)

  /** `begin` replied that the page is still loading: the navigation is journalled under the
      call's own keys and driven in the background. */
  function Pend(s: State, c: CallId, sid: Sid): State
    requires c in s.calls && s.calls[c].context.operation.Some?
  {
    var call := s.calls[c];
    var op := call.context.operation.value;
    Update(s.(navigations := s.navigations[sid := Nav(c, op, KeysOf(call))], lock := None,
              journal := Redigest(s.journal, KeysOf(call), call.digest)),
           c, call.(pc := Driving(sid), context := call.context.(result := Some(Provisional(op)))))
  }

  function Replied(s: State, c: CallId, reply: Reply): State
    requires c in s.calls && (s.calls[c].context.operation.Some? || s.calls[c].pc.Running?)
  {
    var call := s.calls[c];
    if reply.Failed? || call.pc.Running? then Conclude(s, c)
    else match call.pc
      case Listing(sid) => Send(s, c, Opening(sid), OpenRpc)
      case Opening(sid) =>
        if call.kind.Open? && call.kind.hasUrl && sid !in s.navigations then Send(s, c, Beginning(sid), BeginRpc)
        else Conclude(s, c)
      case Beginning(sid) => if reply.pending then Pend(s, c, sid) else Conclude(s, c)
      case _ => s
  }

  /** `_finish_navigation`: the records of its keys are completed and it is forgotten. */
  function FinishNavigation(s: State, sid: Sid): State
    requires sid in s.navigations
  {
    s.(journal := SetAllDone(s.journal, s.navigations[sid].keys), navigations := s.navigations - {sid})
  }

  /** The caller's wait is over: hand out what the task has left, or abandon the request. */
  function CallerTimeout(s: State, c: CallId): State
    requires c in s.calls
  {
    var call := s.calls[c];
    match call.context.result
    case Some(answer) => Note(Update(s, c, call.(answered := true)), Answered(c, answer))
    case None =>
      Note(Update(s, c, call.(answered := true, context := call.context.(abandoned := true))), Answered(c, NotDispatched))
  }

  /** The call stops waiting for its navigation and returns what is known of it by then. */
  function Stop(s: State, c: CallId): State
    requires c in s.calls && s.calls[c].pc.Driving?
  {
    var sid := s.calls[c].pc.sid;
    var value := if sid in s.navigations && s.navigations[sid].call == c then Provisional(s.navigations[sid].operation) else Final;
    Update(s, c, s.calls[c].(pc := Done(value)))
  }

  /** The task is done in time and the caller gets what it returned. */
  function CallerReturn(s: State, c: CallId): State
    requires c in s.calls && s.calls[c].pc.Done?
  {
    Note(Update(s, c, s.calls[c].(answered := true)), Answered(c, s.calls[c].pc.value))
  }

  // ---- events -----------------------------------------------------------------------------

  datatype Event =
    | Arrive(call: CallId, kind: Kind, scope: nat, id: Option<OperationId>, digest: nat)
    | Acquire(call: CallId, gate: Gate, newSid: Sid, lease: nat)
    | QueueTimeout(call: CallId)
    | RpcDone(call: CallId, reply: Reply)
    | NavigationDone(sid: Sid)
    | StopWaiting(call: CallId)                 // done, or the rest of the five seconds is over
    | Timeout(call: CallId)
    | Return(call: CallId)

  predicate Enabled(s: State, e: Event) {
    match e
    case Arrive(c, _, _, id, _) => c !in s.calls && (id.Some? && id.value.Minted? ==> id.value.number < s.minted)
    case Acquire(c, _, _, _) => c in s.calls && s.calls[c].pc.Waiting? && s.lock.None?
    case QueueTimeout(c) => c in s.calls && s.calls[c].pc.Waiting?
    case RpcDone(c, _) =>
      c in s.calls && (s.calls[c].pc.Running? ||
        ((s.calls[c].pc.Listing? || s.calls[c].pc.Opening? || s.calls[c].pc.Beginning?) && s.calls[c].context.operation.Some?))
    case NavigationDone(sid) => sid in s.navigations
    case StopWaiting(c) => c in s.calls && s.calls[c].pc.Driving?
    case Timeout(c) => c in s.calls && Timed(s.calls[c].kind) && !s.calls[c].answered
    case Return(c) => c in s.calls && s.calls[c].pc.Done? && !s.calls[c].answered
  }

  function Next(s: State, e: Event): State
    requires Enabled(s, e)
  {
    match e
    case Arrive(c, kind, scope, id, digest) => Start(s, c, kind, scope, id, digest)
    case Acquire(c, gate, newSid, lease) => Enter(s, c, gate, newSid, lease)
    case QueueTimeout(c) => Conclude(s, c)
    case RpcDone(c, reply) => Replied(s, c, reply)
    case NavigationDone(sid) => FinishNavigation(s, sid)
    case StopWaiting(c) => Stop(s, c)
    case Timeout(c) => CallerTimeout(s, c)
    case Return(c) => CallerReturn(s, c)
  }

  function Run(s: State, events: seq<Event>): State
    decreases |events|
  {
    if events == [] then s
    else
      var before := Run(s, events[..|events| - 1]);
      var e := events[|events| - 1];
      if Enabled(before, e) then Next(before, e) else before
  }
}
