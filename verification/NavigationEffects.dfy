/** What each event does for a call, which answer its caller is due, and what a repeat gets. */
module NavigationEffects {
  import opened Wrappers
  import opened Navigation
  import opened NavigationTheorems

  /** The command lock is free and the call waits for it. */
  predicate Waits(s: State, c: CallId) { c in s.calls && s.calls[c].pc.Waiting? && s.lock.None? }

  /** The call's own part ended with a final result, sending nothing; its records are completed. */
  ghost predicate EndedHere(s: State, s': State, c: CallId) {
    c in s.calls && c in s'.calls && s'.calls[c].pc == Done(Final) && s'.calls[c].context.result == Some(Final)
    && s'.lock.None? && s'.history == s.history && s'.navigations == s.navigations
    && forall i :: 0 <= i < |s'.journal| && s'.journal[i].key in KeysOf(s'.calls[c]) ==> s'.journal[i].done
  }

  // ---- arriving --------------------------------------------------------------------------------

  /** A call under a new key is journalled as running, with its digest, whenever the running records
      leave room; otherwise it is refused, and no running record is lost either way. */
  lemma ArrivalQueues(s: State, c: CallId, kind: Kind, scope: nat, id: Option<OperationId>, digest: nat)
    requires Enabled(s, Arrive(c, kind, scope, id, digest))
    requires id.Some? ==> forall i :: 0 <= i < |s.journal| ==> s.journal[i].key != Key(scope, id.value)
    ensures var s' := Next(s, Arrive(c, kind, scope, id, digest));
      var needed := (if id.Some? then 1 else 0) + if kind.Open? || kind.Navigate? then 1 else 0;
      c in s'.calls && !s'.calls[c].answered && s'.history == s.history
      && (forall x :: 0 <= x < |s.journal| && !s.journal[x].done ==> s.journal[x] in s'.journal)
      && if RunningCount(s.journal) + needed <= CAPACITY then
           s'.calls[c].pc.Waiting? && s'.calls[c].kind == kind && s'.calls[c].context == Context(false, None, None)
           && (id.Some? ==> s'.journal != [] && s'.journal[|s'.journal| - 1] == Entry(Key(scope, id.value), Some(digest), false, c))
         else s'.calls[c].pc == Done(Final)
  {
    var needed := (if id.Some? then 1 else 0) + if Timed(kind) then 1 else 0;
    EvictFits(s.journal, 0, needed);
    EvictSound(s.journal, 0, needed);
    hide Evict, RunningCount;
  }

  // ---- under the lock --------------------------------------------------------------------------

  /** The first worker command of a call. */
  function FirstCommand(kind: Kind): Rpc {
    match kind
    case Other(_) => OtherRpc
    case Navigate(_) => BeginRpc
    case Open(existing, _, listFirst) => if existing.Some? && listFirst then ListRpc else OpenRpc
  }

  function SessionOf(kind: Kind, newSid: Sid): Sid {
    match kind
    case Navigate(sid) => sid
    case Open(Some(sid), _, _) => sid
    case _ => newSid
  }

  /** A call whose caller still waits sends its first command; an open or a navigation gets an
      operation id first, with a running record, and its caller may be given that id from now on. */
  lemma CallEnters(s: State, c: CallId, newSid: Sid, lease: nat)
    requires Waits(s, c) && !s.calls[c].context.abandoned
    requires Timed(s.calls[c].kind) ==>
      SessionOf(s.calls[c].kind, newSid) !in s.navigations && RunningCount(s.journal) + 1 <= CAPACITY
    ensures var call := s.calls[c];
      var s' := Next(s, Acquire(c, Pass, newSid, lease));
      s'.history == s.history + [Issued(c, FirstCommand(call.kind))] && s'.lock == Some(c) && c in s'.calls
      && (Timed(call.kind) ==>
            var k := Key(if call.kind.Navigate? then call.scope else lease, Minted(s.minted));
            s'.calls[c].context.operation == Some(k) && s'.calls[c].context.result == Some(Provisional(k))
            && Owned(s'.journal, k, c) && s'.minted == s.minted + 1)
  {
    EvictFits(s.journal, 0, 1);
    var k := Key(if s.calls[c].kind.Navigate? then s.calls[c].scope else lease, Minted(s.minted));
    OwnedAppend(Reserve(s.journal, 1), Entry(k, None, false, c));
    hide Evict, RunningCount, Owned;
  }

  /** Abandoned, refused, behind a pending navigation or without room, it sends nothing and ends. */
  lemma CallRefused(s: State, c: CallId, gate: Gate, newSid: Sid, lease: nat)
    requires Waits(s, c) && s.calls[c].context.operation.None?
    requires s.calls[c].context.abandoned || gate.RefusedEarly?
             || (Timed(s.calls[c].kind) && (SessionOf(s.calls[c].kind, newSid) in s.navigations
                                            || RunningCount(s.journal) + 1 > CAPACITY))
             || (s.calls[c].kind.Open? && gate.RefusedLate?)
    ensures EndedHere(s, Next(s, Acquire(c, gate, newSid, lease)), c)
  {
    EvictFits(s.journal, 0, 1);
    hide Evict, RunningCount;
  }

  /** Each reply leads on: listing to opening, opening to loading, loading to the end or to a
      navigation that is pending. */
  lemma RepliesLeadOn(s: State, c: CallId)
    requires Enabled(s, RpcDone(c, Succeeded(true))) && s.lock == Some(c)
    ensures var call := s.calls[c];
      forall pending ::
        var s' := Next(s, RpcDone(c, Succeeded(pending)));
        match call.pc
        case Listing(sid) => s'.history == s.history + [Issued(c, OpenRpc)] && s'.calls[c].pc == Opening(sid)
        case Opening(sid) =>
          if call.kind.Open? && call.kind.hasUrl && sid !in s.navigations
          then s'.history == s.history + [Issued(c, BeginRpc)] && s'.calls[c].pc == Beginning(sid)
          else EndedHere(s, s', c)
        case Beginning(sid) => if pending then Pending(s, s', c, sid) else EndedHere(s, s', c)
        case _ => EndedHere(s, s', c)
  {
    hide Inv;
  }

  /** The navigation is listed under the call's operation id, its records carry the call's own
      digest, and the lock is free again. */
  ghost predicate Pending(s: State, s': State, c: CallId, sid: Sid)
    requires c in s.calls && s.calls[c].context.operation.Some?
  {
    var call := s.calls[c];
    sid in s'.navigations && s'.navigations[sid] == Nav(c, call.context.operation.value, KeysOf(call))
    && s'.lock.None? && s'.history == s.history && c in s'.calls && s'.calls[c].pc == Driving(sid)
    && |s'.journal| == |s.journal|
    && forall i :: 0 <= i < |s.journal| ==>
         s'.journal[i] == if s.journal[i].key in KeysOf(call) then s.journal[i].(digest := Some(call.digest)) else s.journal[i]
  }

  lemma FailureEnds(s: State, c: CallId)
    requires Enabled(s, RpcDone(c, Failed)) && s.lock == Some(c)
    ensures EndedHere(s, Next(s, RpcDone(c, Failed)), c)
  {
  }

  /** The end of a navigation completes exactly the records under its keys. */
  lemma NavigationCompletes(s: State, sid: Sid)
    requires sid in s.navigations
    ensures var s' := Next(s, NavigationDone(sid));
      s'.navigations == s.navigations - {sid} && s'.calls == s.calls && |s'.journal| == |s.journal|
      && forall i :: 0 <= i < |s.journal| ==>
           s'.journal[i] == s.journal[i].(done := s.journal[i].done || s.journal[i].key in s.navigations[sid].keys)
  {
  }

  // ---- answers ------------------------------------------------------------------------------------

  /** Which answer a caller is due. While its call is at work or its navigation loads, the caller of
      an open or a navigation gets the operation id if there is one and is otherwise told that
      nothing was dispatched; a final answer means that all of it is over. */
  lemma AnswersAreDue(events: seq<Event>, e: Event)
    requires Enabled(Run(Init(), events), e) && (e.Timeout? || e.Return?)
    ensures var s := Run(Init(), events);
      var c, h' := e.call, Next(s, e).history;
      |h'| == |s.history| + 1 && s.history <= h' && h'[|s.history|].Answered? && h'[|s.history|].call == c
      && var a, op := h'[|s.history|].answer, s.calls[c].context.operation;
         (Busy(s, c) && op.Some? ==> a == Provisional(op.value))
         && (a.NotDispatched? <==> Busy(s, c) && op.None?)
         && (a.Final? ==> !Busy(s, c))
  {
    RunInv(events);
    var s, c := Run(Init(), events), e.call;
    assert CallOk(s, c);
    if Busy(s, c) && !Working(s.calls[c].pc) {
      var sid :| sid in s.navigations && s.navigations[sid].call == c;
      assert NavOk(s, sid);
    }
  }

  /** Stopping to wait, the call returns the final result if its navigation is over, and else the
      operation id. */
  lemma StopThenReturn(events: seq<Event>, c: CallId)
    requires var s := Run(Init(), events); Enabled(s, StopWaiting(c)) && !s.calls[c].answered
    ensures var s := Run(Init(), events);
      var s1 := Next(s, StopWaiting(c));
      s.calls[c].context.operation.Some? && Enabled(s1, Return(c))
      && Next(s1, Return(c)).history
         == s.history + [Answered(c, if Busy(s, c) then Provisional(s.calls[c].context.operation.value) else Final)]
  {
    RunInv(events);
    var s := Run(Init(), events);
    DrivingKnows(s, c);
    hide Inv, Busy, Run;
  }

  /** A call that waits for its navigation knows whether it is still pending. */
  lemma DrivingKnows(s: State, c: CallId)
    requires Inv(s) && c in s.calls && s.calls[c].pc.Driving?
    ensures var sid := s.calls[c].pc.sid;
      s.calls[c].context.operation.Some? && (Busy(s, c) <==> sid in s.navigations && s.navigations[sid].call == c)
      && (Busy(s, c) ==> s.navigations[sid].operation == s.calls[c].context.operation.value)
  {
    assert CallOk(s, c);
    if x :| x in s.navigations && s.navigations[x].call == c { assert NavOk(s, x); }
  }

  ghost predicate AnswersMarked(s: State) {
    (forall i :: 0 <= i < |s.history| && s.history[i].Answered? ==> s.history[i].call in s.calls && s.calls[s.history[i].call].answered)
    && forall i, j :: 0 <= i < j < |s.history| && s.history[i].Answered? && s.history[j].Answered? ==>
         s.history[i].call != s.history[j].call
  }

  /** What an event adds to the history, and that an answered call stays answered. */
  lemma StepAnswers(s: State, e: Event)
    requires Enabled(s, e)
    ensures var s' := Next(s, e);
      s.history <= s'.history && |s'.history| <= |s.history| + 1
      && (forall d :: d in s.calls ==> d in s'.calls && (s.calls[d].answered ==> s'.calls[d].answered))
      && (|s'.history| > |s.history| && s'.history[|s.history|].Answered? ==>
            var d := s'.history[|s.history|].call; d in s.calls && !s.calls[d].answered && s'.calls[d].answered)
  {
    hide Inv, Reserve, SetAllDone, Redigest, Has, Find, KeysOf, Fits;
    match e
    case Acquire(c, gate, newSid, lease) => EnterAnswers(s, c, gate, newSid, lease);
    case _ =>
  }

  lemma EnterAnswers(s: State, c: CallId, gate: Gate, newSid: Sid, lease: nat)
    requires c in s.calls
    ensures var s' := Enter(s, c, gate, newSid, lease);
      s.history <= s'.history && |s'.history| <= |s.history| + 1
      && (forall d :: d in s.calls ==> d in s'.calls && (s.calls[d].answered ==> s'.calls[d].answered))
      && (|s'.history| > |s.history| ==> !s'.history[|s.history|].Answered?)
  {
    hide Reserve, SetAllDone, KeysOf, Fits;
  }

  /** No caller is answered twice. */
  lemma AnsweredOnce(events: seq<Event>, i: nat, j: nat)
    requires var h := Run(Init(), events).history;
      i < |h| && j < |h| && h[i].Answered? && h[j].Answered? && h[i].call == h[j].call
    ensures i == j
  {
    AnswersAreMarked(events);
  }

  lemma {:induction false} AnswersAreMarked(events: seq<Event>)
    ensures AnswersMarked(Run(Init(), events))
    decreases |events|
  {
    if events != [] {
      AnswersAreMarked(events[..|events| - 1]);
      var before, e := Run(Init(), events[..|events| - 1]), events[|events| - 1];
      if Enabled(before, e) {
        StepAnswers(before, e);
        hide Next, Enabled;
        MarkedStep(before, Next(before, e));
      }
    }
  }

  lemma MarkedStep(s: State, s': State)
    requires AnswersMarked(s) && s.history <= s'.history && |s'.history| <= |s.history| + 1
    requires forall d :: d in s.calls ==> d in s'.calls && (s.calls[d].answered ==> s'.calls[d].answered)
    requires |s'.history| > |s.history| && s'.history[|s.history|].Answered? ==>
      var d := s'.history[|s.history|].call; d in s.calls && !s.calls[d].answered && s'.calls[d].answered
    ensures AnswersMarked(s')
  {
    assert forall i :: 0 <= i < |s.history| ==> s'.history[i] == s.history[i];
  }

  // ---- repeats ------------------------------------------------------------------------------------

  /** The record under a call's own key carries the digest of its arguments. */
  ghost predicate DigestsOk(s: State) {
    forall i :: 0 <= i < |s.journal| ==> DigestOk(s, s.journal[i])
  }

  ghost predicate DigestOk(s: State, record: Entry) {
    record.owner in s.calls
    && (s.calls[record.owner].key == Some(record.key) ==> record.digest == Some(s.calls[record.owner].digest))
  }

  /** Calls keep their keys and digests. */
  ghost predicate SameIdentities(s: State, s': State) {
    forall d :: d in s.calls ==> d in s'.calls && s'.calls[d].key == s.calls[d].key && s'.calls[d].digest == s.calls[d].digest
  }

  lemma IdentitiesStay(s: State, e: Event)
    requires Enabled(s, e)
    ensures SameIdentities(s, Next(s, e))
  {
    hide Inv, Reserve, SetAllDone, Redigest, Has, Find, KeysOf, Fits;
    match e
    case Acquire(c, gate, newSid, lease) => EnterIdentities(s, c, gate, newSid, lease);
    case _ =>
  }

  lemma EnterIdentities(s: State, c: CallId, gate: Gate, newSid: Sid, lease: nat)
    requires c in s.calls
    ensures SameIdentities(s, Enter(s, c, gate, newSid, lease))
  {
    hide Reserve, SetAllDone, KeysOf, Fits;
  }

  /** A record is an old one, completed or given its call's digest perhaps, or that of a new call or operation. */
  ghost predicate Stems(s: State, s': State, record: Entry) {
    (exists i :: 0 <= i < |s.journal| && s.journal[i].key == record.key && s.journal[i].owner == record.owner
                 && (record.digest == s.journal[i].digest
                     || (record.owner in s.calls && record.digest == Some(s.calls[record.owner].digest))))
    || (record.owner !in s.calls && record.owner in s'.calls && record.digest == Some(s'.calls[record.owner].digest))
    || (record.owner in s.calls && s.calls[record.owner].key != Some(record.key))
  }

  lemma StartStems(s: State, c: CallId, kind: Kind, scope: nat, id: Option<OperationId>, digest: nat, record: Entry)
    requires c !in s.calls && record in Start(s, c, kind, scope, id, digest).journal
    ensures Stems(s, Start(s, c, kind, scope, id, digest), record)
  {
    var needed := (if id.Some? then 1 else 0) + if Timed(kind) then 1 else 0;
    EvictSound(s.journal, 0, needed);
    if record in Reserve(s.journal, needed) { assert record in s.journal; }
    hide Evict, Has, Find;
  }

  /** The record goes back to one with the same key, owner and digest. */
  ghost predicate Older(j: Journal, record: Entry) {
    exists i :: 0 <= i < |j| && j[i].key == record.key && j[i].owner == record.owner && j[i].digest == record.digest
  }

  lemma ReservedOlder(j: Journal, needed: nat, record: Entry)
    requires record in Reserve(j, needed)
    ensures Older(j, record)
  {
    EvictSound(j, 0, needed);
    assert record in j;
  }

  lemma DoneOlder(j: Journal, keys: set<Key>, record: Entry)
    requires record in SetAllDone(j, keys)
    ensures Older(j, record)
  {
    var i :| 0 <= i < |SetAllDone(j, keys)| && SetAllDone(j, keys)[i] == record;
    assert j[i].key == record.key;
  }

  lemma OlderTwice(j: Journal, r: Journal, record: Entry)
    requires Older(r, record) && forall x :: x in r ==> Older(j, x)
    ensures Older(j, record)
  {
    var i :| 0 <= i < |r| && r[i].key == record.key && r[i].owner == record.owner && r[i].digest == record.digest;
    assert r[i] in r && Older(j, r[i]);
  }

  /** What a call entering the lock makes of the journal: older records and one for its operation. */
  lemma EnterOlder(s: State, c: CallId, gate: Gate, newSid: Sid, lease: nat, record: Entry)
    requires c in s.calls && record in Enter(s, c, gate, newSid, lease).journal
    ensures Older(s.journal, record) || (record.owner == c && record.key.id == Minted(s.minted))
  {
    var call := s.calls[c];
    var j := Reserve(s.journal, 1);
    forall x | x in j ensures Older(s.journal, x) { ReservedOlder(s.journal, 1, x); }
    var keys := KeysOf(call);
    forall x | x in SetAllDone(s.journal, keys) ensures Older(s.journal, x) { DoneOlder(s.journal, keys, x); }
    forall x | x in SetAllDone(j, keys) ensures Older(s.journal, x) { DoneOlder(j, keys, x); OlderTwice(s.journal, j, x); }
    var scope := if call.kind.Navigate? then call.scope else lease;
    var p := Provide(s.(lock := Some(c)), c, scope);
    ProvidedOlder(s, c, scope, keys, record);
    hide Older, Reserve, SetAllDone, Fits, KeysOf;
    assert Older(s.journal, record) <== record in s.journal by { OldIsOlder(s.journal, record); }
  }

  lemma OldIsOlder(j: Journal, record: Entry)
    ensures record in j ==> Older(j, record)
  {
  }

  lemma ProvidedOlder(s: State, c: CallId, scope: nat, keys: set<Key>, record: Entry)
    requires c in s.calls
    ensures var p := Provide(s.(lock := Some(c)), c, scope);
      record in p.journal || record in SetAllDone(p.journal, KeysOf(p.calls[c])) ==>
        Older(s.journal, record) || (record.owner == c && record.key.id == Minted(s.minted))
  {
    var p := Provide(s.(lock := Some(c)), c, scope);
    var j := Reserve(s.journal, 1);
    if record in SetAllDone(p.journal, KeysOf(p.calls[c])) { DoneOlder(p.journal, KeysOf(p.calls[c]), record); }
    OldIsOlder(p.journal, record);
    if Older(p.journal, record) {
      var i :| 0 <= i < |p.journal| && p.journal[i].key == record.key && p.journal[i].owner == record.owner
               && p.journal[i].digest == record.digest;
      if i < |j| {
        assert j[i] in j;
        ReservedOlder(s.journal, 1, j[i]);
      }
    }
  }

  lemma EnterStems(s: State, c: CallId, gate: Gate, newSid: Sid, lease: nat, record: Entry)
    requires Inv(s) && Waits(s, c) && record in Enter(s, c, gate, newSid, lease).journal
    ensures Stems(s, Enter(s, c, gate, newSid, lease), record)
  {
    assert CallOk(s, c);
    assert s.calls[c].key.Some? ==> KeyMinted(s.calls[c].key.value, s.minted);
    EnterOlder(s, c, gate, newSid, lease, record);
    hide Enter, Inv, CallOk;
  }

  lemma RepliedStems(s: State, c: CallId, reply: Reply, record: Entry)
    requires Inv(s) && Enabled(s, RpcDone(c, reply)) && record in Next(s, RpcDone(c, reply)).journal
    ensures Stems(s, Next(s, RpcDone(c, reply)), record)
  {
    hide Inv, SetAllDone, Redigest, KeysOf;
    OwnRecords(s, c);
    var j, keys, digest := s.journal, KeysOf(s.calls[c]), s.calls[c].digest;
    var j' := Next(s, RpcDone(c, reply)).journal;
    RepliedJournal(s, c, reply);
    hide Next, Enabled;
    var i :| 0 <= i < |j'| && j'[i] == record;
    assert j[i].key == record.key && j[i].owner == record.owner;
  }

  lemma RepliedJournal(s: State, c: CallId, reply: Reply)
    requires Enabled(s, RpcDone(c, reply))
    ensures Next(s, RpcDone(c, reply)).journal
         in {s.journal, SetAllDone(s.journal, KeysOf(s.calls[c])), Redigest(s.journal, KeysOf(s.calls[c]), s.calls[c].digest)}
  {
    hide SetAllDone, Redigest, KeysOf;
  }

  /** The records under a call's keys are its own while it is at work. */
  lemma OwnRecords(s: State, c: CallId)
    requires Inv(s) && c in s.calls && Working(s.calls[c].pc)
    ensures forall i :: 0 <= i < |s.journal| && s.journal[i].key in KeysOf(s.calls[c]) ==> s.journal[i].owner == c
  {
    assert CallOk(s, c);
    forall i | 0 <= i < |s.journal| && s.journal[i].key in KeysOf(s.calls[c]) ensures s.journal[i].owner == c {
      assert Owned(s.journal, s.journal[i].key, c);
    }
  }

  lemma OtherStems(s: State, e: Event, record: Entry)
    requires Enabled(s, e) && !e.Arrive? && !e.Acquire? && !e.RpcDone? && record in Next(s, e).journal
    ensures Stems(s, Next(s, e), record)
  {
    hide KeysOf;
    var j := Next(s, e).journal;
    var i :| 0 <= i < |j| && j[i] == record;
    assert s.journal[i].key == record.key;
  }

  lemma StepStems(s: State, e: Event, record: Entry)
    requires Inv(s) && Enabled(s, e) && record in Next(s, e).journal
    ensures Stems(s, Next(s, e), record)
  {
    hide Inv, Stems, Start, Enter, Replied;
    match e
    case Arrive(c, kind, scope, id, digest) => StartStems(s, c, kind, scope, id, digest, record);
    case Acquire(c, gate, newSid, lease) => EnterStems(s, c, gate, newSid, lease, record);
    case RpcDone(c, reply) => RepliedStems(s, c, reply, record);
    case _ => OtherStems(s, e, record);
  }

  lemma StemsOk(s: State, s': State, record: Entry)
    requires DigestsOk(s) && SameIdentities(s, s') && Stems(s, s', record)
    ensures DigestOk(s', record)
  {
    if i :| 0 <= i < |s.journal| && s.journal[i].key == record.key && s.journal[i].owner == record.owner
            && (record.digest == s.journal[i].digest
                || (record.owner in s.calls && record.digest == Some(s.calls[record.owner].digest))) {
      assert DigestOk(s, s.journal[i]);
    }
  }

  lemma {:induction false} DigestsKept(events: seq<Event>)
    ensures DigestsOk(Run(Init(), events))
    decreases |events|
  {
    if events != [] {
      var front, e := events[..|events| - 1], events[|events| - 1];
      DigestsKept(front);
      RunInv(front);
      var s := Run(Init(), front);
      if Enabled(s, e) {
        var s' := Next(s, e);
        IdentitiesStay(s, e);
        hide Next, Inv, Enabled, SameIdentities, Stems, DigestOk;
        forall i | 0 <= i < |s'.journal| ensures DigestOk(s', s'.journal[i]) {
          StepStems(s, e, s'.journal[i]);
          StemsOk(s, s', s'.journal[i]);
        }
      }
    }
  }

  /** A true repeat is replayed: as long as the record of a call's key is retained, the same key with
      the same arguments gets that record, and with other arguments a conflict. */
  lemma TrueRepeatIsReplayed(events: seq<Event>, first: CallId, i: nat, c: CallId, kind: Kind, digest: nat)
    requires var s := Run(Init(), events);
      i < |s.journal| && s.journal[i].owner == first && first in s.calls && s.calls[first].key == Some(s.journal[i].key)
      && Enabled(s, Arrive(c, kind, s.journal[i].key.scope, Some(s.journal[i].key.id), digest))
    ensures var s := Run(Init(), events);
      var s1 := Next(s, Arrive(c, kind, s.journal[i].key.scope, Some(s.journal[i].key.id), digest));
      Enabled(s1, Return(c))
      && Next(s1, Return(c)).history
         == s.history + [Answered(c, if digest == s.calls[first].digest then Replayed(s.journal[i]) else Conflict)]
  {
    RunInv(events);
    DigestsKept(events);
    var s := Run(Init(), events);
    assert DigestOk(s, s.journal[i]);
    FoundAt(s.journal, s.journal[i].key, i);
  }
}
