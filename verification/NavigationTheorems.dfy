/** Truthful replies, and what the journal guarantees, over every run of calls and events. */
module NavigationTheorems {
  import opened Wrappers
  import opened Navigation

  // ---- eviction ---------------------------------------------------------------------------

  ghost function RunningCount(j: Journal): nat {
    if j == [] then 0 else RunningCount(j[1..]) + if j[0].done then 0 else 1
  }

  lemma {:induction false} RunningConcat(a: Journal, b: Journal)
    ensures RunningCount(a + b) == RunningCount(a) + RunningCount(b)
  {
    if a == [] {
      assert a + b == b;
    } else {
      assert (a + b)[1..] == a[1..] + b;
      RunningConcat(a[1..], b);
    }
  }

  lemma {:induction false} RunningAtMost(j: Journal)
    ensures RunningCount(j) <= |j|
    ensures (forall i :: 0 <= i < |j| ==> !j[i].done) ==> RunningCount(j) == |j|
  {
    if j != [] { RunningAtMost(j[1..]); }
  }

  /** A journal without the records at or after i that are completed. */
  ghost predicate KeepsRunning(j: Journal, r: Journal) {
    && |r| <= |j|
    && (forall x :: 0 <= x < |r| ==> r[x] in j)
    && (forall x :: 0 <= x < |j| && !j[x].done ==> j[x] in r)
  }

  ghost predicate Distinct(j: Journal) {
    forall a, b :: 0 <= a < b < |j| ==> j[a].key != j[b].key
  }

  lemma RemoveKeepsRunning(j: Journal, i: nat)
    requires i < |j| && j[i].done
    ensures KeepsRunning(j, Remove(j, i)) && (Distinct(j) ==> Distinct(Remove(j, i)))
    ensures RunningCount(Remove(j, i)) == RunningCount(j)
  {
    RemoveKeepsCount(j, i);
    hide RunningCount;
    var r := Remove(j, i);
    forall x | 0 <= x < |r| ensures r[x] == j[if x < i then x else x + 1] && r[x] in j {}
    forall x | 0 <= x < |j| && !j[x].done
      ensures j[x] in r
    {
      assert j[x] == if x < i then r[x] else r[x - 1];
    }
  }

  lemma RemoveKeepsCount(j: Journal, i: nat)
    requires i < |j| && j[i].done
    ensures RunningCount(Remove(j, i)) == RunningCount(j)
  {
    assert j == (j[..i] + [j[i]]) + j[i + 1..];
    RunningConcat(j[..i] + [j[i]], j[i + 1..]);
    RunningConcat(j[..i], [j[i]]);
    RunningConcat(j[..i], j[i + 1..]);
  }

  lemma KeepsRunningTrans(a: Journal, b: Journal, c: Journal)
    requires KeepsRunning(a, b) && KeepsRunning(b, c)
    ensures KeepsRunning(a, c)
  {
    forall x | 0 <= x < |c| ensures c[x] in a { assert c[x] in b; }
    forall x | 0 <= x < |a| && !a[x].done ensures a[x] in c { assert a[x] in b; }
  }

  /** Eviction keeps every running record and keeps keys distinct. */
  lemma {:induction false} EvictSound(j: Journal, i: nat, needed: nat)
    requires i <= |j|
    ensures KeepsRunning(j, Evict(j, i, needed)) && (Distinct(j) ==> Distinct(Evict(j, i, needed)))
    ensures RunningCount(Evict(j, i, needed)) == RunningCount(j)
    ensures |j| + needed <= CAPACITY ==> Evict(j, i, needed) == j
    decreases |j| - i
  {
    if |j| + needed > CAPACITY && i < |j| {
      if j[i].done {
        RemoveKeepsRunning(j, i);
        EvictSound(Remove(j, i), i, needed);
        KeepsRunningTrans(j, Remove(j, i), Evict(j, i, needed));
      } else {
        EvictSound(j, i + 1, needed);
      }
    }
  }

  /** It makes room exactly when the running records leave room. */
  lemma {:induction false} EvictFits(j: Journal, i: nat, needed: nat)
    requires i <= |j| && forall x :: 0 <= x < i ==> !j[x].done
    ensures |Evict(j, i, needed)| + needed <= CAPACITY <==> RunningCount(j) + needed <= CAPACITY
    decreases |j| - i
  {
    RunningAtMost(j);
    if |j| + needed > CAPACITY && i < |j| {
      if j[i].done {
        RemoveKeepsRunning(j, i);
        EvictFits(Remove(j, i), i, needed);
      } else {
        EvictFits(j, i + 1, needed);
      }
    }
  }

  /** Only the oldest completed records go: what is evicted precedes every completed survivor. */
  lemma {:induction false} EvictsOldest(j: Journal, i: nat, needed: nat) returns (kept: nat, front: Journal)
    requires i <= |j| && (forall x :: 0 <= x < i ==> !j[x].done)
    ensures i <= kept <= |j| && Evict(j, i, needed) == front + j[kept..]
    ensures forall x :: 0 <= x < |front| ==> !front[x].done
    decreases |j| - i
  {
    if |j| + needed <= CAPACITY || i == |j| {
      kept, front := i, j[..i];
    } else if j[i].done {
      kept, front := EvictsOldest(Remove(j, i), i, needed);
      assert Remove(j, i)[kept..] == j[kept + 1..];
      kept := kept + 1;
    } else {
      kept, front := EvictsOldest(j, i + 1, needed);
    }
  }

  // ---- the invariant ------------------------------------------------------------------------

  ghost predicate Working(pc: Pc) {
    pc.Waiting? || pc.Listing? || pc.Opening? || pc.Beginning? || pc.Running?
  }

  ghost predicate InLock(pc: Pc) {
    pc.Listing? || pc.Opening? || pc.Beginning? || pc.Running?
  }

  ghost predicate Owned(j: Journal, k: Key, c: CallId) {
    exists i :: 0 <= i < |j| && j[i].key == k && j[i].owner == c && !j[i].done
  }

  ghost predicate OwnsAll(j: Journal, keys: set<Key>, c: CallId) {
    forall k :: k in keys ==> Owned(j, k, c)
  }

  ghost predicate Busy(s: State, c: CallId) {
    (c in s.calls && Working(s.calls[c].pc)) || exists sid :: sid in s.navigations && s.navigations[sid].call == c
  }

  ghost predicate KeyMinted(k: Key, minted: nat) { k.id.Minted? ==> k.id.number < minted }

  ghost predicate JournalOk(s: State) {
    |s.journal| <= CAPACITY && Distinct(s.journal)
    && (forall i :: 0 <= i < |s.journal| ==> KeyMinted(s.journal[i].key, s.minted) && s.journal[i].owner in s.calls)
    && (forall i :: 0 <= i < |s.journal| && !s.journal[i].done ==>
          s.journal[i].key in KeysOf(s.calls[s.journal[i].owner]) && Busy(s, s.journal[i].owner))
  }

  ghost predicate CallOk(s: State, c: CallId)
    requires c in s.calls
  {
    var call := s.calls[c];
    (Working(call.pc) ==> OwnsAll(s.journal, KeysOf(call), c))
    && (forall k :: k in KeysOf(call) ==> KeyMinted(k, s.minted))
    && (InLock(call.pc) <==> s.lock == Some(c))
    && (Timed(call.kind) && call.context.result.None? ==> call.pc.Waiting? && call.context.operation.None?)
    && (call.context.abandoned ==> Timed(call.kind) && (call.pc.Waiting? || call.pc.Done?))
    && (call.context.result.Some? && call.context.result.value.Provisional? ==>
          call.context.operation == Some(call.context.result.value.key))
    && (call.context.result.Some? ==> !call.context.result.value.NotDispatched?)
    && (call.pc.Waiting? ==> call.context.operation.None? && call.context.result.None?)
    && (call.pc.Listing? || call.pc.Opening? || call.pc.Beginning? || call.pc.Driving? ==>
          Timed(call.kind) && call.context.operation.Some?)
    && (call.pc.Beginning? ==> call.pc.sid !in s.navigations)
    && (call.pc.Running? ==> !Timed(call.kind))
    && (call.context.operation.Some? && !call.pc.Done? ==>
          call.context.result == Some(Provisional(call.context.operation.value)))
    && (call.pc.Done? && call.pc.value.Provisional? ==> call.context.operation == Some(call.pc.value.key))
    && (call.pc.Done? ==> !call.pc.value.NotDispatched?)
    && (call.pc.Done? || call.pc.Driving? ==> call.context.result.Some?)
  }

  ghost predicate NavOk(s: State, sid: Sid)
    requires sid in s.navigations
  {
    var nav := s.navigations[sid];
    nav.call in s.calls && nav.keys == KeysOf(s.calls[nav.call])
    && s.calls[nav.call].context.operation == Some(nav.operation)
    && (s.calls[nav.call].pc == Driving(sid) || s.calls[nav.call].pc == Done(Provisional(nav.operation)))
    && s.calls[nav.call].context.result == Some(Provisional(nav.operation))
    && OwnsAll(s.journal, nav.keys, nav.call)
    && (forall other :: other in s.navigations && s.navigations[other].call == nav.call ==> other == sid)
  }

  ghost predicate NoIssue(h: seq<Obs>, c: CallId) {
    forall i :: 0 <= i < |h| && h[i].Issued? ==> h[i].call != c
  }

  ghost predicate HistoryOk(s: State) {
    (forall i :: 0 <= i < |s.history| ==> s.history[i].call in s.calls)
    && (forall i :: 0 <= i < |s.history| && s.history[i].Answered? && s.history[i].answer.NotDispatched? ==>
          s.calls[s.history[i].call].context.abandoned)
    && (forall i :: 0 <= i < |s.history| && s.history[i].Answered? && s.history[i].answer.Provisional? ==>
          s.calls[s.history[i].call].context.operation == Some(s.history[i].answer.key))
    && (forall c :: c in s.calls && (s.calls[c].context.abandoned || s.calls[c].pc.Waiting?) ==> NoIssue(s.history, c))
  }

  ghost predicate LockOk(s: State) { s.lock.Some? ==> s.lock.value in s.calls }

  ghost predicate Inv(s: State) {
    JournalOk(s) && (forall c :: c in s.calls ==> CallOk(s, c)) && (forall sid :: sid in s.navigations ==> NavOk(s, sid))
    && HistoryOk(s) && LockOk(s)
  }

  // ---- journal updates --------------------------------------------------------------------

  /** A change of the journal that keeps every running record and adds none. */
  lemma ShrinkInv(s: State, j: Journal)
    requires Inv(s) && KeepsRunning(s.journal, j) && Distinct(j)
    ensures Inv(s.(journal := j))
  {
    var s' := s.(journal := j);
    forall k: Key, c: CallId | Owned(s.journal, k, c)
      ensures Owned(j, k, c)
    {
      var i :| 0 <= i < |s.journal| && s.journal[i].key == k && s.journal[i].owner == c && !s.journal[i].done;
      assert s.journal[i] in j;
    }
    assert JournalOk(s') by {
      forall i | 0 <= i < |j|
        ensures KeyMinted(j[i].key, s.minted) && j[i].owner in s.calls
        ensures !j[i].done ==> j[i].key in KeysOf(s.calls[j[i].owner]) && Busy(s', j[i].owner)
      {
        assert j[i] in s.journal;
      }
    }
    forall c | c in s.calls ensures CallOk(s', c) { assert CallOk(s, c); }
    forall sid | sid in s.navigations ensures NavOk(s', sid) { assert NavOk(s, sid); }
  }

  lemma ReserveInv(s: State, needed: nat)
    requires Inv(s)
    ensures Inv(s.(journal := Reserve(s.journal, needed)))
  {
    EvictSound(s.journal, 0, needed);
    ShrinkInv(s, Reserve(s.journal, needed));
  }

  lemma OwnedAfterDone(j: Journal, keys: set<Key>, k: Key, c: CallId)
    requires Owned(j, k, c) && k !in keys
    ensures Owned(SetAllDone(j, keys), k, c)
  {
    var i :| 0 <= i < |j| && j[i].key == k && j[i].owner == c && !j[i].done;
    assert SetAllDone(j, keys)[i] == j[i];
  }

  /** With distinct keys a running record has one owner. */
  lemma OneOwner(j: Journal, k: Key, c: CallId, d: CallId)
    requires Distinct(j) && Owned(j, k, c) && Owned(j, k, d)
    ensures c == d
  {
  }

  // ---- steps ---------------------------------------------------------------------------------

  lemma StillNew(s: State, needed: nat, k: Key)
    requires !Has(s.journal, k)
    ensures forall i :: 0 <= i < |Reserve(s.journal, needed)| ==> Reserve(s.journal, needed)[i].key != k
  {
    var j := Reserve(s.journal, needed);
    EvictSound(s.journal, 0, needed);
    forall i | 0 <= i < |j| ensures j[i].key != k { assert j[i] in s.journal; }
  }

  lemma StartInv(s: State, c: CallId, kind: Kind, scope: nat, id: Option<OperationId>, digest: nat)
    requires Inv(s) && c !in s.calls && (id.Some? && id.value.Minted? ==> id.value.number < s.minted)
    ensures Inv(Start(s, c, kind, scope, id, digest))
  {
    hide Inv, Reserve;
    var key := if id.Some? then Some(Key(scope, id.value)) else None;
    var needed := (if key.Some? then 1 else 0) + if Timed(kind) then 1 else 0;
    var s1 := s.(journal := Reserve(s.journal, needed));
    ReserveInv(s, needed);
    if key.Some? && Has(s.journal, key.value) {
      AddCallInv(s, c, Ended(kind, scope, digest, RepeatAnswer(s.journal, key.value, digest)), s.journal);
    } else if |s1.journal| + needed > CAPACITY {
      AddCallInv(s1, c, Ended(kind, scope, digest, Final), s1.journal);
    } else {
      if key.Some? { StillNew(s, needed, key.value); }
      AddCallInv(s1, c, Call(kind, scope, digest, key, Waiting, Context(false, None, None), false),
                 if key.Some? then s1.journal + [Entry(key.value, Some(digest), false, c)] else s1.journal);
    }
  }

  lemma AddCallJournalOk(s: State, c: CallId, call: Call, j: Journal)
    requires Inv(s) && c !in s.calls && (call.key.Some? ==> call.pc.Waiting?)
    requires if call.key.None? then j == s.journal
             else |s.journal| < CAPACITY && j == s.journal + [Entry(call.key.value, Some(call.digest), false, c)]
                  && KeyMinted(call.key.value, s.minted)
                  && forall i :: 0 <= i < |s.journal| ==> s.journal[i].key != call.key.value
    ensures JournalOk(Update(s.(journal := j), c, call))
  {
    var s' := Update(s.(journal := j), c, call);
    forall i | 0 <= i < |s.journal|
      ensures j[i] == s.journal[i]
    {
    }
    forall i | 0 <= i < |s.journal| && !j[i].done
      ensures j[i].key in KeysOf(s'.calls[j[i].owner]) && Busy(s', j[i].owner)
    {
      assert s.journal[i].owner in s.calls && Busy(s, s.journal[i].owner);
    }
  }

  lemma OwnedAppend(j: Journal, e: Entry)
    requires !e.done
    ensures Owned(j + [e], e.key, e.owner)
    ensures forall k: Key, d: CallId :: Owned(j, k, d) ==> Owned(j + [e], k, d)
  {
    assert (j + [e])[|j|] == e;
    forall k: Key, d: CallId | Owned(j, k, d)
      ensures Owned(j + [e], k, d)
    {
      var i :| 0 <= i < |j| && j[i].key == k && j[i].owner == d && !j[i].done;
      assert (j + [e])[i] == j[i];
    }
  }

  ghost predicate IsNew(s: State, c: CallId, call: Call, j: Journal) {
    && c !in s.calls && !call.context.abandoned && call.context.operation.None?
    && ((call.pc.Waiting? && call.context.result.None?)
        || (call.pc.Done? && call.key.None? && call.context.result.Some?
            && !call.context.result.value.Provisional? && !call.context.result.value.NotDispatched?
            && call.pc.value == call.context.result.value))
    && if call.key.None? then j == s.journal
       else |s.journal| < CAPACITY && j == s.journal + [Entry(call.key.value, Some(call.digest), false, c)]
            && KeyMinted(call.key.value, s.minted)
            && forall i :: 0 <= i < |s.journal| ==> s.journal[i].key != call.key.value
  }

  lemma AddCallOwned(s: State, c: CallId, call: Call, j: Journal)
    requires IsNew(s, c, call, j)
    ensures forall k: Key, d: CallId :: Owned(s.journal, k, d) ==> Owned(j, k, d)
    ensures OwnsAll(j, KeysOf(call), c)
  {
    if call.key.Some? { OwnedAppend(s.journal, Entry(call.key.value, Some(call.digest), false, c)); }
  }

  lemma AddCallOk(s: State, c: CallId, call: Call, j: Journal)
    requires IsNew(s, c, call, j) && (s.lock.Some? ==> s.lock.value in s.calls)
    ensures CallOk(Update(s.(journal := j), c, call), c)
  {
    AddCallOwned(s, c, call, j);
  }

  /** A new call, together with its own journal record if it has one. */
  lemma AddCallInv(s: State, c: CallId, call: Call, j: Journal)
    requires Inv(s) && IsNew(s, c, call, j)
    ensures Inv(Update(s.(journal := j), c, call))
  {
    var s' := Update(s.(journal := j), c, call);
    AddCallJournalOk(s, c, call, j);
    AddCallOwned(s, c, call, j);
    AddCallOk(s, c, call, j);
    NoNavOfNew(s, c);
    assert NoIssue(s.history, c);
    hide JournalOk, CallOk, NavOk, HistoryOk, Owned, OwnsAll, NoIssue, Busy, KeysOf;
    HistoryFrame(s, s', c);
    NavsFrame(s, s', c);
    OthersOk(s, s', c);
  }

  lemma NoNavOfNew(s: State, c: CallId)
    requires Inv(s) && c !in s.calls
    ensures forall sid :: sid in s.navigations ==> s.navigations[sid].call != c
  {
    forall sid | sid in s.navigations ensures s.navigations[sid].call != c { assert NavOk(s, sid); }
  }

  /** Another call, whose records are still running, is as good as before. */
  lemma CallFrame(s: State, s': State, d: CallId)
    requires d in s.calls && CallOk(s, d) && d in s'.calls && s'.calls[d] == s.calls[d]
    requires s.minted <= s'.minted && (s'.lock == Some(d) <==> s.lock == Some(d))
    requires Working(s.calls[d].pc) ==> forall k :: k in KeysOf(s.calls[d]) && Owned(s.journal, k, d) ==> Owned(s'.journal, k, d)
    requires s'.navigations.Keys <= s.navigations.Keys || !s.calls[d].pc.Beginning?
    ensures CallOk(s', d)
  {
  }

  /** All other calls, at once. */
  lemma OthersOk(s: State, s': State, c: CallId)
    requires forall d :: d in s.calls ==> CallOk(s, d)
    requires forall d :: d in s.calls && d != c ==>
      d in s'.calls && s'.calls[d] == s.calls[d] && (s'.lock == Some(d) <==> s.lock == Some(d))
    requires forall k: Key, d: CallId :: d != c && Owned(s.journal, k, d) ==> Owned(s'.journal, k, d)
    requires s.minted <= s'.minted && (s'.navigations.Keys <= s.navigations.Keys || s.lock == Some(c))
    ensures forall d :: d in s.calls && d != c ==> CallOk(s', d)
  {
    forall d | d in s.calls && d != c ensures CallOk(s', d) {
      assert CallOk(s, d);
      CallFrame(s, s', d);
    }
  }

  /** The history stays explained when one call's record changes and nothing is logged. */
  lemma HistoryFrame(s: State, s': State, c: CallId)
    requires HistoryOk(s) && s'.history == s.history && s'.calls.Keys == s.calls.Keys + {c}
    requires forall d :: d in s.calls && d != c ==> s'.calls[d] == s.calls[d]
    requires c in s.calls && s.calls[c].context.abandoned ==> s'.calls[c].context.abandoned
    requires c in s.calls && s.calls[c].context.operation.Some? ==>
      s'.calls[c].context.operation == s.calls[c].context.operation
    requires s'.calls[c].context.abandoned || s'.calls[c].pc.Waiting? ==> NoIssue(s.history, c)
    ensures HistoryOk(s')
  {
  }

  /** The navigations stay in order when only a call without one changes. */
  lemma NavsFrame(s: State, s': State, c: CallId)
    requires forall sid :: sid in s.navigations ==> NavOk(s, sid)
    requires s'.navigations == s.navigations && forall sid :: sid in s.navigations ==> s.navigations[sid].call != c
    requires forall d :: d in s.calls && d != c ==> d in s'.calls && s'.calls[d] == s.calls[d]
    requires forall k: Key, d: CallId :: d != c && Owned(s.journal, k, d) ==> Owned(s'.journal, k, d)
    ensures forall sid :: sid in s'.navigations ==> NavOk(s', sid)
  {
    forall sid | sid in s'.navigations ensures NavOk(s', sid) {
      assert NavOk(s, sid);
    }
  }

  // ---- ending a call's own part --------------------------------------------------------------

  lemma ConcludeJournalOk(s: State, c: CallId)
    requires Inv(s) && c in s.calls && Working(s.calls[c].pc)
    ensures JournalOk(Conclude(s, c))
  {
    var j := SetAllDone(s.journal, KeysOf(s.calls[c]));
    var s' := Conclude(s, c);
    NoNavOfWorking(s, c);
    forall i | 0 <= i < |j| && !j[i].done
      ensures j[i].key in KeysOf(s'.calls[j[i].owner]) && Busy(s', j[i].owner)
    {
      assert s.journal[i].key in KeysOf(s.calls[s.journal[i].owner]) && Busy(s, s.journal[i].owner);
    }
  }

  lemma ConcludeOwned(s: State, c: CallId)
    requires Inv(s) && c in s.calls && Working(s.calls[c].pc)
    ensures forall k: Key, d: CallId :: d != c && Owned(s.journal, k, d) ==> Owned(Conclude(s, c).journal, k, d)
    ensures CallOk(Conclude(s, c), c)
  {
    var keys := KeysOf(s.calls[c]);
    assert CallOk(s, c);
    forall k: Key, d: CallId | Owned(s.journal, k, d) && d != c
      ensures Owned(SetAllDone(s.journal, keys), k, d)
    {
      if k in keys { OneOwner(s.journal, k, c, d); }
      OwnedAfterDone(s.journal, keys, k, d);
    }
  }

  lemma ConcludeHistoryOk(s: State, c: CallId)
    requires HistoryOk(s) && c in s.calls
    ensures HistoryOk(Conclude(s, c))
  {
    HistoryFrame(s, Conclude(s, c), c);
  }

  lemma ConcludeInv(s: State, c: CallId)
    requires Inv(s) && c in s.calls && Working(s.calls[c].pc)
    ensures Inv(Conclude(s, c))
  {
    var s' := Conclude(s, c);
    NoNavOfWorking(s, c);
    ConcludeOwned(s, c);
    ConcludeJournalOk(s, c);
    ConcludeHistoryOk(s, c);
    hide JournalOk, CallOk, NavOk, HistoryOk, Owned, OwnsAll, NoIssue, KeysOf, Busy, Working, SetAllDone;
    NavsFrame(s, s', c);
    OthersOk(s, s', c);
  }

  lemma NoNavOfWorking(s: State, c: CallId)
    requires Inv(s) && c in s.calls && Working(s.calls[c].pc)
    ensures forall sid :: sid in s.navigations ==> s.navigations[sid].call != c
  {
    forall sid | sid in s.navigations ensures s.navigations[sid].call != c { assert NavOk(s, sid); }
  }

  /** The journal after finishing a navigation is still good. */
  lemma FinishedJournalOk(s: State, sid: Sid)
    requires Inv(s) && sid in s.navigations
    ensures JournalOk(FinishNavigation(s, sid))
  {
    var nav := s.navigations[sid];
    var s' := FinishNavigation(s, sid);
    assert NavOk(s, sid);
    forall i | 0 <= i < |s'.journal| && !s'.journal[i].done
      ensures s'.journal[i].key in KeysOf(s'.calls[s'.journal[i].owner]) && Busy(s', s'.journal[i].owner)
    {
      var d := s.journal[i].owner;
      assert s'.journal[i] == s.journal[i] && s.journal[i].key in KeysOf(s.calls[d]) && d != nav.call;
      if !Working(s.calls[d].pc) {
        var x :| x in s.navigations && s.navigations[x].call == d;
        assert x in s'.navigations && s'.navigations[x].call == d;
      }
    }
  }

  lemma FinishNavigationInv(s: State, sid: Sid)
    requires Inv(s) && sid in s.navigations
    ensures Inv(FinishNavigation(s, sid))
  {
    var nav := s.navigations[sid];
    var s' := FinishNavigation(s, sid);
    assert NavOk(s, sid);
    FinishedJournalOk(s, sid);
    hide JournalOk, HistoryOk, KeyMinted;
    FinishedOwned(s, sid);
    hide SetAllDone, Owned;
    forall d | d in s'.calls ensures CallOk(s', d) { assert CallOk(s, d); CallFrame(s, s', d); }
    forall x | x in s'.navigations ensures NavOk(s', x) { assert NavOk(s, x); }
    FinishedHistory(s, sid);
  }

  lemma FinishedHistory(s: State, sid: Sid)
    requires Inv(s) && sid in s.navigations
    ensures HistoryOk(FinishNavigation(s, sid))
  {
    hide JournalOk, CallOk, NavOk, SetAllDone;
  }

  lemma FinishedOwned(s: State, sid: Sid)
    requires Inv(s) && sid in s.navigations
    ensures forall k: Key, d: CallId :: Owned(s.journal, k, d) && d != s.navigations[sid].call ==>
      Owned(FinishNavigation(s, sid).journal, k, d)
  {
    var nav := s.navigations[sid];
    assert NavOk(s, sid);
    forall k: Key, d: CallId | Owned(s.journal, k, d) && d != nav.call
      ensures Owned(FinishNavigation(s, sid).journal, k, d)
    {
      if k in nav.keys { OneOwner(s.journal, k, nav.call, d); }
      OwnedAfterDone(s.journal, nav.keys, k, d);
    }
  }

  // ---- the stretch under the lock -------------------------------------------------------------

  lemma LockInv(s: State, c: CallId)
    requires Inv(s) && c in s.calls && s.calls[c].pc.Waiting? && s.lock.None?
    ensures forall d :: d in s.calls && d != c ==> CallOk(s.(lock := Some(c)), d)
    ensures Working(s.calls[c].pc) && NoIssue(s.history, c)
  {
    forall d | d in s.calls && d != c ensures CallOk(s.(lock := Some(c)), d) {
      assert CallOk(s, d);
      CallFrame(s, s.(lock := Some(c)), d);
    }
  }

  /** Ending a waiting call under the lock is ending it without ever having taken the lock. */
  lemma ConcludeLocked(s: State, c: CallId, j: Journal)
    requires c in s.calls && s.lock.None?
    ensures Conclude(s.(lock := Some(c), journal := j), c) == Conclude(s.(journal := j), c)
  {
  }

  /** A waiting call takes the lock, is given a provisional operation id and sends a command. */
  lemma ProvideAndSendInv(s: State, c: CallId, pc: Pc, rpc: Rpc, scope: nat)
    requires Inv(s) && c in s.calls && s.calls[c].pc.Waiting? && s.lock.None? && Timed(s.calls[c].kind)
    requires !s.calls[c].context.abandoned && Fits(s.journal, 1)
    requires pc.Listing? || pc.Opening? || (pc.Beginning? && pc.sid !in s.navigations)
    ensures Inv(Send(Provide(s.(lock := Some(c)), c, scope), c, pc, rpc))
  {
    hide Inv;
    ReserveInv(s, 1);
    var s1 := s.(journal := Reserve(s.journal, 1));
    ProvidedInv(s1, c, pc, scope);
    IssuedInv(Given(s1, c, pc, scope), c, rpc);
    ProvideIsGiven(s, c, pc, rpc, scope);
  }

  /** The state in which the call holds the lock and its new operation id. */
  function Given(s: State, c: CallId, pc: Pc, scope: nat): State
    requires c in s.calls
  {
    var k := Key(scope, Minted(s.minted));
    Update(s.(lock := Some(c), minted := s.minted + 1, journal := s.journal + [Entry(k, None, false, c)]),
           c, s.calls[c].(pc := pc, context := Context(s.calls[c].context.abandoned, Some(Provisional(k)), Some(k))))
  }

  lemma ProvideIsGiven(s: State, c: CallId, pc: Pc, rpc: Rpc, scope: nat)
    requires c in s.calls
    ensures var given := Given(s.(journal := Reserve(s.journal, 1)), c, pc, scope);
      Send(Provide(s.(lock := Some(c)), c, scope), c, pc, rpc) == Note(given, Issued(c, rpc))
      && Conclude(Provide(s.(lock := Some(c)), c, scope), c) == Conclude(given, c)
  {
  }

  lemma IssuedInv(s: State, c: CallId, rpc: Rpc)
    requires Inv(s) && c in s.calls && !s.calls[c].context.abandoned && !s.calls[c].pc.Waiting?
    ensures Inv(Note(s, Issued(c, rpc)))
  {
    var s' := Note(s, Issued(c, rpc));
    forall d | d in s'.calls ensures CallOk(s', d) { assert CallOk(s, d); }
    forall sid | sid in s'.navigations ensures NavOk(s', sid) { assert NavOk(s, sid); }
    assert JournalOk(s') by {
      forall i | 0 <= i < |s.journal| && !s.journal[i].done ensures Busy(s', s.journal[i].owner) {
        assert Busy(s, s.journal[i].owner);
      }
    }
  }

  lemma ProvidedJournalOk(s: State, c: CallId, pc: Pc, scope: nat)
    requires Inv(s) && c in s.calls && s.calls[c].pc.Waiting? && |s.journal| < CAPACITY && Working(pc)
    ensures JournalOk(Given(s, c, pc, scope))
  {
    var j := s.journal + [Entry(Key(scope, Minted(s.minted)), None, false, c)];
    var s' := Given(s, c, pc, scope);
    assert CallOk(s, c);
    forall i | 0 <= i < |s.journal| ensures j[i] == s.journal[i] {}
    forall i | 0 <= i < |s.journal| && !j[i].done
      ensures j[i].key in KeysOf(s'.calls[j[i].owner]) && Busy(s', j[i].owner)
    {
      assert s.journal[i].key in KeysOf(s.calls[s.journal[i].owner]) && Busy(s, s.journal[i].owner);
    }
  }

  lemma ProvidedCallOk(s: State, c: CallId, pc: Pc, scope: nat)
    requires Inv(s) && c in s.calls && s.calls[c].pc.Waiting? && Timed(s.calls[c].kind) && !s.calls[c].context.abandoned
    requires pc.Listing? || pc.Opening? || (pc.Beginning? && pc.sid !in s.navigations)
    ensures CallOk(Given(s, c, pc, scope), c) && NoIssue(s.history, c) && s.calls[c].context.operation.None?
    ensures forall k: Key, d: CallId :: Owned(s.journal, k, d) ==> Owned(Given(s, c, pc, scope).journal, k, d)
  {
    assert CallOk(s, c);
    OwnedAppend(s.journal, Entry(Key(scope, Minted(s.minted)), None, false, c));
  }

  lemma ProvidedInv(s: State, c: CallId, pc: Pc, scope: nat)
    requires Inv(s) && c in s.calls && s.calls[c].pc.Waiting? && s.lock.None? && Timed(s.calls[c].kind)
    requires !s.calls[c].context.abandoned && |s.journal| < CAPACITY
    requires pc.Listing? || pc.Opening? || (pc.Beginning? && pc.sid !in s.navigations)
    ensures Inv(Given(s, c, pc, scope))
  {
    var s' := Given(s, c, pc, scope);
    NoNavOfWorking(s, c);
    ProvidedJournalOk(s, c, pc, scope);
    ProvidedCallOk(s, c, pc, scope);
    hide JournalOk, CallOk, NavOk, HistoryOk, Owned, OwnsAll, NoIssue, Busy, KeysOf;
    HistoryFrame(s, s', c);
    NavsFrame(s, s', c);
    OthersOk(s, s', c);
  }

  /** Moving on under the lock without touching the journal. */
  lemma MoveInv(s: State, c: CallId, pc: Pc, rpc: Rpc)
    requires Inv(s) && c in s.calls && InLock(s.calls[c].pc) && !s.calls[c].pc.Running?
    requires pc.Opening? || (pc.Beginning? && pc.sid !in s.navigations)
    ensures Inv(Send(s, c, pc, rpc))
  {
    var s' := Update(s, c, s.calls[c].(pc := pc));
    assert CallOk(s, c);
    NoNavOfWorking(s, c);
    UpdateInv(s, c, s.calls[c].(pc := pc));
    IssuedInv(s', c, rpc);
  }

  /** The call is updated, its keys and its being at work stay. */
  ghost predicate SameDuties(s: State, c: CallId, call: Call) {
    && c in s.calls && KeysOf(call) == KeysOf(s.calls[c]) && call.context.operation == s.calls[c].context.operation
    && Working(call.pc) == Working(s.calls[c].pc)
    && call.context.result == s.calls[c].context.result
    && (!Working(call.pc) ==> call.pc == s.calls[c].pc || (s.calls[c].pc.Driving? && call.pc == Stop(s, c).calls[c].pc))
  }

  lemma UpdateJournalOk(s: State, c: CallId, call: Call)
    requires Inv(s) && SameDuties(s, c, call)
    ensures JournalOk(Update(s, c, call))
  {
    var s' := Update(s, c, call);
    forall i | 0 <= i < |s.journal| && !s.journal[i].done
      ensures s.journal[i].key in KeysOf(s'.calls[s.journal[i].owner]) && Busy(s', s.journal[i].owner)
    {
      assert Busy(s, s.journal[i].owner);
    }
  }

  lemma UpdateNavsOk(s: State, c: CallId, call: Call)
    requires Inv(s) && SameDuties(s, c, call)
    ensures forall sid :: sid in s.navigations ==> NavOk(Update(s, c, call), sid)
  {
    forall sid | sid in s.navigations ensures NavOk(Update(s, c, call), sid) { assert NavOk(s, sid); }
  }

  lemma UpdateInv(s: State, c: CallId, call: Call)
    requires Inv(s) && SameDuties(s, c, call) && CallOk(Update(s, c, call), c)
    requires call.context.abandoned || call.pc.Waiting? ==> NoIssue(s.history, c)
    requires s.calls[c].context.abandoned ==> call.context.abandoned
    ensures Inv(Update(s, c, call))
  {
    UpdateJournalOk(s, c, call);
    UpdateNavsOk(s, c, call);
    hide JournalOk, CallOk, NavOk, HistoryOk, Owned, NoIssue, KeysOf;
    HistoryFrame(s, Update(s, c, call), c);
    OthersOk(s, Update(s, c, call), c);
  }

  lemma RunningJournalOk(s: State, c: CallId)
    requires Inv(s) && c in s.calls && s.calls[c].pc.Waiting? && s.lock.None? && !Timed(s.calls[c].kind)
    ensures JournalOk(Update(s.(lock := Some(c)), c, s.calls[c].(pc := Running)))
    ensures CallOk(Update(s.(lock := Some(c)), c, s.calls[c].(pc := Running)), c)
    ensures !s.calls[c].context.abandoned
  {
    var s1 := Update(s.(lock := Some(c)), c, s.calls[c].(pc := Running));
    assert CallOk(s, c);
    forall i | 0 <= i < |s.journal| && !s.journal[i].done ensures Busy(s1, s.journal[i].owner) {
      assert Busy(s, s.journal[i].owner);
    }
  }

  lemma SendOtherInv(s: State, c: CallId)
    requires Inv(s) && c in s.calls && s.calls[c].pc.Waiting? && s.lock.None? && !Timed(s.calls[c].kind)
    ensures Inv(Send(s.(lock := Some(c)), c, Running, OtherRpc))
  {
    var s1 := Update(s.(lock := Some(c)), c, s.calls[c].(pc := Running));
    RunningJournalOk(s, c);
    NoNavOfWorking(s, c);
    hide JournalOk, CallOk, NavOk, HistoryOk, Owned, NoIssue, KeysOf;
    HistoryFrame(s, s1, c);
    NavsFrame(s, s1, c);
    OthersOk(s, s1, c);
    IssuedInv(s1, c, OtherRpc);
  }

  /** Refused after the provisional answer: the operation's record is completed with the call's. */
  lemma ProvideThenConcludeInv(s: State, c: CallId, scope: nat)
    requires Inv(s) && c in s.calls && s.calls[c].pc.Waiting? && s.lock.None? && Timed(s.calls[c].kind)
    requires !s.calls[c].context.abandoned && Fits(s.journal, 1)
    ensures Inv(Conclude(Provide(s.(lock := Some(c)), c, scope), c))
  {
    hide Inv;
    ReserveInv(s, 1);
    var s1 := s.(journal := Reserve(s.journal, 1));
    ProvidedInv(s1, c, Opening(0), scope);
    ConcludeInv(Given(s1, c, Opening(0), scope), c);
    ProvideIsGiven(s, c, Opening(0), OpenRpc, scope);
  }

  lemma EnterInv(s: State, c: CallId, gate: Gate, newSid: Sid, lease: nat)
    requires Inv(s) && c in s.calls && s.calls[c].pc.Waiting? && s.lock.None?
    ensures Inv(Enter(s, c, gate, newSid, lease))
  {
    assert CallOk(s, c);
    var call := s.calls[c];
    ConcludeLocked(s, c, s.journal);
    ConcludeLocked(s, c, Reserve(s.journal, 1));
    ReserveInv(s, 1);
    if call.context.abandoned || gate.RefusedEarly? {
      ConcludeInv(s, c);
    } else if call.kind.Other? {
      SendOtherInv(s, c);
    } else {
      var sid := if call.kind.Navigate? then call.kind.target
                 else if call.kind.existing.Some? then call.kind.existing.value else newSid;
      if sid in s.navigations || !Fits(s.journal, 1) {
        ConcludeInv(s.(journal := Reserve(s.journal, 1)), c);
      } else {
        ProvideThenConcludeInv(s, c, lease);
        ProvideAndSendInv(s, c, Listing(sid), ListRpc, lease);
        ProvideAndSendInv(s, c, Opening(sid), OpenRpc, lease);
        ProvideAndSendInv(s, c, Beginning(sid), BeginRpc, call.scope);
      }
    }
  }

  lemma PendOwned(s: State, c: CallId, k: Key, d: CallId)
    requires c in s.calls && s.calls[c].context.operation.Some? && s.calls[c].pc.Beginning?
    ensures Owned(Pend(s, c, s.calls[c].pc.sid).journal, k, d) == Owned(s.journal, k, d)
  {
    var j := Pend(s, c, s.calls[c].pc.sid).journal;
    if Owned(s.journal, k, d) {
      var i :| 0 <= i < |s.journal| && s.journal[i].key == k && s.journal[i].owner == d && !s.journal[i].done;
      assert j[i].key == k;
    }
  }

  lemma PendJournalOk(s: State, c: CallId)
    requires Inv(s) && c in s.calls && s.calls[c].pc.Beginning? && s.calls[c].context.operation.Some?
    requires s.calls[c].pc.sid !in s.navigations
    ensures JournalOk(Pend(s, c, s.calls[c].pc.sid))
  {
    var sid := s.calls[c].pc.sid;
    var s' := Pend(s, c, sid);
    assert s'.navigations[sid].call == c;
    forall i | 0 <= i < |s.journal| && !s.journal[i].done
      ensures s.journal[i].key in KeysOf(s'.calls[s.journal[i].owner]) && Busy(s', s.journal[i].owner)
    {
      assert Busy(s, s.journal[i].owner);
      if s.journal[i].owner != c && !Working(s.calls[s.journal[i].owner].pc) {
        var x :| x in s.navigations && s.navigations[x].call == s.journal[i].owner;
        assert x in s'.navigations && s'.navigations[x].call == s.journal[i].owner;
      }
    }
  }

  lemma PendNavsOk(s: State, c: CallId)
    requires Inv(s) && c in s.calls && s.calls[c].pc.Beginning? && s.calls[c].context.operation.Some?
    ensures var s' := Pend(s, c, s.calls[c].pc.sid);
      CallOk(s', c) && !s.calls[c].context.abandoned && s.calls[c].pc.sid !in s.navigations
      && (forall x :: x in s'.navigations ==> NavOk(s', x))
      && forall k: Key, d: CallId :: Owned(s.journal, k, d) ==> Owned(s'.journal, k, d)
  {
    PendCallOk(s, c);
    PendOwnedAll(s, c);
    var sid := s.calls[c].pc.sid;
    var s' := Pend(s, c, sid);
    NoNavOfWorking(s, c);
    forall x | x in s'.navigations ensures NavOk(s', x) {
      if x != sid { PendOther(s, c, x); } else { PendOwn(s, c); }
    }
    hide Inv, CallOk, NavOk, Owned;
  }

  lemma PendOwn(s: State, c: CallId)
    requires c in s.calls && s.calls[c].pc.Beginning? && s.calls[c].context.operation.Some?
    requires OwnsAll(s.journal, KeysOf(s.calls[c]), c) && forall x :: x in s.navigations ==> s.navigations[x].call != c
    requires forall k: Key, d: CallId :: Owned(s.journal, k, d) ==> Owned(Pend(s, c, s.calls[c].pc.sid).journal, k, d)
    ensures NavOk(Pend(s, c, s.calls[c].pc.sid), s.calls[c].pc.sid)
  {
    hide Owned, Redigest;
  }

  lemma PendOther(s: State, c: CallId, x: Sid)
    requires Inv(s) && c in s.calls && s.calls[c].pc.Beginning? && s.calls[c].context.operation.Some?
    requires x in s.navigations && x != s.calls[c].pc.sid && s.navigations[x].call != c
    requires forall k: Key, d: CallId :: Owned(s.journal, k, d) ==> Owned(Pend(s, c, s.calls[c].pc.sid).journal, k, d)
    ensures NavOk(Pend(s, c, s.calls[c].pc.sid), x)
  {
    assert NavOk(s, x);
    hide Inv, Owned, Redigest;
  }

  lemma PendCallOk(s: State, c: CallId)
    requires Inv(s) && c in s.calls && s.calls[c].pc.Beginning? && s.calls[c].context.operation.Some?
    ensures CallOk(Pend(s, c, s.calls[c].pc.sid), c) && !s.calls[c].context.abandoned && s.calls[c].pc.sid !in s.navigations
    ensures OwnsAll(s.journal, KeysOf(s.calls[c]), c)
  {
    assert CallOk(s, c);
    hide HistoryOk, JournalOk, NavOk;
  }

  lemma PendOwnedAll(s: State, c: CallId)
    requires c in s.calls && s.calls[c].pc.Beginning? && s.calls[c].context.operation.Some?
    ensures forall k: Key, d: CallId :: Owned(s.journal, k, d) ==> Owned(Pend(s, c, s.calls[c].pc.sid).journal, k, d)
  {
    forall k: Key, d: CallId | Owned(s.journal, k, d)
      ensures Owned(Pend(s, c, s.calls[c].pc.sid).journal, k, d)
    {
      PendOwned(s, c, k, d);
    }
  }

  lemma PendInv(s: State, c: CallId)
    requires Inv(s) && c in s.calls && s.calls[c].pc.Beginning? && s.calls[c].context.operation.Some?
    ensures Inv(Pend(s, c, s.calls[c].pc.sid))
  {
    var s' := Pend(s, c, s.calls[c].pc.sid);
    assert s.lock == Some(c) by { assert CallOk(s, c); }
    PendNavsOk(s, c);
    PendJournalOk(s, c);
    hide JournalOk, CallOk, NavOk, HistoryOk, Owned, NoIssue, KeysOf;
    HistoryFrame(s, s', c);
    OthersOk(s, s', c);
  }

  lemma RepliedInv(s: State, c: CallId, reply: Reply)
    requires Inv(s) && c in s.calls && InLock(s.calls[c].pc)
    requires s.calls[c].context.operation.Some? || s.calls[c].pc.Running?
    ensures Inv(Replied(s, c, reply))
  {
    assert CallOk(s, c);
    ConcludeInv(s, c);
    if !reply.Failed? && !s.calls[c].pc.Running? {
      var sid := s.calls[c].pc.sid;
      match s.calls[c].pc
      case Listing(_) => MoveInv(s, c, Opening(sid), OpenRpc);
      case Opening(_) => if sid !in s.navigations { MoveInv(s, c, Beginning(sid), BeginRpc); }
      case Beginning(_) => PendInv(s, c);
    }
  }

  lemma CallerTimeoutInv(s: State, c: CallId)
    requires Inv(s) && c in s.calls && !s.calls[c].answered && (Timed(s.calls[c].kind) || s.calls[c].pc.Done?)
    ensures Inv(CallerTimeout(s, c))
  {
    var call := s.calls[c];
    assert CallOk(s, c);
    var call' := if call.context.result.Some? then call.(answered := true)
                 else call.(answered := true, context := call.context.(abandoned := true));
    UpdateInv(s, c, call');
    var s1 := Update(s, c, call');
    AnsweredInv(s1, c, if call.context.result.Some? then call.context.result.value else NotDispatched);
  }

  lemma CallerReturnInv(s: State, c: CallId)
    requires Inv(s) && c in s.calls && s.calls[c].pc.Done?
    ensures Inv(CallerReturn(s, c))
  {
    assert CallOk(s, c);
    UpdateInv(s, c, s.calls[c].(answered := true));
    AnsweredInv(Update(s, c, s.calls[c].(answered := true)), c, s.calls[c].pc.value);
  }

  lemma AnsweredInv(s: State, c: CallId, answer: Answer)
    requires Inv(s) && c in s.calls
    requires answer.NotDispatched? ==> s.calls[c].context.abandoned
    requires answer.Provisional? ==> s.calls[c].context.operation == Some(answer.key)
    ensures Inv(Note(s, Answered(c, answer)))
  {
    var s' := Note(s, Answered(c, answer));
    forall d | d in s'.calls ensures CallOk(s', d) { assert CallOk(s, d); }
    forall sid | sid in s'.navigations ensures NavOk(s', sid) { assert NavOk(s, sid); }
    assert JournalOk(s') by {
      forall i | 0 <= i < |s.journal| && !s.journal[i].done ensures Busy(s', s.journal[i].owner) {
        assert Busy(s, s.journal[i].owner);
      }
    }
  }

  lemma NextInv(s: State, e: Event)
    requires Inv(s) && Enabled(s, e)
    ensures Inv(Next(s, e))
  {
    match e
    case Arrive(c, kind, scope, id, digest) => StartInv(s, c, kind, scope, id, digest);
    case Acquire(c, gate, newSid, lease) => EnterInv(s, c, gate, newSid, lease);
    case QueueTimeout(c) => ConcludeInv(s, c);
    case RpcDone(c, reply) =>
      if s.calls[c].context.operation.Some? || s.calls[c].pc.Running? { RepliedInv(s, c, reply); }
    case NavigationDone(sid) => FinishNavigationInv(s, sid);
    case StopWaiting(c) =>
      assert CallOk(s, c);
      UpdateInv(s, c, Stop(s, c).calls[c]);
    case Timeout(c) => CallerTimeoutInv(s, c);
    case Return(c) => CallerReturnInv(s, c);
  }

  lemma {:induction false} RunInv(events: seq<Event>)
    ensures Inv(Run(Init(), events))
    decreases |events|
  {
    if events != [] {
      RunInv(events[..|events| - 1]);
      var before := Run(Init(), events[..|events| - 1]);
      if Enabled(before, events[|events| - 1]) { NextInv(before, events[|events| - 1]); }
    }
  }

  // ---- what every run guarantees ----------------------------------------------------------------

  /** Told "not dispatched" means it: no worker command was or will ever be sent for that call. */
  lemma NotDispatchedIsTrue(events: seq<Event>, i: nat, j: nat)
    requires var h := Run(Init(), events).history; i < |h| && j < |h| && h[i] == Answered(h[j].call, NotDispatched)
    ensures !Run(Init(), events).history[j].Issued?
  {
    RunInv(events);
    var s := Run(Init(), events);
    assert s.history[i].Answered? && s.history[i].answer.NotDispatched?;
    assert NoIssue(s.history, s.history[j].call);
  }

  /** Given an operation id, its record is in the journal and running exactly until the call's
      own part and its navigation have both ended; from then on it is completed or evicted. */
  lemma OperationIdIsTracked(events: seq<Event>, i: nat)
    requires var h := Run(Init(), events).history; i < |h| && h[i].Answered? && h[i].answer.Provisional?
    ensures var s := Run(Init(), events);
      var c := s.history[i].call;
      c in s.calls && (Owned(s.journal, s.history[i].answer.key, c) <==> Busy(s, c))
  {
    RunInv(events);
    var s := Run(Init(), events);
    var c := s.history[i].call;
    assert CallOk(s, c) && s.calls[c].context.operation == Some(s.history[i].answer.key);
    if !Working(s.calls[c].pc) && Busy(s, c) {
      var sid :| sid in s.navigations && s.navigations[sid].call == c;
      assert NavOk(s, sid);
    }
  }

  /** In every run the journal stays within its capacity, one record a key, and every running
      record belongs to a call that is at work or whose navigation is pending. */
  lemma JournalBounded(events: seq<Event>)
    ensures var s := Run(Init(), events);
      |s.journal| <= CAPACITY && Distinct(s.journal)
      && forall i :: 0 <= i < |s.journal| && !s.journal[i].done ==> Busy(s, s.journal[i].owner)
  {
    RunInv(events);
  }

  /** It never loses a running record to eviction: a record leaves the running state only when
      its call or its navigation ends. */
  lemma RunningIsKept(events: seq<Event>, e: Event, k: Key, c: CallId)
    requires var s := Run(Init(), events); Enabled(s, e) && Owned(s.journal, k, c)
    ensures var s := Run(Init(), events); Owned(Next(s, e).journal, k, c) || !Busy(Next(s, e), c)
  {
    RunInv(events);
    var s := Run(Init(), events);
    NextInv(s, e);
    var i :| 0 <= i < |s.journal| && s.journal[i].key == k && s.journal[i].owner == c && !s.journal[i].done;
    assert k in KeysOf(s.calls[c]);
    var s' := Next(s, e);
    assert CallOk(s, c) && c in s'.calls && k in KeysOf(s'.calls[c]) by { KeysStay(s, e, c, k); }
    if Busy(s', c) {
      assert CallOk(s', c);
      if !Working(s'.calls[c].pc) {
        var sid :| sid in s'.navigations && s'.navigations[sid].call == c;
        assert NavOk(s', sid);
      }
    }
  }

  lemma KeysStay(s: State, e: Event, c: CallId, k: Key)
    requires Inv(s) && Enabled(s, e) && c in s.calls && k in KeysOf(s.calls[c])
    ensures c in Next(s, e).calls && k in KeysOf(Next(s, e).calls[c])
  {
    assert CallOk(s, c);
    if e.Acquire? && e.call == c {
      EnterKeepsKeys(s, c, e.gate, e.newSid, e.lease, k);
    } else if e.Acquire? {
      EnterLeavesOthers(s, e.call, e.gate, e.newSid, e.lease, c);
    } else if e.RpcDone? {
      RepliedKeepsKeys(s, e.call, e.reply, c);
    }
  }

  lemma EnterLeavesOthers(s: State, c: CallId, gate: Gate, newSid: Sid, lease: nat, d: CallId)
    requires c in s.calls && d in s.calls && c != d
    ensures d in Enter(s, c, gate, newSid, lease).calls && Enter(s, c, gate, newSid, lease).calls[d] == s.calls[d]
  {
  }

  lemma RepliedKeepsKeys(s: State, c: CallId, reply: Reply, d: CallId)
    requires c in s.calls && (s.calls[c].context.operation.Some? || s.calls[c].pc.Running?) && d in s.calls
    ensures d in Replied(s, c, reply).calls && KeysOf(Replied(s, c, reply).calls[d]) == KeysOf(s.calls[d])
  {
    hide SetAllDone, Redigest;
    var s' := Replied(s, c, reply);
    assert s'.calls == s.calls[c := s'.calls[c]] && KeysOf(s'.calls[c]) == KeysOf(s.calls[c]);
  }

  lemma EnterKeepsKeys(s: State, c: CallId, gate: Gate, newSid: Sid, lease: nat, k: Key)
    requires c in s.calls && k in KeysOf(s.calls[c]) && s.calls[c].context.operation.None?
    ensures c in Enter(s, c, gate, newSid, lease).calls && k in KeysOf(Enter(s, c, gate, newSid, lease).calls[c])
  {
  }

  /** At most one pending navigation per session: a pending one is never overwritten. */
  lemma NavigationNotOverwritten(events: seq<Event>, e: Event, sid: Sid)
    requires var s := Run(Init(), events); Enabled(s, e) && sid in s.navigations && sid in Next(s, e).navigations
    ensures Next(Run(Init(), events), e).navigations[sid] == Run(Init(), events).navigations[sid]
  {
    hide Inv, JournalOk, HistoryOk, NavOk, OwnsAll, Owned, Reserve, SetAllDone, Redigest, KeysOf, Has, Find, Fits;
    RunInv(events);
    var s := Run(Init(), events);
    if e.RpcDone? { CallIsOk(s, e.call); }
    hide Run;
  }

  lemma CallIsOk(s: State, c: CallId)
    requires Inv(s) && c in s.calls
    ensures CallOk(s, c)
  {
    hide CallOk;
  }

  // ---- repeated calls ------------------------------------------------------------------------------

  /** The history without what concerns one call. */
  function Others(h: seq<Obs>, c: CallId): seq<Obs> {
    if h == [] then []
    else Others(h[..|h| - 1], c) + if h[|h| - 1].call == c then [] else [h[|h| - 1]]
  }

  /** The state as if the call had never been made. */
  function WithoutCall(s: State, c: CallId): State {
    s.(calls := s.calls - {c}, history := Others(s.history, c))
  }

  predicate Concerns(e: Event, c: CallId) { !e.NavigationDone? && e.call == c }

  function Elsewhere(events: seq<Event>, c: CallId): seq<Event> {
    if events == [] then []
    else Elsewhere(events[..|events| - 1], c) + if Concerns(events[|events| - 1], c) then [] else [events[|events| - 1]]
  }

  /** The call has ended with this answer and whatever the history says of it is that answer. */
  ghost predicate Repeated(s: State, c: CallId, answer: Answer) {
    c in s.calls && s.calls[c].pc == Done(answer) && s.calls[c].context == Context(false, Some(answer), None)
    && (forall i :: 0 <= i < |s.history| && s.history[i].call == c ==> s.history[i] == Answered(c, answer))
  }

  lemma OthersAppend(h: seq<Obs>, o: Obs, c: CallId)
    ensures Others(h + [o], c) == Others(h, c) + if o.call == c then [] else [o]
  {
    assert (h + [o])[..|h + [o]| - 1] == h;
  }

  lemma {:induction false} OthersAll(h: seq<Obs>, c: CallId)
    requires forall i :: 0 <= i < |h| ==> h[i].call != c
    ensures Others(h, c) == h
  {
    if h != [] {
      OthersAll(h[..|h| - 1], c);
      assert h[..|h| - 1] + [h[|h| - 1]] == h;
    }
  }

  /** The ended call can only be answered, and that touches nothing else. */
  lemma OwnStep(s: State, e: Event, c: CallId, answer: Answer)
    requires Repeated(s, c, answer) && Concerns(e, c) && Enabled(s, e)
    ensures Repeated(Next(s, e), c, answer) && WithoutCall(Next(s, e), c) == WithoutCall(s, c)
  {
    var s' := Next(s, e);
    assert s' == CallerTimeout(s, c) == CallerReturn(s, c);
    OthersAppend(s.history, Answered(c, answer), c);
    assert s'.calls - {c} == s.calls - {c};
  }

  lemma UpdateElsewhere(s: State, d: CallId, call: Call, c: CallId)
    requires d != c
    ensures WithoutCall(Update(s, d, call), c) == Update(WithoutCall(s, c), d, call)
  {
    assert s.calls[d := call] - {c} == (s.calls - {c})[d := call];
  }

  lemma NoteElsewhere(s: State, o: Obs, c: CallId)
    requires o.call != c
    ensures WithoutCall(Note(s, o), c) == Note(WithoutCall(s, c), o)
  {
    OthersAppend(s.history, o, c);
  }

  lemma SendElsewhere(s: State, d: CallId, pc: Pc, rpc: Rpc, c: CallId)
    requires d != c && d in s.calls
    ensures WithoutCall(Send(s, d, pc, rpc), c) == Send(WithoutCall(s, c), d, pc, rpc)
  {
    UpdateElsewhere(s, d, s.calls[d].(pc := pc), c);
    NoteElsewhere(Update(s, d, s.calls[d].(pc := pc)), Issued(d, rpc), c);
  }

  lemma ConcludeElsewhere(s: State, d: CallId, c: CallId)
    requires d != c && d in s.calls
    ensures WithoutCall(Conclude(s, d), c) == Conclude(WithoutCall(s, c), d)
  {
    var call := s.calls[d];
    UpdateElsewhere(s.(journal := SetAllDone(s.journal, KeysOf(call)), lock := if s.lock == Some(d) then None else s.lock),
                    d, call.(pc := Done(Final), context := call.context.(result := Some(Final))), c);
  }

  lemma ProvideElsewhere(s: State, d: CallId, scope: nat, c: CallId)
    requires d != c && d in s.calls
    ensures WithoutCall(Provide(s, d, scope), c) == Provide(WithoutCall(s, c), d, scope) && d in Provide(s, d, scope).calls
  {
    var k := Key(scope, Minted(s.minted));
    var call := s.calls[d];
    UpdateElsewhere(s.(minted := s.minted + 1, journal := Reserve(s.journal, 1) + [Entry(k, None, false, d)]),
                    d, call.(context := call.context.(result := Some(Provisional(k)), operation := Some(k))), c);
  }

  lemma StartElsewhere(s: State, d: CallId, kind: Kind, scope: nat, id: Option<OperationId>, digest: nat, c: CallId)
    requires d != c
    ensures WithoutCall(Start(s, d, kind, scope, id, digest), c) == Start(WithoutCall(s, c), d, kind, scope, id, digest)
  {
    hide Reserve, Has, Find, Others;
    var s' := Start(s, d, kind, scope, id, digest);
    UpdateElsewhere(s.(journal := s'.journal), d, s'.calls[d], c);
  }

  lemma EnterElsewhere(s: State, d: CallId, gate: Gate, newSid: Sid, lease: nat, c: CallId)
    requires d != c && d in s.calls
    ensures WithoutCall(Enter(s, d, gate, newSid, lease), c) == Enter(WithoutCall(s, c), d, gate, newSid, lease)
  {
    hide Others, Conclude, Send, Provide, Fits, Reserve;
    var call := s.calls[d];
    var s0 := s.(lock := Some(d));
    var r := s0.(journal := Reserve(s.journal, 1));
    var scope := if call.kind.Navigate? then call.scope else lease;
    ConcludeElsewhere(s0, d, c);
    ConcludeElsewhere(r, d, c);
    SendElsewhere(s0, d, Running, OtherRpc, c);
    ProvideElsewhere(s0, d, scope, c);
    var p := Provide(s0, d, scope);
    ConcludeElsewhere(p, d, c);
    if !call.kind.Other? {
      var sid := if call.kind.Navigate? then call.kind.target
                 else if call.kind.existing.Some? then call.kind.existing.value else newSid;
      SendElsewhere(p, d, Listing(sid), ListRpc, c);
      SendElsewhere(p, d, Opening(sid), OpenRpc, c);
      SendElsewhere(p, d, Beginning(sid), BeginRpc, c);
    }
  }

  lemma PendElsewhere(s: State, d: CallId, sid: Sid, c: CallId)
    requires d != c && d in s.calls && s.calls[d].context.operation.Some?
    ensures WithoutCall(Pend(s, d, sid), c) == Pend(WithoutCall(s, c), d, sid)
  {
    var s' := Pend(s, d, sid);
    UpdateElsewhere(s.(navigations := s'.navigations, lock := None, journal := s'.journal), d, s'.calls[d], c);
  }

  lemma RepliedElsewhere(s: State, d: CallId, reply: Reply, c: CallId)
    requires d != c && d in s.calls && (s.calls[d].context.operation.Some? || s.calls[d].pc.Running?)
    ensures WithoutCall(Replied(s, d, reply), c) == Replied(WithoutCall(s, c), d, reply)
  {
    hide Others, Conclude, Send, Pend;
    ConcludeElsewhere(s, d, c);
    match s.calls[d].pc
    case Listing(sid) => SendElsewhere(s, d, Opening(sid), OpenRpc, c);
    case Opening(sid) => SendElsewhere(s, d, Beginning(sid), BeginRpc, c);
    case Beginning(sid) => if !reply.Failed? { PendElsewhere(s, d, sid, c); }
    case _ =>
  }

  lemma TimeoutElsewhere(s: State, d: CallId, c: CallId)
    requires d != c && d in s.calls
    ensures WithoutCall(CallerTimeout(s, d), c) == CallerTimeout(WithoutCall(s, c), d)
  {
    hide Others;
    var call := s.calls[d];
    var call' := if call.context.result.Some? then call.(answered := true)
                 else call.(answered := true, context := call.context.(abandoned := true));
    UpdateElsewhere(s, d, call', c);
    NoteElsewhere(Update(s, d, call'), Answered(d, if call.context.result.Some? then call.context.result.value else NotDispatched), c);
  }

  lemma ReturnElsewhere(s: State, d: CallId, c: CallId)
    requires d != c && d in s.calls && s.calls[d].pc.Done?
    ensures WithoutCall(CallerReturn(s, d), c) == CallerReturn(WithoutCall(s, c), d)
  {
    hide Others;
    UpdateElsewhere(s, d, s.calls[d].(answered := true), c);
    NoteElsewhere(Update(s, d, s.calls[d].(answered := true)), Answered(d, s.calls[d].pc.value), c);
  }

  /** What happens elsewhere happens just as if the ended call had never been made. */
  lemma ElsewhereStep(s: State, e: Event, c: CallId)
    requires c in s.calls && s.calls[c].pc.Done? && !Concerns(e, c)
    ensures Enabled(s, e) <==> Enabled(WithoutCall(s, c), e)
    ensures Enabled(s, e) ==> WithoutCall(Next(s, e), c) == Next(WithoutCall(s, c), e)
  {
    hide Others, Start, Enter, Conclude, Replied, CallerTimeout, CallerReturn;
    if Enabled(s, e) {
      match e
      case Arrive(d, kind, scope, id, digest) => StartElsewhere(s, d, kind, scope, id, digest, c);
      case Acquire(d, gate, newSid, lease) => EnterElsewhere(s, d, gate, newSid, lease, c);
      case QueueTimeout(d) => ConcludeElsewhere(s, d, c);
      case RpcDone(d, reply) => RepliedElsewhere(s, d, reply, c);
      case NavigationDone(sid) =>
      case StopWaiting(d) => UpdateElsewhere(s, d, Stop(s, d).calls[d], c);
      case Timeout(d) => TimeoutElsewhere(s, d, c);
      case Return(d) => ReturnElsewhere(s, d, c);
    }
  }

  /** Other calls leave the ended one and its answers alone. */
  lemma OthersLeaveIt(s: State, e: Event, c: CallId, answer: Answer)
    requires Repeated(s, c, answer) && !Concerns(e, c) && Enabled(s, e)
    ensures Repeated(Next(s, e), c, answer)
  {
    hide Reserve, SetAllDone, Redigest, Has, Find, KeysOf, Fits;
    match e
    case Acquire(d, gate, newSid, lease) => EnterLeavesOthers(s, d, gate, newSid, lease, c);
    case _ =>
  }

  lemma {:induction false} RepeatedRun(s: State, more: seq<Event>, c: CallId, answer: Answer)
    requires Repeated(s, c, answer)
    ensures Repeated(Run(s, more), c, answer)
    ensures WithoutCall(Run(s, more), c) == Run(WithoutCall(s, c), Elsewhere(more, c))
    decreases |more|
  {
    if more != [] {
      var front, e := more[..|more| - 1], more[|more| - 1];
      RepeatedRun(s, front, c, answer);
      var before := Run(s, front);
      hide Next, Enabled, WithoutCall, Repeated;
      if Concerns(e, c) {
        if Enabled(before, e) { OwnStep(before, e, c, answer); }
        assert Elsewhere(more, c) == Elsewhere(front, c);
      } else {
        EndedHere(before, c, answer);
        ElsewhereStep(before, e, c);
        if Enabled(before, e) { OthersLeaveIt(before, e, c, answer); }
        var rest := Elsewhere(more, c);
        assert rest == Elsewhere(front, c) + [e] && rest[..|rest| - 1] == Elsewhere(front, c);
      }
    }
  }

  lemma EndedHere(s: State, c: CallId, answer: Answer)
    requires Repeated(s, c, answer)
    ensures c in s.calls && s.calls[c].pc.Done?
  {
  }

  /** While a key is retained, a repeat of it is answered at once: with its record for equal
      arguments, with a conflict for others. In every continuation no worker command is sent for it
      and it gets no other answer; everything else, the record's own call and navigation included,
      goes on exactly as if the repeat had never come. */
  lemma RepeatSendsNothing(events: seq<Event>, c: CallId, kind: Kind, scope: nat, id: OperationId, digest: nat,
                           more: seq<Event>, i: nat)
    requires var s := Run(Init(), events);
      Enabled(s, Arrive(c, kind, scope, Some(id), digest)) && i < |s.journal| && s.journal[i].key == Key(scope, id)
    ensures var s := Run(Init(), events);
      var s' := Run(Next(s, Arrive(c, kind, scope, Some(id), digest)), more);
      var answer := if s.journal[i].digest == Some(digest) then Replayed(s.journal[i]) else Conflict;
      c in s'.calls && s'.calls[c].pc.Done?
      && (forall x :: 0 <= x < |s'.history| && s'.history[x].call == c ==> s'.history[x] == Answered(c, answer))
      && WithoutCall(s', c) == Run(s, Elsewhere(more, c))
  {
    RunInv(events);
    var s := Run(Init(), events);
    RepeatStarts(s, c, kind, scope, id, digest, i);
    var s1 := Next(s, Arrive(c, kind, scope, Some(id), digest));
    RepeatedRun(s1, more, c, if s.journal[i].digest == Some(digest) then Replayed(s.journal[i]) else Conflict);
    hide Next, Inv, WithoutCall;
  }

  lemma RepeatStarts(s: State, c: CallId, kind: Kind, scope: nat, id: OperationId, digest: nat, i: nat)
    requires Inv(s) && Enabled(s, Arrive(c, kind, scope, Some(id), digest))
    requires i < |s.journal| && s.journal[i].key == Key(scope, id)
    ensures var s1 := Next(s, Arrive(c, kind, scope, Some(id), digest));
      WithoutCall(s1, c) == s
      && Repeated(s1, c, if s.journal[i].digest == Some(digest) then Replayed(s.journal[i]) else Conflict)
  {
    FoundAt(s.journal, Key(scope, id), i);
    var s1 := Next(s, Arrive(c, kind, scope, Some(id), digest));
    NothingYet(s, c);
    OthersAll(s.history, c);
    assert s1.calls - {c} == s.calls;
    hide Inv, Others, Reserve, Has, Find;
  }

  lemma NothingYet(s: State, c: CallId)
    requires Inv(s) && c !in s.calls
    ensures forall x :: 0 <= x < |s.history| ==> s.history[x].call != c
  {
  }

  /** Keys are distinct, so a record is found under its key. */
  lemma FoundAt(j: Journal, k: Key, i: nat)
    requires Distinct(j) && i < |j| && j[i].key == k
    ensures Has(j, k) && Find(j, k) == i
  {
    assert Find(j, k) <= i;
    assert j[Find(j, k)].key == k;
  }
}
