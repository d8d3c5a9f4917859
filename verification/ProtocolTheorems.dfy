/** What every run of the dispatch protocol guarantees, read off its history. */
module ProtocolTheorems {
  import opened Wrappers
  import opened Adapter
  import opened Worker
  import opened Store
  import opened Protocol
  import opened ProtocolInvariant
  import opened ProtocolSteps

  ghost function HistoryOf(cfg: Config, events: seq<Event>): History {
    Run(Init(cfg), events).history
  }

  /** No revocation between two positions with the same count. */
  lemma {:induction false} SameCount(h: History, sid: Sid, i: nat, m: nat, j: nat)
    requires i <= m < j <= |h| && RevokedCount(h[..i], sid) == RevokedCount(h[..j], sid)
    ensures h[m] != Revoked(sid)
    decreases j
  {
    CountMonotone(h, sid, i, j - 1);
    assert h[..j][..j - 1] == h[..j - 1];
    if m < j - 1 {
      SameCount(h, sid, i, m, j - 1);
    }
  }

  lemma {:induction false} CountMonotone(h: History, sid: Sid, i: nat, j: nat)
    requires i <= j <= |h|
    ensures RevokedCount(h[..i], sid) <= RevokedCount(h[..j], sid)
    decreases j
  {
    if i < j {
      CountMonotone(h, sid, i, j - 1);
      assert h[..j][..j - 1] == h[..j - 1];
    }
  }

  /** Approval soundness and the consent lifetime, over every run: a dispatch that needed
      confirmation, or presented a token at all, was proposed for the same session, tab,
      action, epoch and target, then granted, with no handoff start or completion of that
      session since, and less than two approval lifetimes ago. */
  lemma ApprovalSoundness(cfg: Config, events: seq<Event>, j: nat) returns (i: nat, k: nat)
    requires ValidConfig(cfg) && j < |HistoryOf(cfg, events)| && HistoryOf(cfg, events)[j].Dispatched?
    ensures var h := HistoryOf(cfg, events);
      var d := h[j];
      (d.needed ==> d.request.token.Some?) &&
      (d.request.token.Some? ==>
        i < k < j
        && h[i].Proposed? && h[i].token == d.request.token.value && h[i].target == d.target
        && h[i].binding == ApprovalBindingOf(d.request, d.epoch)
        && h[k].Granted? && h[k].token == d.request.token.value
        && (forall m: nat :: i <= m < j ==> h[m] != Revoked(d.request.sid))
        && d.at < h[i].at + 2.0 * cfg.approvalTtl)
  {
    RunInv(cfg, events);
    i, k := 0, 0;
    var h := HistoryOf(cfg, events);
    var d := h[j];
    assert DispatchOk(h, j, cfg.approvalTtl);
    if d.request.token.Some? {
      var token := d.request.token.value;
      i :| i < j && ProposedAt(h, i, token, ApprovalBindingOf(d.request, d.epoch), d.target)
        && GrantedBetween(h, i, j, token)
        && RevokedCount(h[..i], d.request.sid) == RevokedCount(h[..j], d.request.sid)
        && d.at < h[i].at + 2.0 * cfg.approvalTtl;
      k :| i < k < j && h[k].Granted? && h[k].token == token;
      forall m: nat | i <= m < j
        ensures h[m] != Revoked(d.request.sid)
      {
        SameCount(h, d.request.sid, i, m, j);
      }
    }
  }

  lemma ProposedOnce(cfg: Config, events: seq<Event>, i: nat, j: nat)
    requires ValidConfig(cfg) && i < |HistoryOf(cfg, events)| && j < |HistoryOf(cfg, events)|
    requires var h := HistoryOf(cfg, events); h[i].Proposed? && h[j].Proposed? && h[i].token == h[j].token
    ensures i == j
  {
    RunInv(cfg, events);
    var s := Run(Init(cfg), events);
    assert TokensOk(s);
    hide Run, DataOk, TasksOk;
  }

  /** The same, read forwards: once a handoff of the session starts or completes, nothing
      proposed before it is ever dispatched, whatever is approved or rolled back later. */
  lemma RevokedForGood(cfg: Config, events: seq<Event>, i: nat, m: nat, j: nat)
    requires ValidConfig(cfg) && i < m < j < |HistoryOf(cfg, events)|
    requires var h := HistoryOf(cfg, events); h[i].Proposed? && h[m] == Revoked(h[i].binding.sid) && h[j].Dispatched?
    ensures var h := HistoryOf(cfg, events); h[j].request.token != Some(h[i].token)
  {
    var h := HistoryOf(cfg, events);
    if h[j].request.token == Some(h[i].token) {
      var a, _ := ApprovalSoundness(cfg, events, j);
      ProposedOnce(cfg, events, a, i);
      hide Run;
    }
  }

  /** At most once: two acts that both sent input for the same non-passive (session, tab,
      revision, action) were dispatched at least one record lifetime apart. */
  lemma AtMostOnce(cfg: Config, events: seq<Event>, i: nat, j: nat)
    requires ValidConfig(cfg) && i < j < |HistoryOf(cfg, events)|
    requires SameInput(HistoryOf(cfg, events), i, j)
    ensures var h := HistoryOf(cfg, events);
      var a, b := h[i].dispatch, h[j].dispatch;
      a < i && b < j && h[a].Dispatched? && h[b].Dispatched?
      && BindingOf(h[a].request) == h[i].input && BindingOf(h[b].request) == h[j].input
      && h[b].at >= h[a].at + Max(DAY, cfg.sessionTtl)
  {
    RunInv(cfg, events);
    var h := HistoryOf(cfg, events);
    var ttl := Max(DAY, cfg.sessionTtl);
    assert SentOnce(h) && SentFromDispatch(h, ttl);
    assert FromDispatch(h, h[i].dispatch, h[i].input, h[i].consent, h[i].checked, h[i].until, ttl);
    assert FromDispatch(h, h[j].dispatch, h[j].input, h[j].consent, h[j].checked, h[j].until, ttl);
  }

  /** Single use: over every run at most one dispatch that presented a given token has sent
      input, whatever revisions, retries and rollbacks there were. */
  lemma ConsentSpentOnce(cfg: Config, events: seq<Event>, i: nat, j: nat, token: Token)
    requires ValidConfig(cfg) && i < |HistoryOf(cfg, events)| && j < |HistoryOf(cfg, events)|
    requires var h := HistoryOf(cfg, events); h[i].Sent? && h[j].Sent?
    ensures var h := HistoryOf(cfg, events);
      h[i].dispatch < i && h[h[i].dispatch].Dispatched? && h[j].dispatch < j && h[h[j].dispatch].Dispatched?
      && (h[h[i].dispatch].request.token == Some(token) && h[h[j].dispatch].request.token == Some(token) ==> i == j)
  {
    RunInv(cfg, events);
    var h := HistoryOf(cfg, events);
    var ttl := Max(DAY, cfg.sessionTtl);
    assert ConsentOnce(h) && SentFromDispatch(h, ttl);
    assert FromDispatch(h, h[i].dispatch, h[i].input, h[i].consent, h[i].checked, h[i].until, ttl);
    assert FromDispatch(h, h[j].dispatch, h[j].input, h[j].consent, h[j].checked, h[j].until, ttl);
  }

  /** Pause exclusion: while any session is under private control, the closing window of a
      cancellation included, only the private console talks to the worker, apart from the
      focus command of the handoff that has just started. */
  lemma PauseExclusion(cfg: Config, events: seq<Event>, j: nat)
    requires ValidConfig(cfg) && j < |HistoryOf(cfg, events)| && HistoryOf(cfg, events)[j].Issued?
    ensures var o := HistoryOf(cfg, events)[j]; o.guarded ==> o.origin.Console? || o.rpc.FocusRpc?
  {
    RunInv(cfg, events);
    assert IssueOk(HistoryOf(cfg, events), j);
  }

  /** In every interleaving at most one worker command is in flight. */
  lemma SingleFlight(cfg: Config, events: seq<Event>, x: TaskId, y: TaskId)
    requires ValidConfig(cfg)
    requires var s := Run(Init(cfg), events);
      x in s.tasks && y in s.tasks && InFlight(s.tasks[x]) && InFlight(s.tasks[y])
    ensures x == y && Run(Init(cfg), events).lock == Some(x)
  {
    RunInv(cfg, events);
  }

  lemma {:induction false} LatchedUntilSettled(h: History, sid: Sid, i: nat, j: nat) returns (k: nat)
    requires i < j <= |h| && h[i] == BecameUncertain(sid) && !Latched(h[..j], sid)
    ensures i < k < j && Settles(h[k], sid)
    decreases j
  {
    assert h[..j][..j - 1] == h[..j - 1];
    if Settles(h[j - 1], sid) {
      k := j - 1;
    } else {
      k := LatchedUntilSettled(h, sid, i, j - 1);
    }
  }

  /** The uncertainty latch: after an uncertain outcome no action and no navigation of the
      session reaches the worker before a completed handoff has settled it, whether the
      navigation is asked for as such, by an open with an address, or by the reader. */
  lemma UncertaintyLatch(cfg: Config, events: seq<Event>, i: nat, j: nat) returns (k: nat)
    requires ValidConfig(cfg) && i < j < |HistoryOf(cfg, events)|
    requires var h := HistoryOf(cfg, events);
      h[j].Issued? && (h[j].rpc.ActRpc? || h[j].rpc.NavigationBegin?) && h[i] == BecameUncertain(h[j].sid)
    ensures var h := HistoryOf(cfg, events); i < k < j && Settles(h[k], h[j].sid)
  {
    RunInv(cfg, events);
    var h := HistoryOf(cfg, events);
    assert IssueOk(h, j);
    k := LatchedUntilSettled(h, h[j].sid, i, j);
  }

  /** The reader's navigations need no check of their own: no outcome of its session is ever uncertain. */
  lemma ReaderNeverUncertain(cfg: Config, events: seq<Event>)
    requires ValidConfig(cfg)
    ensures var s := Run(Init(cfg), events);
      s.reader.Some? && s.reader.value in s.sessions ==> !s.sessions[s.reader.value].uncertain
  {
    RunInv(cfg, events);
    var s := Run(Init(cfg), events);
    ReaderCertain(s);
    if s.reader.Some? && s.reader.value in s.sessions { EpochCounts(s, s.reader.value); }
  }

  // ---- what one call undoes ---------------------------------------------------------------

  /** A no-send reply is the exact inverse of the consuming transaction: the approval row,
      its original expiry and the pending entries are back and the execution record is gone,
      whatever time has passed while some of the original window remains. */
  lemma RollbackUndoesConsume(s: State, r: Request, token: Token, elapsed: real, d: Dispatch)
    requires token in s.approvals && r.token == Some(token) && elapsed >= 0.0
    requires Get(s.executions, s.now, BindingOf(r)).None?
    requires s.approvals[token].value.state.Approved?
    requires d.recorded && d.removed == OfToken(s.pending, token)
    requires d.consent == Some((s.approvals[token].value, s.approvals[token].expires))
    requires d.consumed == Some(s.approvals[token].value.(state := Consumed))
    requires s.now + elapsed < s.approvals[token].expires && elapsed < DAY
    ensures var s1 := Consume(s, r, token, s.approvals[token].value);
      var s2 := Rollback(s1.(now := s.now + elapsed), r, d);
      s2.approvals == s.approvals && s2.pending == s.pending
      && (forall b, later :: later >= s.now ==> Get(s2.executions, later, b) == Get(s.executions, later, b))
  {
    var s1 := Consume(s, r, token, s.approvals[token].value);
    var s2 := Rollback(s1.(now := s.now + elapsed), r, d);
    var row := s.approvals[token];
    assert s2.approvals[token] == Row(row.value, (s.now + elapsed) + (row.expires - (s.now + elapsed)));
    assert s2.approvals == s.approvals;
    assert s2.pending == s.pending;
    forall b, later | later >= s.now
      ensures Get(s2.executions, later, b) == Get(s.executions, later, b)
    {
    }
  }

  /** A record that was revoked, replaced or expired while the action ran is left alone. */
  lemma RollbackRespectsRevocation(s: State, r: Request, d: Dispatch)
    requires r.token.Some? && d.consent.Some?
    requires Get(s.approvals, s.now, r.token.value) != d.consumed || d.consent.value.1 <= s.now
    ensures Rollback(s, r, d).approvals == s.approvals && Rollback(s, r, d).pending == s.pending
  {
  }

  // ---- how a pause ends ---------------------------------------------------------------------

  /** The session stays protected by this handoff, or it is gone. */
  ghost predicate StaysProtected(s: State, sid: Sid, lease: Lease) {
    sid !in s.sessions || (Protected(s, sid) && sid in s.leases && SameHandoff(lease, s.leases[sid]))
  }

  lemma BeginStaysProtected(s: State, t: TaskId, c: Command, choice: Sid, sid: Sid)
    requires t in s.tasks && s.tasks[t].Queued? && sid in s.leases && Paused(s.leases[sid])
    ensures StaysProtected(Begin(s, t, c, choice), sid, s.leases[sid])
  {
    if c.OpenWork? {
    } else if c.Read? {
    } else if c.CancelHandoff? && choice == sid && s.leases[sid].id == c.handoff && s.leases[sid].state.Active? {
      assert Begin(s, t, c, choice).tasks[t] == CancelDisconnecting(sid, c.handoff);
    }
  }

  lemma CancelClosedStaysProtected(s: State, t: TaskId, code: Option<ErrorCode>)
    requires t in s.tasks && s.tasks[t].CancelClosing? && s.tasks[t].target in s.leases
    ensures StaysProtected(CancelClosed(s, t, code), s.tasks[t].target, s.leases[s.tasks[t].target])
  {
    hide KeepsPaused, Grows, Longer, NotClosed, ActiveControl, Cancelling;
    if code.Some? { NotClosedProtects(s, s.tasks[t].target, code.value); }
  }

  lemma FailedKeepsLease(s: State, sid: Sid, code: ErrorCode)
    requires sid in s.leases
    ensures var s' := RpcFailed(s, sid, code); sid !in s'.sessions || (sid in s'.leases && s'.leases[sid] == s.leases[sid])
  {
    hide KeepsPaused, Grows, Longer;
  }

  lemma NotClosedProtects(s: State, sid: Sid, code: ErrorCode)
    requires sid in s.leases
    ensures var s' := NotClosed(s, sid, code);
      sid !in s'.sessions || (sid in s'.leases && Paused(s'.leases[sid]) && SameHandoff(s.leases[sid], s'.leases[sid]))
  {
    hide KeepsPaused, Grows, Longer, RpcFailed;
    FailedKeepsLease(s, sid, code);
  }

  lemma ResumedStaysProtected(s: State, t: TaskId, code: Option<ErrorCode>, sid: Sid)
    requires t in s.tasks && s.tasks[t].Resuming? && sid in s.leases && Paused(s.leases[sid])
    requires s.tasks[t].target != sid || code.Some?
    ensures StaysProtected(Resumed(s, t, code), sid, s.leases[sid])
  {
    hide Grows, Longer, ActiveControl, Cancelling, Resumed;
    if code.Some? {
      ResumeFailedKeeps(s, t, code.value);
    } else {
      ResumedElsewhere(s, t, sid);
    }
  }

  lemma ResumeFailedKeeps(s: State, t: TaskId, code: ErrorCode)
    requires t in s.tasks && s.tasks[t].Resuming?
    ensures KeepsPaused(s, Resumed(s, t, Some(code)))
  {
    hide RpcFailed, StayPaused, Grows, Longer;
  }

  lemma ResumedElsewhere(s: State, t: TaskId, sid: Sid)
    requires t in s.tasks && s.tasks[t].Resuming? && sid in s.leases && s.tasks[t].target != sid
    ensures var s' := Resumed(s, t, None); sid in s'.leases && s'.leases[sid] == s.leases[sid]
  {
    hide Grows, Longer, KeepsPaused;
  }

  lemma RepliedStaysProtected(s: State, t: TaskId, code: Option<ErrorCode>, more: bool, choice: Sid, sid: Sid)
    requires t in s.tasks && sid in s.leases && Paused(s.leases[sid]) && !s.tasks[t].Listing?
    requires !(s.tasks[t].Resuming? && s.tasks[t].target == sid && code.None?)
    ensures StaysProtected(Replied(s, t, code, more, choice), sid, s.leases[sid])
  {
    if s.tasks[t].Resuming? {
      ResumedStaysProtected(s, t, code, sid);
    }
  }

  lemma ActKeeps(s: State, e: Event)
    requires Enabled(s, e) && (e.PrepareDone? || e.ActDone? || e.WaitDone? || e.Wake? || e.Input?)
    ensures KeepsPaused(s, Next(s, e))
  {
  }

  lemma OthersStayProtected(s: State, e: Event, sid: Sid)
    requires Enabled(s, e) && sid in s.leases && Paused(s.leases[sid])
    requires e.Tick? || e.Arrive? || e.GiveUp? || e.ViewersClosed? || e.ShutdownDone? || e.NavigationEnded?
             || e.Prune? || e.Cleanup?
    ensures StaysProtected(Next(s, e), sid, s.leases[sid])
  {
  }

  /** While a cancellation runs, events of other tasks leave its task alone. */
  lemma CancellingStays(s: State, e: Event, sid: Sid)
    requires Inv(s) && Enabled(s, e) && Cancelling(s, sid)
    ensures sid in s.leases && StaysProtected(Next(s, e), sid, s.leases[sid])
  {
    var t :| t in s.tasks && (s.tasks[t].CancelDisconnecting? || s.tasks[t].CancelClosing?) && s.tasks[t].target == sid;
    Holder(s, t);
    assert sid in s.leases;
    assert s.lock == Some(t) && forall x :: x in s.tasks && x != t ==> s.tasks[x].Queued?;
    hide Inv, Next, Enabled, StaysProtected, PcOk, DataOk, Alone;
    if e.ViewersClosed? {
      CancelDisconnectedStays(s, e, t);
    } else if e.RpcDone? {
      CancelRepliedStays(s, e, t);
    } else {
      OtherTasksStay(s, e, t);
      StillCancelling(s, Next(s, e), t);
    }
  }

  lemma StillCancelling(s: State, s': State, t: TaskId)
    requires t in s.tasks && (s.tasks[t].CancelDisconnecting? || s.tasks[t].CancelClosing?)
    requires t in s'.tasks && s'.tasks[t] == s.tasks[t] && s'.leases == s.leases && s.tasks[t].target in s.leases
    ensures StaysProtected(s', s.tasks[t].target, s.leases[s.tasks[t].target])
  {
  }

  lemma CancelRepliedStays(s: State, e: Event, t: TaskId)
    requires Inv(s) && Enabled(s, e) && e.RpcDone? && t in s.tasks
    requires s.tasks[t].CancelDisconnecting? || s.tasks[t].CancelClosing?
    requires s.tasks[t].target in s.leases
    ensures StaysProtected(Next(s, e), s.tasks[t].target, s.leases[s.tasks[t].target])
  {
    Holder(s, t);
    hide KeepsPaused, DataOk, Grows, Longer, PcOk, CancelClosed, Replied, StaysProtected, ActiveControl;
    CancelClosedStaysProtected(s, t, e.code);
    CancelReply(s, t, e.code, e.more, e.choice);
  }

  lemma CancelDisconnectedStays(s: State, e: Event, t: TaskId)
    requires Inv(s) && Enabled(s, e) && e.ViewersClosed? && t in s.tasks
    requires s.tasks[t].CancelDisconnecting? || s.tasks[t].CancelClosing?
    requires s.tasks[t].target in s.leases
    ensures StaysProtected(Next(s, e), s.tasks[t].target, s.leases[s.tasks[t].target])
  {
    Holder(s, t);
    hide KeepsPaused, DataOk, Grows, Longer, PcOk, ViewersGone, ActiveControl;
    CancelSendsClose(s, t, e.allClosed);
    hide StaysProtected;
    ClosingProtects(s, ViewersGone(s, t, e.allClosed), t);
  }

  lemma ClosingProtects(s: State, s': State, t: TaskId)
    requires t in s.tasks && s.tasks[t].CancelDisconnecting? && s.tasks[t].target in s.leases && s'.leases == s.leases
    requires t in s'.tasks && s'.tasks[t] == CancelClosing(s.tasks[t].target, s.tasks[t].handoff)
    ensures StaysProtected(s', s.tasks[t].target, s.leases[s.tasks[t].target])
  {
  }

  lemma CancelReply(s: State, t: TaskId, code: Option<ErrorCode>, more: bool, choice: Sid)
    requires t in s.tasks && s.tasks[t].CancelClosing?
    ensures Replied(s, t, code, more, choice) == CancelClosed(s, t, code)
  {
    hide KeepsPaused, Grows, Longer, CancelClosed;
  }

  lemma CancelSendsClose(s: State, t: TaskId, allClosed: bool)
    requires t in s.tasks && s.tasks[t].CancelDisconnecting?
    ensures var s' := ViewersGone(s, t, allClosed);
      t in s'.tasks && s'.tasks[t] == CancelClosing(s.tasks[t].target, s.tasks[t].handoff) && s'.leases == s.leases
  {
    hide KeepsPaused, Grows, Longer;
  }

  lemma OtherTasksStay(s: State, e: Event, t: TaskId)
    requires Enabled(s, e) && t in s.tasks && (s.tasks[t].CancelDisconnecting? || s.tasks[t].CancelClosing?)
    requires s.lock == Some(t) && forall x :: x in s.tasks && x != t ==> s.tasks[x].Queued?
    requires !e.ViewersClosed? && !e.RpcDone?
    ensures t in Next(s, e).tasks && Next(s, e).tasks[t] == s.tasks[t] && Next(s, e).leases == s.leases
  {
    hide KeepsPaused, Grows, Longer, Vacuum, LivePending, Begin, ActPrepared, ActReplied, InputSent, WaitReplied, FollowUp,
         SetUncertain, AskCompletion, ViewersGone, Replied, ShutDown;
  }

  lemma NoListing(s: State, t: TaskId, sid: Sid)
    requires Inv(s) && t in s.tasks && !s.tasks[t].Queued? && sid in s.leases && Paused(s.leases[sid])
    ensures !s.tasks[t].Listing?
  {
    Holder(s, t);
  }

  /** One event leaves a protected session protected by the same handoff, unless the session is
      gone or the worker confirmed the resume that `complete_handoff` asked for after closing
      all viewers. No clock advance ends a pause. */
  lemma PauseStep(s: State, e: Event, sid: Sid)
    requires Inv(s) && Enabled(s, e) && Protected(s, sid)
    ensures sid in s.leases
    ensures StaysProtected(Next(s, e), sid, s.leases[sid])
      || (e.RpcDone? && e.code.None? && s.tasks[e.task].Resuming? && s.tasks[e.task].target == sid)
  {
    if Cancelling(s, sid) {
      CancellingStays(s, e, sid);
    } else if e.Acquire? {
      BeginStaysProtected(s.(lock := Some(e.task)), e.task, s.tasks[e.task].command, e.choice, sid);
    } else if e.RpcDone? {
      NoListing(s, e.task, sid);
      if !(s.tasks[e.task].Resuming? && s.tasks[e.task].target == sid && e.code.None?) {
        RepliedStaysProtected(s, e.task, e.code, e.more, e.choice, sid);
      }
    } else if e.PrepareDone? || e.ActDone? || e.WaitDone? || e.Wake? || e.Input? {
      ActKeeps(s, e);
    } else {
      OthersStayProtected(s, e, sid);
    }
  }

  /** A session that is gone stays gone: its identifier is never given out again. */
  lemma GoneStep(s: State, e: Event, sid: Sid)
    requires Enabled(s, e) && sid < s.minted && sid !in s.sessions
    ensures sid !in Next(s, e).sessions
  {
    if e.Acquire? {
      BeginGone(s.(lock := Some(e.task)), e.task, s.tasks[e.task].command, e.choice, sid);
    } else if e.RpcDone? {
      RepliedGone(s, e.task, e.code, e.more, e.choice, sid);
    } else if e.PrepareDone? || e.ActDone? || e.WaitDone? || e.Wake? || e.Input? {
      ActKeeps(s, e);
    }
  }

  /** At most one session is added, under the next random value, and no uncertain one becomes certain. */
  ghost predicate AddsOnly(s: State, s': State) {
    forall x :: x in s'.sessions && x != s.minted ==>
      x in s.sessions && (s.sessions[x].uncertain ==> s'.sessions[x].uncertain)
  }

  lemma OpenAdds(s: State, t: TaskId, url: bool)
    ensures AddsOnly(s, BeginOpen(s, t, url))
  {
    hide ActiveControl, Grows, Longer, Guarded, KeepsPaused;
  }

  lemma ReadAdds(s: State, t: TaskId)
    ensures AddsOnly(s, BeginRead(s, t))
  {
    BeginReadIs(s, t);
    hide ActiveControl, Grows, Longer, BeginRead, ReadOn, Finish;
  }

  lemma CancelAdds(s: State, t: TaskId, sid: Sid, handoff: nat)
    ensures AddsOnly(s, CancelBegin(s, t, sid, handoff))
  {
    hide ActiveControl, Grows, Longer, Guarded, KeepsPaused;
  }

  lemma BeginAdds(s: State, t: TaskId, c: Command, choice: Sid)
    requires c.OpenWork? || c.Read? || c.CancelHandoff?
    ensures AddsOnly(s, Begin(s, t, c, choice))
  {
    hide KeepsPaused, Grows, Longer, AddsOnly, BeginOpen, BeginRead, CancelBegin;
    match c
    case OpenWork(url) => OpenAdds(s, t, url);
    case Read => ReadAdds(s, t);
    case CancelHandoff(handoff) => CancelAdds(s, t, choice, handoff);
    case _ =>
  }

  lemma BeginGone(s: State, t: TaskId, c: Command, choice: Sid, sid: Sid)
    requires sid < s.minted && sid !in s.sessions
    ensures sid !in Begin(s, t, c, choice).sessions
  {
    hide Begin, Grows, Longer;
    if c.OpenWork? || c.Read? || c.CancelHandoff? { BeginAdds(s, t, c, choice); }
  }

  lemma RepliedGone(s: State, t: TaskId, code: Option<ErrorCode>, more: bool, choice: Sid, sid: Sid)
    requires t in s.tasks && sid !in s.sessions
    ensures sid !in Replied(s, t, code, more, choice).sessions
  {
    hide ActiveControl, Grows, Longer, Guarded, KeepsPaused, FailTask, StartHandoff, Resumed;
    if s.tasks[t].Resuming? {
      ResumedGone(s, t, code, sid);
    } else if s.tasks[t].Listing? {
      if code.Some? { FailedGone(s, t, s.tasks[t].target, code.value, sid); } else { StartGone(s, t, more, sid); }
    } else {
      OtherReplyGone(s, t, code, more, choice, sid);
    }
  }

  lemma ResumedGone(s: State, t: TaskId, code: Option<ErrorCode>, sid: Sid)
    requires t in s.tasks && s.tasks[t].Resuming? && sid !in s.sessions
    ensures sid !in Resumed(s, t, code).sessions
  {
    hide Grows, Longer;
  }

  lemma FailedGone(s: State, t: TaskId, target: Sid, code: ErrorCode, sid: Sid)
    requires sid !in s.sessions
    ensures sid !in FailTask(s, t, target, code).sessions
  {
    hide FailTask, Grows, Longer;
  }

  lemma StartGone(s: State, t: TaskId, found: bool, sid: Sid)
    requires t in s.tasks && s.tasks[t].Listing? && sid !in s.sessions
    ensures sid !in StartHandoff(s, t, found).sessions
  {
    hide Grows, Longer, KeepsPaused;
  }

  lemma OtherReplyGone(s: State, t: TaskId, code: Option<ErrorCode>, more: bool, choice: Sid, sid: Sid)
    requires t in s.tasks && !s.tasks[t].Resuming? && !s.tasks[t].Listing? && sid !in s.sessions
    ensures sid !in Replied(s, t, code, more, choice).sessions
  {
    hide Replied, Grows, Longer;
  }

  /** After position n all viewers of this handoff were closed, and then its resume was confirmed. */
  ghost predicate HandedBack(h: History, n: nat, sid: Sid, handoff: nat) {
    exists a: nat, b: nat :: n <= a < b < |h| && h[a] == Disconnected(sid, handoff, true) && h[b] == Settled(sid, handoff)
  }

  lemma HandedBackStays(h: History, k: History, n: nat, sid: Sid, handoff: nat)
    requires h <= k && HandedBack(h, n, sid, handoff)
    ensures HandedBack(k, n, sid, handoff)
  {
    var a: nat, b: nat :| n <= a < b < |h| && h[a] == Disconnected(sid, handoff, true) && h[b] == Settled(sid, handoff);
    assert k[a] == h[a] && k[b] == h[b];
  }

  /** The session is gone, was handed back, or is still protected by the handoff. */
  ghost predicate Accounted(s: State, sid: Sid, lease: Lease) {
    HandedBack(s.history, lease.since, sid, lease.id) || StaysProtected(s, sid, lease)
  }

  lemma ConfirmedHandsBack(s: State, e: Event, sid: Sid)
    requires Inv(s) && Enabled(s, e) && Protected(s, sid) && sid in s.leases
    requires e.RpcDone? && e.code.None? && s.tasks[e.task].Resuming? && s.tasks[e.task].target == sid
    ensures HandedBack(Next(s, e).history, s.leases[sid].since, sid, s.leases[sid].id)
  {
    Holder(s, e.task);
    hide KeepsPaused, Grows, Longer, DataOk, TasksOk, Resumed, ActiveControl, Protected;
    var h, closed := s.history, s.tasks[e.task].closed;
    assert h[closed] == Disconnected(sid, s.leases[sid].id, true);
    ResumedNotes(s, e.task);
    assert (h + [Settled(sid, s.leases[sid].id)])[closed] == h[closed];
    assert (h + [Settled(sid, s.leases[sid].id)])[|h|] == Settled(sid, s.leases[sid].id);
  }

  lemma ResumedNotes(s: State, t: TaskId)
    requires t in s.tasks && s.tasks[t].Resuming?
    ensures Resumed(s, t, None).history == s.history + [Settled(s.tasks[t].target, s.tasks[t].handoff)]
  {
  }

  lemma AccountedStep(s: State, e: Event, sid: Sid, lease: Lease)
    requires Inv(s) && Enabled(s, e) && sid < s.minted && Accounted(s, sid, lease)
    ensures Accounted(Next(s, e), sid, lease)
  {
    var s' := Next(s, e);
    hide Inv, Next, Enabled, Protected, KeepsPaused, HandedBack;
    if HandedBack(s.history, lease.since, sid, lease.id) {
      NextGrows(s, e);
      HandedBackStays(s.history, s'.history, lease.since, sid, lease.id);
    } else if sid !in s.sessions {
      GoneStep(s, e, sid);
    } else {
      PauseStep(s, e, sid);
      if !StaysProtected(s', sid, s.leases[sid]) { ConfirmedHandsBack(s, e, sid); }
    }
  }

  lemma NextGrows(s: State, e: Event)
    requires Enabled(s, e)
    ensures Longer(s, Next(s, e))
  {
    hide *;
  }

  lemma {:induction false} AccountedRun(s: State, events: seq<Event>, sid: Sid, lease: Lease)
    requires Inv(s) && sid < s.minted && Accounted(s, sid, lease)
    ensures var s' := Run(s, events); Inv(s') && sid < s'.minted && Accounted(s', sid, lease)
    decreases |events|
  {
    if events != [] {
      AccountedRun(s, events[..|events| - 1], sid, lease);
      var before := Run(s, events[..|events| - 1]);
      var e := events[|events| - 1];
      hide Inv, Accounted, Next, Enabled;
      if Enabled(before, e) {
        NextInv(before, e);
        NextGrows(before, e);
        AccountedStep(before, e, sid, lease);
      }
    }
  }

  /** A handoff starts by revoking the session's consent; its focus command is the next entry. */
  lemma HandoffStarts(s: State, t: TaskId)
    requires Inv(s) && t in s.tasks && s.tasks[t].Listing? && SessionOk(s, s.tasks[t].target)
    ensures var sid := s.tasks[t].target;
      var s' := StartHandoff(s, t, true);
      sid in s'.leases && s'.leases[sid].state.Active? && s'.leases[sid].id == s.minted
      && s'.leases[sid].since == |s.history| + 1 && s'.history[..|s.history|] == s.history
      && s'.history[|s.history|..] == [Revoked(sid), Issued(Mcp, FocusRpc, sid, true)]
  {
    hide KeepsPaused, Grows, Longer, Inv;
    var sid := s.tasks[t].target;
    var s1 := TakeLease(Invalidate(s, sid), sid, s.tasks[t].tab);
    assert Paused(s1.leases[sid]);
  }

  /** How a pause ends, over every run: let a handoff be in control of a session at some point of
      a run. If the session is alive and not protected at any later point, then since the
      handoff started all of its viewers were closed, none failing, and after that the worker
      confirmed its resume. */
  lemma PauseEnds(cfg: Config, events: seq<Event>, later: seq<Event>, sid: Sid)
    requires ValidConfig(cfg)
    requires var s := Run(Init(cfg), events); sid in s.leases && Paused(s.leases[sid])
    requires var s' := Run(Run(Init(cfg), events), later); sid in s'.sessions && !Protected(s', sid)
    ensures var lease := Run(Init(cfg), events).leases[sid];
      HandedBack(Run(Run(Init(cfg), events), later).history, lease.since, sid, lease.id)
  {
    RunInv(cfg, events);
    var s := Run(Init(cfg), events);
    AccountedRun(s, later, sid, s.leases[sid]);
  }

  /** One event clears a session's uncertainty only if it is that same confirmed resume. */
  lemma UncertaintyEnds(s: State, e: Event, sid: Sid)
    requires Inv(s) && Enabled(s, e) && sid in s.sessions && sid in Next(s, e).sessions
    requires s.sessions[sid].uncertain && !Next(s, e).sessions[sid].uncertain
    ensures e.RpcDone? && e.code.None? && s.tasks[e.task].Resuming? && s.tasks[e.task].target == sid
  {
    if e.Acquire? {
      BeginKeepsUncertain(s.(lock := Some(e.task)), e.task, s.tasks[e.task].command, e.choice, sid);
    } else if e.RpcDone? {
      RepliedKeepsUncertain(s, e.task, e.code, e.more, e.choice, sid);
    } else if e.PrepareDone? || e.ActDone? || e.WaitDone? || e.Wake? || e.Input? {
      ActKeeps(s, e);
    }
  }

  lemma RepliedKeepsUncertain(s: State, t: TaskId, code: Option<ErrorCode>, more: bool, choice: Sid, sid: Sid)
    requires t in s.tasks && sid in s.sessions && s.sessions[sid].uncertain
    requires sid in Replied(s, t, code, more, choice).sessions && !Replied(s, t, code, more, choice).sessions[sid].uncertain
    ensures s.tasks[t].Resuming? && s.tasks[t].target == sid && code.None?
  {
    if s.tasks[t].Resuming? {
      if s.tasks[t].target != sid || code.Some? { ResumedKeepsUncertain(s, t, code, sid); }
    }
  }

  lemma BeginKeepsUncertain(s: State, t: TaskId, c: Command, choice: Sid, sid: Sid)
    requires t in s.tasks && sid in s.sessions && sid < s.minted && s.sessions[sid].uncertain
    ensures sid in Begin(s, t, c, choice).sessions ==> Begin(s, t, c, choice).sessions[sid].uncertain
  {
    hide Begin, Grows, Longer;
    if c.OpenWork? || c.Read? || c.CancelHandoff? { BeginAdds(s, t, c, choice); }
  }

  lemma ResumedKeepsUncertain(s: State, t: TaskId, code: Option<ErrorCode>, sid: Sid)
    requires t in s.tasks && s.tasks[t].Resuming? && sid in s.sessions && s.sessions[sid].uncertain
    requires s.tasks[t].target != sid || code.Some?
    ensures sid in Resumed(s, t, code).sessions ==> Resumed(s, t, code).sessions[sid].uncertain
  {
    hide Grows, Longer, RpcFailed, StayPaused, SetLease, Finish;
    match code
    case Some(c) =>
      if sid in RpcFailed(s, s.tasks[t].target, c).sessions && sid in Resumed(s, t, code).sessions {
        assert RpcFailed(s, s.tasks[t].target, c).sessions[sid].uncertain;
      }
    case None => SettledKeepsUncertain(s, t, sid);
  }

  lemma SettledKeepsUncertain(s: State, t: TaskId, sid: Sid)
    requires t in s.tasks && s.tasks[t].Resuming? && sid in s.sessions && s.sessions[sid].uncertain && s.tasks[t].target != sid
    ensures sid in Resumed(s, t, None).sessions ==> Resumed(s, t, None).sessions[sid].uncertain
  {
    hide Grows, Longer, KeepsPaused;
  }

  // ---- consent is honoured -------------------------------------------------------------------

  /** An approved request that matches in every respect is dispatched, once, and consumed. */
  lemma ConsentIsHonoured(s: State, t: TaskId, choice: Sid, r: Request, target: nat, needed: bool)
    requires ValidConfig(s.cfg) && s.lock.None? && t in s.tasks && s.tasks[t] == Queued(ActOn(r))
    requires SessionOk(s, r.sid) && !ActiveControl(s) && !s.sessions[r.sid].uncertain
    requires Get(s.executions, s.now, BindingOf(r)).None?
    requires r.token.Some? && Usable(s, r) && s.approvals[r.token.value].value.target == target
    ensures Enabled(s, Acquire(t, choice))
    ensures var s1 := Next(s, Acquire(t, choice));
      Enabled(s1, PrepareDone(t, Prepared(target, needed)))
      && var s2 := Next(s1, PrepareDone(t, Prepared(target, needed)));
         t in s2.tasks && s2.tasks[t].Acting? && s2.tasks[t].request == r && !s2.tasks[t].dispatch.sent
         && Get(s2.executions, s2.now, BindingOf(r)) == Some(true)
         && Get(s2.approvals, s2.now, r.token.value).Some?
         && Get(s2.approvals, s2.now, r.token.value).value.state == Consumed
  {
    var s0 := s.(lock := Some(t));
    BeginsPreparing(s0, t, r);
    var s1 := ActBegin(s0, t, r);
    DispatchesConsumed(s1, t, target, needed);
    assert Next(s1, PrepareDone(t, Prepared(target, needed))) == ConsumeAndDispatch(s1, t, target, needed);
  }

  lemma BeginsPreparing(s: State, t: TaskId, r: Request)
    requires SessionOk(s, r.sid) && !ActiveControl(s) && !s.sessions[r.sid].uncertain
    requires Get(s.executions, s.now, BindingOf(r)).None? && (r.token.Some? ==> Usable(s, r))
    ensures var s1 := ActBegin(s, t, r);
      t in s1.tasks && s1.tasks[t] == Preparing(r, s.sessions[r.sid].epoch, s.now)
      && s1.approvals == s.approvals && s1.executions == s.executions && s1.now == s.now && s1.cfg == s.cfg
  {
  }

  lemma DispatchesConsumed(s: State, t: TaskId, target: nat, needed: bool)
    requires ValidConfig(s.cfg) && t in s.tasks && s.tasks[t].Preparing? && s.tasks[t].request.token.Some?
    requires var record := Get(s.approvals, s.now, s.tasks[t].request.token.value);
      record.Some? && record.value.state.Approved?
    ensures var r := s.tasks[t].request;
      var s2 := ConsumeAndDispatch(s, t, target, needed);
      t in s2.tasks && s2.tasks[t].Acting? && s2.tasks[t].request == r && !s2.tasks[t].dispatch.sent
      && Get(s2.executions, s2.now, BindingOf(r)) == Some(true)
      && Get(s2.approvals, s2.now, r.token.value).Some?
      && Get(s2.approvals, s2.now, r.token.value).value.state == Consumed
  {
  }

  /** Without a token, an action that needs confirmation is proposed and not dispatched. */
  lemma UnconfirmedIsProposed(s: State, t: TaskId, target: nat)
    requires Inv(s) && t in s.tasks && s.tasks[t].Preparing? && s.tasks[t].request.token.None?
    requires !AlreadyProposed(s, ApprovalBindingOf(s.tasks[t].request, s.tasks[t].epoch), target)
    requires |LivePending(s)| < PENDING_LIMIT
    ensures var e := PrepareDone(t, Prepared(target, true));
      Enabled(s, e) && var s' := Next(s, e);
      t !in s'.tasks && s'.lock.None? && s'.executions == s.executions
      && s'.history == s.history + [Proposed(s.minted, ApprovalBindingOf(s.tasks[t].request, s.tasks[t].epoch), target, s.now)]
      && Get(s'.approvals, s.now, s.minted).Some? && s'.approvals[s.minted].value.state == Pending
  {
    assert s.cfg.approvalTtl > 0.0;
  }
}
