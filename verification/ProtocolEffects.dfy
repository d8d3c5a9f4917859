/**
 What each event of the dispatch protocol brings about: which commands are let through, what a
 decision, a reply or a failure changes, and what it leaves alone.
 */
module ProtocolEffects {
  import opened Wrappers
  import opened Adapter
  import opened Worker
  import opened Store
  import opened Protocol
  import opened ProtocolInvariant
  import opened ProtocolSteps
  import opened ProtocolTheorems

  /** The task waits for the free command lock with this command. */
  predicate Waits(s: State, t: TaskId, c: Command) { s.lock.None? && t in s.tasks && s.tasks[t] == Queued(c) }

  /** The stretch ended the task and gave the lock back. */
  predicate Ended(s: State, t: TaskId) { s.lock.None? && t !in s.tasks }

  /** One more command went out. */
  predicate SentOut(s: State, s': State, origin: Origin, rpc: Rpc, sid: Sid) {
    s'.history == s.history + [Issued(origin, rpc, sid, Guarded(s))]
  }

  // ---- decisions ------------------------------------------------------------------------

  /** The item is outstanding and its record awaits a decision of the current epoch. */
  predicate AwaitsDecision(s: State, review: nat) {
    review in s.pending && s.pending[review].expires > s.now
    && var item := s.pending[review];
       item.token in s.approvals && s.approvals[item.token].expires > s.now && s.approvals[item.token].value.state.Pending?
       && SessionOk(s, item.sid) && s.approvals[item.token].value.sid == item.sid
       && s.approvals[item.token].value.epoch == s.sessions[item.sid].epoch
  }

  /** A decision does what it says: the record becomes approved if it was approved, and denied if
      it was denied; a grant renews its window once, a denial keeps what is left of it. */
  lemma DecisionTakesEffect(s: State, t: TaskId, choice: Sid, review: nat, approved: bool)
    requires Waits(s, t, Approve(review, approved)) && AwaitsDecision(s, review)
    ensures Enabled(s, Acquire(t, choice))
    ensures var token := s.pending[review].token;
      var s' := Next(s, Acquire(t, choice));
      token in s'.approvals
      && s'.approvals[token].value == s.approvals[token].value.(state := if approved then Approved else Denied)
      && s'.approvals[token].expires
         == s.now + (if approved then s.cfg.approvalTtl else if s.pending[review].expires - s.now >= 1.0
                     then s.pending[review].expires - s.now else 1.0)
      && (forall x :: x != token ==> (x in s'.approvals <==> x in s.approvals)
                                     && (x in s.approvals ==> s'.approvals[x] == s.approvals[x]))
      && s'.history == s.history + [if approved then Granted(token, s.now) else Declined(token, s.now)]
      && s'.executions == s.executions && s'.sessions == s.sessions && Ended(s', t)
  {
    hide KeepsPaused, Grows, Longer;
  }

  /** Without an outstanding, current, undecided record nothing is decided. */
  lemma StaleDecisionIsRefused(s: State, t: TaskId, choice: Sid, review: nat, approved: bool)
    requires Waits(s, t, Approve(review, approved)) && !AwaitsDecision(s, review)
    ensures var s' := Next(s, Acquire(t, choice));
      s'.approvals == s.approvals && s'.pending == s.pending && s'.history == s.history && Ended(s', t)
  {
    hide KeepsPaused, Grows, Longer;
  }

  /** The event carries out a console decision on this token. */
  ghost predicate Decides(s: State, e: Event, token: Token, approved: bool) {
    Enabled(s, e) && e.Acquire? && s.tasks[e.task].command.Approve? && s.tasks[e.task].command.approved == approved
    && AwaitsDecision(s, s.tasks[e.task].command.review) && s.pending[s.tasks[e.task].command.review].token == token
  }

  lemma GrantStep(s: State, e: Event, token: Token)
    requires Enabled(s, e)
    ensures token in Grants(Next(s, e).history) && token !in Grants(s.history) ==> Decides(s, e, token, true)
    ensures token in Declines(Next(s, e).history) && token !in Declines(s.history) ==> Decides(s, e, token, false)
  {
    if e.Acquire? && s.tasks[e.task].command.Approve? {
      var c := s.tasks[e.task].command;
      if AwaitsDecision(s, c.review) {
        DecisionTakesEffect(s, e.task, e.choice, c.review, c.approved);
        var x := s.pending[c.review].token;
        DecisionsSnoc(s.history, if c.approved then Granted(x, s.now) else Declined(x, s.now));
      } else {
        StaleDecisionIsRefused(s, e.task, e.choice, c.review, c.approved);
      }
      hide Next;
    } else {
      hide Next;
    }
  }

  /** Every grant and every denial in a run stems from a console decision to exactly that effect,
      on an outstanding proposal of that token. */
  lemma {:induction false} DecisionsStem(cfg: Config, events: seq<Event>, token: Token, approved: bool) returns (n: nat)
    requires token in if approved then Grants(HistoryOf(cfg, events)) else Declines(HistoryOf(cfg, events))
    ensures n < |events| && Decides(Run(Init(cfg), events[..n]), events[n], token, approved)
    decreases |events|
  {
    hide Decides, Next;
    var front, e := events[..|events| - 1], events[|events| - 1];
    var before := Run(Init(cfg), front);
    if token in if approved then Grants(before.history) else Declines(before.history) {
      n := DecisionsStem(cfg, front, token, approved);
      assert events[..n] == front[..n];
    } else {
      n := |events| - 1;
      if Enabled(before, e) { GrantStep(before, e, token); }
    }
  }

  /** The same for one entry of the history. */
  lemma GrantStems(cfg: Config, events: seq<Event>, k: nat) returns (n: nat)
    requires k < |HistoryOf(cfg, events)| && HistoryOf(cfg, events)[k].Granted?
    ensures n < |events| && Decides(Run(Init(cfg), events[..n]), events[n], HistoryOf(cfg, events)[k].token, true)
  {
    DecidedIn(HistoryOf(cfg, events), k);
    n := DecisionsStem(cfg, events, HistoryOf(cfg, events)[k].token, true);
  }

  /** A denied token is never dispatched, before or after: in no run does a dispatch present a token
      that was declined, and every denied record was declined. */
  lemma DeniedNeverDispatched(cfg: Config, events: seq<Event>, token: Token, j: nat)
    requires ValidConfig(cfg)
    requires var s := Run(Init(cfg), events);
      token in Declines(s.history) || (token in s.approvals && s.approvals[token].value.state.Denied?)
    ensures var h := HistoryOf(cfg, events); j < |h| && h[j].Dispatched? ==> h[j].request.token != Some(token)
  {
    RunInv(cfg, events);
    var s := Run(Init(cfg), events);
    if token in s.approvals { assert DecidedOk(s.history, token, s.approvals[token].value.state); }
    var h := HistoryOf(cfg, events);
    if j < |h| && h[j].Dispatched? && h[j].request.token == Some(token) {
      var _, k := ApprovalSoundness(cfg, events, j);
      DecidedIn(h, k);
    }
  }

  // ---- what is let through ------------------------------------------------------------------

  /** An action is prepared exactly when its session is live and certain, nobody is in control, it
      has not been dispatched before, and a token it presents was approved for exactly it. */
  predicate MayPrepare(s: State, r: Request) {
    SessionOk(s, r.sid) && !ActiveControl(s) && !s.sessions[r.sid].uncertain
    && !(BindingOf(r) in s.executions && s.executions[BindingOf(r)].expires > s.now)
    && (r.token.Some? ==>
          r.token.value in s.approvals && s.approvals[r.token.value].expires > s.now
          && s.approvals[r.token.value].value.state == Approved
          && s.approvals[r.token.value].value.binding == ApprovalBinding(r.sid, r.tab, s.sessions[r.sid].epoch, r.action))
  }

  lemma ActionAdmitted(s: State, t: TaskId, choice: Sid, r: Request)
    requires Waits(s, t, ActOn(r)) && MayPrepare(s, r)
    ensures var s' := Next(s, Acquire(t, choice));
      SentOut(s, s', Mcp, PrepareRpc, r.sid) && t in s'.tasks && s'.tasks[t].Preparing? && s'.tasks[t].request == r
      && s'.tasks[t].epoch == s.sessions[r.sid].epoch
  {
    hide KeepsPaused, Grows, Longer;
  }

  lemma ActionRefused(s: State, t: TaskId, choice: Sid, r: Request)
    requires Waits(s, t, ActOn(r)) && !MayPrepare(s, r)
    ensures var s' := Next(s, Acquire(t, choice));
      s'.history == s.history && Ended(s', t) && s'.approvals == s.approvals && s'.executions == s.executions
  {
    var s0 := s.(lock := Some(t));
    assert ActiveControl(s0) == ActiveControl(s) && SessionOk(s0, r.sid) == SessionOk(s, r.sid);
    NotBegun(s0, t, r);
    hide ActBegin, KeepsPaused, Grows, Longer;
  }

  lemma NotBegun(s: State, t: TaskId, r: Request)
    requires !MayPrepare(s, r)
    ensures ActBegin(s, t, r) == Finish(s, t)
  {
    hide Finish, Issue, ActiveControl, SessionOk, KeepsPaused, Grows, Longer;
  }

  /** A navigation starts exactly in a live, certain session without control or a pending one. */
  lemma NavigationAdmitted(s: State, t: TaskId, choice: Sid, sid: Sid)
    requires Waits(s, t, Navigate(sid))
    ensures var s' := Next(s, Acquire(t, choice));
      if SessionOk(s, sid) && !ActiveControl(s) && !s.sessions[sid].uncertain && sid !in s.navigations
      then SentOut(s, s', Mcp, NavigationBegin, sid) && t in s'.tasks
      else s'.history == s.history && Ended(s', t)
  {
    hide KeepsPaused, Grows, Longer;
  }

  /** A new session is opened exactly when there is room for one and nobody is in control. */
  lemma OpenAdmitted(s: State, t: TaskId, choice: Sid, url: bool)
    requires Waits(s, t, OpenWork(url)) && !ActiveControl(s) && |s.sessions| < s.cfg.maxSessions
    ensures var s' := Next(s, Acquire(t, choice));
      s'.history[|s.history|..] == [Issued(Mcp, OtherRpc, s.minted, Guarded(s))] && s.history <= s'.history
      && s'.sessions == s.sessions[s.minted := Session(s.now + s.cfg.sessionTtl, false, 0)]
      && s'.reader == s.reader && t in s'.tasks
  {
    hide KeepsPaused, Grows, Longer;
  }

  lemma OpenRefused(s: State, t: TaskId, choice: Sid, url: bool)
    requires Waits(s, t, OpenWork(url)) && (ActiveControl(s) || |s.sessions| >= s.cfg.maxSessions)
    ensures var s' := Next(s, Acquire(t, choice)); s'.history == s.history && s'.sessions == s.sessions && Ended(s', t)
  {
    hide KeepsPaused, Grows, Longer, Guarded;
  }

  /** Opening in an existing session; an address is refused while the last outcome is uncertain. */
  lemma OpenTabAdmitted(s: State, t: TaskId, choice: Sid, sid: Sid, listFirst: bool, url: bool)
    requires Waits(s, t, OpenTab(sid, listFirst, url))
    ensures var s' := Next(s, Acquire(t, choice));
      if SessionOk(s, sid) && !ActiveControl(s) && sid !in s.navigations && (url ==> !s.sessions[sid].uncertain)
      then SentOut(s, s', Mcp, OtherRpc, sid) && t in s'.tasks
      else s'.history == s.history && Ended(s', t)
  {
    hide KeepsPaused, Grows, Longer;
  }

  /** The page opened with an address starts to load, unless a navigation is already pending. */
  lemma OpenedLoads(s: State, t: TaskId, choice: Sid, more: bool)
    requires t in s.tasks && s.tasks[t].Opening?
    ensures var sid := s.tasks[t].target;
      var s' := Next(s, RpcDone(t, None, more, choice));
      if !s.tasks[t].url then Ended(s', t) && s'.history == s.history
      else if sid in s.navigations then Ended(s', t)
      else SentOut(s, s', Mcp, NavigationBegin, sid) && t in s'.tasks && s'.tasks[t] == Beginning(Mcp, sid)
  {
    hide KeepsPaused, Grows, Longer;
  }

  /** What a navigation leaves: pending or not, it is listed as such and the lock is free. */
  lemma NavigationBegun(s: State, t: TaskId, choice: Sid, pending: bool)
    requires t in s.tasks && s.tasks[t].Beginning?
    ensures var s' := Next(s, RpcDone(t, None, pending, choice));
      Ended(s', t) && s'.history == s.history
      && s'.navigations == if pending then s.navigations + {s.tasks[t].target} else s.navigations
  {
    hide KeepsPaused, Grows, Longer;
  }

  /** A read uses the reader's own session, opened when it is missing and there is room. */
  lemma ReadAdmitted(s: State, t: TaskId, choice: Sid)
    requires Waits(s, t, Read) && (ActiveControl(s) || (s.reader.Some? && s.reader.value in s.sessions))
    ensures var s' := Next(s, Acquire(t, choice));
      s'.sessions == s.sessions
      && if ActiveControl(s) then s'.history == s.history && Ended(s', t)
         else SentOut(s, s', Reader, OtherRpc, s.reader.value) && t in s'.tasks
  {
    hide KeepsPaused, Grows, Longer;
  }

  lemma ReadOpens(s: State, t: TaskId, choice: Sid)
    requires Waits(s, t, Read) && !ActiveControl(s) && (s.reader.None? || s.reader.value !in s.sessions)
    ensures var s' := Next(s, Acquire(t, choice));
      if |s.sessions| < s.cfg.maxSessions then
        s'.reader == Some(s.minted) && s'.sessions == s.sessions[s.minted := Session(s.now + s.cfg.readerTtl, false, 0)]
        && s.history <= s'.history && s'.history[|s.history|..] == [Issued(Reader, OtherRpc, s.minted, Guarded(s))]
      else s'.history == s.history && s'.sessions == s.sessions && Ended(s', t)
  {
    hide KeepsPaused, Grows, Longer;
  }

  /** A read goes through its four commands to the navigation; an earlier one is dropped first. */
  lemma ReadGoesOn(s: State, t: TaskId, choice: Sid, more: bool)
    requires t in s.tasks && s.tasks[t].Reading?
    ensures var sid := s.tasks[t].target;
      var s' := Next(s, RpcDone(t, None, more, choice));
      match s.tasks[t].step
      case OpensTab => SentOut(s, s', Reader, OtherRpc, sid) && s'.readerTab
                       && s'.tasks[t] == Reading(sid, if sid in s.navigations then EndsNavigation else CancelsJob)
      case EndsNavigation => s'.tasks[t] == Reading(sid, CancelsJob) && sid !in s'.navigations
      case CancelsJob => SentOut(s, s', Reader, OtherRpc, sid) && s'.tasks[t] == Reading(sid, Configures)
      case Configures =>
        if sid in s.navigations then Ended(s', t)
        else SentOut(s, s', Reader, NavigationBegin, sid) && s'.tasks[t] == Beginning(Reader, sid)
  {
    hide KeepsPaused, Grows, Longer;
  }

  // ---- after prepare ----------------------------------------------------------------------------

  /** An action that needs no confirmation and presents none is dispatched, and recorded unless it
      is passive. */
  lemma FreeActionDispatched(s: State, t: TaskId, target: nat)
    requires t in s.tasks && s.tasks[t].Preparing? && s.tasks[t].request.token.None?
    ensures var r := s.tasks[t].request;
      var s' := Next(s, PrepareDone(t, Prepared(target, false)));
      t in s'.tasks && s'.tasks[t].Acting? && s'.tasks[t].request == r
      && s.history <= s'.history && |s'.history| == |s.history| + 2
      && s'.history[|s.history|] == Dispatched(r, s.tasks[t].epoch, target, false, s.now)
      && s'.history[|s.history| + 1].Issued? && s'.history[|s.history| + 1].rpc.ActRpc?
      && (if Passive(r.action) then s'.executions == s.executions
          else BindingOf(r) in s'.executions && s'.executions[BindingOf(r)].expires == s.now + Max(DAY, s.cfg.sessionTtl))
      && s'.approvals == s.approvals
  {
    var r := s.tasks[t].request;
    var seen := Dispatched(r, s.tasks[t].epoch, target, false, s.now);
    RecordedAdds(s, r, seen);
    hide DispatchApproved, Propose, Recorded, Guarded, KeepsPaused, Grows, Longer;
    assert Next(s, PrepareDone(t, Prepared(target, false))) == DispatchFreely(s, t, target, false);
  }

  lemma RecordedAdds(s: State, r: Request, seen: Obs)
    requires seen.Dispatched?
    ensures var s' := Recorded(s, r, seen);
      s'.history == s.history + [seen] && s'.approvals == s.approvals
      && (if Passive(r.action) then s'.executions == s.executions
          else BindingOf(r) in s'.executions && s'.executions[BindingOf(r)].expires == s.now + Max(DAY, s.cfg.sessionTtl))
  {
    hide KeepsPaused, Grows, Longer, Passive;
    if Passive(r.action) { assert Recorded(s, r, seen) == Note(s, seen); }
  }

  /** Consent for another target, or consent that is gone, dispatches nothing and changes nothing. */
  lemma WrongTargetRefused(s: State, t: TaskId, target: nat, needed: bool)
    requires t in s.tasks && s.tasks[t].Preparing? && s.tasks[t].request.token.Some?
    requires var token := s.tasks[t].request.token.value;
      !(token in s.approvals && s.approvals[token].expires > s.now
        && s.approvals[token].value.target == target && s.approvals[token].value.state.Approved?)
    ensures var s' := Next(s, PrepareDone(t, Prepared(target, needed)));
      Ended(s', t) && s'.history == s.history && s'.approvals == s.approvals && s'.executions == s.executions
  {
    hide DispatchApproved, DispatchFreely, Propose, KeepsPaused, Grows, Longer;
  }

  /** An outstanding proposal is not repeated, and the bound of outstanding ones is kept. */
  lemma NotProposedAgain(s: State, t: TaskId, target: nat)
    requires t in s.tasks && s.tasks[t].Preparing? && s.tasks[t].request.token.None?
    requires AlreadyProposed(s, ApprovalBindingOf(s.tasks[t].request, s.tasks[t].epoch), target)
             || |LivePending(s)| >= PENDING_LIMIT
    ensures var s' := Next(s, PrepareDone(t, Prepared(target, true)));
      Ended(s', t) && s'.history == s.history && s'.approvals == s.approvals && s'.executions == s.executions
      && (forall k :: k in s'.pending <==> k in s.pending && s.pending[k].expires > s.now)
  {
    ProposalRefused(s, t, target);
    hide Propose, ConsumeAndDispatch, AlreadyProposed, KeepsPaused, Grows, Longer;
  }

  lemma ProposalRefused(s: State, t: TaskId, target: nat)
    requires t in s.tasks && s.tasks[t].Preparing?
    requires AlreadyProposed(s, ApprovalBindingOf(s.tasks[t].request, s.tasks[t].epoch), target)
             || |LivePending(s)| >= PENDING_LIMIT
    ensures var s' := Propose(s, t, target);
      Ended(s', t) && s'.history == s.history && s'.approvals == s.approvals && s'.executions == s.executions
      && s'.pending == LivePending(s)
  {
    TouchIs(s.(pending := LivePending(s)), s.tasks[t].request.sid);
    hide AddProposal, AlreadyProposed, AlreadyDenied, Touch, Touched, LivePending, KeepsPaused, Grows, Longer;
  }

  // ---- replies to an action ------------------------------------------------------------------------

  /** The worker fell silent or hung up, crashed in the action, or said that it does not know. */
  predicate EndsUnclear(transport: Transport, exit: Exit) {
    transport.SilentFor45s? || transport.PipeBroken?
    || (transport.Delivered? && (exit.Crashed? || (exit.Raised? && exit.code.ResultUncertain?)))
  }

  /** An action that ends unclear latches its living session; records and consent stay as they are. */
  lemma UncertainReplyLatches(s: State, t: TaskId, transport: Transport, exit: Exit)
    requires Inv(s) && Enabled(s, ActDone(t, transport, exit)) && EndsUnclear(transport, exit)
    requires s.tasks[t].request.sid in s.sessions
    ensures var sid := s.tasks[t].request.sid;
      var s' := Next(s, ActDone(t, transport, exit));
      sid in s'.sessions && s'.sessions[sid].uncertain && Latched(s'.history, sid) && Ended(s', t)
      && s'.executions == s.executions && s'.approvals == s.approvals
  {
    NextInv(s, ActDone(t, transport, exit));
    var s' := Next(s, ActDone(t, transport, exit));
    UncertainReply(s, t, transport, exit);
    hide Next, Enabled, TasksOk, Run;
    EpochCounts(s', s.tasks[t].request.sid);
  }

  lemma UncertainReply(s: State, t: TaskId, transport: Transport, exit: Exit)
    requires Enabled(s, ActDone(t, transport, exit)) && EndsUnclear(transport, exit)
    requires s.tasks[t].request.sid in s.sessions
    ensures var sid := s.tasks[t].request.sid;
      var s' := Next(s, ActDone(t, transport, exit));
      sid in s'.sessions && s'.sessions[sid].uncertain && Ended(s', t)
      && s'.executions == s.executions && s'.approvals == s.approvals
  {
    var s0 := if transport.Delivered? then s else InputSent(s, t);
    SentKeepsConsent(s, t);
    FailedReply(s, t, transport, exit);
    UncertainFailure(s0, t, s.tasks[t].request, s0.tasks[t].dispatch);
    hide Next, ActFailed, InputSent, Enabled;
  }

  lemma UncertainFailure(s: State, t: TaskId, r: Request, d: Dispatch)
    requires r.sid in s.sessions
    ensures var s' := ActFailed(s, t, r, d, ResultUncertain, false);
      r.sid in s'.sessions && s'.sessions[r.sid].uncertain && Ended(s', t)
      && s'.executions == s.executions && s'.approvals == s.approvals
  {
    hide KeepsPaused, Grows, Longer, Rollback;
  }

  /** A reply to another request means that the worker cannot be trusted: it is given up. */
  lemma LostActionClears(s: State, t: TaskId, exit: Exit)
    requires Enabled(s, ActDone(t, WrongRequestId, exit))
    ensures Cleared(s, Next(s, ActDone(t, WrongRequestId, exit)), t)
  {
    var s0 := InputSent(s, t);
    SentKeepsConsent(s, t);
    FailedReply(s, t, WrongRequestId, exit);
    LosingAction(s0, t, s.tasks[t].request, s0.tasks[t].dispatch);
    hide Next, ActFailed, InputSent, Enabled;
  }

  lemma LosingAction(s: State, t: TaskId, r: Request, d: Dispatch)
    ensures Cleared(s, ActFailed(s, t, r, d, SessionExpired(false), false), t)
  {
    hide KeepsPaused, Grows, Longer, Rollback;
  }

  /** A delivered reply that guarantees that nothing was sent undoes the dispatch: its execution
      record is gone, and consent that nobody has touched since is back for what was left of it. */
  lemma NoSendUndoes(s: State, t: TaskId, code: ErrorCode)
    requires t in s.tasks && s.tasks[t].Acting? && !s.tasks[t].dispatch.sent && !code.ResultUncertain?
    ensures var e := ActDone(t, Delivered, Raised(code, Some(false)));
      Enabled(s, e) && Undone(s.approvals, s.executions, Next(s, e), s.tasks[t].request, s.tasks[t].dispatch)
  {
    var r, d := s.tasks[t].request, s.tasks[t].dispatch;
    FailedReply(s, t, Delivered, Raised(code, Some(false)));
    FailingUndoes(s, t, r, d, code);
    hide Next, ActFailed, Undone;
  }

  ghost predicate Undone(approvals: Table<Token, Approval>, executions: Table<Binding, bool>, s': State, r: Request, d: Dispatch) {
    (d.recorded ==> BindingOf(r) !in s'.executions)
    && (forall b :: b != BindingOf(r) ==> (b in s'.executions <==> b in executions)
                                          && (b in executions ==> s'.executions[b] == executions[b]))
    && (r.token.Some? && d.consent.Some? && Get(approvals, s'.now, r.token.value) == d.consumed
        && d.consent.value.1 > s'.now ==>
          r.token.value in s'.approvals && s'.approvals[r.token.value] == Row(d.consent.value.0, d.consent.value.1)
          && forall k :: k in d.removed ==> k in s'.pending && s'.pending[k] == d.removed[k])
  }

  lemma FailingUndoes(s: State, t: TaskId, r: Request, d: Dispatch, code: ErrorCode)
    ensures Undone(s.approvals, s.executions, ActFailed(s, t, r, d, code, true), r, d)
  {
    FailureKeepsConsent(s, r.sid, code);
    RolledBack(RpcFailed(s, r.sid, code), r, d);
    hide RpcFailed, Rollback, KeepsPaused, Grows, Longer;
  }

  lemma RolledBack(s: State, r: Request, d: Dispatch)
    ensures Undone(s.approvals, s.executions, Rollback(s, r, d), r, d)
  {
    hide KeepsPaused, Grows, Longer;
    if r.token.Some? && d.consent.Some? {
      assert s.now + (d.consent.value.1 - s.now) == d.consent.value.1;
    }
  }

  /** No failure by itself touches approvals or executions. */
  lemma FailureKeepsConsent(s: State, sid: Sid, code: ErrorCode)
    ensures var s' := RpcFailed(s, sid, code);
      s'.approvals == s.approvals && s'.executions == s.executions && s'.now == s.now
  {
    hide KeepsPaused, Grows, Longer;
  }

  /** Every other reply keeps the execution record and leaves all consent as it is. */
  lemma OtherRepliesKeep(s: State, t: TaskId, transport: Transport, exit: Exit)
    requires Enabled(s, ActDone(t, transport, exit))
    requires transport.Delivered? && exit.Raised? && exit.flag == Some(false) ==> exit.code.ResultUncertain?
    ensures var s' := Next(s, ActDone(t, transport, exit)); s'.executions == s.executions && s'.approvals == s.approvals
  {
    var r := s.tasks[t].request;
    if Receive(true, transport, exit).Error? {
      var s0 := if transport.Delivered? then s else InputSent(s, t);
      SentKeepsConsent(s, t);
      FailedReply(s, t, transport, exit);
      FailingKeepsConsent(s0, t, r, s0.tasks[t].dispatch, Receive(true, transport, exit).code);
      hide Next, ActFailed, InputSent, Enabled;
    } else {
      PerformedReply(s, t, exit);
      AskingKeepsConsent(s, t, Observing(r, exit));
      FollowingKeepsConsent(s, t, Observing(r, exit));
      hide Next, FollowUp, AskCompletion, InputSent, Enabled;
    }
  }

  /** What a failed reply leads to. */
  lemma FailedReply(s: State, t: TaskId, transport: Transport, exit: Exit)
    requires Enabled(s, ActDone(t, transport, exit)) && Receive(true, transport, exit).Error?
    ensures var s0 := if transport.Delivered? then s else InputSent(s, t);
      var reply := Receive(true, transport, exit);
      t in s0.tasks && s0.tasks[t].Acting?
      && Next(s, ActDone(t, transport, exit))
         == ActFailed(s0, t, s.tasks[t].request, s0.tasks[t].dispatch, reply.code, GuaranteesNoSend(reply))
  {
    SentKeepsConsent(s, t);
    hide ActFailed, Possible, InputSent, Receive, GuaranteesNoSend, KeepsPaused, Grows, Longer;
  }

  lemma PerformedReply(s: State, t: TaskId, exit: Exit)
    requires Enabled(s, ActDone(t, Delivered, exit)) && exit.Returned?
    ensures var q := Observing(s.tasks[t].request, exit);
      Next(s, ActDone(t, Delivered, exit)) in {AskCompletion(s, t, q), FollowUp(s, t, q)}
  {
    hide AskCompletion, FollowUp, Possible, InputSent, KeepsPaused, Grows, Longer;
  }

  lemma FailingKeepsConsent(s: State, t: TaskId, r: Request, d: Dispatch, code: ErrorCode)
    ensures var s' := ActFailed(s, t, r, d, code, false); s'.approvals == s.approvals && s'.executions == s.executions
  {
    FailureKeepsConsent(s, r.sid, code);
    hide RpcFailed, KeepsPaused, Grows, Longer;
  }

  lemma SentKeepsConsent(s: State, t: TaskId)
    requires t in s.tasks && s.tasks[t].Acting?
    ensures var s' := InputSent(s, t);
      s'.approvals == s.approvals && s'.executions == s.executions && s'.sessions == s.sessions
      && t in s'.tasks && s'.tasks[t].Acting? && s'.tasks[t].request == s.tasks[t].request
  {
    hide KeepsPaused, Grows, Longer;
  }

  lemma FollowingKeepsConsent(s: State, t: TaskId, r: Request)
    ensures FollowUp(s, t, r).approvals == s.approvals && FollowUp(s, t, r).executions == s.executions
  {
    hide KeepsPaused, Grows, Longer, ActiveControl, Guarded, SessionOk;
  }

  lemma AskingKeepsConsent(s: State, t: TaskId, r: Request)
    ensures AskCompletion(s, t, r).approvals == s.approvals && AskCompletion(s, t, r).executions == s.executions
  {
    var s1 := SetUncertain(s, r.sid);
    FollowingKeepsConsent(s1, t, r);
    FailureKeepsConsent(s, r.sid, ResultUncertain);
    assert RpcFailed(s, r.sid, ResultUncertain) == s1;
    hide FollowUp, RpcFailed, SetUncertain, KeepsPaused, Grows, Longer, ActiveControl, Guarded, SessionOk;
  }

  /** A performed action whose completion is asked for is polled; one that cannot be polled is uncertain. */
  lemma CompletionPolled(s: State, t: TaskId, dialog: bool)
    requires t in s.tasks && s.tasks[t].Acting? && s.tasks[t].request.completion && s.tasks[t].request.sid in s.sessions
    ensures var r := s.tasks[t].request;
      var s' := Next(s, ActDone(t, Delivered, Returned(true, dialog)));
      if SessionOk(s, r.sid) && !ActiveControl(s)
      then SentOut(s, s', Mcp, WaitRpc, r.sid) && s'.tasks[t] == Completing(r.(followUp := r.followUp && !dialog))
      else r.sid in s'.sessions && s'.sessions[r.sid].uncertain
  {
    hide KeepsPaused, Grows, Longer;
  }

  /** Without a completion to wait for, the session's idle time starts anew, or it is observed first if
      that was asked for and no dialog is open. */
  lemma ActionConcludes(s: State, t: TaskId, performed: bool, dialog: bool)
    requires t in s.tasks && s.tasks[t].Acting? && s.tasks[t].request.sid in s.sessions
    requires !(s.tasks[t].request.completion && performed)
    ensures var r := s.tasks[t].request;
      var s' := Next(s, ActDone(t, Delivered, Returned(performed, dialog)));
      if r.followUp && !dialog && SessionOk(s, r.sid) && !ActiveControl(s)
      then SentOut(s, s', Mcp, OtherRpc, r.sid) && s'.tasks[t] == FollowingUp(r.sid)
      else Ended(s', t) && r.sid in s'.sessions
           && s'.sessions[r.sid] == s.sessions[r.sid].(expires :=
                s.now + if s.reader == Some(r.sid) then s.cfg.readerTtl else s.cfg.sessionTtl)
  {
    hide KeepsPaused, Grows, Longer;
  }

  /** A completion that was seen settles nothing and unsettles nothing; one that was partly seen
      leaves the session uncertain. */
  lemma CompletionJudged(s: State, t: TaskId, reply: WaitReply)
    requires t in s.tasks && s.tasks[t].Completing? && s.tasks[t].request.sid in s.sessions && !reply.WaitFailed?
    ensures var sid := s.tasks[t].request.sid;
      var s' := Next(s, WaitDone(t, reply));
      sid in s'.sessions
      && s'.sessions[sid].uncertain == (s.sessions[sid].uncertain || (reply.Unmatched? && reply.partial))
  {
    var r := s.tasks[t].request;
    if reply.Unmatched? && reply.partial {
      FollowingKeepsSessions(SetUncertain(s, r.sid), t, r);
    } else {
      FollowingKeepsSessions(s, t, r);
    }
    hide FollowUp, KeepsPaused, Grows, Longer;
  }

  lemma FollowingKeepsSessions(s: State, t: TaskId, r: Request)
    requires r.sid in s.sessions
    ensures var s' := FollowUp(s, t, r);
      r.sid in s'.sessions && s'.sessions[r.sid].uncertain == s.sessions[r.sid].uncertain
  {
    hide KeepsPaused, Grows, Longer, ActiveControl, Guarded, SessionOk;
  }

  /** A poll that failed is repeated where that may help; otherwise it leaves the session uncertain. */
  lemma CompletionRepeated(s: State, t: TaskId, code: ErrorCode)
    requires t in s.tasks && s.tasks[t].Completing? && code.OtherCode?
    ensures var s' := Next(s, WaitDone(t, WaitFailed(code, true)));
      t in s'.tasks && s'.tasks[t] == Sleeping(s.tasks[t].request) && s'.sessions == s.sessions && s'.history == s.history
  {
    hide FollowUp, KeepsPaused, Grows, Longer;
  }

  lemma CompletionUnobserved(s: State, t: TaskId, code: ErrorCode, retry: bool)
    requires t in s.tasks && s.tasks[t].Completing? && s.tasks[t].request.sid in s.sessions
    requires !code.SessionExpired? && !code.WorkerTimeout? && !(code.OtherCode? && retry)
    ensures var sid := s.tasks[t].request.sid;
      var s' := Next(s, WaitDone(t, WaitFailed(code, retry))); sid in s'.sessions && s'.sessions[sid].uncertain
  {
    hide FollowUp, SetUncertain, RpcFailed, KeepsPaused, Grows, Longer;
    var r := s.tasks[t].request;
    var s1 := SetUncertain(RpcFailed(s, r.sid, code), r.sid);
    StillThere(s, r.sid, code);
    FollowingKeepsSessions(s1, t, r);
    assert Next(s, WaitDone(t, WaitFailed(code, retry))) == FollowUp(s1, t, r);
  }

  // ---- failures --------------------------------------------------------------------------------------

  /** Only the loss of a browser or worker takes a session along. */
  lemma StillThere(s: State, sid: Sid, code: ErrorCode)
    requires sid in s.sessions && !code.SessionExpired? && !code.WorkerTimeout?
    ensures var s' := SetUncertain(RpcFailed(s, sid, code), sid); sid in s'.sessions && s'.sessions[sid].uncertain
  {
    hide KeepsPaused, Grows, Longer;
  }

  /** Any command that is not an action. */
  predicate OtherCommand(pc: Pc) { InFlight(pc) && !pc.Preparing? && !pc.Acting? && !pc.Completing? }

  /** A lost worker takes every session and lease with it, whichever command found out. */
  lemma WorkerLossClears(s: State, t: TaskId, code: ErrorCode, more: bool, choice: Sid)
    requires t in s.tasks && OtherCommand(s.tasks[t]) && (code.WorkerTimeout? || code == SessionExpired(false))
    ensures var s' := Next(s, RpcDone(t, Some(code), more, choice));
      Cleared(s, s', t)
  {
    var pc := s.tasks[t];
    var s' := Next(s, RpcDone(t, Some(code), more, choice));
    LossEnds(s, t, pc.target, code);
    LossEndsClosing(s, t, pc.target, code);
    hide FailTask, CloseFailed, Forget, Touch, ReapNext, ReadOn, Succeeded, StayPaused, KeepsPaused, Grows, Longer;
    if pc.Resuming? {
      assert s' == Resumed(s, t, Some(code));
    } else if pc.Reading? {
      assert s' == ReadReplied(s, t, Some(code));
    } else if Ordinary(pc) || pc.Reaping? {
      assert s' == FailTask(s, t, pc.target, code);
    } else {
      assert s' == CloseFailed(s, t, pc.target, code);
    }
  }

  /** No session is left and the task waits for the worker to be shut down. */
  predicate Cleared(s: State, s': State, t: TaskId) {
    s'.sessions == map[] && s'.leases == map[] && s'.navigations == {} && s'.approvals == s.approvals
    && s'.executions == s.executions && t in s'.tasks && s'.tasks[t].ShuttingDown?
  }

  lemma LossEnds(s: State, t: TaskId, sid: Sid, code: ErrorCode)
    requires code.WorkerTimeout? || code == SessionExpired(false)
    ensures Cleared(s, FailTask(s, t, sid, code), t)
  {
    hide KeepsPaused, Grows, Longer;
  }

  lemma LossEndsClosing(s: State, t: TaskId, sid: Sid, code: ErrorCode)
    requires code.WorkerTimeout? || code == SessionExpired(false)
    ensures Cleared(s, CloseFailed(s, t, sid, code), t)
  {
    hide KeepsPaused, Grows, Longer, Forget, StayPaused;
  }

  /** A lost browser takes its own session and no other. */
  lemma BrowserLossForgets(s: State, t: TaskId, more: bool, choice: Sid)
    requires t in s.tasks && Ordinary(s.tasks[t]) && s.tasks[t].target in s.sessions
    ensures var sid := s.tasks[t].target;
      var s' := Next(s, RpcDone(t, Some(SessionExpired(true)), more, choice));
      s'.sessions == s.sessions - {sid} && s'.leases == s.leases - {sid} && Ended(s', t)
      && (forall k :: k in s'.pending <==> k in s.pending && s.pending[k].sid != sid)
  {
    hide KeepsPaused, Grows, Longer;
  }

  // ---- the rest of a command -----------------------------------------------------------------------------

  /** The session's idle time starts anew and nothing else about any session changes. */
  ghost predicate Touched(s: State, s': State, sid: Sid) {
    s'.sessions.Keys == s.sessions.Keys
    && forall x :: x in s.sessions ==>
         s'.sessions[x] == if x == sid
                           then s.sessions[x].(expires := s.now + if s.reader == Some(x) then s.cfg.readerTtl else s.cfg.sessionTtl)
                           else s.sessions[x]
  }

  /** A completion that is overdue leaves the session uncertain; one that is not is asked for again. */
  lemma OverdueIsUncertain(s: State, t: TaskId)
    requires t in s.tasks && s.tasks[t].Sleeping? && s.tasks[t].request.sid in s.sessions
    ensures var sid := s.tasks[t].request.sid;
      var s' := Next(s, Wake(t, true)); sid in s'.sessions && s'.sessions[sid].uncertain
  {
    var r := s.tasks[t].request;
    FollowingKeepsSessions(SetUncertain(s, r.sid), t, r);
    hide FollowUp, KeepsPaused, Grows, Longer;
  }

  lemma AskedAgain(s: State, t: TaskId)
    requires t in s.tasks && s.tasks[t].Sleeping?
    ensures var r := s.tasks[t].request;
      var s' := Next(s, Wake(t, false));
      SessionOk(s, r.sid) && !ActiveControl(s) ==> SentOut(s, s', Mcp, WaitRpc, r.sid) && s'.tasks[t] == Completing(r)
  {
    hide KeepsPaused, Grows, Longer, FollowUp;
  }

  lemma TouchIs(s: State, sid: Sid)
    ensures var s' := Touch(s, sid);
      Touched(s, s', sid) && s'.history == s.history && s'.pending == s.pending && s'.approvals == s.approvals
      && s'.executions == s.executions && s'.leases == s.leases && s'.navigations == s.navigations
  {
    hide KeepsPaused, Grows, Longer;
  }

  /** A command that is followed by no other ends its task, and the session's idle time starts anew. */
  lemma CommandConcludes(s: State, t: TaskId, more: bool, choice: Sid)
    requires t in s.tasks && (s.tasks[t].FollowingUp? || s.tasks[t].Focusing? || (s.tasks[t].Browsing? && !more))
    ensures var s' := Next(s, RpcDone(t, None, more, choice));
      Ended(s', t) && Touched(s, s', s.tasks[t].target) && s'.history == s.history && s'.leases == s.leases
  {
    var sid := s.tasks[t].target;
    TouchIs(s, sid);
    hide Touch, KeepsPaused, Grows, Longer, ActiveControl;
    assert Next(s, RpcDone(t, None, more, choice)) == Finish(Touch(s, sid), t);
  }

  /** A browsing command may send further ones under the same lock, and so does an open that first
      looks for a blank tab. */
  lemma CommandGoesOn(s: State, t: TaskId, more: bool, choice: Sid)
    requires t in s.tasks && (s.tasks[t].ListingTabs? || (s.tasks[t].Browsing? && more))
    ensures var pc := s.tasks[t];
      var s' := Next(s, RpcDone(t, None, more, choice));
      SentOut(s, s', if pc.Browsing? then pc.origin else Mcp, OtherRpc, pc.target) && t in s'.tasks
      && s'.tasks[t] == if pc.Browsing? then pc else Opening(pc.target, pc.url)
  {
    hide Touch, KeepsPaused, Grows, Longer, ActiveControl, Guarded;
  }

  /** A session that was closed is gone with its lease and proposals; if the browser kept it, it stays. */
  lemma ClosedWorkIsGone(s: State, t: TaskId, closed: bool, choice: Sid)
    requires t in s.tasks && s.tasks[t].Closing?
    ensures var sid := s.tasks[t].target;
      var s' := Next(s, RpcDone(t, None, closed, choice));
      Ended(s', t)
      && if closed then s'.sessions == s.sessions - {sid} && s'.leases == s.leases - {sid} && sid !in s'.navigations
                        && (forall k :: k in s'.pending <==> k in s.pending && s.pending[k].sid != sid)
         else Touched(s, s', sid) && s'.leases == s.leases
  {
    hide KeepsPaused, Grows, Longer;
  }

  /** A failed `prepare` or ordinary command that lost neither browser nor worker only ends its task. */
  lemma FailureOnlyEnds(s: State, t: TaskId, code: ErrorCode, more: bool, choice: Sid)
    requires t in s.tasks && !Fatal(code) && !code.SessionExpired? && !code.ResultUncertain?
    ensures s.tasks[t].Preparing? ==>
      Next(s, PrepareDone(t, PrepareFailed(code))) == s.(tasks := map x | x in s.tasks && x != t :: s.tasks[x], lock := None)
    ensures Ordinary(s.tasks[t]) ==>
      Next(s, RpcDone(t, Some(code), more, choice)) == s.(tasks := map x | x in s.tasks && x != t :: s.tasks[x], lock := None)
  {
    hide KeepsPaused, Grows, Longer;
  }

  /** A navigation that has ended is no longer pending and its session's idle time starts anew. */
  lemma NavigationSettles(s: State, sid: Sid)
    ensures var s' := Next(s, NavigationEnded(sid));
      s'.navigations == s.navigations - {sid} && Touched(s, s', sid) && s'.history == s.history && s'.tasks == s.tasks
  {
    hide KeepsPaused, Grows, Longer;
  }

  /** Tidying up drops expired proposals and rows, and no later look-up can tell. */
  lemma TidyingIsInvisible(s: State, later: real, token: Token, b: Binding)
    requires s.now <= later
    ensures forall k :: k in Next(s, Prune).pending <==> k in s.pending && s.pending[k].expires > s.now
    ensures Get(Next(s, Cleanup).approvals, later, token) == Get(s.approvals, later, token)
    ensures Get(Next(s, Cleanup).executions, later, b) == Get(s.executions, later, b)
    ensures Next(s, Cleanup) == s.(approvals := Next(s, Cleanup).approvals, executions := Next(s, Cleanup).executions)
  {
    VacuumInvisible(s.approvals, s.now, later, token);
    VacuumInvisible(s.executions, s.now, later, b);
    hide KeepsPaused, Grows, Longer, Vacuum;
  }

  // ---- private control ---------------------------------------------------------------------------------

  /** A handoff is granted exactly in a live session without other control; it revokes the session's
      consent, takes the lease and focuses the tab. */
  lemma HandoffTakesControl(s: State, t: TaskId, choice: Sid, found: bool)
    requires t in s.tasks && s.tasks[t].Listing?
    ensures var sid := s.tasks[t].target;
      var s' := Next(s, RpcDone(t, None, found, choice));
      if found && SessionOk(s, sid) then
        sid in s'.leases && s'.leases[sid].state == Active && s'.leases[sid].tab == s.tasks[t].tab
        && s'.leases[sid].expires == s.now + s.cfg.handoffTtl && Protected(s', sid)
        && s'.sessions[sid].epoch == s.sessions[sid].epoch + 1
        && (forall k :: k in s'.pending <==> k in s.pending && s.pending[k].sid != sid)
        && (forall k :: k in s.pending && s.pending[k].sid == sid ==> s.pending[k].token !in s'.approvals)
        && s'.tasks[t] == Focusing(sid)
      else Ended(s', t) && s'.leases == s.leases && s'.sessions == s.sessions
  {
    hide KeepsPaused, Grows, Longer;
  }

  /** Completing an active handoff of a session revokes consent again and closes the viewers first. */
  lemma CompletionClosesViewers(s: State, t: TaskId, sid: Sid, handoff: nat)
    requires Waits(s, t, CompleteHandoff(handoff)) && sid in s.leases && s.leases[sid].id == handoff
    requires s.leases[sid].state.Active? && sid in s.sessions && ValidConfig(s.cfg)
    ensures var s' := Next(s, Acquire(t, sid));
      s'.tasks[t] == Disconnecting(sid, handoff) && s'.leases[sid].state == Returning
      && s'.sessions[sid].epoch == s.sessions[sid].epoch + 1
      && (forall k :: k in s.pending && s.pending[k].sid == sid ==> s.pending[k].token !in s'.approvals && k !in s'.pending)
  {
    hide KeepsPaused, Grows, Longer, ActiveControl, Guarded;
  }

  /** Only when all of them are closed is the worker asked to resume; otherwise control goes on. */
  lemma ViewersDecide(s: State, t: TaskId, allClosed: bool)
    requires t in s.tasks && s.tasks[t].Disconnecting? && s.tasks[t].target in s.leases
    ensures var sid := s.tasks[t].target;
      var s' := Next(s, ViewersClosed(t, allClosed));
      if allClosed then s'.tasks[t].Resuming? && s'.tasks[t].target == sid && s'.leases == s.leases
                        && s'.history[|s'.history| - 1].Issued? && s'.history[|s'.history| - 1].rpc == ResumeRpc
      else Ended(s', t) && s'.leases[sid].state == Active
  {
    hide KeepsPaused, Grows, Longer;
  }

  /** A confirmed resume ends the handoff: the session is no longer protected and its last outcome no
      longer uncertain; every session's idle time starts anew. */
  lemma ConfirmedResumeReleases(s: State, t: TaskId, more: bool, choice: Sid)
    requires Inv(s) && t in s.tasks && s.tasks[t].Resuming? && s.tasks[t].target in s.sessions
    ensures Released(s, Next(s, RpcDone(t, None, more, choice)), s.tasks[t].target)
    ensures Ended(Next(s, RpcDone(t, None, more, choice)), t)
  {
    hide KeepsPaused, Grows, Longer, DataOk, Resumed, Succeeded, Released;
    Holder(s, t);
    Settles(s, t);
    assert Next(s, RpcDone(t, None, more, choice)) == Resumed(s, t, None);
  }

  ghost predicate Released(s: State, s': State, sid: Sid) {
    sid in s'.sessions && !s'.sessions[sid].uncertain && sid in s'.leases && s'.leases[sid].state == Completed
    && !Protected(s', sid) && s'.sessions.Keys == s.sessions.Keys
    && forall x :: x in s.sessions ==>
         s'.sessions[x].expires == s.now + (if s.reader == Some(x) then s.cfg.readerTtl else s.cfg.sessionTtl)
         && (x != sid ==> s'.sessions[x].uncertain == s.sessions[x].uncertain)
  }

  lemma Settles(s: State, t: TaskId)
    requires t in s.tasks && s.tasks[t].Resuming? && s.tasks[t].target in s.sessions && s.tasks[t].target in s.leases
    requires forall x :: x in s.tasks && x != t ==> s.tasks[x].Queued?
    ensures Released(s, Resumed(s, t, None), s.tasks[t].target) && Ended(Resumed(s, t, None), t)
  {
    hide KeepsPaused, Grows, Longer;
  }

  /** A resume that failed keeps the session under control. */
  lemma FailedResumeKeeps(s: State, t: TaskId, code: ErrorCode, more: bool, choice: Sid)
    requires t in s.tasks && s.tasks[t].Resuming? && s.tasks[t].target in s.leases
    requires !Fatal(code) && !code.SessionExpired? && !code.ResultUncertain?
    ensures var sid := s.tasks[t].target;
      var s' := Next(s, RpcDone(t, Some(code), more, choice));
      sid in s'.leases && s'.leases[sid].state == Active && Protected(s', sid) && Ended(s', t)
  {
    hide KeepsPaused, Grows, Longer;
  }

  /** Cancelling closes the viewers and then the session, and so does reclaiming. */
  lemma CancelCloses(s: State, t: TaskId, sid: Sid, handoff: nat)
    requires Waits(s, t, CancelHandoff(handoff)) && sid in s.leases && s.leases[sid].id == handoff
    requires s.leases[sid].state.Active?
    ensures var s' := Next(s, Acquire(t, sid));
      s'.tasks[t] == CancelDisconnecting(sid, handoff) && s'.sessions == s.sessions
  {
    hide KeepsPaused, Grows, Longer;
  }

  lemma ReclaimDisconnects(s: State, t: TaskId, choice: Sid, sid: Sid)
    requires Waits(s, t, ReclaimSession(sid)) && sid in s.sessions
    ensures var s' := Next(s, Acquire(t, choice));
      s'.tasks[t] == ReclaimDisconnecting(sid) && (sid in s.leases ==> s'.leases[sid].state == Returning)
  {
    hide KeepsPaused, Grows, Longer;
  }

  lemma ControlIsClosed(s: State, t: TaskId, allClosed: bool)
    requires t in s.tasks && (s.tasks[t].CancelDisconnecting? || (s.tasks[t].ReclaimDisconnecting? && allClosed))
    ensures var sid := s.tasks[t].target;
      var s' := Next(s, ViewersClosed(t, allClosed));
      SentOut(s, s', Console, CloseRpc, sid) && t in s'.tasks && (s'.tasks[t].CancelClosing? || s'.tasks[t].ReclaimClosing?)
      && s'.tasks[t].target == sid
  {
    hide KeepsPaused, Grows, Longer;
  }

  /** The closed session is gone with its lease and proposals; a failed close keeps it under control. */
  lemma ClosedIsGone(s: State, t: TaskId, code: Option<ErrorCode>, more: bool, choice: Sid)
    requires t in s.tasks && (s.tasks[t].CancelClosing? || s.tasks[t].ReclaimClosing?) && s.tasks[t].target in s.sessions
    requires s.tasks[t].target in s.leases && (code.Some? ==> code.value.OtherCode?)
    ensures var sid := s.tasks[t].target;
      var s' := Next(s, RpcDone(t, code, more, choice));
      Ended(s', t)
      && if code.None? then s'.sessions == s.sessions - {sid} && s'.leases == s.leases - {sid}
         else s'.sessions == s.sessions && sid in s'.leases && s'.leases[sid].state == Active
  {
    hide KeepsPaused, Grows, Longer;
  }

  // ---- closing and sweeping ---------------------------------------------------------------------------

  lemma CloseAdmitted(s: State, t: TaskId, choice: Sid, sid: Sid)
    requires Waits(s, t, CloseWork(sid))
    ensures var s' := Next(s, Acquire(t, choice));
      if sid in s.sessions && !ActiveControl(s) then SentOut(s, s', Mcp, CloseRpc, sid) && s'.tasks[t] == Closing(sid)
      else Ended(s', t) && s'.history == s.history
  {
    hide KeepsPaused, Grows, Longer;
  }

  /** The sweeper closes sessions that expired without a navigation, and nothing else. */
  lemma SweepCloses(s: State, t: TaskId, choice: Sid)
    requires Waits(s, t, Sweep)
    ensures var s' := Next(s, Acquire(t, choice));
      if !ActiveControl(s) && choice in s.sessions && s.sessions[choice].expires <= s.now && choice !in s.navigations
      then SentOut(s, s', Sweeper, CloseRpc, choice) && s'.tasks[t] == Reaping(choice)
      else Ended(s', t) && s'.history == s.history
  {
    hide KeepsPaused, Grows, Longer;
  }

  lemma SweptIsGone(s: State, t: TaskId, more: bool, choice: Sid)
    requires t in s.tasks && s.tasks[t].Reaping?
    ensures var s' := Next(s, RpcDone(t, None, more, choice)); s'.sessions == s.sessions - {s.tasks[t].target}
  {
    hide KeepsPaused, Grows, Longer;
  }

  // ---- over runs ----------------------------------------------------------------------------------------

  /** No event adds a session beyond the operator's limit. */
  lemma RoomKept(s: State, e: Event)
    requires Enabled(s, e) && |s.sessions| <= s.cfg.maxSessions
    ensures |Next(s, e).sessions| <= s.cfg.maxSessions
  {
    if e.Acquire? {
      var s0, c := s.(lock := Some(e.task)), s.tasks[e.task].command;
      if c.Read? || c.OpenWork? || c.CancelHandoff? {
        BeginRoom(s0, e.task, c, e.choice);
      } else {
        hide Begin, Grows, Longer;
        FewerSessions(s, Next(s, e));
      }
    } else if e.RpcDone? {
      RepliedRoom(s, e.task, e.code, e.more, e.choice);
    } else if e.PrepareDone? || e.ActDone? || e.WaitDone? || e.Wake? || e.Input? {
      ActKeeps(s, e);
      FewerSessions(s, Next(s, e));
    } else {
      hide Grows, Longer;
      FewerSessions(s, Next(s, e));
    }
  }

  lemma FewerSessions(s: State, s': State)
    requires s'.sessions.Keys <= s.sessions.Keys
    ensures |s'.sessions| <= |s.sessions|
  {
    FewerKeys(s'.sessions.Keys, s.sessions.Keys);
    assert |s'.sessions| == |s'.sessions.Keys| && |s.sessions| == |s.sessions.Keys|;
  }

  lemma {:induction false} FewerKeys(a: set<Sid>, b: set<Sid>)
    requires a <= b
    ensures |a| <= |b|
  {
    if a != {} {
      var x :| x in a;
      FewerKeys(a - {x}, b - {x});
    }
  }

  lemma BeginRoom(s: State, t: TaskId, c: Command, choice: Sid)
    requires (c.Read? || c.OpenWork? || c.CancelHandoff?) && |s.sessions| <= s.cfg.maxSessions
    ensures |Begin(s, t, c, choice).sessions| <= s.cfg.maxSessions
  {
    match c
    case Read => ReadRoom(s, t);
    case OpenWork(url) => OpenRoom(s, t, url);
    case CancelHandoff(handoff) => assert CancelBegin(s, t, choice, handoff).sessions == s.sessions;
    hide BeginRead, BeginOpen, CancelBegin, KeepsPaused, Grows, Longer;
  }

  lemma ReadRoom(s: State, t: TaskId)
    requires |s.sessions| <= s.cfg.maxSessions
    ensures |BeginRead(s, t).sessions| <= s.cfg.maxSessions
  {
    hide BeginRead, ReadOn, WithSession, KeepsPaused, Grows, Longer;
    if s.reader.Some? && s.reader.value in s.sessions {
      ReaderRead(s, t);
      FewerSessions(s, BeginRead(s, t));
    } else if !ActiveControl(s) && |s.sessions| < s.cfg.maxSessions {
      OneMore(s, s.now + s.cfg.readerTtl, Some(s.minted));
      NewRead(s, t);
    } else {
      NoRead(s, t);
    }
  }

  lemma ReaderRead(s: State, t: TaskId)
    requires s.reader.Some? && s.reader.value in s.sessions
    ensures BeginRead(s, t).sessions.Keys <= s.sessions.Keys
  {
    hide EndPending, ReadOn, Finish, WithSession, Grows, Longer, ActiveControl;
  }

  lemma NewRead(s: State, t: TaskId)
    requires !(s.reader.Some? && s.reader.value in s.sessions) && !ActiveControl(s) && |s.sessions| < s.cfg.maxSessions
    ensures BeginRead(s, t).sessions == WithSession(s, s.now + s.cfg.readerTtl, Some(s.minted)).sessions
  {
    hide EndPending, Finish, WithSession, Grows, Longer, ActiveControl, Guarded, KeepsPaused;
  }

  lemma NoRead(s: State, t: TaskId)
    requires !(s.reader.Some? && s.reader.value in s.sessions) && (ActiveControl(s) || |s.sessions| >= s.cfg.maxSessions)
    ensures BeginRead(s, t).sessions == s.sessions
  {
    hide EndPending, ReadOn, WithSession, Grows, Longer, ActiveControl, KeepsPaused;
  }

  lemma OneMore(s: State, expires: real, reader: Option<Sid>)
    ensures |WithSession(s, expires, reader).sessions| <= |s.sessions| + 1
  {
    hide Grows, Longer;
  }

  lemma OpenRoom(s: State, t: TaskId, url: bool)
    requires |s.sessions| <= s.cfg.maxSessions
    ensures |BeginOpen(s, t, url).sessions| <= s.cfg.maxSessions
  {
    OneMore(s, s.now + s.cfg.sessionTtl, s.reader);
    hide WithSession, KeepsPaused, Grows, Longer, ActiveControl, Guarded;
  }

  lemma RepliedRoom(s: State, t: TaskId, code: Option<ErrorCode>, more: bool, choice: Sid)
    requires t in s.tasks && |s.sessions| <= s.cfg.maxSessions
    ensures |Replied(s, t, code, more, choice).sessions| <= s.cfg.maxSessions
  {
    forall x | x in Replied(s, t, code, more, choice).sessions ensures x in s.sessions {
      if x !in s.sessions { RepliedGone(s, t, code, more, choice, x); }
    }
    FewerSessions(s, Replied(s, t, code, more, choice));
  }

  /** In every run there are at most as many sessions as the operator allows. */
  lemma {:induction false} CapacityKept(cfg: Config, events: seq<Event>)
    ensures |Run(Init(cfg), events).sessions| <= cfg.maxSessions
    decreases |events|
  {
    if events != [] {
      CapacityKept(cfg, events[..|events| - 1]);
      var before := Run(Init(cfg), events[..|events| - 1]);
      hide Next;
      if Enabled(before, events[|events| - 1]) { RoomKept(before, events[|events| - 1]); }
    }
  }

  /** The event is a step of this task. */
  predicate StepsTask(e: Event, t: TaskId) {
    match e
    case Acquire(x, _) => x == t
    case PrepareDone(x, _) => x == t
    case ActDone(x, _, _) => x == t
    case WaitDone(x, _) => x == t
    case Wake(x, _) => x == t
    case ViewersClosed(x, _) => x == t
    case RpcDone(x, _, _, _) => x == t
    case ShutdownDone(x) => x == t
    case _ => false
  }

  lemma HolderWorks(s: State, t: TaskId)
    requires Inv(s) && t in s.tasks && s.lock in {None, Some(t)}
    ensures s.tasks[t].Queued? <==> s.lock.None?
  {
    hide DataOk, PcOk, KeepsPaused, Grows, Longer;
  }

  /** Nothing is ever stuck: in every reachable state the task that holds the lock has a step that
      may come next, and when nobody holds it every waiting task may take it. */
  lemma NobodyIsStuck(cfg: Config, events: seq<Event>, t: TaskId) returns (e: Event)
    requires ValidConfig(cfg) && t in Run(Init(cfg), events).tasks
    requires Run(Init(cfg), events).lock in {None, Some(t)}
    ensures Enabled(Run(Init(cfg), events), e) && StepsTask(e, t)
  {
    hide Run, Inv, KeepsPaused, Grows, Longer;
    RunInv(cfg, events);
    var s := Run(Init(cfg), events);
    HolderWorks(s, t);
    var pc := s.tasks[t];
    if s.lock.None? {
      e := Acquire(t, 0);
    } else if pc.Preparing? {
      e := PrepareDone(t, PrepareFailed(OtherCode));
    } else if pc.Acting? {
      e := ActDone(t, Delivered, Crashed);
    } else if pc.Completing? {
      e := WaitDone(t, Matched);
    } else if pc.Sleeping? {
      e := Wake(t, true);
    } else if pc.ShuttingDown? {
      e := ShutdownDone(t);
    } else if pc.Disconnecting? || pc.CancelDisconnecting? || pc.ReclaimDisconnecting? {
      e := ViewersClosed(t, true);
    } else {
      e := RpcDone(t, None, false, 0);
    }
  }
}
