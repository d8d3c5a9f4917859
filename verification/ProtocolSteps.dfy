/** Every event keeps the invariant. */
module ProtocolSteps {
  import opened Wrappers
  import opened Adapter
  import opened Worker
  import opened Store
  import opened Protocol
  import opened ProtocolInvariant

  /** The lock holder at the start of a stretch. */
  ghost predicate Ready(s: State, t: TaskId) {
    DataOk(s) && Alone(s, t) && t in s.tasks
  }

  lemma FinishInv(s: State, t: TaskId)
    requires DataOk(s) && Alone(s, t)
    ensures Inv(Finish(s, t))
  {
    assert SessionsOk(Finish(s, t));
    assert ExecutionsOk(Finish(s, t));
  }

  lemma AtInv(s: State, t: TaskId, pc: Pc)
    requires DataOk(s) && Alone(s, t) && !pc.Queued? && PcOk(s, pc)
    ensures Inv(At(s, t, pc))
  {
    assert SessionsOk(At(s, t, pc));
    assert ExecutionsOk(At(s, t, pc));
  }

  /** An observation leaves what the tables cover as it is. */
  lemma TablesStay(s: State, o: Obs, b: Binding, until: real, token: Token)
    ensures Covered(Note(s, o), b, until) == Covered(s, b, until) && Spending(Note(s, o), token) == Spending(s, token)
    ensures RecordTtl(Note(s, o)) == RecordTtl(s) && Note(s, o).now == s.now && Note(s, o).history == s.history + [o]
  {
  }

  lemma FromDispatchGrows(h: History, o: Obs, entry: nat, b: Binding, consent: Option<Token>, checked: real, until: real,
                          recordTtl: real)
    requires FromDispatch(h, entry, b, consent, checked, until, recordTtl)
    ensures FromDispatch(h + [o], entry, b, consent, checked, until, recordTtl)
  {
    assert (h + [o])[entry] == h[entry];
  }

  lemma UnspentLater(h: History, o: Obs, token: Token)
    requires Unspent(h, token) && !o.Sent?
    ensures Unspent(h + [o], token)
  {
  }

  lemma NoneSinceLater(h: History, o: Obs, b: Binding, checked: real)
    requires NoneSince(h, b, checked) && !o.Sent?
    ensures NoneSince(h + [o], b, checked)
  {
  }

  /** The dispatch stays as good; after its own first input it no longer counts as unsent. */
  lemma ActingGrows(s: State, o: Obs, r: Request, d: Dispatch, sent: bool)
    requires ActingOk(s, Acting(r, d)) && (o.Sent? ==> sent) && (d.sent ==> sent)
    ensures ActingOk(Note(s, o), Acting(r, d.(sent := sent)))
    ensures FromDispatch(s.history, d.entry, BindingOf(r), r.token, d.checked, d.until, RecordTtl(s))
  {
    var h, token := s.history, if r.token.Some? then r.token.value else 0;
    hide Backed, FromDispatch, NoneSince, Unspent, Covered, Spending, RecordTtl, Note, BindingOf, KeepsPaused, Grows, Longer;
    TablesStay(s, o, BindingOf(r), d.until, token);
    FromDispatchGrows(h, o, d.entry, BindingOf(r), r.token, d.checked, d.until, RecordTtl(s));
    if !sent {
      NoneSinceLater(h, o, BindingOf(r), d.checked);
      if r.token.Some? { UnspentLater(h, o, token); }
    }
    if d.consent.Some? {
      BackedGrows(h, o, token, d.consent.value.0, d.consent.value.1, s.cfg.approvalTtl);
    }
  }

  lemma ActingStays(s: State, o: Obs, pc: Pc)
    requires ActingOk(s, pc) && !o.Sent?
    ensures ActingOk(Note(s, o), pc)
  {
    if pc.Acting? {
      ActingGrows(s, o, pc.request, pc.dispatch, pc.dispatch.sent);
      assert pc == Acting(pc.request, pc.dispatch.(sent := pc.dispatch.sent));
    }
  }

  lemma PreparingGrows(s: State, o: Obs, pc: Pc)
    requires PreparingOk(s, pc) && !o.Sent?
    ensures PreparingOk(Note(s, o), pc)
  {
  }

  lemma BeginGrows(s: State, o: Obs, pc: Pc)
    requires BeginOk(s, pc) && Plain(o)
    ensures BeginOk(Note(s, o), pc)
  {
    if BeginTarget(pc).Some? { Counts(s.history, o, BeginTarget(pc).value); }
  }

  lemma PcGrows(s: State, o: Obs, pc: Pc)
    requires PcOk(s, pc) && Plain(o) && !o.Sent?
    ensures PcOk(Note(s, o), pc)
  {
    hide ActingOk, PreparingOk, BeginOk, KeepsPaused, Grows, Longer;
    ActingStays(s, o, pc);
    PreparingGrows(s, o, pc);
    BeginGrows(s, o, pc);
  }

  lemma IssueInv(s: State, t: TaskId, pc: Pc, origin: Origin, rpc: Rpc, sid: Sid)
    requires Ready(s, t) && !pc.Queued? && PcOk(s, pc)
    requires origin.Console? || rpc.FocusRpc? ||
             (!ActiveControl(s) && !s.tasks[t].CancelDisconnecting? && !s.tasks[t].CancelClosing?)
    requires rpc.ActRpc? || rpc.NavigationBegin? ==> !Latched(s.history, sid)
    ensures Inv(Issue(s, t, pc, origin, rpc, sid))
  {
    hide DataOk, TasksOk, KeepsPaused, Grows, Longer;
    NoteIssued(s, origin, rpc, sid);
    PcGrows(s, Issued(origin, rpc, sid, Guarded(s)), pc);
    AtInv(Note(s, Issued(origin, rpc, sid, Guarded(s))), t, pc);
  }

  /** The others keep waiting when tasks and identifiers stay. */
  lemma StillAlone(s: State, s': State, t: TaskId)
    requires Alone(s, t) && s'.tasks == s.tasks && s'.lock == s.lock && s.minted <= s'.minted
    requires s'.reader == s.reader || s'.reader.None?
    ensures Alone(s', t)
  {
  }

  lemma FailedAlone(s: State, t: TaskId, sid: Sid, code: ErrorCode)
    requires Alone(s, t)
    ensures Alone(RpcFailed(s, sid, code), t)
  {
    hide KeepsPaused, Grows, Longer;
    StillAlone(s, RpcFailed(s, sid, code), t);
  }

  /** After a failure the task ends, or first waits for the worker's shutdown. */
  lemma EndInv(s: State, t: TaskId, code: ErrorCode)
    requires DataOk(s) && Alone(s, t)
    ensures Inv(if Fatal(code) then At(s, t, ShuttingDown(None)) else Finish(s, t))
  {
    hide DataOk, TasksOk, KeepsPaused, Grows, Longer;
    if Fatal(code) { AtInv(s, t, ShuttingDown(None)); } else { FinishInv(s, t); }
  }

  lemma FailTaskInv(s: State, t: TaskId, sid: Sid, code: ErrorCode)
    requires DataOk(s) && Alone(s, t) && (code.ResultUncertain? ==> s.reader != Some(sid))
    ensures Inv(FailTask(s, t, sid, code))
  {
    hide *;
    RpcFailedOk(s, sid, code);
    FailedAlone(s, t, sid, code);
    EndInv(RpcFailed(s, sid, code), t, code);
    FailTaskIs(s, t, sid, code);
  }

  lemma FailTaskIs(s: State, t: TaskId, sid: Sid, code: ErrorCode)
    ensures var s1 := RpcFailed(s, sid, code);
      FailTask(s, t, sid, code) == if Fatal(code) then At(s1, t, ShuttingDown(None)) else Finish(s1, t)
  {
    hide RpcFailed, KeepsPaused, Grows, Longer;
  }

  // ---- acting -------------------------------------------------------------------------

  lemma ActBeginInv(s: State, t: TaskId, r: Request)
    requires Ready(s, t) && s.tasks[t].Queued? && Addressable(s, r.sid)
    ensures Inv(ActBegin(s, t, r))
  {
    var s' := ActBegin(s, t, r);
    if s' == Finish(s, t) {
      FinishInv(s, t);
    } else {
      NoLiveRecord(s, BindingOf(r));
      EpochCounts(s, r.sid);
      IssueInv(s, t, Preparing(r, s.sessions[r.sid].epoch, s.now), Mcp, PrepareRpc, r.sid);
    }
  }

  /** A fresh proposal backs its own record. */
  lemma ProposalBacked(s: State, token: Token, v: Approval)
    requires DataOk(s) && v.state.Pending? && v.sid == v.binding.sid && v.epoch == v.binding.epoch
    requires v.binding.epoch == RevokedCount(s.history, v.sid)
    ensures Backed(s.history + [Proposed(token, v.binding, v.target, s.now)], token, v, s.now + s.cfg.approvalTtl, s.cfg.approvalTtl)
  {
    var h := s.history + [Proposed(token, v.binding, v.target, s.now)];
    assert h[..|s.history|] == s.history;
    assert ProposedAt(h, |s.history|, token, v.binding, v.target);
  }

  lemma FreshTokens(s: State, minted: nat, pending: map<nat, Item>)
    requires DataOk(s) && minted > s.minted
    ensures var s1 := s.(minted := minted, pending := pending);
      DataOk(s1) && Unspent(s1.history, s.minted) && s.minted !in Grants(s.history) && s.minted !in Declines(s.history)
      && forall j: nat :: j < |s1.history| && s1.history[j].Proposed? ==> s1.history[j].token != s.minted
  {
    MintOk(s, minted, pending);
    forall j: nat | j < |s.history| && s.history[j].Sent?
      ensures s.history[j].consent != Some(s.minted)
    {
      assert DispatchOk(s.history, s.history[j].dispatch, s.cfg.approvalTtl);
    }
  }

  lemma AddProposalOk(s: State, record: Approval)
    requires DataOk(s) && record.state.Pending? && record.sid == record.binding.sid
    requires record.epoch == record.binding.epoch == RevokedCount(s.history, record.sid)
    ensures DataOk(AddProposal(s, record))
  {
    hide DataOk, Backed, Unspent, KeepsPaused, Grows, Longer;
    var token := s.minted;
    var o := Proposed(token, record.binding, record.target, s.now);
    var pending := s.pending[s.minted + 1 := Item(record.sid, token, s.now + s.cfg.approvalTtl)];
    FreshTokens(s, s.minted + 2, pending);
    var s1 := s.(minted := s.minted + 2, pending := pending);
    NotePlain(s1, o);
    ProposalBacked(s1, token, record);
    PutApproval(Note(s1, o), token, record, s.cfg.approvalTtl);
  }

  lemma MintOk(s: State, minted: nat, pending: map<nat, Item>)
    requires DataOk(s) && minted >= s.minted
    ensures DataOk(s.(minted := minted, pending := pending))
  {
    var s' := s.(minted := minted, pending := pending);
    assert SessionsOk(s') && ApprovalsOk(s') && ExecutionsOk(s');
  }

  lemma ProposeInv(s: State, t: TaskId, target: nat)
    requires Ready(s, t) && s.tasks[t].Preparing? && PcOk(s, s.tasks[t])
    ensures Inv(Propose(s, t, target))
  {
    hide DataOk, TasksOk, KeepsPaused, Grows, Longer;
    var r, epoch := s.tasks[t].request, s.tasks[t].epoch;
    var binding := ApprovalBindingOf(r, epoch);
    var s1 := s.(pending := LivePending(s));
    FewerApprovals(s, s.approvals, LivePending(s));
    if AlreadyProposed(s, binding, target) {
      TouchOk(s1, r.sid);
      FinishInv(if AlreadyDenied(s, binding, target) then s1 else Touch(s1, r.sid), t);
    } else if |s1.pending| >= PENDING_LIMIT {
      FinishInv(s1, t);
    } else {
      EpochCounts(s, r.sid);
      var s2 := AddProposal(s1, Approval(binding, target, Pending, r.sid, epoch));
      AddProposalOk(s1, Approval(binding, target, Pending, r.sid, epoch));
      TouchOk(s2, r.sid);
      FinishInv(Touch(s2, r.sid), t);
    }
  }

  /** A live approved record of the current epoch makes the dispatch admissible. */
  lemma ConsentMakesDispatchOk(s: State, r: Request, epoch: nat, target: nat, needed: bool)
    requires DataOk(s) && r.token.Some? && r.sid in s.sessions && s.sessions[r.sid].epoch == epoch
    requires Get(s.approvals, s.now, r.token.value).Some?
    requires s.approvals[r.token.value].value.state.Approved? && s.approvals[r.token.value].value.target == target
    requires s.approvals[r.token.value].value.binding == ApprovalBindingOf(r, epoch)
    ensures DispatchOk(s.history + [Dispatched(r, epoch, target, needed, s.now)], |s.history|, s.cfg.approvalTtl)
  {
    var h, token, ttl := s.history, r.token.value, s.cfg.approvalTtl;
    var row := s.approvals[token];
    var o := Dispatched(r, epoch, target, needed, s.now);
    assert Backed(h, token, row.value, row.expires, ttl);
    var i: nat :| ProposedAt(h, i, token, row.value.binding, row.value.target)
      && GrantedBetween(h, i, |h|, token) && row.expires < h[i].at + 2.0 * ttl;
    PrefixOf(h, o, i);
    PrefixOf(h, o, |h|);
    assert h[..|h|] == h;
    assert ProposedAt(h + [o], i, token, ApprovalBindingOf(r, epoch), target);
    var k :| i < k < |h| && h[k].Granted? && h[k].token == token;
    assert (h + [o])[k].Granted? && (h + [o])[k].token == token;
    assert GrantedBetween(h + [o], i, |h|, token);
  }

  lemma ConsumeOk(s: State, r: Request, token: Token, record: Approval)
    requires DataOk(s) && NoneSince(s.history, BindingOf(r), s.now)
    requires token in s.approvals && s.approvals[token].value.state.Approved?
    ensures DataOk(Consume(s, r, token, record))
  {
    assert DecidedOk(s.history, token, s.approvals[token].value.state);
    PutApproval(s, token, record.(state := Consumed), DAY);
    var s2 := s.(approvals := Put(s.approvals, s.now, token, record.(state := Consumed), DAY));
    PutExecution(s2, BindingOf(r), RecordTtl(s));
    var s3 := s2.(executions := Put(s.executions, s.now, BindingOf(r), true, RecordTtl(s)));
    FewerApprovals(s3, s3.approvals, NotOfToken(s.pending, token));
  }

  lemma LiveBacked(s: State, token: Token)
    requires DataOk(s) && token in s.approvals && s.approvals[token].value.state.Approved?
    ensures Backed(s.history, token, s.approvals[token].value, s.approvals[token].expires, s.cfg.approvalTtl)
    ensures Unspent(s.history, token)
  {
  }

  /** What the consuming transaction leaves behind, with the dispatch already noted. */
  lemma ConsentData(s: State, r: Request, epoch: nat, target: nat, needed: bool)
    requires DataOk(s) && r.token.Some? && r.sid in s.sessions && s.sessions[r.sid].epoch == epoch
    requires Get(s.approvals, s.now, r.token.value).Some? && NoneSince(s.history, BindingOf(r), s.now)
    requires var row := s.approvals[r.token.value];
      row.value.target == target && row.value.state.Approved? && row.value.binding == ApprovalBindingOf(r, epoch)
    ensures var row := s.approvals[r.token.value];
      var s1 := Note(s, Dispatched(r, epoch, target, needed, s.now));
      DataOk(Consume(s1, r, r.token.value, row.value))
      && Backed(s1.history, r.token.value, row.value, row.expires, s.cfg.approvalTtl)
      && NoneSince(s1.history, BindingOf(r), s.now) && Unspent(s1.history, r.token.value)
  {
    hide DataOk, KeepsPaused, Grows, Longer;
    var token, seen := r.token.value, Dispatched(r, epoch, target, needed, s.now);
    var row := s.approvals[token];
    LiveBacked(s, token);
    ConsentMakesDispatchOk(s, r, epoch, target, needed);
    NotePlain(s, seen);
    BackedGrows(s.history, seen, token, row.value, row.expires, s.cfg.approvalTtl);
    ConsumeOk(Note(s, seen), r, token, row.value);
  }

  lemma JustDispatched(h: History, o: Obs, checked: real, recordTtl: real)
    requires o.Dispatched? && checked <= o.at
    ensures FromDispatch(h + [o], |h|, BindingOf(o.request), o.request.token, checked, o.at + recordTtl, recordTtl)
  {
    assert (h + [o])[|h|] == o;
  }

  lemma DispatchWithConsent(s: State, t: TaskId, target: nat, needed: bool)
    requires Ready(s, t) && s.tasks[t].Preparing? && PcOk(s, s.tasks[t]) && s.tasks[t].request.token.Some?
    requires var record := Get(s.approvals, s.now, s.tasks[t].request.token.value);
      record.Some? && record.value.target == target && record.value.state.Approved?
    ensures Inv(DispatchApproved(s, t, target, needed, s.tasks[t].request.token.value))
  {
    hide DataOk, Backed, KeepsPaused, Unspent, Grows, Longer;
    var r, epoch := s.tasks[t].request, s.tasks[t].epoch;
    var row := s.approvals[r.token.value];
    ConsentData(s, r, epoch, target, needed);
    var s1 := Note(s, Dispatched(r, epoch, target, needed, s.now));
    var s2 := Consume(s1, r, r.token.value, row.value);
    var d := Dispatch(s.tasks[t].checked, s.now + RecordTtl(s), true, Some((row.value, row.expires)),
                      Some(row.value.(state := Consumed)), OfToken(s.pending, r.token.value), |s.history|, false);
    JustDispatched(s.history, Dispatched(r, epoch, target, needed, s.now), s.tasks[t].checked, RecordTtl(s));
    NoneSinceLater(s.history, Dispatched(r, epoch, target, needed, s.now), BindingOf(r), s.tasks[t].checked);
    assert PcOk(s2, Acting(r, d));
    EpochCounts(s2, r.sid);
    IssueInv(s2, t, Acting(r, d), Mcp, ActRpc, r.sid);
  }

  lemma RecordedOk(s: State, r: Request, seen: Obs)
    requires DataOk(s) && seen.Dispatched? && !seen.needed && seen.request == r && r.token.None?
    requires NoneSince(s.history, BindingOf(r), s.now)
    ensures DataOk(Recorded(s, r, seen))
  {
    hide DataOk, KeepsPaused, Grows, Longer;
    NotePlain(s, seen);
    NoneSinceLater(s.history, seen, BindingOf(r), s.now);
    PutExecution(Note(s, seen), BindingOf(r), RecordTtl(s));
  }

  lemma FreePcOk(s: State, t: TaskId, target: nat)
    requires Ready(s, t) && s.tasks[t].Preparing? && PcOk(s, s.tasks[t]) && s.tasks[t].request.token.None?
    ensures var r := s.tasks[t].request;
      var d := Dispatch(s.tasks[t].checked, s.now + RecordTtl(s), !Passive(r.action), None, None, map[], |s.history|, false);
      var s2 := Recorded(s, r, Dispatched(r, s.tasks[t].epoch, target, false, s.now));
      PcOk(s2, Acting(r, d)) && s2.tasks == s.tasks && s2.lock == s.lock && s2.leases == s.leases
      && s2.minted == s.minted && s2.reader == s.reader && s2.sessions == s.sessions
  {
    hide DataOk, KeepsPaused, Grows, Longer;
    var r := s.tasks[t].request;
    var seen := Dispatched(r, s.tasks[t].epoch, target, false, s.now);
    JustDispatched(s.history, seen, s.tasks[t].checked, RecordTtl(s));
    NoneSinceLater(s.history, seen, BindingOf(r), s.tasks[t].checked);
  }

  lemma DispatchWithoutConsent(s: State, t: TaskId, target: nat)
    requires Ready(s, t) && s.tasks[t].Preparing? && PcOk(s, s.tasks[t]) && s.tasks[t].request.token.None?
    ensures Inv(DispatchFreely(s, t, target, false))
  {
    var r := s.tasks[t].request;
    var seen := Dispatched(r, s.tasks[t].epoch, target, false, s.now);
    var d := Dispatch(s.tasks[t].checked, s.now + RecordTtl(s), !Passive(r.action), None, None, map[], |s.history|, false);
    assert !s.sessions[r.sid].uncertain && NoneSince(s.history, BindingOf(r), s.now);
    FreePcOk(s, t, target);
    RecordedOk(s, r, seen);
    var s2 := Recorded(s, r, seen);
    EpochCounts(s2, r.sid);
    NotAutomated(s, s2, t);
    hide *;
    FreelyIs(s, t, target);
    IssueInv(s2, t, Acting(r, d), Mcp, ActRpc, r.sid);
  }

  lemma FreelyIs(s: State, t: TaskId, target: nat)
    requires t in s.tasks && s.tasks[t].Preparing?
    ensures var r := s.tasks[t].request;
      var d := Dispatch(s.tasks[t].checked, s.now + RecordTtl(s), !Passive(r.action), None, None, map[], |s.history|, false);
      DispatchFreely(s, t, target, false)
        == Issue(Recorded(s, r, Dispatched(r, s.tasks[t].epoch, target, false, s.now)), t, Acting(r, d), Mcp, ActRpc, r.sid)
  {
    hide Recorded, Issue, KeepsPaused, Grows, Longer;
  }

  /** Control is as it was, and the others keep waiting. */
  lemma NotAutomated(s: State, s2: State, t: TaskId)
    requires Ready(s, t) && s.tasks[t].Preparing? && PcOk(s, s.tasks[t])
    requires s2.tasks == s.tasks && s2.lock == s.lock && s2.leases == s.leases && s2.minted == s.minted && s2.reader == s.reader
    ensures Alone(s2, t) && !ActiveControl(s2)
  {
    hide DataOk, PreparingOk, ActingOk, KeepsPaused, Grows, Longer;
    StillAlone(s, s2, t);
  }

  lemma ActPreparedInv(s: State, t: TaskId, reply: PrepareReply)
    requires Ready(s, t) && s.tasks[t].Preparing? && PcOk(s, s.tasks[t])
    ensures Inv(ActPrepared(s, t, reply))
  {
    hide DataOk, TasksOk, KeepsPaused, Grows, Longer;
    var r := s.tasks[t].request;
    match reply
    case PrepareFailed(code) => FailTaskInv(s, t, r.sid, code);
    case Prepared(target, needed) =>
      if r.token.Some? {
        var record := Get(s.approvals, s.now, r.token.value);
        if record.None? || record.value.target != target || !record.value.state.Approved? {
          FinishInv(s, t);
        } else {
          DispatchWithConsent(s, t, target, needed);
        }
      } else if needed {
        ProposeInv(s, t, target);
      } else {
        DispatchWithoutConsent(s, t, target);
      }
  }

  function SentBy(r: Request, d: Dispatch): Obs { Sent(BindingOf(r), r.token, d.entry, d.checked, d.until) }

  lemma InputSentInv(s: State, t: TaskId)
    requires Ready(s, t) && s.tasks[t].Acting? && PcOk(s, s.tasks[t])
    ensures Inv(InputSent(s, t))
  {
    hide DataOk, PcOk, TasksOk, Inv, KeepsPaused, Grows, Longer;
    var r, d := s.tasks[t].request, s.tasks[t].dispatch;
    if d.sent {
      HolderInv(s, t);
    } else {
      SentPcOk(s, r, d);
      InputNoted(s, r, d);
      StillAlone(s, Note(s, SentBy(r, d)), t);
      hide *;
      AtInv(Note(s, SentBy(r, d)), t, Acting(r, d.(sent := true)));
      InputSentIs(s, t);
    }
  }

  lemma InputSentIs(s: State, t: TaskId)
    requires t in s.tasks && s.tasks[t].Acting? && !s.tasks[t].dispatch.sent
    ensures var r, d := s.tasks[t].request, s.tasks[t].dispatch;
      InputSent(s, t) == At(Note(s, SentBy(r, d)), t, Acting(r, d.(sent := true)))
  {
    hide KeepsPaused, Grows, Longer;
  }

  lemma HolderInv(s: State, t: TaskId)
    requires Ready(s, t) && !s.tasks[t].Queued? && PcOk(s, s.tasks[t])
    ensures Inv(s)
  {
    hide DataOk, PcOk, KeepsPaused, Grows, Longer;
  }

  lemma SentPcOk(s: State, r: Request, d: Dispatch)
    requires PcOk(s, Acting(r, d))
    ensures PcOk(Note(s, SentBy(r, d)), Acting(r, d.(sent := true)))
  {
    hide ActingOk, KeepsPaused, Grows, Longer;
    ActingGrows(s, SentBy(r, d), r, d, true);
  }

  lemma InputNoted(s: State, r: Request, d: Dispatch)
    requires DataOk(s) && PcOk(s, Acting(r, d)) && !d.sent
    ensures DataOk(Note(s, SentBy(r, d)))
  {
    ActingGrows(s, SentBy(r, d), r, d, true);
    hide Backed, HistoryOk, DataOk, FromDispatch, ApprovalsOk, SessionsOk, KeepsPaused, Grows, Longer;
    NotePlain(s, SentBy(r, d));
  }

  lemma NotDeclined(s: State, token: Token, v: Approval, expires: real)
    requires DataOk(s) && v.state.Approved? && Backed(s.history, token, v, expires, s.cfg.approvalTtl)
    ensures DecidedOk(s.history, token, v.state)
  {
    BackedNotDeclined(s, token, v, expires);
    hide DataOk, Backed, KeepsPaused, Grows, Longer;
  }

  /** Undoing the records after a no-send guarantee. */
  lemma RollbackOk(s: State, r: Request, d: Dispatch)
    requires DataOk(s) && NoneSince(s.history, BindingOf(r), s.now)
    requires d.consent.Some? ==>
      r.token.Some? && Unspent(s.history, r.token.value) && d.consent.value.0.state.Approved?
      && Backed(s.history, r.token.value, d.consent.value.0, d.consent.value.1, s.cfg.approvalTtl)
    ensures DataOk(Rollback(s, r, d)) && Rollback(s, r, d).leases == s.leases
    ensures Rollback(s, r, d).reader == s.reader && Rollback(s, r, d).minted == s.minted
  {
    hide DataOk, KeepsPaused, Grows, Longer;
    DeleteExecution(s, BindingOf(r));
    var s1 := if d.recorded then s.(executions := Delete(s.executions, BindingOf(r))) else s;
    if d.consent.Some? {
      var remaining := d.consent.value.1 - s1.now;
      NotDeclined(s, r.token.value, d.consent.value.0, d.consent.value.1);
      PutApproval(s1, r.token.value, d.consent.value.0, remaining);
      var s2 := s1.(approvals := Put(s1.approvals, s1.now, r.token.value, d.consent.value.0, remaining));
      FewerApprovals(s2, s2.approvals, s2.pending + d.removed);
    }
  }

  lemma BackedAfterFailure(s: State, sid: Sid, code: ErrorCode, token: Token, v: Approval, expires: real)
    requires Backed(s.history, token, v, expires, s.cfg.approvalTtl)
    ensures Backed(RpcFailed(s, sid, code).history, token, v, expires, s.cfg.approvalTtl)
  {
    if code.ResultUncertain? && sid in s.sessions {
      BackedGrows(s.history, BecameUncertain(sid), token, v, expires, s.cfg.approvalTtl);
    }
  }

  lemma FollowUpInv(s: State, t: TaskId, r: Request)
    requires Ready(s, t) && Automates(s.tasks[t])
    ensures Inv(FollowUp(s, t, r))
  {
    hide DataOk, TasksOk, KeepsPaused, Grows, Longer;
    if r.followUp && SessionOk(s, r.sid) && !ActiveControl(s) {
      IssueInv(s, t, FollowingUp(r.sid), Mcp, OtherRpc, r.sid);
    } else {
      TouchOk(s, r.sid);
      FinishInv(Touch(s, r.sid), t);
    }
  }

  lemma UnobservedInv(s: State, t: TaskId, r: Request)
    requires Ready(s, t) && Automates(s.tasks[t]) && s.reader != Some(r.sid)
    ensures Inv(FollowUp(SetUncertain(s, r.sid), t, r))
  {
    hide DataOk, TasksOk, KeepsPaused, Grows, Longer;
    SetUncertainOk(s, r.sid);
    FollowUpInv(SetUncertain(s, r.sid), t, r);
  }

  lemma AskCompletionInv(s: State, t: TaskId, r: Request)
    requires Ready(s, t) && Automates(s.tasks[t]) && Addressable(s, r.sid)
    ensures Inv(AskCompletion(s, t, r))
  {
    hide DataOk, TasksOk, KeepsPaused, Grows, Longer;
    if SessionOk(s, r.sid) && !ActiveControl(s) {
      IssueInv(s, t, Completing(r), Mcp, WaitRpc, r.sid);
    } else {
      UnobservedInv(s, t, r);
    }
  }

  lemma TargetIs(s: State, pc: Pc)
    requires PcOk(s, pc) && ActTarget(pc).Some?
    ensures Addressable(s, ActTarget(pc).value)
  {
  }

  /** The state after a failed `act`, before its task ends. */
  function AfterFailure(s: State, r: Request, d: Dispatch, code: ErrorCode, noSend: bool): State {
    var s1 := RpcFailed(s, r.sid, code);
    if noSend then Rollback(s1, r, d) else s1
  }

  lemma AfterFailureOk(s: State, t: TaskId, code: ErrorCode, noSend: bool)
    requires Ready(s, t) && s.tasks[t].Acting? && PcOk(s, s.tasks[t])
    requires noSend ==> !s.tasks[t].dispatch.sent && !code.ResultUncertain?
    ensures var s' := AfterFailure(s, s.tasks[t].request, s.tasks[t].dispatch, code, noSend); DataOk(s') && Alone(s', t)
  {
    hide DataOk, Rollback, KeepsPaused, Grows, Longer;
    var r, d := s.tasks[t].request, s.tasks[t].dispatch;
    RpcFailedOk(s, r.sid, code);
    var s1 := RpcFailed(s, r.sid, code);
    FailedAlone(s, t, r.sid, code);
    if noSend {
      assert s1.history == s.history;
      RollbackOk(s1, r, d);
      StillAlone(s1, Rollback(s1, r, d), t);
    }
  }

  lemma ActFailedIs(s: State, t: TaskId, r: Request, d: Dispatch, code: ErrorCode, noSend: bool)
    ensures var s' := AfterFailure(s, r, d, code, noSend);
      ActFailed(s, t, r, d, code, noSend) == if Fatal(code) then At(s', t, ShuttingDown(None)) else Finish(s', t)
  {
    hide RpcFailed, Rollback, KeepsPaused, Grows, Longer;
  }

  lemma ActFailedInv(s: State, t: TaskId, code: ErrorCode, noSend: bool)
    requires Ready(s, t) && s.tasks[t].Acting? && PcOk(s, s.tasks[t])
    requires noSend ==> !s.tasks[t].dispatch.sent && !code.ResultUncertain?
    ensures Inv(ActFailed(s, t, s.tasks[t].request, s.tasks[t].dispatch, code, noSend))
  {
    AfterFailureOk(s, t, code, noSend);
    hide *;
    EndInv(AfterFailure(s, s.tasks[t].request, s.tasks[t].dispatch, code, noSend), t, code);
    ActFailedIs(s, t, s.tasks[t].request, s.tasks[t].dispatch, code, noSend);
  }

  lemma ActOkInv(s: State, t: TaskId, r: Request, performed: bool)
    requires Ready(s, t) && s.tasks[t].Acting? && PcOk(s, s.tasks[t]) && r.sid == s.tasks[t].request.sid
    ensures Inv(if r.completion && performed then AskCompletion(s, t, r) else FollowUp(s, t, r))
  {
    TargetIs(s, s.tasks[t]);
    hide *;
    ActsAutomatically(s.tasks[t]);
    if r.completion && performed { AskCompletionInv(s, t, r); } else { FollowUpInv(s, t, r); }
  }

  lemma ActsAutomatically(pc: Pc)
    requires pc.Acting?
    ensures Automates(pc) && ActTarget(pc) == Some(pc.request.sid)
  {
  }

  lemma ActRepliedInv(s: State, t: TaskId, transport: Transport, exit: Exit)
    requires Ready(s, t) && s.tasks[t].Acting? && PcOk(s, s.tasks[t])
    requires Possible(s.tasks[t].dispatch.sent, transport, exit)
    ensures Inv(ActReplied(s, t, transport, exit))
  {
    hide DataOk, TasksOk, PcOk, Inv, KeepsPaused, Grows, Longer, ActFailed, AskCompletion, FollowUp;
    InputSentInv(s, t);
    Holder(InputSent(s, t), t);
    var s0 := if transport.Delivered? then s else InputSent(s, t);
    var reply := Receive(true, transport, exit);
    match reply
    case Error(code, _) => ActFailedInv(s0, t, code, GuaranteesNoSend(reply));
    case Ok(performed) => ActOkInv(s0, t, Observing(s0.tasks[t].request, exit), performed);
  }

  lemma WaitRepliedInv(s: State, t: TaskId, reply: WaitReply)
    requires Ready(s, t) && s.tasks[t].Completing? && PcOk(s, s.tasks[t])
    ensures Inv(WaitReplied(s, t, reply))
  {
    hide DataOk, TasksOk, KeepsPaused, Grows, Longer;
    var r := s.tasks[t].request;
    match reply
    case Matched => FollowUpInv(s, t, r);
    case Unmatched(partial) => if partial { UnobservedInv(s, t, r); } else { FollowUpInv(s, t, r); }
    case WaitFailed(code, retry) =>
      RpcFailedOk(s, r.sid, code);
      FailedAlone(s, t, r.sid, code);
      var s1 := RpcFailed(s, r.sid, code);
      if Fatal(code) { AtInv(s1, t, ShuttingDown(None)); }
      else if retry && code.OtherCode? { AtInv(s1, t, Sleeping(r)); }
      else { UnobservedInv(s1, t, r); }
  }

  // ---- approving and private control ------------------------------------------------------

  /** A grant turns the pending record into an approved one within twice the time to live. */
  lemma GrantBacked(h: History, token: Token, v: Approval, expires: real, now: real, ttl: real)
    requires Backed(h, token, v, expires, ttl) && v.state.Pending? && now < expires
    ensures Backed(h + [Granted(token, now)], token, v.(state := Approved), now + ttl, ttl)
  {
    var i: nat :| ProposedAt(h, i, token, v.binding, v.target) && expires <= h[i].at + ttl;
    var h' := h + [Granted(token, now)];
    PrefixOf(h, Granted(token, now), i);
    assert ProposedAt(h', i, token, v.binding, v.target);
    assert h'[|h|].Granted? && h'[|h|].token == token;
  }

  lemma PendingBacked(s: State, token: Token)
    requires DataOk(s) && token in s.approvals && s.approvals[token].value.state.Pending?
    ensures Backed(s.history, token, s.approvals[token].value, s.approvals[token].expires, s.cfg.approvalTtl)
    ensures Unspent(s.history, token)
  {
  }

  lemma DecisionNoted(s: State, token: Token, o: Obs)
    requires DataOk(s) && token in s.approvals && s.approvals[token].value.state.Pending?
    requires o == Granted(token, s.now) || o == Declined(token, s.now)
    ensures DataOk(Note(s.(approvals := Delete(s.approvals, token)), o))
    ensures Unspent(s.history + [o], token) && DecidedOk(s.history + [o], token, if o.Granted? then Approved else Denied)
  {
    assert DecidedOk(s.history, token, Pending);
    PendingMinted(s, token);
    DecisionsSnoc(s.history, o);
    UnspentLater(s.history, o, token);
    hide DataOk, Backed, Unspent, KeepsPaused, Grows, Longer;
    FewerApprovals(s, Delete(s.approvals, token), s.pending);
    NotePlain(s.(approvals := Delete(s.approvals, token)), o);
  }

  /** The record is set aside, the decision noted, and the record written back. */
  lemma DecideOk(s: State, token: Token, o: Obs, v: Approval, ttl: real, pending: map<nat, Item>)
    requires DataOk(s) && token in s.approvals && s.approvals[token].value.state.Pending?
    requires o == Granted(token, s.now) || o == Declined(token, s.now)
    requires v.state == if o.Granted? then Approved else Denied
    requires v.state.Approved? ==> Backed(s.history + [o], token, v, s.now + ttl, s.cfg.approvalTtl)
    ensures DataOk(Note(s.(approvals := Put(s.approvals, s.now, token, v, ttl), pending := pending), o))
  {
    hide DataOk, Backed, Unspent, KeepsPaused, Grows, Longer, DecidedOk;
    DecisionNoted(s, token, o);
    var s2 := Note(s.(approvals := Delete(s.approvals, token)), o);
    PutApproval(s2, token, v, ttl);
    var s3 := s2.(approvals := Put(s2.approvals, s2.now, token, v, ttl));
    assert s3.approvals == Put(s.approvals, s.now, token, v, ttl);
    FewerApprovals(s3, s3.approvals, pending);
  }

  lemma PendingMinted(s: State, token: Token)
    requires DataOk(s) && token in s.approvals && s.approvals[token].value.state.Pending?
    ensures Unspent(s.history, token) && token < s.minted
  {
    var v := s.approvals[token].value;
    assert Backed(s.history, token, v, s.approvals[token].expires, s.cfg.approvalTtl);
    var i: nat :| ProposedAt(s.history, i, token, v.binding, v.target);
  }

  lemma ApproveOk(s: State, review: nat, approved: bool)
    requires DataOk(s)
    ensures DataOk(ApproveStep(s, review, approved))
  {
    hide DataOk, Backed, KeepsPaused, Grows, Longer;
    if ApproveStep(s, review, approved) != s {
      var item := s.pending[review];
      var row := s.approvals[item.token];
      if approved {
        PendingBacked(s, item.token);
        GrantBacked(s.history, item.token, row.value, row.expires, s.now, s.cfg.approvalTtl);
        DecideOk(s, item.token, Granted(item.token, s.now), row.value.(state := Approved), s.cfg.approvalTtl,
                 s.pending[review := item.(expires := s.now + s.cfg.approvalTtl)]);
      } else {
        DecideOk(s, item.token, Declined(item.token, s.now), row.value.(state := Denied), Max(1.0, item.expires - s.now), s.pending);
      }
    }
  }

  lemma NewLeaseOk(s: State, sid: Sid, tab: nat)
    requires DataOk(s) && sid in s.sessions
    ensures DataOk(TakeLease(s, sid, tab))
  {
    var s' := TakeLease(s, sid, tab);
    assert SessionsOk(s') && ApprovalsOk(s') && ExecutionsOk(s');
  }

  lemma StartHandoffInv(s: State, t: TaskId, found: bool)
    requires Ready(s, t) && s.tasks[t].Listing?
    ensures Inv(StartHandoff(s, t, found))
  {
    hide DataOk, TasksOk, KeepsPaused, Grows, Longer;
    var sid := s.tasks[t].target;
    if !found || !SessionOk(s, sid) {
      FinishInv(s, t);
    } else {
      InvalidateOk(s, sid);
      NewLeaseOk(Invalidate(s, sid), sid, s.tasks[t].tab);
      IssueInv(TakeLease(Invalidate(s, sid), sid, s.tasks[t].tab), t, Focusing(sid), Mcp, FocusRpc, sid);
    }
  }

  lemma CompleteBeginInv(s: State, t: TaskId, sid: Sid, handoff: nat)
    requires DataOk(s) && Alone(s, t)
    ensures Inv(CompleteBegin(s, t, sid, handoff))
  {
    hide DataOk, TasksOk, KeepsPaused, Grows, Longer;
    var s1 := Touch(s, sid);
    TouchOk(s, sid);
    if !IsHandoff(s, sid, handoff) || !s.leases[sid].state.Active? {
      FinishInv(s, t);
    } else if !SessionOk(s1, sid) {
      FinishInv(s1, t);
    } else {
      InvalidateOk(s1, sid);
      SetLeaseOk(Invalidate(s1, sid), sid, Returning);
      AtInv(SetLease(Invalidate(s1, sid), sid, Returning), t, Disconnecting(sid, handoff));
    }
  }

  lemma SettleOk(s: State, sid: Sid, handoff: nat)
    requires DataOk(s) && sid in s.sessions
    ensures DataOk(Note(s.(sessions := s.sessions[sid := s.sessions[sid].(uncertain := false)]), Settled(sid, handoff)))
  {
    EpochCounts(s, sid);
    Counts(s.history, Settled(sid, handoff), sid);
    NoteSession(s, sid, s.sessions[sid].(uncertain := false), Settled(sid, handoff));
  }

  lemma SettleGoneOk(s: State, sid: Sid, handoff: nat)
    requires DataOk(s) && sid !in s.sessions
    ensures DataOk(Note(s, Settled(sid, handoff)))
  {
    var o := Settled(sid, handoff);
    HistoryGrows(s.history, o, s.cfg.approvalTtl);
    SentFromDispatchGrows(s.history, o, RecordTtl(s));
    ApprovalsGrow(s, o);
    forall x: Sid
      ensures RevokedCount(s.history + [o], x) == RevokedCount(s.history, x)
      ensures Latched(s.history + [o], x) == (x != sid && Latched(s.history, x))
    {
      Counts(s.history, o, x);
    }
    assert SessionsOk(Note(s, o)) && ExecutionsOk(Note(s, o));
  }

  lemma TouchAllOk(s: State)
    requires DataOk(s)
    ensures DataOk(TouchAll(s))
  {
    assert SessionsOk(TouchAll(s));
  }

  /** The state in which the lease is completed and everybody has been touched. */
  function Released(s: State, sid: Sid): State { SetLease(TouchAll(s), sid, Completed) }

  lemma ReleasedOk(s: State, t: TaskId, sid: Sid)
    requires DataOk(s) && Alone(s, t)
    ensures DataOk(Released(s, sid)) && Alone(Released(s, sid), t)
  {
    hide DataOk, KeepsPaused, Grows, Longer;
    TouchAllOk(s);
    SetLeaseOk(TouchAll(s), sid, Completed);
    StillAlone(s, Released(s, sid), t);
  }

  lemma SettledInv(s: State, t: TaskId, sid: Sid, handoff: nat)
    requires DataOk(s) && Alone(s, t)
    ensures Inv(Finish(Note(if sid in s.sessions
                            then s.(sessions := s.sessions[sid := s.sessions[sid].(uncertain := false)]) else s,
                            Settled(sid, handoff)), t))
  {
    hide DataOk, TasksOk, KeepsPaused, Grows, Longer;
    if sid in s.sessions {
      SettleOk(s, sid, handoff);
      FinishInv(Note(s.(sessions := s.sessions[sid := s.sessions[sid].(uncertain := false)]), Settled(sid, handoff)), t);
    } else {
      SettleGoneOk(s, sid, handoff);
      FinishInv(Note(s, Settled(sid, handoff)), t);
    }
  }

  lemma ResumeFailedInv(s: State, t: TaskId, sid: Sid, c: ErrorCode)
    requires DataOk(s) && Alone(s, t) && !c.ResultUncertain?
    ensures var s1 := RpcFailed(s, sid, c); Inv(if Fatal(c) then At(s1, t, ShuttingDown(None)) else Finish(StayPaused(s1, sid), t))
  {
    hide DataOk, TasksOk, Alone, RpcFailed, Inv, KeepsPaused, Grows, Longer;
    var s1 := RpcFailed(s, sid, c);
    RpcFailedOk(s, sid, c);
    FailedAlone(s, t, sid, c);
    SetLeaseOk(s1, sid, Active);
    StillAlone(s1, StayPaused(s1, sid), t);
    EndInv(s1, t, c);
    EndInv(StayPaused(s1, sid), t, c);
  }

  lemma ResumedInv(s: State, t: TaskId, code: Option<ErrorCode>)
    requires Ready(s, t) && s.tasks[t].Resuming? && code != Some(ResultUncertain)
    ensures Inv(Resumed(s, t, code))
  {
    hide DataOk, TasksOk, Inv, Alone, RpcFailed, StayPaused, TouchAll, SetLease, KeepsPaused, Grows, Longer;
    var sid := s.tasks[t].target;
    match code
    case Some(c) => ResumeFailedInv(s, t, sid, c);
    case None =>
      ReleasedOk(s, t, sid);
      SettledInv(Released(s, sid), t, sid, s.tasks[t].handoff);
  }

  /** The end of a cancellation or a reclaim: the session is gone or its lease is active again. */
  lemma ClosedInv(s: State, t: TaskId, sid: Sid, code: Option<ErrorCode>)
    requires DataOk(s) && Alone(s, t) && code != Some(ResultUncertain)
    ensures Inv(match code case None => Finish(Forget(s, sid), t) case Some(c) => CloseFailed(s, t, sid, c))
  {
    hide DataOk, TasksOk, KeepsPaused, Grows, Longer;
    match code
    case None =>
      ForgetOk(s, sid);
      FinishInv(Forget(s, sid), t);
    case Some(c) => CloseFailedInv(s, t, sid, c);
  }

  lemma NotClosedOk(s: State, sid: Sid, c: ErrorCode)
    requires DataOk(s) && !c.ResultUncertain?
    ensures DataOk(NotClosed(s, sid, c))
  {
    hide DataOk, KeepsPaused, Grows, Longer;
    RpcFailedOk(s, sid, c);
    SetLeaseOk(RpcFailed(s, sid, c), sid, Active);
  }

  lemma CloseFailedInv(s: State, t: TaskId, sid: Sid, c: ErrorCode)
    requires DataOk(s) && Alone(s, t) && !c.ResultUncertain?
    ensures Inv(CloseFailed(s, t, sid, c))
  {
    hide *;
    NotClosedOk(s, sid, c);
    NotClosedAlone(s, t, sid, c);
    EndInv(NotClosed(s, sid, c), t, c);
    CloseFailedIs(s, t, sid, c);
  }

  lemma CloseFailedIs(s: State, t: TaskId, sid: Sid, c: ErrorCode)
    ensures CloseFailed(s, t, sid, c) ==
      if Fatal(c) then At(NotClosed(s, sid, c), t, ShuttingDown(None)) else Finish(NotClosed(s, sid, c), t)
  {
    hide NotClosed, KeepsPaused, Grows, Longer;
  }

  lemma NotClosedAlone(s: State, t: TaskId, sid: Sid, c: ErrorCode)
    requires Alone(s, t)
    ensures Alone(NotClosed(s, sid, c), t)
  {
    hide KeepsPaused, RpcFailed, Alone, Grows, Longer;
    var s1 := RpcFailed(s, sid, c);
    FailedAlone(s, t, sid, c);
    StillAlone(s1, NotClosed(s, sid, c), t);
  }

  lemma SetLeaseThenInv(s: State, t: TaskId, sid: Sid, state: LeaseState, pc: Pc)
    requires DataOk(s) && Alone(s, t)
    requires pc.Disconnecting? || pc.CancelDisconnecting? || pc.ReclaimDisconnecting?
    requires ControlsOk(SetLease(s, sid, state), pc)
    ensures Inv(At(SetLease(s, sid, state), t, pc)) && Inv(Finish(SetLease(s, sid, state), t))
  {
    hide DataOk, TasksOk, KeepsPaused, Grows, Longer;
    SetLeaseOk(s, sid, state);
    AtInv(SetLease(s, sid, state), t, pc);
    FinishInv(SetLease(s, sid, state), t);
  }

  lemma DisconnectedOk(s: State, sid: Sid, handoff: nat, allClosed: bool)
    requires DataOk(s)
    ensures DataOk(Note(s, Disconnected(sid, handoff, allClosed)))
  {
    NotePlain(s, Disconnected(sid, handoff, allClosed));
  }

  /** All viewers are closed: the resume goes out with that on record. */
  lemma ResumeInv(s: State, t: TaskId)
    requires Ready(s, t) && s.tasks[t].Disconnecting? && PcOk(s, s.tasks[t])
    ensures Inv(CompleteDisconnected(s, t, true))
  {
    var sid, handoff := s.tasks[t].target, s.tasks[t].handoff;
    assert s.leases[sid].since <= |s.history|;
    hide DataOk, TasksOk, KeepsPaused, Grows, Longer;
    DisconnectedOk(s, sid, handoff, true);
    var s1 := Note(s, Disconnected(sid, handoff, true));
    IssueInv(s1, t, Resuming(sid, handoff, |s.history|), Console, ResumeRpc, sid);
  }

  lemma ViewersClosedInv(s: State, t: TaskId, allClosed: bool)
    requires Ready(s, t) && PcOk(s, s.tasks[t])
    requires s.tasks[t].Disconnecting? || s.tasks[t].CancelDisconnecting? || s.tasks[t].ReclaimDisconnecting?
    ensures Inv(ViewersGone(s, t, allClosed))
  {
    hide Inv, DataOk, TasksOk, Guarded, KeepsPaused, Grows, Longer;
    var pc := s.tasks[t];
    var sid := pc.target;
    SetLeaseThenInv(s, t, sid, Active, ReclaimDisconnecting(sid));
    if pc.Disconnecting? {
      if allClosed {
        ResumeInv(s, t);
      } else {
        DisconnectedOk(s, sid, pc.handoff, false);
        SetLeaseThenInv(Note(s, Disconnected(sid, pc.handoff, false)), t, sid, Active, ReclaimDisconnecting(sid));
      }
    } else if pc.CancelDisconnecting? {
      IssueInv(s, t, CancelClosing(sid, pc.handoff), Console, CloseRpc, sid);
    } else {
      if allClosed { IssueInv(s, t, ReclaimClosing(sid), Console, CloseRpc, sid); }
    }
  }

  /** A task that is not queued is the one inside the lock. */
  lemma Holder(s: State, t: TaskId)
    requires Inv(s) && t in s.tasks && !s.tasks[t].Queued?
    ensures Ready(s, t) && PcOk(s, s.tasks[t])
  {
  }

  // ---- the remaining commands ---------------------------------------------------------------

  lemma NavigationsOk(s: State, navigations: set<Sid>)
    requires DataOk(s)
    ensures DataOk(s.(navigations := navigations))
  {
    var s' := s.(navigations := navigations);
    assert SessionsOk(s') && ApprovalsOk(s') && ExecutionsOk(s');
  }

  lemma ReapNextInv(s: State, t: TaskId, choice: Sid)
    requires Ready(s, t) && !ActiveControl(s) && !s.tasks[t].CancelDisconnecting? && !s.tasks[t].CancelClosing?
    ensures Inv(ReapNext(s, t, choice))
  {
    hide DataOk, TasksOk, KeepsPaused, Grows, Longer;
    if Reapable(s, choice) {
      IssueInv(s, t, Reaping(choice), Sweeper, CloseRpc, choice);
    } else {
      FinishInv(s, t);
    }
  }

  lemma OpenInv(s: State, t: TaskId, expires: real, reader: Option<Sid>, origin: Origin, pc: Pc)
    requires Ready(s, t) && s.tasks[t].Queued? && !ActiveControl(s)
    requires pc == Opening(s.minted, true) || pc == Opening(s.minted, false) || pc == Reading(s.minted, OpensTab)
    requires reader == s.reader || reader == Some(s.minted)
    ensures Inv(Issue(WithSession(s, expires, reader), t, pc, origin, OtherRpc, s.minted))
  {
    assert !Latched(s.history, s.minted);
    hide DataOk, TasksOk, KeepsPaused, Grows, Longer;
    NewSessionOk(s, expires, reader);
    IssueInv(WithSession(s, expires, reader), t, pc, origin, OtherRpc, s.minted);
  }

  /** A plain automation command sent while no private control is active. */
  lemma BrowseInv(s: State, t: TaskId, pc: Pc, origin: Origin, rpc: Rpc, sid: Sid)
    requires Ready(s, t) && !s.tasks[t].CancelDisconnecting? && !s.tasks[t].CancelClosing?
    requires pc.Browsing? || pc.Closing? || pc.Listing? || pc.Beginning? || pc.Reaping?
             || pc.Opening? || pc.ListingTabs? || pc.Reading?
    requires BeginTarget(pc).Some? ==> !Latched(s.history, BeginTarget(pc).value)
    requires !ActiveControl(s) && !rpc.ActRpc?
    requires rpc.NavigationBegin? ==> !Latched(s.history, sid)
    ensures Inv(Issue(s, t, pc, origin, rpc, sid))
  {
    hide DataOk, TasksOk, KeepsPaused, Grows, Longer, Latched, ActiveControl;
    IssueInv(s, t, pc, origin, rpc, sid);
  }

  /** A navigation of a session whose last outcome is certain. */
  lemma BeginNavigationInv(s: State, t: TaskId, origin: Origin, sid: Sid)
    requires Ready(s, t) && !s.tasks[t].CancelDisconnecting? && !s.tasks[t].CancelClosing?
    requires !ActiveControl(s) && !Latched(s.history, sid)
    ensures Inv(BeginNavigation(s, t, origin, sid))
  {
    hide DataOk, TasksOk, KeepsPaused, Grows, Longer;
    if sid in s.navigations {
      FinishInv(s, t);
    } else {
      BrowseInv(s, t, Beginning(origin, sid), origin, NavigationBegin, sid);
    }
  }

  // ---- reading ------------------------------------------------------------------------------

  lemma ReadOnInv(s: State, t: TaskId, sid: Sid, step: ReadStep)
    requires Ready(s, t) && !s.tasks[t].CancelDisconnecting? && !s.tasks[t].CancelClosing?
    requires !ActiveControl(s) && !Latched(s.history, sid)
    ensures Inv(ReadOn(s, t, sid, step))
  {
    hide DataOk, TasksOk, KeepsPaused, Grows, Longer;
    BrowseInv(s, t, Reading(sid, step), Reader, OtherRpc, sid);
  }

  lemma BeginReadInv(s: State, t: TaskId)
    requires Ready(s, t) && s.tasks[t].Queued?
    ensures Inv(BeginRead(s, t))
  {
    BeginReadIs(s, t);
    hide DataOk, Alone, Inv, BeginRead, ActiveControl, ReadOn, Finish, WithSession, KeepsPaused, Grows, Longer;
    if !ActiveControl(s) && s.reader.Some? && s.reader.value in s.sessions {
      ReadExistingInv(s, t);
    } else if !ActiveControl(s) && |s.sessions| < s.cfg.maxSessions {
      ReadNewInv(s, t);
    } else {
      FinishInv(s, t);
    }
  }

  /** The command a read of the existing reader session starts with. */
  function FirstStep(s: State): ReadStep
    requires s.reader.Some?
  {
    if !s.readerTab then OpensTab else if s.reader.value in s.navigations then EndsNavigation else CancelsJob
  }

  /** The three ways a read can begin. */
  lemma BeginReadIs(s: State, t: TaskId)
    ensures BeginRead(s, t) ==
      if !ActiveControl(s) && s.reader.Some? && s.reader.value in s.sessions then ReadOn(s, t, s.reader.value, FirstStep(s))
      else if !ActiveControl(s) && |s.sessions| < s.cfg.maxSessions then
        ReadOn(WithSession(s, s.now + s.cfg.readerTtl, Some(s.minted)), t, s.minted, OpensTab)
      else Finish(s, t)
  {
    hide ActiveControl, ReadOn, Finish, WithSession, KeepsPaused, Grows, Longer;
  }

  lemma ReadExistingInv(s: State, t: TaskId)
    requires Ready(s, t) && s.tasks[t].Queued? && !ActiveControl(s) && s.reader.Some?
    ensures Inv(ReadOn(s, t, s.reader.value, FirstStep(s)))
  {
    QueuedHere(s, t);
    ReaderCertain(s);
    hide *;
    ReadOnInv(s, t, s.reader.value, FirstStep(s));
  }

  lemma ReadNewInv(s: State, t: TaskId)
    requires Ready(s, t) && s.tasks[t].Queued? && !ActiveControl(s)
    ensures Inv(ReadOn(WithSession(s, s.now + s.cfg.readerTtl, Some(s.minted)), t, s.minted, OpensTab))
  {
    hide DataOk, TasksOk, KeepsPaused, Grows, Longer;
    OpenInv(s, t, s.now + s.cfg.readerTtl, Some(s.minted), Reader, Reading(s.minted, OpensTab));
  }

  /** Nothing the reader does has an uncertain outcome. */
  lemma ReaderCertain(s: State)
    requires DataOk(s)
    ensures s.reader.Some? ==> s.reader.value < s.minted && !Latched(s.history, s.reader.value)
  {
  }

  lemma ReaderTabOk(s: State)
    requires DataOk(s)
    ensures DataOk(s.(readerTab := true))
  {
    var s' := s.(readerTab := true);
    assert SessionsOk(s') && ApprovalsOk(s') && ExecutionsOk(s');
  }

  lemma NavigationDroppedInv(s: State, t: TaskId, sid: Sid)
    requires Ready(s, t) && !s.tasks[t].CancelDisconnecting? && !s.tasks[t].CancelClosing?
    requires !ActiveControl(s) && !Latched(s.history, sid)
    ensures Inv(ReadOn(Touch(s.(navigations := s.navigations - {sid}), sid), t, sid, CancelsJob))
  {
    hide DataOk, TasksOk, KeepsPaused, Grows, Longer;
    NavigationsOk(s, s.navigations - {sid});
    var s1 := s.(navigations := s.navigations - {sid});
    TouchOk(s1, sid);
    ReadOnInv(Touch(s1, sid), t, sid, CancelsJob);
  }

  lemma ReadFailedInv(s: State, t: TaskId, c: ErrorCode)
    requires Ready(s, t) && s.tasks[t].Reading? && PcOk(s, s.tasks[t]) && !c.ResultUncertain?
    ensures Inv(ReadReplied(s, t, Some(c)))
  {
    hide DataOk, TasksOk, KeepsPaused, Alone, Grows, Longer;
    var sid := s.tasks[t].target;
    if s.tasks[t].step.EndsNavigation? && Tolerated(c) {
      RpcFailedOk(s, sid, c);
      FailedAlone(s, t, sid, c);
      var s1 := RpcFailed(s, sid, c);
      assert s1.history == s.history;
      if Fatal(c) { AtInv(s1, t, ShuttingDown(Some(sid))); } else { NavigationDroppedInv(s1, t, sid); }
    } else {
      FailTaskInv(s, t, sid, c);
    }
  }

  lemma ReadRepliedInv(s: State, t: TaskId, code: Option<ErrorCode>)
    requires Ready(s, t) && s.tasks[t].Reading? && PcOk(s, s.tasks[t]) && code != Some(ResultUncertain)
    ensures Inv(ReadReplied(s, t, code))
  {
    var sid := s.tasks[t].target;
    if code.Some? {
      ReadFailedInv(s, t, code.value);
    } else {
      ReaderTabOk(s);
      hide DataOk, TasksOk, Inv, ReadOn, BeginNavigation;
      match s.tasks[t].step
      case OpensTab =>
        ReadOnInv(s.(readerTab := true), t, sid, if sid in s.navigations then EndsNavigation else CancelsJob);
      case EndsNavigation => NavigationDroppedInv(s, t, sid);
      case CancelsJob => ReadOnInv(s, t, sid, Configures);
      case Configures => BeginNavigationInv(s, t, Reader, sid);
    }
  }

  lemma ShutDownInv(s: State, t: TaskId)
    requires Ready(s, t) && s.tasks[t].ShuttingDown? && PcOk(s, s.tasks[t])
    ensures Inv(ShutDown(s, t))
  {
    hide DataOk, TasksOk, ReadOn, KeepsPaused, Grows, Longer;
    match s.tasks[t].reading
    case None => FinishInv(s, t);
    case Some(sid) => NavigationDroppedInv(s, t, sid);
  }

  lemma QueuedHere(s: State, t: TaskId)
    requires Ready(s, t) && s.tasks[t].Queued?
    ensures t in s.tasks && !s.tasks[t].CancelDisconnecting? && !s.tasks[t].CancelClosing?
  {
  }

  lemma BeginOpenInv(s: State, t: TaskId, url: bool)
    requires Ready(s, t) && s.tasks[t].Queued?
    ensures Inv(BeginOpen(s, t, url))
  {
    hide Inv, DataOk, Guarded, KeepsPaused, Grows, Longer;
    if ActiveControl(s) || |s.sessions| >= s.cfg.maxSessions {
      FinishInv(s, t);
      assert BeginOpen(s, t, url) == Finish(s, t);
    } else {
      OpenInv(s, t, s.now + s.cfg.sessionTtl, s.reader, Mcp, Opening(s.minted, url));
    }
  }

  lemma BeginOpenTabInv(s: State, t: TaskId, sid: Sid, listFirst: bool, url: bool)
    requires Ready(s, t) && s.tasks[t].Queued?
    ensures Inv(BeginOpenTab(s, t, sid, listFirst, url))
  {
    FinishInv(s, t);
    hide DataOk, TasksOk, Inv, Issue, KeepsPaused, Grows, Longer;
    if sid in s.sessions && !ActiveControl(s) && (url ==> !s.sessions[sid].uncertain) {
      EpochCounts(s, sid);
      BrowseInv(s, t, ListingTabs(sid, url), Mcp, OtherRpc, sid);
      BrowseInv(s, t, Opening(sid, url), Mcp, OtherRpc, sid);
    }
  }

  lemma BeginReclaimInv(s: State, t: TaskId, sid: Sid)
    requires Ready(s, t)
    ensures Inv(ReclaimBegin(s, t, sid))
  {
    hide DataOk, TasksOk, KeepsPaused, Grows, Longer;
    FinishInv(s, t);
    NavigationsOk(s, s.navigations - {sid});
    SetLeaseThenInv(s.(navigations := s.navigations - {sid}), t, sid, Returning, ReclaimDisconnecting(sid));
  }

  predicate Controls(c: Command) { c.Approve? || c.CompleteHandoff? || c.CancelHandoff? || c.ReclaimSession? }

  lemma BeginControlInv(s: State, t: TaskId, c: Command, choice: Sid)
    requires Ready(s, t) && s.tasks[t] == Queued(c) && Controls(c)
    ensures Inv(Begin(s, t, c, choice))
  {
    FinishInv(s, t);
    hide DataOk, TasksOk, Inv, Alone, ReclaimBegin, CompleteBegin, CancelBegin, ApproveStep, KeepsPaused, Grows, Longer, Finish;
    match c
    case Approve(review, approved) => BeginApproveInv(s, t, review, approved);
    case CompleteHandoff(handoff) => CompleteBeginInv(s, t, choice, handoff);
    case CancelHandoff(handoff) => CancelBeginInv(s, t, choice, handoff);
    case ReclaimSession(sid) => BeginReclaimInv(s, t, sid);
    case _ =>
  }

  lemma CancelBeginInv(s: State, t: TaskId, sid: Sid, handoff: nat)
    requires Ready(s, t) && s.tasks[t].Queued?
    ensures Inv(CancelBegin(s, t, sid, handoff))
  {
    FinishInv(s, t);
    hide DataOk, TasksOk, Inv, Alone, KeepsPaused, Grows, Longer, Finish;
    if IsHandoff(s, sid, handoff) { SetLeaseThenInv(s, t, sid, Cancelled, CancelDisconnecting(sid, handoff)); }
  }

  predicate Browses(c: Command) { c.Navigate? || c.Browse? || c.CloseWork? || c.Handoff? || c.Sweep? }

  lemma NavigateInv(s: State, t: TaskId, sid: Sid, choice: Sid)
    requires Ready(s, t) && s.tasks[t].Queued?
    ensures Inv(Begin(s, t, Navigate(sid), choice))
  {
    FinishInv(s, t);
    hide DataOk, TasksOk, Inv, Alone, BeginNavigation, ReapNext, Issue, KeepsPaused, Grows, Longer, ActiveControl, Latched, Finish;
    if SessionOk(s, sid) && !ActiveControl(s) && !s.sessions[sid].uncertain {
      EpochCounts(s, sid);
      BeginNavigationInv(s, t, Mcp, sid);
    }
  }

  lemma BrowsingInv(s: State, t: TaskId, origin: Origin, sid: Sid, choice: Sid)
    requires Ready(s, t) && s.tasks[t].Queued?
    ensures Inv(Begin(s, t, Browse(origin, sid), choice))
  {
    FinishInv(s, t);
    hide DataOk, TasksOk, Inv, Alone, BeginNavigation, ReapNext, Issue, KeepsPaused, Grows, Longer, ActiveControl, Latched, Finish;
    if !ActiveControl(s) { BrowseInv(s, t, Browsing(origin, sid), origin, OtherRpc, sid); }
  }

  lemma CloseWorkInv(s: State, t: TaskId, sid: Sid, choice: Sid)
    requires Ready(s, t) && s.tasks[t].Queued?
    ensures Inv(Begin(s, t, CloseWork(sid), choice))
  {
    hide DataOk, TasksOk, Inv, Alone, BeginNavigation, ReapNext, Issue, KeepsPaused, Grows, Longer, ActiveControl, Latched, Finish;
    FinishInv(s, t);
    if !ActiveControl(s) { BrowseInv(s, t, Closing(sid), Mcp, CloseRpc, sid); }
  }

  lemma HandoffInv(s: State, t: TaskId, sid: Sid, tab: nat, choice: Sid)
    requires Ready(s, t) && s.tasks[t].Queued?
    ensures Inv(Begin(s, t, Handoff(sid, tab), choice))
  {
    FinishInv(s, t);
    hide DataOk, TasksOk, Inv, Alone, BeginNavigation, ReapNext, Issue, KeepsPaused, Grows, Longer, ActiveControl, Latched, Finish;
    if !ActiveControl(s) { BrowseInv(s, t, Listing(sid, tab), Mcp, OtherRpc, sid); }
  }

  lemma SweepInv(s: State, t: TaskId, choice: Sid)
    requires Ready(s, t) && s.tasks[t].Queued?
    ensures Inv(Begin(s, t, Sweep, choice))
  {
    FinishInv(s, t);
    hide DataOk, TasksOk, Inv, Alone, BeginNavigation, ReapNext, Issue, KeepsPaused, Grows, Longer, ActiveControl, Latched, Finish;
    if !ActiveControl(s) { ReapNextInv(s, t, choice); }
  }

  lemma BeginBrowsingInv(s: State, t: TaskId, c: Command, choice: Sid)
    requires Ready(s, t) && s.tasks[t] == Queued(c) && Browses(c)
    ensures Inv(Begin(s, t, c, choice))
  {
    hide Begin, Inv, DataOk, Alone;
    match c
    case Navigate(sid) => NavigateInv(s, t, sid, choice);
    case Browse(origin, sid) => BrowsingInv(s, t, origin, sid, choice);
    case CloseWork(sid) => CloseWorkInv(s, t, sid, choice);
    case Handoff(sid, tab) => HandoffInv(s, t, sid, tab, choice);
    case Sweep => SweepInv(s, t, choice);
    case _ =>
  }

  lemma BeginInv(s: State, t: TaskId, c: Command, choice: Sid)
    requires Ready(s, t) && s.tasks[t] == Queued(c) && TargetOk(s, s.tasks[t])
    ensures Inv(Begin(s, t, c, choice))
  {
    hide DataOk, TasksOk, Inv, Alone, ActBegin, BeginRead, BeginOpen, BeginOpenTab, KeepsPaused, Grows, Longer;
    if c.ActOn? {
      ActBeginInv(s, t, c.request);
    } else if c.Read? {
      BeginReadInv(s, t);
    } else if c.OpenWork? {
      BeginOpenInv(s, t, c.url);
    } else if c.OpenTab? {
      BeginOpenTabInv(s, t, c.target, c.listFirst, c.url);
    } else if Browses(c) {
      hide Begin;
      BeginBrowsingInv(s, t, c, choice);
    } else {
      hide Begin;
      BeginControlInv(s, t, c, choice);
    }
  }

  lemma BeginApproveInv(s: State, t: TaskId, review: nat, approved: bool)
    requires Ready(s, t)
    ensures Inv(Finish(ApproveStep(s, review, approved), t))
  {
    hide DataOk, TasksOk, KeepsPaused, Grows, Longer;
    ApproveOk(s, review, approved);
    FinishInv(ApproveStep(s, review, approved), t);
  }

  lemma TouchFinishInv(s: State, t: TaskId, sid: Sid)
    requires DataOk(s) && Alone(s, t)
    ensures Inv(Finish(Touch(s, sid), t))
  {
    TouchOk(s, sid);
    FinishInv(Touch(s, sid), t);
  }

  lemma ReapedInv(s: State, t: TaskId, code: Option<ErrorCode>, choice: Sid)
    requires Ready(s, t) && PcOk(s, s.tasks[t]) && s.tasks[t].Reaping? && code != Some(ResultUncertain)
    ensures Inv(Reaped(s, t, code, choice))
  {
    hide DataOk, TasksOk, KeepsPaused, Grows, Longer;
    var sid := s.tasks[t].target;
    if code.Some? && code.value != SessionExpired(true) {
      FailTaskInv(s, t, sid, code.value);
    } else if code.Some? {
      RpcFailedOk(s, sid, code.value);
      ReapNextInv(RpcFailed(s, sid, code.value), t, choice);
    } else {
      ForgetOk(s, sid);
      ReapNextInv(Forget(s, sid), t, choice);
    }
  }

  lemma BegunInv(s: State, t: TaskId, origin: Origin, sid: Sid, pending: bool)
    requires DataOk(s) && Alone(s, t)
    ensures Inv(Begun(s, t, origin, sid, pending))
  {
    hide DataOk, TasksOk, KeepsPaused, Grows, Longer;
    NavigationsOk(s, s.navigations + {sid});
    var s1 := if pending then s.(navigations := s.navigations + {sid}) else s;
    FinishInv(s1, t);
    TouchFinishInv(s1, t, sid);
  }

  lemma ClosingInv(s: State, t: TaskId, sid: Sid, more: bool)
    requires DataOk(s) && Alone(s, t)
    ensures Inv(Finish(if more then Forget(s, sid) else Touch(s, sid), t))
  {
    hide DataOk, TasksOk, KeepsPaused, Grows, Longer;
    TouchFinishInv(s, t, sid);
    ForgetOk(s, sid);
    FinishInv(Forget(s, sid), t);
  }

  lemma SucceededInv(s: State, t: TaskId, more: bool)
    requires Ready(s, t) && PcOk(s, s.tasks[t]) && Ordinary(s.tasks[t])
    ensures Inv(Succeeded(s, t, more))
  {
    hide DataOk, Alone, StartHandoff, Inv, Issue, BeginNavigation, Begun, ControlsOk, PreparingOk, ActingOk,
         Latched, Touch, KeepsPaused, Finish, Forget, ActiveControl;
    var pc := s.tasks[t];
    var sid := pc.target;
    match pc
    case Listing(_, _) => StartHandoffInv(s, t, more);
    case Beginning(origin, _) => BegunInv(s, t, origin, sid, more);
    case Browsing(origin, _) => if more { BrowseInv(s, t, pc, origin, OtherRpc, sid); } else { TouchFinishInv(s, t, sid); }
    case ListingTabs(_, url) => BrowseInv(s, t, Opening(sid, url), Mcp, OtherRpc, sid);
    case Opening(_, url) => if url { BeginNavigationInv(s, t, Mcp, sid); } else { TouchFinishInv(s, t, sid); }
    case Closing(_) => ClosingInv(s, t, sid, more);
    case Focusing(_) | FollowingUp(_) => TouchFinishInv(s, t, sid);
    case _ =>
  }

  lemma RepliedInv(s: State, t: TaskId, code: Option<ErrorCode>, more: bool, choice: Sid)
    requires Ready(s, t) && PcOk(s, s.tasks[t]) && InFlight(s.tasks[t]) && code != Some(ResultUncertain)
    requires !s.tasks[t].Preparing? && !s.tasks[t].Acting? && !s.tasks[t].Completing?
    ensures Inv(Replied(s, t, code, more, choice))
  {
    hide DataOk, TasksOk, Inv, PcOk, Succeeded, ReadReplied, Resumed, Reaped, FailTask, CloseFailed, KeepsPaused,
         Grows, Longer;
    var pc := s.tasks[t];
    if Ordinary(pc) {
      if code.Some? { FailTaskInv(s, t, pc.target, code.value); } else { SucceededInv(s, t, more); }
    } else if pc.Reading? {
      ReadRepliedInv(s, t, code);
    } else if pc.Resuming? {
      ResumedInv(s, t, code);
    } else if pc.Reaping? {
      ReapedInv(s, t, code, choice);
    } else {
      ClosedInv(s, t, pc.target, code);
    }
  }

  // ---- events -----------------------------------------------------------------------------------

  lemma TickInv(s: State, elapsed: real)
    requires Inv(s) && elapsed >= 0.0
    ensures Inv(s.(now := s.now + elapsed))
  {
    var s' := s.(now := s.now + elapsed);
    assert SessionsOk(s') && ApprovalsOk(s');
    assert ExecutionsOk(s') by {
      forall j: nat | j < |s.history| && s.history[j].Sent? && !Passive(s.history[j].input.action)
        ensures Covered(s', s.history[j].input, s.history[j].until)
      {
        assert Covered(s, s.history[j].input, s.history[j].until);
      }
    }
    if s.lock.Some? {
      var pc := s.tasks[s.lock.value];
      assert PcOk(s, pc);
      assert pc.Acting? && pc.dispatch.recorded ==> Covered(s, BindingOf(pc.request), pc.dispatch.until);
      assert PcOk(s', pc);
    }
  }

  lemma CleanupInv(s: State)
    requires Inv(s)
    ensures Inv(s.(approvals := Vacuum(s.approvals, s.now), executions := Vacuum(s.executions, s.now)))
  {
    hide Longer, Grows, KeepsPaused;
    var s' := s.(approvals := Vacuum(s.approvals, s.now), executions := Vacuum(s.executions, s.now));
    forall b: Binding, until: real | Covered(s, b, until)
      ensures Covered(s', b, until)
    {
    }
    assert SessionsOk(s') && ApprovalsOk(s');
    assert ExecutionsOk(s') by {
      forall j: nat | j < |s.history| && s.history[j].Sent? && !Passive(s.history[j].input.action)
        ensures Covered(s', s.history[j].input, s.history[j].until)
      {
        assert Covered(s, s.history[j].input, s.history[j].until);
      }
    }
    if s.lock.Some? {
      var pc := s.tasks[s.lock.value];
      assert PcOk(s, pc);
      assert pc.Acting? && pc.dispatch.recorded ==> Covered(s, BindingOf(pc.request), pc.dispatch.until);
      assert PcOk(s', pc);
    }
  }

  /** Updates of fields the invariant does not speak about. */
  lemma HarmlessInv(s: State, pending: map<nat, Item>, navigations: set<Sid>)
    requires Inv(s)
    ensures Inv(s.(pending := pending, navigations := navigations))
  {
    var s' := s.(pending := pending, navigations := navigations);
    assert SessionsOk(s') && ApprovalsOk(s') && ExecutionsOk(s');
    if s.lock.Some? {
      assert PcOk(s, s.tasks[s.lock.value]);
      assert PcOk(s', s'.tasks[s.lock.value]);
    }
  }

  /** Tasks join and leave the queue without touching anything else. */
  lemma QueueInv(s: State, tasks: map<TaskId, Pc>)
    requires Inv(s)
    requires forall x :: x in tasks ==> (tasks[x].Queued? && TargetOk(s, tasks[x])) || (x in s.tasks && tasks[x] == s.tasks[x])
    requires forall x :: x in s.tasks && !s.tasks[x].Queued? ==> x in tasks && tasks[x] == s.tasks[x]
    ensures Inv(s.(tasks := tasks))
  {
    var s1 := s.(tasks := tasks);
    assert SessionsOk(s1) && ApprovalsOk(s1) && ExecutionsOk(s1);
    if s.lock.Some? {
      assert PcOk(s, s.tasks[s.lock.value]);
      assert PcOk(s1, s.tasks[s.lock.value]);
    }
  }

  lemma TouchInv(s: State, sid: Sid)
    requires Inv(s)
    ensures Inv(Touch(s, sid))
  {
    TouchOk(s, sid);
    var s' := Touch(s, sid);
    if s.lock.Some? {
      assert PcOk(s, s.tasks[s.lock.value]);
      assert PcOk(s', s.tasks[s.lock.value]);
    }
  }

  /** One event of any kind, from any state that satisfies the invariant. */
  lemma NextInv(s: State, e: Event)
    requires Inv(s) && Enabled(s, e)
    ensures Inv(Next(s, e))
  {
    hide Inv, DataOk, TasksOk, PcOk, KeepsPaused, Alone, Touch, SetUncertain, FollowUp, AskCompletion, ActPrepared, ActReplied,
         WaitReplied, ViewersGone, Replied, ShutDown, Finish, Begin, LivePending, Vacuum, InputSent;
    match e
    case Tick(elapsed) => TickInv(s, elapsed);
    case Arrive(t, c) => QueueInv(s, s.tasks[t := Queued(c)]);
    case GiveUp(t) => QueueInv(s, map x | x in s.tasks && x != t :: s.tasks[x]);
    case Acquire(t, choice) =>
      LockedOk(s, t);
      BeginInv(s.(lock := Some(t)), t, s.tasks[t].command, choice);
    case PrepareDone(t, reply) => Holder(s, t); ActPreparedInv(s, t, reply);
    case Input(t) => Holder(s, t); InputSentInv(s, t);
    case ActDone(t, transport, exit) => Holder(s, t); ActRepliedInv(s, t, transport, exit);
    case WaitDone(t, reply) => Holder(s, t); WaitRepliedInv(s, t, reply);
    case Wake(t, overdue) =>
      Holder(s, t);
      TargetIs(s, s.tasks[t]);
      if overdue { UnobservedInv(s, t, s.tasks[t].request); } else { AskCompletionInv(s, t, s.tasks[t].request); }
    case ViewersClosed(t, allClosed) => Holder(s, t); ViewersClosedInv(s, t, allClosed);
    case RpcDone(t, code, more, choice) => Holder(s, t); RepliedInv(s, t, code, more, choice);
    case ShutdownDone(t) => Holder(s, t); ShutDownInv(s, t);
    case NavigationEnded(sid) =>
      HarmlessInv(s, s.pending, s.navigations - {sid});
      TouchInv(s.(navigations := s.navigations - {sid}), sid);
    case Prune => HarmlessInv(s, LivePending(s), s.navigations);
    case Cleanup => CleanupInv(s);
  }

  lemma LockedOk(s: State, t: TaskId)
    requires Inv(s) && t in s.tasks && s.lock.None?
    ensures Ready(s.(lock := Some(t)), t) && TargetOk(s.(lock := Some(t)), s.tasks[t])
  {
    var s' := s.(lock := Some(t));
    assert SessionsOk(s') && ApprovalsOk(s') && ExecutionsOk(s');
  }

  lemma {:induction false} RunInv(cfg: Config, events: seq<Event>)
    requires ValidConfig(cfg)
    ensures Inv(Run(Init(cfg), events)) && Run(Init(cfg), events).cfg == cfg
    decreases |events|
  {
    if events == [] {
      InitInv(cfg);
    } else {
      RunInv(cfg, events[..|events| - 1]);
      var before := Run(Init(cfg), events[..|events| - 1]);
      var e := events[|events| - 1];
      if Enabled(before, e) {
        NextInv(before, e);
      }
    }
  }

  lemma InitInv(cfg: Config)
    requires ValidConfig(cfg)
    ensures Inv(Init(cfg))
  {
  }
}
