/**
 The service object: the fields that the coroutines share and one method for each stretch
 of code between two `await`s. Every method is proved to take the object from one state of
 the transition system to the next, so the theorems about runs hold of it.
 */
module Service {
  import opened Wrappers
  import opened Adapter
  import opened Worker
  import opened Store
  import opened Protocol

  class BrowserService {
    const cfg: Config
    var now: real
    var minted: nat
    var sessions: map<Sid, Session>
    var reader: Option<Sid>
    var readerTab: bool
    var navigations: set<Sid>
    var leases: map<Sid, Lease>
    var pending: map<nat, Item>
    var approvals: Table<Token, Approval>
    var executions: Table<Binding, bool>
    var lock: Option<TaskId>
    var tasks: map<TaskId, Pc>
    var history: seq<Obs>

    function St(): State
      reads this
    {
      State(cfg, now, minted, sessions, reader, readerTab, navigations, leases, pending, approvals, executions, lock, tasks, history)
    }

    constructor (cfg: Config)
      ensures St() == Init(cfg)
    {
      this.cfg := cfg;
      now, minted, sessions, reader, readerTab, navigations, leases := 0.0, 0, map[], None, false, {}, map[];
      pending, approvals, executions, lock, tasks, history := map[], map[], map[], None, map[], [];
    }

    // ---- small steps shared by the stretches ------------------------------------------

    method Note(o: Obs)
      modifies this`history
      ensures St() == Protocol.Note(old(St()), o)
    {
      hide KeepsPaused, Grows, Longer;
      history := history + [o];
    }

    method Finish(t: TaskId)
      modifies this`tasks, this`lock
      ensures St() == Protocol.Finish(old(St()), t)
    {
      hide KeepsPaused, Grows, Longer;
      tasks := map x | x in tasks && x != t :: tasks[x];
      lock := None;
    }

    method Issue(t: TaskId, pc: Pc, origin: Origin, rpc: Rpc, sid: Sid)
      modifies this`tasks, this`history
      ensures St() == Protocol.Issue(old(St()), t, pc, origin, rpc, sid)
    {
      hide KeepsPaused, Grows, Longer;
      Note(Issued(origin, rpc, sid, Guarded(St())));
      tasks := tasks[t := pc];
    }

    method Touch(sid: Sid)
      modifies this`sessions
      ensures St() == Protocol.Touch(old(St()), sid)
    {
      hide KeepsPaused, Grows, Longer;
      if sid in sessions {
        var ttl := if reader == Some(sid) then cfg.readerTtl else cfg.sessionTtl;
        sessions := sessions[sid := sessions[sid].(expires := now + ttl)];
      }
    }

    method Forget(sid: Sid)
      modifies this`sessions, this`leases, this`navigations, this`reader, this`readerTab, this`pending
      ensures St() == Protocol.Forget(old(St()), sid)
    {
      hide KeepsPaused, Grows, Longer;
      if reader == Some(sid) { reader, readerTab := None, false; }
      sessions := sessions - {sid};
      leases := leases - {sid};
      navigations := navigations - {sid};
      pending := map k | k in pending && pending[k].sid != sid :: pending[k];
    }

    method SetUncertain(sid: Sid)
      modifies this`sessions, this`history
      ensures St() == Protocol.SetUncertain(old(St()), sid)
    {
      hide KeepsPaused, Grows, Longer;
      if sid in sessions {
        sessions := sessions[sid := sessions[sid].(uncertain := true)];
        Note(BecameUncertain(sid));
      }
    }

    method SetLease(sid: Sid, state: LeaseState)
      modifies this`leases
      ensures St() == Protocol.SetLease(old(St()), sid, state)
    {
      hide KeepsPaused, Grows, Longer;
      if sid in leases { leases := leases[sid := leases[sid].(state := state)]; }
    }

    /** Deletes the session's pending proposals and their records, one by one. */
    method DeletePending(sid: Sid)
      modifies this`approvals, this`pending
      ensures pending == OfOthers(old(pending), sid)
      ensures approvals == Without(old(approvals), TokensOf(old(pending), sid))
    {
      hide KeepsPaused, Grows, Longer;
      var todo := set k | k in pending && pending[k].sid == sid;
      while todo != {}
        invariant todo <= pending.Keys
        invariant forall k :: k in pending ==> k in old(pending) && pending[k] == old(pending)[k]
        invariant forall k :: k in old(pending) && k !in pending ==> old(pending)[k].sid == sid
        invariant forall k :: k in pending && pending[k].sid == sid ==> k in todo
        invariant forall k :: k in todo ==> pending[k].sid == sid
        invariant forall x :: x in approvals <==>
          x in old(approvals) && !exists k :: k in old(pending) && k !in pending && old(pending)[k].token == x
        invariant forall x :: x in approvals ==> approvals[x] == old(approvals)[x]
        decreases todo
      {
        var k :| k in todo;
        ghost var before, rows := pending, approvals;
        approvals := map x | x in approvals && x != pending[k].token :: approvals[x];
        pending := map j | j in pending && j != k :: pending[j];
        todo := todo - {k};
        forall x
          ensures x in approvals <==>
            x in old(approvals) && !exists j :: j in old(pending) && j !in pending && old(pending)[j].token == x
        {
          assert x in approvals <==> x in rows && x != before[k].token;
        }
      }
      forall x
        ensures x in TokensOf(old(pending), sid) <==>
          exists k :: k in old(pending) && k !in pending && old(pending)[k].token == x
      {
      }
    }

    /** Revokes the session's outstanding approvals and moves its epoch on. */
    method InvalidateApprovals(sid: Sid)
      requires sid in sessions
      modifies this`sessions, this`approvals, this`pending, this`history
      ensures St() == Invalidate(old(St()), sid)
    {
      hide KeepsPaused, Grows, Longer;
      sessions := sessions[sid := sessions[sid].(epoch := sessions[sid].epoch + 1)];
      DeletePending(sid);
      Note(Revoked(sid));
    }

    method LoseWorker()
      modifies this`sessions, this`leases, this`navigations
      ensures St() == WorkerLost(old(St()))
    {
      hide KeepsPaused, Grows, Longer;
      sessions, leases, navigations := map[], map[], {};
    }

    method RpcFailed(sid: Sid, code: ErrorCode)
      modifies this`sessions, this`leases, this`navigations, this`reader, this`readerTab, this`pending, this`history
      ensures St() == Protocol.RpcFailed(old(St()), sid, code)
    {
      hide KeepsPaused, Grows, Longer;
      if code == SessionExpired(true) {
        if sid in sessions { Forget(sid); }
      } else if code.SessionExpired? || code.WorkerTimeout? {
        LoseWorker();
      } else if code.ResultUncertain? {
        SetUncertain(sid);
      }
    }

    method FailTask(t: TaskId, sid: Sid, code: ErrorCode)
      modifies this
      ensures St() == Protocol.FailTask(old(St()), t, sid, code)
    {
      hide KeepsPaused, Grows, Longer;
      RpcFailed(sid, code);
      if Fatal(code) { tasks := tasks[t := ShuttingDown(None)]; } else { Finish(t); }
    }

    // ---- _act ---------------------------------------------------------------------------

    method ActBegin(t: TaskId, r: Request)
      modifies this
      ensures St() == Protocol.ActBegin(old(St()), t, r)
    {
      hide KeepsPaused, Grows, Longer;
      if !SessionOk(St(), r.sid) || ActiveControl(St()) || sessions[r.sid].uncertain {
        Finish(t);
        return;
      }
      var executed := Get(executions, now, BindingOf(r));
      if executed.Some? {
        Finish(t);
        return;
      }
      if r.token.Some? {
        var record := Get(approvals, now, r.token.value);
        if record.None? || record.value.binding != ApprovalBindingOf(r, sessions[r.sid].epoch)
           || !record.value.state.Approved? {
          Finish(t);
          return;
        }
      }
      Issue(t, Preparing(r, sessions[r.sid].epoch, now), Mcp, PrepareRpc, r.sid);
    }

    /** Searches the outstanding proposals for this action and target. */
    method FindProposal(binding: ApprovalBinding, target: nat) returns (found: bool, denied: bool)
      ensures found == AlreadyProposed(St(), binding, target)
      ensures denied == AlreadyDenied(St(), binding, target)
    {
      hide KeepsPaused, Grows, Longer;
      found, denied := false, false;
      var todo := pending.Keys;
      while todo != {}
        invariant todo <= pending.Keys
        invariant found <==> exists k :: k in pending && k !in todo && Matches(k, binding, target)
        invariant denied <==> exists k :: k in pending && k !in todo && Matches(k, binding, target)
                                          && approvals[pending[k].token].value.state.Denied?
        decreases todo
      {
        var k :| k in todo;
        if Matches(k, binding, target) {
          found := true;
          if approvals[pending[k].token].value.state.Denied? { denied := true; }
        }
        todo := todo - {k};
      }
      assert forall k :: k in pending && Matches(k, binding, target) <==>
        k in pending && pending[k].expires > now
        && (var record := Get(approvals, now, pending[k].token);
            record.Some? && record.value.binding == binding && record.value.target == target);
    }

    predicate Matches(k: nat, binding: ApprovalBinding, target: nat)
      requires k in pending
      reads this
    {
      pending[k].expires > now && pending[k].token in approvals && approvals[pending[k].token].expires > now
      && approvals[pending[k].token].value.binding == binding && approvals[pending[k].token].value.target == target
    }

    method Propose(t: TaskId, target: nat)
      requires t in tasks && tasks[t].Preparing?
      modifies this
      ensures St() == Protocol.Propose(old(St()), t, target)
    {
      hide KeepsPaused, Grows, Longer;
      var r, epoch := tasks[t].request, tasks[t].epoch;
      var binding := ApprovalBindingOf(r, epoch);
      var found, denied := FindProposal(binding, target);
      PrunePending();
      if found {
        if !denied { Touch(r.sid); }
      } else if |pending| < PENDING_LIMIT {
        AddProposal(Approval(binding, target, Pending, r.sid, epoch));
        Touch(r.sid);
      }
      Finish(t);
    }

    method PrunePending()
      modifies this`pending
      ensures St() == old(St()).(pending := LivePending(old(St())))
    {
      hide KeepsPaused, Grows, Longer;
      pending := map k | k in pending && pending[k].expires > now :: pending[k];
    }

    method AddProposal(record: Approval)
      modifies this`minted, this`approvals, this`pending, this`history
      ensures St() == Protocol.AddProposal(old(St()), record)
    {
      hide KeepsPaused, Grows, Longer;
      var token, review := minted, minted + 1;
      minted := minted + 2;
      approvals := approvals[token := Row(record, now + cfg.approvalTtl)];
      pending := pending[review := Item(record.sid, token, now + cfg.approvalTtl)];
      Note(Proposed(token, record.binding, record.target, now));
    }

    method Consume(r: Request, token: Token, record: Approval)
      modifies this`approvals, this`executions, this`pending
      ensures St() == Protocol.Consume(old(St()), r, token, record)
    {
      hide KeepsPaused, Grows, Longer;
      approvals := approvals[token := Row(record.(state := Consumed), now + DAY)];
      executions := executions[BindingOf(r) := Row(true, now + Max(DAY, cfg.sessionTtl))];
      pending := map k | k in pending && pending[k].token != token :: pending[k];
    }

    method ConsumeAndDispatch(t: TaskId, target: nat, needed: bool)
      requires t in tasks && tasks[t].Preparing?
      modifies this
      ensures St() == Protocol.ConsumeAndDispatch(old(St()), t, target, needed)
    {
      hide KeepsPaused, Grows, Longer;
      var r, checked := tasks[t].request, tasks[t].checked;
      var until := now + Max(DAY, cfg.sessionTtl);
      var seen := Dispatched(r, tasks[t].epoch, target, needed, now);
      var d := Dispatch(checked, until, !Passive(r.action), None, None, map[], |history|, false);
      match r.token {
        case Some(token) =>
          var record := Get(approvals, now, token);
          if record.None? || !record.value.state.Approved? {
            Finish(t);
            return;
          }
          d := Dispatch(checked, until, true, Some((record.value, approvals[token].expires)),
                        Some(record.value.(state := Consumed)), OfToken(pending, token), |history|, false);
          Note(seen);
          Consume(r, token, record.value);
        case None =>
          Note(seen);
          if !Passive(r.action) { executions := executions[BindingOf(r) := Row(true, until)]; }
      }
      Issue(t, Acting(r, d), Mcp, ActRpc, r.sid);
    }

    method ActPrepared(t: TaskId, reply: PrepareReply)
      requires t in tasks && tasks[t].Preparing?
      modifies this
      ensures St() == Protocol.ActPrepared(old(St()), t, reply)
    {
      hide KeepsPaused, Grows, Longer;
      var r := tasks[t].request;
      match reply {
        case PrepareFailed(code) =>
          FailTask(t, r.sid, code);
        case Prepared(target, needed) =>
          if r.token.Some? {
            var record := Get(approvals, now, r.token.value);
            if record.None? || record.value.target != target {
              Finish(t);
              return;
            }
          } else if needed {
            Propose(t, target);
            return;
          }
          ConsumeAndDispatch(t, target, needed);
      }
    }

    method InputSent(t: TaskId)
      requires t in tasks && tasks[t].Acting?
      modifies this`tasks, this`history
      ensures St() == Protocol.InputSent(old(St()), t)
    {
      hide KeepsPaused, Grows, Longer;
      var r, d := tasks[t].request, tasks[t].dispatch;
      if !d.sent {
        Note(Sent(BindingOf(r), r.token, d.entry, d.checked, d.until));
        tasks := tasks[t := Acting(r, d.(sent := true))];
      }
    }

    method Rollback(r: Request, d: Dispatch)
      modifies this`executions, this`approvals, this`pending
      ensures St() == Protocol.Rollback(old(St()), r, d)
    {
      hide KeepsPaused, Grows, Longer;
      if d.recorded {
        executions := map x | x in executions && x != BindingOf(r) :: executions[x];
      }
      if d.consent.Some? && r.token.Some? {
        var current := Get(approvals, now, r.token.value);
        var remaining := d.consent.value.1 - now;
        if current == d.consumed && remaining > 0.0 {
          approvals := approvals[r.token.value := Row(d.consent.value.0, now + remaining)];
          pending := pending + d.removed;
        }
      }
    }

    method FollowUp(t: TaskId, r: Request)
      modifies this
      ensures St() == Protocol.FollowUp(old(St()), t, r)
    {
      hide KeepsPaused, Grows, Longer;
      if r.followUp && SessionOk(St(), r.sid) && !ActiveControl(St()) {
        Issue(t, FollowingUp(r.sid), Mcp, OtherRpc, r.sid);
      } else {
        Touch(r.sid);
        Finish(t);
      }
    }

    method AskCompletion(t: TaskId, r: Request)
      modifies this
      ensures St() == Protocol.AskCompletion(old(St()), t, r)
    {
      hide KeepsPaused, Grows, Longer;
      if SessionOk(St(), r.sid) && !ActiveControl(St()) {
        Issue(t, Completing(r), Mcp, WaitRpc, r.sid);
      } else {
        SetUncertain(r.sid);
        FollowUp(t, r);
      }
    }

    method ActReplied(t: TaskId, transport: Transport, exit: Exit)
      requires t in tasks && tasks[t].Acting?
      modifies this
      ensures St() == Protocol.ActReplied(old(St()), t, transport, exit)
    {
      hide KeepsPaused, Grows, Longer;
      if !transport.Delivered? { InputSent(t); }
      var r, d := tasks[t].request, tasks[t].dispatch;
      var reply := Receive(true, transport, exit);
      match reply {
        case Error(code, _) =>
          RpcFailed(r.sid, code);
          if GuaranteesNoSend(reply) { Rollback(r, d); }
          if Fatal(code) { tasks := tasks[t := ShuttingDown(None)]; } else { Finish(t); }
        case Ok(performed) =>
          var q := Observing(r, exit);
          if r.completion && performed { AskCompletion(t, q); } else { FollowUp(t, q); }
      }
    }

    method WaitReplied(t: TaskId, reply: WaitReply)
      requires t in tasks && tasks[t].Completing?
      modifies this
      ensures St() == Protocol.WaitReplied(old(St()), t, reply)
    {
      hide KeepsPaused, Grows, Longer;
      var r := tasks[t].request;
      match reply {
        case Matched =>
        case Unmatched(partial) =>
          if partial { SetUncertain(r.sid); }
        case WaitFailed(code, retry) =>
          RpcFailed(r.sid, code);
          if Fatal(code) {
            tasks := tasks[t := ShuttingDown(None)];
            return;
          }
          if retry && code.OtherCode? {
            tasks := tasks[t := Sleeping(r)];
            return;
          }
          SetUncertain(r.sid);
      }
      FollowUp(t, r);
    }

    // ---- the private console ----------------------------------------------------------------

    method Approve(review: nat, approved: bool)
      modifies this`approvals, this`pending, this`history
      ensures St() == ApproveStep(old(St()), review, approved)
    {
      hide KeepsPaused, Grows, Longer;
      if review !in pending || pending[review].expires <= now { return; }
      var item := pending[review];
      var record := Get(approvals, now, item.token);
      if record.None? || !record.value.state.Pending? || !SessionOk(St(), item.sid) { return; }
      if record.value.sid != item.sid || record.value.epoch != sessions[item.sid].epoch { return; }
      if approved {
        pending := pending[review := item.(expires := now + cfg.approvalTtl)];
        approvals := approvals[item.token := Row(record.value.(state := Approved), now + cfg.approvalTtl)];
        Note(Granted(item.token, now));
      } else {
        approvals := approvals[item.token := Row(record.value.(state := Denied), now + Max(1.0, item.expires - now))];
        Note(Declined(item.token, now));
      }
    }

    method TakeLease(sid: Sid, tab: nat)
      modifies this`leases, this`minted
      ensures St() == Protocol.TakeLease(old(St()), sid, tab)
    {
      hide KeepsPaused, Grows, Longer;
      leases := leases[sid := Lease(minted, tab, Active, now + cfg.handoffTtl, |history|)];
      minted := minted + 1;
    }

    method StartHandoff(t: TaskId, found: bool)
      requires t in tasks && tasks[t].Listing?
      modifies this
      ensures St() == Protocol.StartHandoff(old(St()), t, found)
    {
      hide KeepsPaused, Grows, Longer;
      var sid, tab := tasks[t].target, tasks[t].tab;
      if !found || !SessionOk(St(), sid) {
        Finish(t);
        return;
      }
      InvalidateApprovals(sid);
      TakeLease(sid, tab);
      Issue(t, Focusing(sid), Mcp, FocusRpc, sid);
    }

    method CompleteBegin(t: TaskId, sid: Sid, handoff: nat)
      modifies this
      ensures St() == Protocol.CompleteBegin(old(St()), t, sid, handoff)
    {
      hide KeepsPaused, Grows, Longer;
      if sid !in leases || leases[sid].id != handoff || !leases[sid].state.Active? {
        Finish(t);
        return;
      }
      Touch(sid);
      if !SessionOk(St(), sid) {
        Finish(t);
        return;
      }
      InvalidateApprovals(sid);
      SetLease(sid, Returning);
      tasks := tasks[t := Disconnecting(sid, handoff)];
    }

    method ViewersGone(t: TaskId, allClosed: bool)
      requires t in tasks
      requires tasks[t].Disconnecting? || tasks[t].CancelDisconnecting? || tasks[t].ReclaimDisconnecting?
      modifies this
      ensures St() == Protocol.ViewersGone(old(St()), t, allClosed)
    {
      hide KeepsPaused, Grows, Longer;
      var pc := tasks[t];
      var sid := pc.target;
      var seen := |history|;
      if pc.Disconnecting? { Note(Disconnected(sid, pc.handoff, allClosed)); }
      if pc.CancelDisconnecting? {
        Issue(t, CancelClosing(sid, pc.handoff), Console, CloseRpc, sid);
      } else if !allClosed {
        SetLease(sid, Active);
        Finish(t);
      } else if pc.Disconnecting? {
        Issue(t, Resuming(sid, pc.handoff, seen), Console, ResumeRpc, sid);
      } else {
        Issue(t, ReclaimClosing(sid), Console, CloseRpc, sid);
      }
    }

    method Resumed(t: TaskId, code: Option<ErrorCode>)
      requires t in tasks && tasks[t].Resuming?
      modifies this
      ensures St() == Protocol.Resumed(old(St()), t, code)
    {
      hide KeepsPaused, Grows, Longer;
      var sid, handoff := tasks[t].target, tasks[t].handoff;
      match code {
        case Some(c) =>
          RpcFailed(sid, c);
          if Fatal(c) {
            tasks := tasks[t := ShuttingDown(None)];
          } else {
            SetLease(sid, Active);
            Finish(t);
          }
        case None =>
          sessions := map x | x in sessions :: sessions[x].(expires :=
              now + if reader == Some(x) then cfg.readerTtl else cfg.sessionTtl);
          SetLease(sid, Completed);
          if sid in sessions { sessions := sessions[sid := sessions[sid].(uncertain := false)]; }
          Note(Settled(sid, handoff));
          Finish(t);
      }
    }

    method CancelBegin(t: TaskId, sid: Sid, handoff: nat)
      modifies this
      ensures St() == Protocol.CancelBegin(old(St()), t, sid, handoff)
    {
      hide KeepsPaused, Grows, Longer;
      if sid !in leases || leases[sid].id != handoff || !leases[sid].state.Active? {
        Finish(t);
      } else {
        SetLease(sid, Cancelled);
        tasks := tasks[t := CancelDisconnecting(sid, handoff)];
      }
    }

    /** The close command of a cancellation or a reclaim has been answered. */
    method ControlClosed(t: TaskId, code: Option<ErrorCode>)
      requires t in tasks && (tasks[t].CancelClosing? || tasks[t].ReclaimClosing?)
      modifies this
      ensures St() == if old(tasks[t].CancelClosing?) then CancelClosed(old(St()), t, code)
                      else ReclaimClosed(old(St()), t, code)
    {
      hide KeepsPaused, Grows, Longer;
      var sid := tasks[t].target;
      match code {
        case None =>
          Forget(sid);
          Finish(t);
        case Some(c) =>
          RpcFailed(sid, c);
          if sid in sessions { SetLease(sid, Active); }
          if Fatal(c) { tasks := tasks[t := ShuttingDown(None)]; } else { Finish(t); }
      }
    }

    method ReclaimBegin(t: TaskId, sid: Sid)
      modifies this
      ensures St() == Protocol.ReclaimBegin(old(St()), t, sid)
    {
      hide KeepsPaused, Grows, Longer;
      if sid !in sessions {
        Finish(t);
      } else {
        navigations := navigations - {sid};
        SetLease(sid, Returning);
        tasks := tasks[t := ReclaimDisconnecting(sid)];
      }
    }

    method ReapNext(t: TaskId, choice: Sid)
      modifies this
      ensures St() == Protocol.ReapNext(old(St()), t, choice)
    {
      hide KeepsPaused, Grows, Longer;
      if choice in sessions && sessions[choice].expires <= now && choice !in navigations {
        Issue(t, Reaping(choice), Sweeper, CloseRpc, choice);
      } else {
        Finish(t);
      }
    }

    method NewSession(expires: real, reader': Option<Sid>) returns (sid: Sid)
      modifies this`sessions, this`minted, this`reader, this`readerTab
      ensures sid == old(minted) && St() == WithSession(old(St()), expires, reader')
    {
      hide KeepsPaused, Grows, Longer;
      sid := minted;
      minted := minted + 1;
      if reader' != reader { readerTab := false; }
      reader := reader';
      sessions := sessions[sid := Session(expires, false, 0)];
    }

    method BeginNavigation(t: TaskId, origin: Origin, sid: Sid)
      modifies this`tasks, this`lock, this`history
      ensures St() == Protocol.BeginNavigation(old(St()), t, origin, sid)
    {
      hide KeepsPaused, Grows, Longer;
      if sid in navigations { Finish(t); } else { Issue(t, Beginning(origin, sid), origin, NavigationBegin, sid); }
    }

    method ReadOn(t: TaskId, sid: Sid, step: ReadStep)
      modifies this`tasks, this`history
      ensures St() == Protocol.ReadOn(old(St()), t, sid, step)
    {
      hide KeepsPaused, Grows, Longer;
      Issue(t, Reading(sid, step), Reader, OtherRpc, sid);
    }

    method EndPending(t: TaskId, sid: Sid)
      modifies this`tasks, this`history
      ensures St() == Protocol.EndPending(old(St()), t, sid)
    {
      hide KeepsPaused, Grows, Longer;
      ReadOn(t, sid, if sid in navigations then EndsNavigation else CancelsJob);
    }

    method BeginRead(t: TaskId)
      modifies this
      ensures St() == Protocol.BeginRead(old(St()), t)
    {
      hide KeepsPaused, Grows, Longer;
      if ActiveControl(St()) {
        Finish(t);
      } else if reader.Some? && reader.value in sessions {
        if readerTab { EndPending(t, reader.value); } else { ReadOn(t, reader.value, OpensTab); }
      } else if |sessions| >= cfg.maxSessions {
        Finish(t);
      } else {
        var sid := NewSession(now + cfg.readerTtl, Some(minted));
        ReadOn(t, sid, OpensTab);
      }
    }

    /** The earlier navigation of the reader's session is over; the read goes on. */
    method DropNavigation(t: TaskId, sid: Sid)
      modifies this`sessions, this`navigations, this`tasks, this`history
      ensures St() == Protocol.NavigationDropped(old(St()), t, sid, false)
    {
      hide KeepsPaused, Grows, Longer;
      navigations := navigations - {sid};
      Touch(sid);
      ReadOn(t, sid, CancelsJob);
    }

    method ReadReplied(t: TaskId, code: Option<ErrorCode>)
      requires t in tasks && tasks[t].Reading?
      modifies this
      ensures St() == Protocol.ReadReplied(old(St()), t, code)
    {
      hide KeepsPaused, Grows, Longer;
      var sid, step := tasks[t].target, tasks[t].step;
      if code.Some? {
        var c := code.value;
        if !step.EndsNavigation? || !Tolerated(c) {
          FailTask(t, sid, c);
          return;
        }
        RpcFailed(sid, c);
        if Fatal(c) { tasks := tasks[t := ShuttingDown(Some(sid))]; } else { DropNavigation(t, sid); }
      } else {
        match step {
          case OpensTab =>
            readerTab := true;
            EndPending(t, sid);
          case EndsNavigation => DropNavigation(t, sid);
          case CancelsJob => ReadOn(t, sid, Configures);
          case Configures => BeginNavigation(t, Reader, sid);
        }
      }
    }

    method ShutDown(t: TaskId)
      requires t in tasks && tasks[t].ShuttingDown?
      modifies this
      ensures St() == Protocol.ShutDown(old(St()), t)
    {
      hide KeepsPaused, Grows, Longer;
      match tasks[t].reading {
        case None => Finish(t);
        case Some(sid) => DropNavigation(t, sid);
      }
    }

    method BeginOpen(t: TaskId, url: bool)
      modifies this
      ensures St() == Protocol.BeginOpen(old(St()), t, url)
    {
      hide KeepsPaused, Grows, Longer;
      if ActiveControl(St()) || |sessions| >= cfg.maxSessions {
        Finish(t);
      } else {
        var sid := NewSession(now + cfg.sessionTtl, reader);
        Issue(t, Opening(sid, url), Mcp, OtherRpc, sid);
      }
    }

    method BeginOpenTab(t: TaskId, sid: Sid, listFirst: bool, url: bool)
      modifies this
      ensures St() == Protocol.BeginOpenTab(old(St()), t, sid, listFirst, url)
    {
      hide KeepsPaused, Grows, Longer;
      if sid in navigations || !SessionOk(St(), sid) || ActiveControl(St()) || (url && sessions[sid].uncertain) {
        Finish(t);
      } else {
        Issue(t, if listFirst then ListingTabs(sid, url) else Opening(sid, url), Mcp, OtherRpc, sid);
      }
    }

    /** What each command does first once it holds the command lock. */
    method Begin(t: TaskId, c: Command, choice: Sid)
      modifies this
      ensures St() == Protocol.Begin(old(St()), t, c, choice)
    {
      hide KeepsPaused, Grows, Longer;
      match c {
        case ActOn(r) => ActBegin(t, r);
        case Approve(review, approved) =>
          Approve(review, approved);
          Finish(t);
        case CompleteHandoff(handoff) => CompleteBegin(t, choice, handoff);
        case CancelHandoff(handoff) => CancelBegin(t, choice, handoff);
        case ReclaimSession(sid) => ReclaimBegin(t, sid);
        case _ => BeginAutomation(t, c, choice);
      }
    }

    method BeginAutomation(t: TaskId, c: Command, choice: Sid)
      requires !c.ActOn? && !c.Approve? && !c.CompleteHandoff? && !c.CancelHandoff? && !c.ReclaimSession?
      modifies this
      ensures St() == Protocol.Begin(old(St()), t, c, choice)
    {
      hide KeepsPaused, Grows, Longer;
      if ActiveControl(St()) {
        Finish(t);
        return;
      }
      match c {
        case Navigate(sid) =>
          if !SessionOk(St(), sid) || sessions[sid].uncertain { Finish(t); } else { BeginNavigation(t, Mcp, sid); }
        case Browse(origin, sid) =>
          if !origin.Driver? && !SessionOk(St(), sid) {
            Finish(t);
          } else {
            Issue(t, Browsing(origin, sid), origin, OtherRpc, sid);
          }
        case Read => BeginRead(t);
        case OpenWork(url) => BeginOpen(t, url);
        case OpenTab(sid, listFirst, url) => BeginOpenTab(t, sid, listFirst, url);
        case CloseWork(sid) =>
          if sid !in sessions { Finish(t); } else { Issue(t, Closing(sid), Mcp, CloseRpc, sid); }
        case Handoff(sid, tab) =>
          if !SessionOk(St(), sid) { Finish(t); } else { Issue(t, Listing(sid, tab), Mcp, OtherRpc, sid); }
        case Sweep => ReapNext(t, choice);
      }
    }

    method Reaped(t: TaskId, code: Option<ErrorCode>, choice: Sid)
      requires t in tasks && tasks[t].Reaping?
      modifies this
      ensures St() == Protocol.Reaped(old(St()), t, code, choice)
    {
      hide KeepsPaused, Grows, Longer;
      var sid := tasks[t].target;
      if code.Some? && code.value != SessionExpired(true) {
        FailTask(t, sid, code.value);
        return;
      }
      if code.Some? { RpcFailed(sid, code.value); } else { Forget(sid); }
      ReapNext(t, choice);
    }

    method Replied(t: TaskId, code: Option<ErrorCode>, more: bool, choice: Sid)
      requires t in tasks && InFlight(tasks[t])
      requires !tasks[t].Preparing? && !tasks[t].Acting? && !tasks[t].Completing?
      modifies this
      ensures St() == Protocol.Replied(old(St()), t, code, more, choice)
    {
      hide KeepsPaused, Grows, Longer, Protocol.ReadReplied, Protocol.Resumed, Protocol.Reaped, Protocol.FailTask, Protocol.Succeeded,
           CloseFailed;
      var pc := tasks[t];
      if Ordinary(pc) {
        if code.Some? { FailTask(t, pc.target, code.value); } else { Succeeded(t, more); }
      } else if pc.Reading? {
        ReadReplied(t, code);
      } else if pc.Resuming? {
        Resumed(t, code);
      } else if pc.Reaping? {
        Reaped(t, code, choice);
      } else {
        ControlClosed(t, code);
      }
    }

    /** An ordinary command succeeded. */
    method Succeeded(t: TaskId, more: bool)
      requires t in tasks && Ordinary(tasks[t])
      modifies this
      ensures St() == Protocol.Succeeded(old(St()), t, more)
    {
      hide KeepsPaused, Grows, Longer, Protocol.StartHandoff, ActiveControl, Guarded;
      var pc := tasks[t];
      var sid := pc.target;
      if pc.Listing? {
        StartHandoff(t, more);
      } else if pc.ListingTabs? {
        Issue(t, Opening(sid, pc.url), Mcp, OtherRpc, sid);
      } else if pc.Opening? && pc.url {
        BeginNavigation(t, Mcp, sid);
      } else if pc.Browsing? && more {
        Issue(t, pc, pc.origin, OtherRpc, sid);
      } else if pc.Closing? && more {
        Forget(sid);
        Finish(t);
      } else {
        if pc.Beginning? && more { navigations := navigations + {sid}; }
        if !(pc.Beginning? && pc.origin.Reader?) { Touch(sid); }
        Finish(t);
      }
    }

    // ---- events -------------------------------------------------------------------------------

    /** Between two polls of a completion the time may run out. */
    method Woken(t: TaskId, overdue: bool)
      requires t in tasks && tasks[t].Sleeping?
      modifies this
      ensures St() == Next(old(St()), Wake(t, overdue))
    {
      hide KeepsPaused, Grows, Longer, Protocol.SetUncertain, Protocol.FollowUp, Protocol.AskCompletion;
      var r := tasks[t].request;
      if overdue {
        SetUncertain(r.sid);
        FollowUp(t, r);
      } else {
        AskCompletion(t, r);
      }
    }

    /** The store drops the rows whose expiry has passed. */
    method CleanUp()
      modifies this`approvals, this`executions
      ensures St() == Next(old(St()), Cleanup)
    {
      hide KeepsPaused, Grows, Longer;
      approvals := map x | x in approvals && approvals[x].expires >= now :: approvals[x];
      executions := map x | x in executions && executions[x].expires >= now :: executions[x];
    }

    /** One event, whatever it is. */
    method Handle(e: Event)
      requires Enabled(St(), e)
      modifies this
      ensures St() == Next(old(St()), e)
    {
      hide KeepsPaused, Grows, Longer, Protocol.Begin, Protocol.ActPrepared, Protocol.InputSent, Protocol.ActReplied, Protocol.WaitReplied,
           Protocol.SetUncertain, Protocol.FollowUp, Protocol.AskCompletion, Protocol.ViewersGone, Protocol.Replied,
           Protocol.ShutDown, Protocol.Touch;
      match e {
        case Tick(elapsed) => now := now + elapsed;
        case Arrive(t, c) => tasks := tasks[t := Queued(c)];
        case GiveUp(t) => tasks := map x | x in tasks && x != t :: tasks[x];
        case Acquire(t, choice) =>
          lock := Some(t);
          Begin(t, tasks[t].command, choice);
        case PrepareDone(t, reply) => ActPrepared(t, reply);
        case Input(t) => InputSent(t);
        case ActDone(t, transport, exit) => ActReplied(t, transport, exit);
        case WaitDone(t, reply) => WaitReplied(t, reply);
        case Wake(t, overdue) => Woken(t, overdue);
        case ViewersClosed(t, allClosed) => ViewersGone(t, allClosed);
        case RpcDone(t, code, more, choice) => Replied(t, code, more, choice);
        case ShutdownDone(t) => ShutDown(t);
        case NavigationEnded(sid) =>
          navigations := navigations - {sid};
          Touch(sid);
        case Prune => pending := map k | k in pending && pending[k].expires > now :: pending[k];
        case Cleanup => CleanUp();
      }
    }
  }

  /** Serving any sequence of events is a run of the transition system. */
  method Serve(cfg: Config, events: seq<Event>) returns (service: BrowserService)
    ensures fresh(service) && service.St() == Run(Init(cfg), events)
  {
    service := new BrowserService(cfg);
    var i := 0;
    while i < |events|
      invariant 0 <= i <= |events|
      invariant fresh(service) && service.St() == Run(Init(cfg), events[..i])
    {
      assert events[..i + 1][..i] == events[..i];
      if Enabled(service.St(), events[i]) {
        service.Handle(events[i]);
      }
      i := i + 1;
    }
    assert events[..|events|] == events;
  }
}
