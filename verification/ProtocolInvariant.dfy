/** The inductive invariant of the dispatch protocol and the updates that keep it. */
module ProtocolInvariant {
  import opened Wrappers
  import opened Adapter
  import opened Worker
  import opened Store
  import opened Protocol

  type History = seq<Obs>

  // ---- what a history says ------------------------------------------------------------

  /** How often private control has revoked the session's approvals. */
  ghost function RevokedCount(h: History, sid: Sid): nat {
    if h == [] then 0
    else RevokedCount(h[..|h| - 1], sid) + if h[|h| - 1] == Revoked(sid) then 1 else 0
  }

  /** An uncertain outcome was observed and no completed handoff has settled it since. */
  ghost predicate Latched(h: History, sid: Sid) {
    h != [] &&
    (h[|h| - 1] == BecameUncertain(sid) || (!Settles(h[|h| - 1], sid) && Latched(h[..|h| - 1], sid)))
  }

  predicate Settles(o: Obs, sid: Sid) { o.Settled? && o.sid == sid }

  ghost predicate ProposedAt(h: History, i: nat, token: Token, b: ApprovalBinding, target: nat) {
    i < |h| && h[i].Proposed? && h[i].token == token && h[i].binding == b && h[i].target == target
    && b.epoch == RevokedCount(h[..i], b.sid)
  }

  ghost predicate GrantedBetween(h: History, i: nat, j: nat, token: Token) {
    exists k :: i < k < j <= |h| && h[k].Granted? && h[k].token == token
  }

  /** The record was proposed (and granted, if it is approved) and its expiry is bounded
      by the time of the proposal. */
  ghost predicate Backed(h: History, token: Token, v: Approval, expires: real, ttl: real) {
    v.sid == v.binding.sid && v.epoch == v.binding.epoch &&
    exists i: nat :: ProposedAt(h, i, token, v.binding, v.target)
      && (v.state.Pending? ==> expires <= h[i].at + ttl)
      && (v.state.Approved? ==> GrantedBetween(h, i, |h|, token) && expires < h[i].at + 2.0 * ttl)
  }

  // ---- properties of every prefix -----------------------------------------------------

  /** Entry j, if it is a dispatch, used a consent of the current epoch in time. */
  ghost predicate DispatchOk(h: History, j: nat, ttl: real)
    requires j < |h|
  {
    h[j].Dispatched? ==>
      (h[j].needed ==> h[j].request.token.Some?) &&
      (h[j].request.token.Some? ==>
        exists i: nat :: i < j
          && ProposedAt(h, i, h[j].request.token.value, ApprovalBindingOf(h[j].request, h[j].epoch), h[j].target)
          && GrantedBetween(h, i, j, h[j].request.token.value)
          && RevokedCount(h[..i], h[j].request.sid) == RevokedCount(h[..j], h[j].request.sid)
          && h[j].at < h[i].at + 2.0 * ttl)
  }

  /** Entry j, if it is a worker command, respects pause and uncertainty. */
  ghost predicate IssueOk(h: History, j: nat)
    requires j < |h|
  {
    h[j].Issued? ==>
      (h[j].guarded ==> h[j].origin.Console? || h[j].rpc.FocusRpc?) &&
      (h[j].rpc.ActRpc? || h[j].rpc.NavigationBegin? ==> !Latched(h[..j], h[j].sid))
  }

  ghost predicate SameInput(h: History, i: nat, j: nat)
    requires i < |h| && j < |h|
  {
    h[i].Sent? && h[j].Sent? && h[i].input == h[j].input && !Passive(h[i].input.action)
  }

  ghost predicate SentOnce(h: History) {
    forall i: nat, j: nat :: i < j < |h| && SameInput(h, i, j) ==> h[j].checked >= h[i].until
  }

  /** No input was sent by consent of this token. */
  ghost predicate Unspent(h: History, token: Token) {
    forall j: nat :: j < |h| && h[j].Sent? ==> h[j].consent != Some(token)
  }

  ghost predicate ConsentOnce(h: History) {
    forall i: nat, j: nat :: i < j < |h| && h[i].Sent? && h[j].Sent? && h[i].consent.Some? ==> h[i].consent != h[j].consent
  }

  /** The dispatch at `entry` has this binding and token and wrote the record that lives until `until`. */
  ghost predicate FromDispatch(h: History, entry: nat, b: Binding, consent: Option<Token>, checked: real, until: real,
                               recordTtl: real)
  {
    entry < |h| && h[entry].Dispatched? && BindingOf(h[entry].request) == b && h[entry].request.token == consent
    && checked <= h[entry].at && until == h[entry].at + recordTtl
  }

  ghost predicate SentFromDispatch(h: History, recordTtl: real) {
    forall j: nat :: j < |h| && h[j].Sent? ==>
      h[j].dispatch < j && FromDispatch(h, h[j].dispatch, h[j].input, h[j].consent, h[j].checked, h[j].until, recordTtl)
  }

  ghost predicate HistoryOk(h: History, ttl: real) {
    (forall j: nat :: j < |h| ==> DispatchOk(h, j, ttl))
    && (forall j: nat :: j < |h| ==> IssueOk(h, j))
    && SentOnce(h) && ConsentOnce(h)
  }

  // ---- the state ----------------------------------------------------------------------

  ghost predicate SessionsOk(s: State) {
    (forall sid :: sid in s.sessions ==>
      sid < s.minted && s.sessions[sid].epoch == RevokedCount(s.history, sid)
      && s.sessions[sid].uncertain == Latched(s.history, sid))
    && (forall sid: Sid :: sid >= s.minted ==> RevokedCount(s.history, sid) == 0 && !Latched(s.history, sid))
    && s.leases.Keys <= s.sessions.Keys && (forall sid :: sid in s.leases ==> s.leases[sid].since <= |s.history|)
    && (s.reader.Some? ==> s.reader.value < s.minted && !Latched(s.history, s.reader.value))
  }

  ghost predicate ApprovalsOk(s: State) {
    (forall t :: t in s.approvals && (s.approvals[t].value.state.Pending? || s.approvals[t].value.state.Approved?) ==>
      Backed(s.history, t, s.approvals[t].value, s.approvals[t].expires, s.cfg.approvalTtl) && Unspent(s.history, t))
    && forall t :: t in s.approvals ==> DecidedOk(s.history, t, s.approvals[t].value.state)
  }

  lemma {:induction false} DecidedIn(h: History, k: nat)
    requires k < |h|
    ensures h[k].Granted? ==> h[k].token in Grants(h)
    ensures h[k].Declined? ==> h[k].token in Declines(h)
    decreases |h|
  {
    if k < |h| - 1 { DecidedIn(h[..|h| - 1], k); }
  }

  /** An approved record was granted, and so never declined. */
  lemma BackedNotDeclined(s: State, token: Token, v: Approval, expires: real)
    requires DecisionsOk(s) && v.state.Approved? && Backed(s.history, token, v, expires, s.cfg.approvalTtl)
    ensures token in Grants(s.history) && token !in Declines(s.history)
  {
    var i: nat :| ProposedAt(s.history, i, token, v.binding, v.target) && GrantedBetween(s.history, i, |s.history|, token);
    var k :| i < k < |s.history| && s.history[k].Granted? && s.history[k].token == token;
    DecidedIn(s.history, k);
  }

  /** What the history says of the decision on a token whose record has this state. */
  ghost predicate DecidedOk(h: History, token: Token, state: ApprovalState) {
    (state.Pending? ==> token !in Grants(h) && token !in Declines(h))
    && (state.Denied? <==> token in Declines(h))
  }

  /** Nothing is both granted and declined, and every decision was about a minted token. */
  ghost predicate DecisionsOk(s: State) {
    (forall t :: t in Declines(s.history) ==> t !in Grants(s.history) && t < s.minted)
    && forall t :: t in Grants(s.history) ==> t < s.minted
  }

  /** An input that was sent is either old enough, or its execution record still stands. */
  ghost predicate Covered(s: State, b: Binding, until: real) {
    until <= s.now || (b in s.executions && s.executions[b].expires >= until)
  }

  ghost predicate ExecutionsOk(s: State) {
    forall j: nat :: j < |s.history| && s.history[j].Sent? && !Passive(s.history[j].input.action) ==>
      Covered(s, s.history[j].input, s.history[j].until)
  }

  /** No random token is minted twice. */
  ghost predicate TokensOk(s: State) {
    (forall j: nat :: j < |s.history| && s.history[j].Proposed? ==> s.history[j].token < s.minted)
    && (forall i: nat, j: nat :: i < j < |s.history| && s.history[i].Proposed? && s.history[j].Proposed? ==>
          s.history[i].token != s.history[j].token)
  }

  ghost predicate DataOk(s: State) {
    ValidConfig(s.cfg) && TokensOk(s) && DecisionsOk(s) && SentFromDispatch(s.history, RecordTtl(s)) && SessionsOk(s) && ApprovalsOk(s) && ExecutionsOk(s) && HistoryOk(s.history, s.cfg.approvalTtl)
  }

  /** Every earlier input of this binding is at least as old as its record by time `checked`. */
  ghost predicate NoneSince(h: History, b: Binding, checked: real) {
    forall j: nat :: j < |h| && h[j].Sent? && h[j].input == b && !Passive(b.action) ==> h[j].until <= checked
  }

  /** Tasks that automate the browser: none of them is inside the lock during private control. */
  ghost predicate Automates(pc: Pc) {
    pc.Preparing? || pc.Acting? || pc.Completing? || pc.Sleeping? || pc.FollowingUp? || pc.Beginning?
    || pc.Browsing? || pc.Reading? || pc.ListingTabs? || pc.Opening? || pc.Closing? || pc.Listing? || pc.Reaping?
    || (pc.ShuttingDown? && pc.reading.Some?)
  }

  /** The session an action of this task may leave uncertain. */
  function ActTarget(pc: Pc): Option<Sid> {
    if pc.Queued? && pc.command.ActOn? then Some(pc.command.request.sid)
    else if pc.Preparing? || pc.Acting? || pc.Completing? || pc.Sleeping? then Some(pc.request.sid)
    else None
  }

  /** The session for which this task may still start a navigation without another check. */
  function BeginTarget(pc: Pc): Option<Sid> {
    if pc.Reading? || ((pc.ListingTabs? || pc.Opening?) && pc.url) then Some(pc.target)
    else if pc.ShuttingDown? then pc.reading
    else None
  }

  ghost predicate TargetOk(s: State, pc: Pc) {
    ActTarget(pc).Some? ==> Addressable(s, ActTarget(pc).value)
  }

  /** A task that is completing or cancelling a handoff works on the session's own lease. */
  ghost predicate ControlsOk(s: State, pc: Pc) {
    (pc.Disconnecting? || pc.Resuming? || pc.CancelDisconnecting? || pc.CancelClosing? ==>
      pc.target in s.leases && s.leases[pc.target].id == pc.handoff) &&
    (pc.Disconnecting? || pc.Resuming? ==> s.leases[pc.target].state.Returning?) &&
    (pc.Resuming? ==>
      s.leases[pc.target].since <= pc.closed < |s.history|
      && s.history[pc.closed] == Disconnected(pc.target, pc.handoff, true))
  }

  /** `prepare` is in flight for a request that passed the checks. */
  ghost predicate PreparingOk(s: State, pc: Pc) {
    pc.Preparing? ==>
      var r := pc.request;
      r.sid in s.sessions && s.sessions[r.sid].epoch == pc.epoch && !s.sessions[r.sid].uncertain
      && pc.checked <= s.now && NoneSince(s.history, BindingOf(r), pc.checked)
      && (r.token.Some? && r.token.value in s.approvals ==>
            s.approvals[r.token.value].value.binding == ApprovalBindingOf(r, pc.epoch))
  }

  /** `act` is in flight and what it may undo is still as it was recorded. */
  ghost predicate ActingOk(s: State, pc: Pc) {
    pc.Acting? ==>
      var r, d := pc.request, pc.dispatch;
      d.checked <= s.now && (!Passive(r.action) ==> d.recorded)
      && (d.recorded ==> Covered(s, BindingOf(r), d.until))
      && FromDispatch(s.history, d.entry, BindingOf(r), r.token, d.checked, d.until, RecordTtl(s))
      && (!d.sent ==> NoneSince(s.history, BindingOf(r), d.checked))
      && (r.token.Some? ==> Spending(s, r.token.value) && (!d.sent ==> Unspent(s.history, r.token.value)))
      && (d.consent.Some? ==>
            r.token.Some? && d.consent.value.0.state.Approved?
            && Backed(s.history, r.token.value, d.consent.value.0, d.consent.value.1, s.cfg.approvalTtl))
  }

  ghost predicate PlaceOk(s: State, pc: Pc) { (Automates(pc) ==> !ActiveControl(s)) && TargetOk(s, pc) }

  ghost predicate BeginOk(s: State, pc: Pc) {
    BeginTarget(pc).Some? ==> !Latched(s.history, BeginTarget(pc).value)
  }

  ghost predicate PcOk(s: State, pc: Pc) {
    PlaceOk(s, pc) && ControlsOk(s, pc) && BeginOk(s, pc) && PreparingOk(s, pc) && ActingOk(s, pc)
  }

  /** The record of this token authorises nothing at the moment. */
  ghost predicate Spending(s: State, token: Token) {
    token in s.approvals ==> !s.approvals[token].value.state.Pending? && !s.approvals[token].value.state.Approved?
  }

  /** Everybody else is waiting for the command lock. */
  ghost predicate Alone(s: State, t: TaskId) {
    s.lock == Some(t) && forall x :: x in s.tasks && x != t ==> s.tasks[x].Queued? && TargetOk(s, s.tasks[x])
  }

  ghost predicate TasksOk(s: State) {
    match s.lock
    case None => forall x :: x in s.tasks ==> s.tasks[x].Queued? && TargetOk(s, s.tasks[x])
    case Some(t) => Alone(s, t) && t in s.tasks && !s.tasks[t].Queued? && PcOk(s, s.tasks[t])
  }

  ghost predicate Inv(s: State) { DataOk(s) && TasksOk(s) }

  // ---- growing histories ----------------------------------------------------------------

  lemma PrefixOf(h: History, o: Obs, j: nat)
    requires j <= |h|
    ensures (h + [o])[..j] == h[..j]
  {
  }

  lemma BackedGrows(h: History, o: Obs, token: Token, v: Approval, expires: real, ttl: real)
    requires Backed(h, token, v, expires, ttl)
    ensures Backed(h + [o], token, v, expires, ttl)
  {
    var i: nat :| ProposedAt(h, i, token, v.binding, v.target)
      && (v.state.Pending? ==> expires <= h[i].at + ttl)
      && (v.state.Approved? ==> GrantedBetween(h, i, |h|, token) && expires < h[i].at + 2.0 * ttl);
    PrefixOf(h, o, i);
    assert ProposedAt(h + [o], i, token, v.binding, v.target);
    if v.state.Approved? {
      var k :| i < k < |h| && h[k].Granted? && h[k].token == token;
      assert (h + [o])[k].Granted? && (h + [o])[k].token == token;
    }
  }

  lemma DispatchOkGrows(h: History, o: Obs, j: nat, ttl: real)
    requires j < |h| && DispatchOk(h, j, ttl)
    ensures DispatchOk(h + [o], j, ttl)
  {
    if h[j].Dispatched? && h[j].request.token.Some? {
      var token := h[j].request.token.value;
      var i: nat :| i < j
        && ProposedAt(h, i, token, ApprovalBindingOf(h[j].request, h[j].epoch), h[j].target)
        && GrantedBetween(h, i, j, token)
        && RevokedCount(h[..i], h[j].request.sid) == RevokedCount(h[..j], h[j].request.sid)
        && h[j].at < h[i].at + 2.0 * ttl;
      PrefixOf(h, o, i);
      PrefixOf(h, o, j);
      assert ProposedAt(h + [o], i, token, ApprovalBindingOf(h[j].request, h[j].epoch), h[j].target);
      var k :| i < k < j && h[k].Granted? && h[k].token == token;
      assert (h + [o])[k].Granted? && (h + [o])[k].token == token;
    }
  }

  /** One more observation keeps the history good if that observation itself is good. */
  lemma HistoryGrows(h: History, o: Obs, ttl: real)
    requires HistoryOk(h, ttl)
    requires DispatchOk(h + [o], |h|, ttl) && IssueOk(h + [o], |h|)
    requires o.Sent? ==> NoneSince(h, o.input, o.checked) && (o.consent.Some? ==> Unspent(h, o.consent.value))
    ensures HistoryOk(h + [o], ttl)
  {
    forall j: nat | j < |h + [o]|
      ensures DispatchOk(h + [o], j, ttl) && IssueOk(h + [o], j)
    {
      if j < |h| {
        DispatchOkGrows(h, o, j, ttl);
        PrefixOf(h, o, j);
        assert IssueOk(h, j);
      }
    }
    forall i: nat, j: nat | i < j < |h + [o]| && SameInput(h + [o], i, j)
      ensures (h + [o])[j].checked >= (h + [o])[i].until
    {
      if j < |h| {
        assert SameInput(h, i, j);
      }
    }
  }

  lemma SentFromDispatchGrows(h: History, o: Obs, recordTtl: real)
    requires SentFromDispatch(h, recordTtl)
    requires o.Sent? ==> FromDispatch(h, o.dispatch, o.input, o.consent, o.checked, o.until, recordTtl)
    ensures SentFromDispatch(h + [o], recordTtl)
  {
    forall j: nat | j < |h + [o]| && (h + [o])[j].Sent?
      ensures var k := h + [o];
        k[j].dispatch < j && FromDispatch(k, k[j].dispatch, k[j].input, k[j].consent, k[j].checked, k[j].until, recordTtl)
    {
      var k := h + [o];
      if j < |h| {
        assert k[j] == h[j] && FromDispatch(h, h[j].dispatch, h[j].input, h[j].consent, h[j].checked, h[j].until, recordTtl);
      }
      assert k[k[j].dispatch] == h[k[j].dispatch];
    }
  }

  /** Counting and latching only depend on the last observation and the rest. */
  lemma Counts(h: History, o: Obs, sid: Sid)
    ensures RevokedCount(h + [o], sid) == RevokedCount(h, sid) + if o == Revoked(sid) then 1 else 0
    ensures Latched(h + [o], sid) == (o == BecameUncertain(sid) || (!Settles(o, sid) && Latched(h, sid)))
  {
    assert (h + [o])[..|h + [o]| - 1] == h;
  }

  /** A decision is noted while the token has no record. */
  ghost predicate Undecided(s: State, o: Obs) {
    o.Granted? || o.Declined? ==>
      o.token !in s.approvals && o.token < s.minted && o.token !in Grants(s.history) && o.token !in Declines(s.history)
  }

  lemma DecisionsGrow(s: State, o: Obs)
    requires DecisionsOk(s) && Undecided(s, o)
    ensures DecisionsOk(Note(s, o))
    ensures forall t: Token, state: ApprovalState ::
      DecidedOk(s.history, t, state) && !((o.Granted? || o.Declined?) && o.token == t) ==> DecidedOk(s.history + [o], t, state)
  {
    DecisionsSnoc(s.history, o);
  }

  lemma ApprovalsGrow(s: State, o: Obs)
    requires ApprovalsOk(s) && (o.Sent? && o.consent.Some? ==> Spending(s, o.consent.value))
    requires DecisionsOk(s) && Undecided(s, o)
    ensures ApprovalsOk(Note(s, o))
  {
    DecisionsGrow(s, o);
    forall t | t in s.approvals ensures DecidedOk(s.history + [o], t, s.approvals[t].value.state) {
      assert DecidedOk(s.history, t, s.approvals[t].value.state);
    }
    hide DecidedOk, DecisionsOk, KeepsPaused, Grows, Longer;
    forall t | t in s.approvals && (s.approvals[t].value.state.Pending? || s.approvals[t].value.state.Approved?)
      ensures Backed(s.history + [o], t, s.approvals[t].value, s.approvals[t].expires, s.cfg.approvalTtl)
      ensures Unspent(s.history + [o], t)
    {
      BackedGrows(s.history, o, t, s.approvals[t].value, s.approvals[t].expires, s.cfg.approvalTtl);
    }
  }

  /** An observation that neither revokes, nor makes uncertain, nor settles. */
  ghost predicate Plain(o: Obs) {
    o.Proposed? || o.Granted? || o.Declined? || o.Dispatched? || o.Sent? || o.Issued? || o.Disconnected?
  }

  lemma NotePlain(s: State, o: Obs)
    requires DataOk(s) && Plain(o) && Undecided(s, o)
    requires DispatchOk(s.history + [o], |s.history|, s.cfg.approvalTtl) && IssueOk(s.history + [o], |s.history|)
    requires o.Sent? ==> NoneSince(s.history, o.input, o.checked)
    requires o.Sent? && o.consent.Some? ==> Unspent(s.history, o.consent.value) && Spending(s, o.consent.value)
    requires o.Sent? && !Passive(o.input.action) ==> Covered(s, o.input, o.until)
    requires o.Sent? ==> FromDispatch(s.history, o.dispatch, o.input, o.consent, o.checked, o.until, RecordTtl(s))
    requires o.Proposed? ==>
      o.token < s.minted && forall j: nat :: j < |s.history| && s.history[j].Proposed? ==> s.history[j].token != o.token
    ensures DataOk(Note(s, o))
  {
    SentFromDispatchGrows(s.history, o, RecordTtl(s));
    var s' := Note(s, o);
    HistoryGrows(s.history, o, s.cfg.approvalTtl);
    ApprovalsGrow(s, o);
    DecisionsGrow(s, o);
    PlainSessionsOk(s, o);
    hide SessionsOk, HistoryOk, SentFromDispatch, ApprovalsOk, DecisionsOk, KeepsPaused, Grows, Longer;
    assert ExecutionsOk(s');
  }

  lemma PlainSessionsOk(s: State, o: Obs)
    requires SessionsOk(s) && Plain(o)
    ensures SessionsOk(Note(s, o))
  {
    hide KeepsPaused, Grows, Longer;
    forall sid: Sid
      ensures RevokedCount(s.history + [o], sid) == RevokedCount(s.history, sid)
      ensures Latched(s.history + [o], sid) == Latched(s.history, sid)
    {
      Counts(s.history, o, sid);
    }
  }

  lemma NoteIssued(s: State, origin: Origin, rpc: Rpc, sid: Sid)
    requires DataOk(s)
    requires Guarded(s) ==> origin.Console? || rpc.FocusRpc?
    requires rpc.ActRpc? || rpc.NavigationBegin? ==> !Latched(s.history, sid)
    ensures DataOk(Note(s, Issued(origin, rpc, sid, Guarded(s))))
  {
    var o := Issued(origin, rpc, sid, Guarded(s));
    PrefixOf(s.history, o, |s.history|);
    assert s.history[..|s.history|] == s.history;
    NotePlain(s, o);
  }

  // ---- updates that keep the data invariant -------------------------------------------------

  lemma TouchOk(s: State, sid: Sid)
    requires DataOk(s)
    ensures DataOk(Touch(s, sid))
  {
  }

  lemma ForgetOk(s: State, sid: Sid)
    requires DataOk(s)
    ensures DataOk(Forget(s, sid))
    ensures ActiveControl(Forget(s, sid)) ==> ActiveControl(s)
  {
    var s' := Forget(s, sid);
    assert forall x :: x in s'.leases ==> x in s.leases && s'.leases[x] == s.leases[x];
    assert SessionsOk(s');
  }

  lemma NoteSession(s: State, sid: Sid, session: Session, o: Obs)
    requires DataOk(s) && sid in s.sessions
    requires o == Revoked(sid) || (o == BecameUncertain(sid) && s.reader != Some(sid)) || Settles(o, sid)
    requires session.epoch == RevokedCount(s.history + [o], sid) && session.uncertain == Latched(s.history + [o], sid)
    ensures DataOk(Note(s.(sessions := s.sessions[sid := session]), o))
  {
    var s' := Note(s.(sessions := s.sessions[sid := session]), o);
    HistoryGrows(s.history, o, s.cfg.approvalTtl);
    SentFromDispatchGrows(s.history, o, RecordTtl(s));
    ApprovalsGrow(s, o);
    NoteSessionsOk(s, sid, session, o);
    hide SessionsOk, HistoryOk, SentFromDispatch, ApprovalsOk, KeepsPaused, Grows, Longer;
    assert ExecutionsOk(s');
  }

  lemma NoteSessionsOk(s: State, sid: Sid, session: Session, o: Obs)
    requires SessionsOk(s) && sid in s.sessions
    requires o == Revoked(sid) || (o == BecameUncertain(sid) && s.reader != Some(sid)) || Settles(o, sid)
    requires session.epoch == RevokedCount(s.history + [o], sid) && session.uncertain == Latched(s.history + [o], sid)
    ensures SessionsOk(Note(s.(sessions := s.sessions[sid := session]), o))
  {
    var s' := Note(s.(sessions := s.sessions[sid := session]), o);
    Counts(s.history, o, sid);
    forall x: Sid | x != sid
      ensures RevokedCount(s'.history, x) == RevokedCount(s.history, x)
      ensures Latched(s'.history, x) == Latched(s.history, x)
    {
      Counts(s.history, o, x);
    }
  }

  lemma SetUncertainOk(s: State, sid: Sid)
    requires DataOk(s) && s.reader != Some(sid)
    ensures DataOk(SetUncertain(s, sid))
  {
    if sid in s.sessions {
      Counts(s.history, BecameUncertain(sid), sid);
      NoteSession(s, sid, s.sessions[sid].(uncertain := true), BecameUncertain(sid));
    }
  }

  lemma FewerApprovals(s: State, approvals: Table<Token, Approval>, pending: map<nat, Item>)
    requires DataOk(s)
    requires forall t :: t in approvals ==> t in s.approvals && approvals[t] == s.approvals[t]
    ensures DataOk(s.(approvals := approvals, pending := pending))
  {
    var s' := s.(approvals := approvals, pending := pending);
    assert SessionsOk(s') && ExecutionsOk(s');
  }

  lemma EpochCounts(s: State, sid: Sid)
    requires DataOk(s) && sid in s.sessions
    ensures s.sessions[sid].epoch == RevokedCount(s.history, sid)
    ensures s.sessions[sid].uncertain == Latched(s.history, sid)
  {
  }

  lemma BumpEpochOk(s: State, sid: Sid)
    requires DataOk(s) && sid in s.sessions
    ensures DataOk(BumpEpoch(s, sid))
  {
    hide DataOk, KeepsPaused, Grows, Longer;
    EpochCounts(s, sid);
    Counts(s.history, Revoked(sid), sid);
    NoteSession(s, sid, s.sessions[sid].(epoch := s.sessions[sid].epoch + 1), Revoked(sid));
  }

  lemma InvalidateOk(s: State, sid: Sid)
    requires DataOk(s) && sid in s.sessions
    ensures DataOk(Invalidate(s, sid))
  {
    BumpEpochOk(s, sid);
    FewerApprovals(BumpEpoch(s, sid), Without(s.approvals, TokensOf(s.pending, sid)), OfOthers(s.pending, sid));
  }

  lemma RpcFailedOk(s: State, sid: Sid, code: ErrorCode)
    requires DataOk(s) && (code.ResultUncertain? ==> s.reader != Some(sid))
    ensures DataOk(RpcFailed(s, sid, code))
    ensures ActiveControl(RpcFailed(s, sid, code)) ==> ActiveControl(s)
  {
    hide DataOk, KeepsPaused, Grows, Longer;
    match code
    case SessionExpired(true) => if sid in s.sessions { ForgetOk(s, sid); }
    case SessionExpired(false) => WorkerLostOk(s);
    case WorkerTimeout => WorkerLostOk(s);
    case ResultUncertain => SetUncertainOk(s, sid);
    case _ =>
  }

  lemma WorkerLostOk(s: State)
    requires DataOk(s)
    ensures DataOk(WorkerLost(s))
  {
    var s' := WorkerLost(s);
    assert SessionsOk(s') && ApprovalsOk(s') && ExecutionsOk(s');
  }

  lemma SetLeaseOk(s: State, sid: Sid, state: LeaseState)
    requires DataOk(s)
    ensures DataOk(SetLease(s, sid, state))
  {
  }

  /** Writing an approval row that is backed, or that no longer authorises anything. */
  lemma PutApproval(s: State, token: Token, v: Approval, ttl: real)
    requires DataOk(s)
    requires v.state.Pending? || v.state.Approved? ==>
      Backed(s.history, token, v, s.now + ttl, s.cfg.approvalTtl) && Unspent(s.history, token)
    requires DecidedOk(s.history, token, v.state)
    ensures DataOk(s.(approvals := Put(s.approvals, s.now, token, v, ttl)))
  {
  }

  lemma PutExecution(s: State, b: Binding, ttl: real)
    requires DataOk(s) && NoneSince(s.history, b, s.now)
    ensures DataOk(s.(executions := Put(s.executions, s.now, b, true, ttl)))
  {
  }

  lemma DeleteExecution(s: State, b: Binding)
    requires DataOk(s) && NoneSince(s.history, b, s.now)
    ensures DataOk(s.(executions := Delete(s.executions, b)))
  {
    var s' := s.(executions := Delete(s.executions, b));
    forall j: nat | j < |s.history| && s.history[j].Sent? && !Passive(s.history[j].input.action)
      ensures Covered(s', s.history[j].input, s.history[j].until)
    {
      assert Covered(s, s.history[j].input, s.history[j].until);
    }
  }

  lemma NewSessionOk(s: State, expires: real, reader: Option<Sid>)
    requires DataOk(s) && (reader == s.reader || reader == Some(s.minted))
    ensures DataOk(WithSession(s, expires, reader))
  {
    var s' := WithSession(s, expires, reader);
    assert SessionsOk(s') && ApprovalsOk(s') && ExecutionsOk(s');
  }

  /** Nothing of this binding was sent since, if no live record is found for it. */
  lemma NoLiveRecord(s: State, b: Binding)
    requires DataOk(s) && Get(s.executions, s.now, b).None?
    ensures NoneSince(s.history, b, s.now)
  {
    forall j: nat | j < |s.history| && s.history[j].Sent? && s.history[j].input == b && !Passive(b.action)
      ensures s.history[j].until <= s.now
    {
      assert Covered(s, s.history[j].input, s.history[j].until);
    }
  }
}
