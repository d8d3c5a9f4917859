/**
 The approval, dispatch and handoff protocol as a transition system. Each event is one
 stretch of the service's code between two `await`s; which event comes next, what every
 reply says and how far the clock moves are up to the environment. Hashes are injective,
 so a binding is the tuple that is hashed; random tokens are never minted twice.
 */
module Protocol {
  import opened Wrappers
  import opened Adapter
  import opened Worker
  import opened Store

  type Sid = nat
  type Token = nat
  type TaskId = nat

  datatype Config = Config(approvalTtl: real, sessionTtl: real, readerTtl: real, handoffTtl: real, maxSessions: nat)

  /** The bounds `Settings` enforces on the values used here. */
  ghost predicate ValidConfig(c: Config) {
    15.0 <= c.approvalTtl <= 600.0 && c.sessionTtl >= 60.0 && c.readerTtl >= 60.0 && c.handoffTtl >= 30.0
  }

  const DAY: real := 86400.0
  const PENDING_LIMIT: nat := 32

  function Max(a: real, b: real): real { if a >= b then a else b }

  // ---- data -----------------------------------------------------------------------

  datatype Session = Session(expires: real, uncertain: bool, epoch: nat)

  datatype LeaseState = Active | Returning | Completed | Cancelled
  /** `since` is where the history records the start of the handoff: its focus command. */
  datatype Lease = Lease(id: nat, tab: nat, state: LeaseState, expires: real, since: nat)

  datatype Binding = Binding(sid: Sid, tab: nat, revision: nat, action: Action)
  datatype ApprovalBinding = ApprovalBinding(sid: Sid, tab: nat, epoch: nat, action: Action)

  datatype ApprovalState = Pending | Approved | Denied | Consumed
  datatype Approval = Approval(binding: ApprovalBinding, target: nat, state: ApprovalState, sid: Sid, epoch: nat)
  datatype Item = Item(sid: Sid, token: Token, expires: real)

  datatype Request = Request(sid: Sid, tab: nat, revision: nat, action: Action, token: Option<Token>,
                             completion: bool, followUp: bool)

  function BindingOf(r: Request): Binding { Binding(r.sid, r.tab, r.revision, r.action) }
  function ApprovalBindingOf(r: Request, epoch: nat): ApprovalBinding {
    ApprovalBinding(r.sid, r.tab, epoch, r.action)
  }

  /** Who is behind a worker command. */
  datatype Origin = Mcp | Reader | Driver | Sweeper | Console
  datatype Rpc = PrepareRpc | ActRpc | WaitRpc | NavigationBegin | FocusRpc | ResumeRpc | CloseRpc | OtherRpc

  /** What callers, the console and the background tasks may ask for. */
  datatype Command =
    | ActOn(request: Request)
    | Navigate(target: Sid)
    | Browse(origin: Origin, target: Sid)      // any other browsing command or navigation poll
    | Read
    | OpenWork(url: bool)                      // a new session, with or without an address to load
    | OpenTab(target: Sid, listFirst: bool, url: bool)
    | CloseWork(target: Sid)
    | Handoff(target: Sid, tab: nat)
    | Sweep
    | Approve(review: nat, approved: bool)
    | CompleteHandoff(handoff: nat)
    | CancelHandoff(handoff: nat)
    | ReclaimSession(target: Sid)

  /** What `_act` remembers across the dispatch. */
  datatype Dispatch = Dispatch(
    checked: real,                                  // when the execution record was looked up
    until: real,                                    // expiry of the record written, if any
    recorded: bool,
    consent: Option<(Approval, real)>,              // the approved record and its expiry
    consumed: Option<Approval>,
    removed: map<nat, Item>,
    entry: nat,                                     // where the history records this dispatch
    sent: bool)                                     // whether the adapter has sent input yet

  /** The worker commands of a read before its page starts to load. */
  datatype ReadStep = OpensTab | EndsNavigation | CancelsJob | Configures

  /** Where a task stands. All but `Queued` are inside the command lock. */
  datatype Pc =
    | Queued(command: Command)
    | Preparing(request: Request, epoch: nat, checked: real)
    | Acting(request: Request, dispatch: Dispatch)
    | Completing(request: Request)
    | Sleeping(request: Request)
    | FollowingUp(target: Sid)
    | Beginning(origin: Origin, target: Sid)        // navigation_begin in flight
    | Browsing(origin: Origin, target: Sid)
    | Reading(target: Sid, step: ReadStep)
    | ListingTabs(target: Sid, url: bool)           // an open that reuses a blank tab
    | Opening(target: Sid, url: bool)
    | Closing(target: Sid)
    | Listing(target: Sid, tab: nat)
    | Focusing(target: Sid)
    | Disconnecting(target: Sid, handoff: nat)
    | Resuming(target: Sid, handoff: nat, closed: nat)   // and where the closing of all viewers is recorded
    | CancelDisconnecting(target: Sid, handoff: nat)
    | CancelClosing(target: Sid, handoff: nat)
    | ReclaimDisconnecting(target: Sid)
    | ReclaimClosing(target: Sid)
    | Reaping(target: Sid)
    | ShuttingDown(reading: Option<Sid>)            // only the read that ended a navigation goes on

  /** What an observer of the whole system sees. */
  datatype Obs =
    | Proposed(token: Token, binding: ApprovalBinding, target: nat, at: real)
    | Granted(token: Token, at: real)
    | Declined(token: Token, at: real)
    | Revoked(sid: Sid)
    | Dispatched(request: Request, epoch: nat, target: nat, needed: bool, at: real)
    | Sent(input: Binding, consent: Option<Token>, dispatch: nat, checked: real, until: real)
    | BecameUncertain(sid: Sid)
    | Disconnected(sid: Sid, handoff: nat, allClosed: bool)     // the viewers of a handoff that is completing
    | Settled(sid: Sid, handoff: nat)                           // its resume was confirmed
    | Issued(origin: Origin, rpc: Rpc, sid: Sid, guarded: bool)

  datatype State = State(
    cfg: Config,
    now: real,
    minted: nat,                                     // next unused random value
    sessions: map<Sid, Session>,
    reader: Option<Sid>,
    readerTab: bool,                                 // the reader's session has a page
    navigations: set<Sid>,
    leases: map<Sid, Lease>,
    pending: map<nat, Item>,
    approvals: Table<Token, Approval>,
    executions: Table<Binding, bool>,
    lock: Option<TaskId>,
    tasks: map<TaskId, Pc>,
    history: seq<Obs>)

  function Init(cfg: Config): State {
    State(cfg, 0.0, 0, map[], None, false, {}, map[], map[], map[], map[], None, map[], [])
  }

  // ---- reading the state ------------------------------------------------------------

  predicate Paused(l: Lease) { l.state.Active? || l.state.Returning? }

  /** `_active_control`: some handoff is active or returning. */
  predicate ActiveControl(s: State) {
    exists sid :: sid in s.leases && Paused(s.leases[sid])
  }

  /** `cancel_handoff` marks the lease cancelled first and closes the session afterwards. */
  predicate Cancelling(s: State, sid: Sid) {
    exists t :: t in s.tasks && (s.tasks[t].CancelDisconnecting? || s.tasks[t].CancelClosing?) && s.tasks[t].target == sid
  }

  /** A session under private control, the closing window of a cancellation included. */
  predicate Protected(s: State, sid: Sid) {
    (sid in s.leases && Paused(s.leases[sid])) || Cancelling(s, sid)
  }

  /** Some session is under private control. */
  predicate Guarded(s: State) {
    ActiveControl(s) || exists t :: t in s.tasks && (s.tasks[t].CancelDisconnecting? || s.tasks[t].CancelClosing?)
  }

  /** `_session`: the session exists and is not expired, unless it is navigating. */
  predicate SessionOk(s: State, sid: Sid) {
    sid in s.sessions && (s.sessions[sid].expires > s.now || sid in s.navigations)
  }

  /** From s to s' no session is added, none under control loses its pause or changes its
      handoff, and no uncertain one becomes certain. */
  predicate KeepsPaused(s: State, s': State) {
    (forall sid :: sid in s'.sessions ==>
      sid in s.sessions && (s.sessions[sid].uncertain ==> s'.sessions[sid].uncertain))
    && forall sid :: sid in s.leases && Paused(s.leases[sid]) ==>
         (sid in s'.leases && Paused(s'.leases[sid]) && SameHandoff(s.leases[sid], s'.leases[sid])) || sid !in s'.sessions
  }

  predicate SameHandoff(a: Lease, b: Lease) { a.id == b.id && a.since == b.since }

  /** The tokens granted so far, and those declined, in order. */
  ghost function Grants(h: seq<Obs>): seq<Token> {
    if h == [] then []
    else Grants(h[..|h| - 1]) + if h[|h| - 1].Granted? then [h[|h| - 1].token] else []
  }

  ghost function Declines(h: seq<Obs>): seq<Token> {
    if h == [] then []
    else Declines(h[..|h| - 1]) + if h[|h| - 1].Declined? then [h[|h| - 1].token] else []
  }

  /** The history is only added to and no random value is minted again. */
  ghost predicate Longer(s: State, s': State) { s.history <= s'.history && s.minted <= s'.minted }

  /** Besides, nothing is granted or declined. */
  ghost predicate Grows(s: State, s': State) {
    Longer(s, s') && Grants(s'.history) == Grants(s.history) && Declines(s'.history) == Declines(s.history)
  }

  lemma DecisionsSnoc(h: seq<Obs>, o: Obs)
    ensures Grants(h + [o]) == Grants(h) + if o.Granted? then [o.token] else []
    ensures Declines(h + [o]) == Declines(h) + if o.Declined? then [o.token] else []
  {
    assert (h + [o])[..|h + [o]| - 1] == h;
  }

  predicate InFlight(pc: Pc) {
    pc.Preparing? || pc.Acting? || pc.Completing? || pc.FollowingUp? || pc.Beginning? || pc.Browsing?
    || pc.Reading? || pc.ListingTabs? || pc.Opening? || pc.Closing? || pc.Listing? || pc.Focusing? || pc.Resuming? || pc.CancelClosing?
    || pc.ReclaimClosing? || pc.Reaping?
  }

  // ---- elementary updates -----------------------------------------------------------

  function Note(s: State, o: Obs): (s': State)
    ensures s'.cfg == s.cfg && Longer(s, s') && KeepsPaused(s, s')
    ensures !o.Granted? && !o.Declined? ==> Grows(s, s')
  {
    DecisionsSnoc(s.history, o);
    s.(history := s.history + [o])
  }
  function At(s: State, t: TaskId, pc: Pc): (s': State)
    ensures s'.cfg == s.cfg && Grows(s, s') && KeepsPaused(s, s')
  {
    s.(tasks := s.tasks[t := pc])
  }

  /** The task ends and releases the lock. */
  function Finish(s: State, t: TaskId): (s': State)
    ensures s'.cfg == s.cfg && Grows(s, s') && KeepsPaused(s, s')
  {
    s.(tasks := map x | x in s.tasks && x != t :: s.tasks[x], lock := None)
  }

  /** Sends a worker command and waits for its reply. */
  function Issue(s: State, t: TaskId, pc: Pc, origin: Origin, rpc: Rpc, sid: Sid): (s': State)
    ensures s'.cfg == s.cfg && Grows(s, s') && KeepsPaused(s, s')
  {
    At(Note(s, Issued(origin, rpc, sid, Guarded(s))), t, pc)
  }

  function Touch(s: State, sid: Sid): (s': State)
    ensures s'.cfg == s.cfg && Grows(s, s') && KeepsPaused(s, s')
    ensures s'.tasks == s.tasks && s'.lock == s.lock
  {
    if sid in s.sessions then
      s.(sessions := s.sessions[sid := s.sessions[sid].(expires :=
          s.now + if s.reader == Some(sid) then s.cfg.readerTtl else s.cfg.sessionTtl)])
    else s
  }

  function Forget(s: State, sid: Sid): (s': State)
    ensures s'.cfg == s.cfg && Grows(s, s') && KeepsPaused(s, s')
    ensures s'.tasks == s.tasks && s'.lock == s.lock
  {
    s.(sessions := s.sessions - {sid},
       leases := s.leases - {sid},
       navigations := s.navigations - {sid},
       reader := if s.reader == Some(sid) then None else s.reader,
       readerTab := s.readerTab && s.reader != Some(sid),
       pending := OfOthers(s.pending, sid))
  }

  function SetUncertain(s: State, sid: Sid): (s': State)
    ensures s'.cfg == s.cfg && Grows(s, s') && KeepsPaused(s, s')
    ensures s'.tasks == s.tasks && s'.lock == s.lock
  {
    if sid in s.sessions then
      Note(s.(sessions := s.sessions[sid := s.sessions[sid].(uncertain := true)]), BecameUncertain(sid))
    else s
  }

  function SetLease(s: State, sid: Sid, state: LeaseState): (s': State)
    ensures s'.cfg == s.cfg && Grows(s, s')
    ensures s'.tasks == s.tasks && s'.lock == s.lock
  {
    if sid in s.leases then s.(leases := s.leases[sid := s.leases[sid].(state := state)]) else s
  }

  /** Private control goes on. */
  function StayPaused(s: State, sid: Sid): (s': State)
    ensures s'.cfg == s.cfg && Grows(s, s') && KeepsPaused(s, s')
    ensures s'.tasks == s.tasks && s'.lock == s.lock
  {
    SetLease(s, sid, Active)
  }

  function TokensOf(pending: map<nat, Item>, sid: Sid): set<Token> {
    set k | k in pending && pending[k].sid == sid :: pending[k].token
  }

  function Without(approvals: Table<Token, Approval>, tokens: set<Token>): Table<Token, Approval> {
    map x | x in approvals && x !in tokens :: approvals[x]
  }

  function OfOthers(pending: map<nat, Item>, sid: Sid): map<nat, Item> {
    map k | k in pending && pending[k].sid != sid :: pending[k]
  }

  function BumpEpoch(s: State, sid: Sid): (s': State)
    requires sid in s.sessions
    ensures s'.cfg == s.cfg && Grows(s, s') && KeepsPaused(s, s')
  {
    Note(s.(sessions := s.sessions[sid := s.sessions[sid].(epoch := s.sessions[sid].epoch + 1)]), Revoked(sid))
  }

  /** Private control revokes the session's outstanding approvals and moves its epoch on. */
  function Invalidate(s: State, sid: Sid): (s': State)
    requires sid in s.sessions
    ensures s'.cfg == s.cfg && Grows(s, s') && KeepsPaused(s, s')
  {
    BumpEpoch(s, sid).(approvals := Without(s.approvals, TokensOf(s.pending, sid)),
                       pending := OfOthers(s.pending, sid))
  }

  /** The error handling of `_rpc` for a command of session `sid`. */
  function RpcFailed(s: State, sid: Sid, code: ErrorCode): (s': State)
    ensures s'.cfg == s.cfg && Grows(s, s') && KeepsPaused(s, s')
    ensures s'.tasks == s.tasks && s'.lock == s.lock
  {
    match code
    case SessionExpired(true) => if sid in s.sessions then Forget(s, sid) else s
    case SessionExpired(false) => WorkerLost(s)
    case WorkerTimeout => WorkerLost(s)
    case ResultUncertain => SetUncertain(s, sid)
    case _ => s
  }

  /** A dead worker invalidates every session; the approval table is left as it is. */
  function WorkerLost(s: State): (s': State)
    ensures s'.cfg == s.cfg && Grows(s, s') && KeepsPaused(s, s')
    ensures s'.tasks == s.tasks && s'.lock == s.lock
  {
    s.(sessions := map[], leases := map[], navigations := {})
  }

  predicate Fatal(code: ErrorCode) {
    code.WorkerTimeout? || code == SessionExpired(false)
  }

  /** A failed command either ends the task or first waits for the worker's shutdown. */
  function FailTask(s: State, t: TaskId, sid: Sid, code: ErrorCode): (s': State)
    ensures s'.cfg == s.cfg && Grows(s, s') && KeepsPaused(s, s')
  {
    var s1 := RpcFailed(s, sid, code);
    if Fatal(code) then At(s1, t, ShuttingDown(None)) else Finish(s1, t)
  }

  // ---- _act -------------------------------------------------------------------------

  /** The checks before `prepare`, then the `prepare` command. */
  function ActBegin(s: State, t: TaskId, r: Request): (s': State)
    ensures s'.cfg == s.cfg && Grows(s, s') && KeepsPaused(s, s')
  {
    if !SessionOk(s, r.sid) || ActiveControl(s) || s.sessions[r.sid].uncertain then Finish(s, t)
    else if Get(s.executions, s.now, BindingOf(r)).Some? then Finish(s, t)
    else if r.token.Some? && !Usable(s, r) then Finish(s, t)
    else Issue(s, t, Preparing(r, s.sessions[r.sid].epoch, s.now), Mcp, PrepareRpc, r.sid)
  }

  /** The presented token names an approved record of exactly this session, tab, epoch and action. */
  predicate Usable(s: State, r: Request)
    requires r.token.Some? && r.sid in s.sessions
  {
    var record := Get(s.approvals, s.now, r.token.value);
    record.Some? && record.value.state.Approved?
    && record.value.binding == ApprovalBindingOf(r, s.sessions[r.sid].epoch)
  }

  datatype PrepareReply = Prepared(target: nat, needed: bool) | PrepareFailed(code: ErrorCode)

  /** After `prepare`: refuse, propose a confirmation, or consume the consent and dispatch. */
  function ActPrepared(s: State, t: TaskId, reply: PrepareReply): (s': State)
    requires t in s.tasks && s.tasks[t].Preparing?
    ensures s'.cfg == s.cfg && Grows(s, s') && KeepsPaused(s, s')
  {
    var r := s.tasks[t].request;
    match reply
    case PrepareFailed(code) => FailTask(s, t, r.sid, code)
    case Prepared(target, needed) =>
      if r.token.Some? then
        var record := Get(s.approvals, s.now, r.token.value);
        if record.None? || record.value.target != target then Finish(s, t)
        else ConsumeAndDispatch(s, t, target, needed)
      else if needed then Propose(s, t, target)
      else ConsumeAndDispatch(s, t, target, needed)
  }

  function LivePending(s: State): map<nat, Item> {
    map k | k in s.pending && s.pending[k].expires > s.now :: s.pending[k]
  }

  /** An outstanding proposal for the same action and target is reported instead of repeated. */
  predicate AlreadyProposed(s: State, binding: ApprovalBinding, target: nat) {
    exists k :: k in s.pending && s.pending[k].expires > s.now
                && (var record := Get(s.approvals, s.now, s.pending[k].token);
                    record.Some? && record.value.binding == binding && record.value.target == target)
  }

  predicate AlreadyDenied(s: State, binding: ApprovalBinding, target: nat) {
    exists k :: k in s.pending && s.pending[k].expires > s.now
                && (var record := Get(s.approvals, s.now, s.pending[k].token);
                    record.Some? && record.value.binding == binding && record.value.target == target
                    && record.value.state.Denied?)
  }

  function Propose(s: State, t: TaskId, target: nat): (s': State)
    requires t in s.tasks && s.tasks[t].Preparing?
    ensures s'.cfg == s.cfg && Grows(s, s') && KeepsPaused(s, s')
  {
    var r := s.tasks[t].request;
    var epoch := s.tasks[t].epoch;
    var binding := ApprovalBindingOf(r, epoch);
    var s1 := s.(pending := LivePending(s));
    if AlreadyProposed(s, binding, target) then
      Finish(if AlreadyDenied(s, binding, target) then s1 else Touch(s1, r.sid), t)
    else if |s1.pending| >= PENDING_LIMIT then Finish(s1, t)
    else Finish(Touch(AddProposal(s1, Approval(binding, target, Pending, r.sid, epoch)), r.sid), t)
  }

  /** A new pending record under a fresh token, listed for review until it expires. */
  function AddProposal(s: State, record: Approval): (s': State)
    ensures s'.cfg == s.cfg && Grows(s, s') && KeepsPaused(s, s')
  {
    var token, review := s.minted, s.minted + 1;
    Note(s.(minted := s.minted + 2,
            approvals := Put(s.approvals, s.now, token, record, s.cfg.approvalTtl),
            pending := s.pending[review := Item(record.sid, token, s.now + s.cfg.approvalTtl)]),
         Proposed(token, record.binding, record.target, s.now))
  }

  function RecordTtl(s: State): real { Max(DAY, s.cfg.sessionTtl) }

  /** The consuming transaction: the approval is used up and the execution recorded together. */
  function Consume(s: State, r: Request, token: Token, record: Approval): (s': State)
    ensures s'.cfg == s.cfg && Grows(s, s') && KeepsPaused(s, s')
  {
    s.(approvals := Put(s.approvals, s.now, token, record.(state := Consumed), DAY),
       executions := Put(s.executions, s.now, BindingOf(r), true, RecordTtl(s)),
       pending := NotOfToken(s.pending, token))
  }

  function NotOfToken(pending: map<nat, Item>, token: Token): map<nat, Item> {
    map k | k in pending && pending[k].token != token :: pending[k]
  }

  function OfToken(pending: map<nat, Item>, token: Token): map<nat, Item> {
    map k | k in pending && pending[k].token == token :: pending[k]
  }

  function RecordExecution(s: State, r: Request): (s': State)
    ensures s'.cfg == s.cfg && Grows(s, s') && KeepsPaused(s, s')
  {
    s.(executions := Put(s.executions, s.now, BindingOf(r), true, RecordTtl(s)))
  }

  /** The presented consent is used up before the command goes out. */
  function DispatchApproved(s: State, t: TaskId, target: nat, needed: bool, token: Token): (s': State)
    requires t in s.tasks && s.tasks[t].Preparing? && token in s.approvals
    ensures s'.cfg == s.cfg && Grows(s, s') && KeepsPaused(s, s')
  {
    var r, row := s.tasks[t].request, s.approvals[token];
    var s1 := Note(s, Dispatched(r, s.tasks[t].epoch, target, needed, s.now));
    var d := Dispatch(s.tasks[t].checked, s.now + RecordTtl(s), true, Some((row.value, row.expires)),
                      Some(row.value.(state := Consumed)), OfToken(s.pending, token), |s.history|, false);
    Issue(Consume(s1, r, token, row.value), t, Acting(r, d), Mcp, ActRpc, r.sid)
  }

  function Recorded(s: State, r: Request, seen: Obs): (s': State)
    requires seen.Dispatched?
    ensures s'.cfg == s.cfg && Grows(s, s') && s'.tasks == s.tasks && s'.sessions == s.sessions && s'.leases == s.leases
  {
    if Passive(r.action) then Note(s, seen) else RecordExecution(Note(s, seen), r)
  }

  /** Without consent only what is not passive leaves an execution record. */
  function DispatchFreely(s: State, t: TaskId, target: nat, needed: bool): (s': State)
    requires t in s.tasks && s.tasks[t].Preparing?
    ensures s'.cfg == s.cfg && Grows(s, s') && KeepsPaused(s, s')
  {
    var r := s.tasks[t].request;
    var d := Dispatch(s.tasks[t].checked, s.now + RecordTtl(s), !Passive(r.action), None, None, map[], |s.history|, false);
    hide Recorded;
    Issue(Recorded(s, r, Dispatched(r, s.tasks[t].epoch, target, needed, s.now)), t, Acting(r, d), Mcp, ActRpc, r.sid)
  }

  function ConsumeAndDispatch(s: State, t: TaskId, target: nat, needed: bool): (s': State)
    requires t in s.tasks && s.tasks[t].Preparing?
    ensures s'.cfg == s.cfg && Grows(s, s') && KeepsPaused(s, s')
  {
    match s.tasks[t].request.token
    case Some(token) =>
      var record := Get(s.approvals, s.now, token);
      if record.None? || !record.value.state.Approved? then Finish(s, t)
      else DispatchApproved(s, t, target, needed, token)
    case None => DispatchFreely(s, t, target, needed)
  }

  /** While `act` is in flight the adapter may send its first input. */
  function InputSent(s: State, t: TaskId): (s': State)
    requires t in s.tasks && s.tasks[t].Acting?
    ensures s'.cfg == s.cfg && Grows(s, s') && KeepsPaused(s, s')
  {
    var r, d := s.tasks[t].request, s.tasks[t].dispatch;
    if d.sent then s
    else At(Note(s, Sent(BindingOf(r), r.token, d.entry, d.checked, d.until)), t, Acting(r, d.(sent := true)))
  }

  /** An exit is possible for the adapter if it is truthful about what was sent. */
  predicate Possible(sent: bool, transport: Transport, exit: Exit) {
    transport.Delivered? && exit.Raised? && exit.flag == Some(false) ==> !sent
  }

  /** The reply to `act`: undo the records only on a no-send guarantee. When the transport
      failed the adapter may still send, so that is counted as sent. */
  function ActReplied(s: State, t: TaskId, transport: Transport, exit: Exit): (s': State)
    requires t in s.tasks && s.tasks[t].Acting?
    ensures s'.cfg == s.cfg && Grows(s, s') && KeepsPaused(s, s')
  {
    var s0 := if transport.Delivered? then s else InputSent(s, t);
    var r, d := s0.tasks[t].request, s0.tasks[t].dispatch;
    var reply := Receive(true, transport, exit);
    match reply
    case Error(code, _) => ActFailed(s0, t, r, d, code, GuaranteesNoSend(reply))
    case Ok(performed) =>
      var q := Observing(r, exit);
      if r.completion && performed then AskCompletion(s0, t, q) else FollowUp(s0, t, q)
  }

  /** With a dialog open the page is not observed after the action. */
  function Observing(r: Request, exit: Exit): Request {
    if exit.Returned? && exit.dialog then r.(followUp := false) else r
  }

  function ActFailed(s: State, t: TaskId, r: Request, d: Dispatch, code: ErrorCode, noSend: bool): (s': State)
    ensures s'.cfg == s.cfg && Grows(s, s') && KeepsPaused(s, s')
  {
    var s1 := RpcFailed(s, r.sid, code);
    var s2 := if noSend then Rollback(s1, r, d) else s1;
    if Fatal(code) then At(s2, t, ShuttingDown(None)) else Finish(s2, t)
  }

  function Rollback(s: State, r: Request, d: Dispatch): (s': State)
    ensures s'.cfg == s.cfg && Grows(s, s') && KeepsPaused(s, s')
    ensures s'.tasks == s.tasks && s'.lock == s.lock
  {
    var s1 := if d.recorded then s.(executions := Delete(s.executions, BindingOf(r))) else s;
    if d.consent.None? || r.token.None? then s1
    else
      var current := Get(s1.approvals, s1.now, r.token.value);
      var remaining := d.consent.value.1 - s1.now;
      if current == d.consumed && remaining > 0.0 then
        s1.(approvals := Put(s1.approvals, s1.now, r.token.value, d.consent.value.0, remaining),
            pending := s1.pending + d.removed)
      else s1
  }

  /** One poll of the completion condition. `_wait` refuses for an expired session. */
  function AskCompletion(s: State, t: TaskId, r: Request): (s': State)
    ensures s'.cfg == s.cfg && Grows(s, s') && KeepsPaused(s, s')
  {
    if SessionOk(s, r.sid) && !ActiveControl(s) then Issue(s, t, Completing(r), Mcp, WaitRpc, r.sid)
    else FollowUp(SetUncertain(s, r.sid), t, r)
  }

  function FollowUp(s: State, t: TaskId, r: Request): (s': State)
    ensures s'.cfg == s.cfg && Grows(s, s') && KeepsPaused(s, s')
  {
    if r.followUp && SessionOk(s, r.sid) && !ActiveControl(s) then Issue(s, t, FollowingUp(r.sid), Mcp, OtherRpc, r.sid)
    else Finish(Touch(s, r.sid), t)
  }

  datatype WaitReply = Matched | Unmatched(partial: bool) | WaitFailed(code: ErrorCode, retry: bool)

  /** A completion that cannot be observed leaves the session uncertain. */
  function WaitReplied(s: State, t: TaskId, reply: WaitReply): (s': State)
    requires t in s.tasks && s.tasks[t].Completing?
    ensures s'.cfg == s.cfg && Grows(s, s') && KeepsPaused(s, s')
  {
    var r := s.tasks[t].request;
    match reply
    case Matched => FollowUp(s, t, r)
    case Unmatched(partial) => FollowUp(if partial then SetUncertain(s, r.sid) else s, t, r)
    case WaitFailed(code, retry) =>
      var s1 := RpcFailed(s, r.sid, code);
      if Fatal(code) then At(s1, t, ShuttingDown(None))
      else if retry && code.OtherCode? then At(s1, t, Sleeping(r))
      else FollowUp(SetUncertain(s1, r.sid), t, r)
  }

  // ---- approvals --------------------------------------------------------------------

  function ApproveStep(s: State, review: nat, approved: bool): (s': State)
    ensures s'.cfg == s.cfg && Longer(s, s') && KeepsPaused(s, s')
  {
    if review !in s.pending || s.pending[review].expires <= s.now then s
    else
      var item := s.pending[review];
      var record := Get(s.approvals, s.now, item.token);
      if record.None? || !record.value.state.Pending? || !SessionOk(s, item.sid) then s
      else if record.value.sid != item.sid || record.value.epoch != s.sessions[item.sid].epoch then s
      else if approved then
        Note(s.(approvals := Put(s.approvals, s.now, item.token, record.value.(state := Approved), s.cfg.approvalTtl),
                pending := s.pending[review := item.(expires := s.now + s.cfg.approvalTtl)]),
             Granted(item.token, s.now))
      else
        Note(s.(approvals := Put(s.approvals, s.now, item.token, record.value.(state := Denied),
                                 Max(1.0, item.expires - s.now))),
             Declined(item.token, s.now))
  }

  // ---- handoffs ---------------------------------------------------------------------

  /** `_start_handoff` after `list_tabs`: revoke consent, take the lease, then focus. */
  function StartHandoff(s: State, t: TaskId, found: bool): (s': State)
    requires t in s.tasks && s.tasks[t].Listing?
    ensures s'.cfg == s.cfg && Grows(s, s') && (!ActiveControl(s) ==> KeepsPaused(s, s'))
  {
    var sid := s.tasks[t].target;
    if !found || !SessionOk(s, sid) then Finish(s, t)
    else
      Issue(TakeLease(Invalidate(s, sid), sid, s.tasks[t].tab), t, Focusing(sid), Mcp, FocusRpc, sid)
  }

  function TakeLease(s: State, sid: Sid, tab: nat): (s': State)
    ensures s'.cfg == s.cfg && Grows(s, s') && (!ActiveControl(s) ==> KeepsPaused(s, s')) && s'.tasks == s.tasks && s'.lock == s.lock
  {
    s.(minted := s.minted + 1, leases := s.leases[sid := Lease(s.minted, tab, Active, s.now + s.cfg.handoffTtl, |s.history|)])
  }

  predicate IsHandoff(s: State, sid: Sid, handoff: nat) {
    sid in s.leases && s.leases[sid].id == handoff
  }

  /** `complete_handoff` up to closing the viewers. */
  function CompleteBegin(s: State, t: TaskId, sid: Sid, handoff: nat): (s': State)
    ensures s'.cfg == s.cfg && Grows(s, s') && KeepsPaused(s, s')
  {
    if !IsHandoff(s, sid, handoff) || !s.leases[sid].state.Active? then Finish(s, t)
    else
      var s1 := Touch(s, sid);
      if !SessionOk(s1, sid) then Finish(s1, t)
      else At(SetLease(Invalidate(s1, sid), sid, Returning), t, Disconnecting(sid, handoff))
  }

  /** All viewers closed in time: ask the worker to resume. Otherwise stay paused. */
  function CompleteDisconnected(s: State, t: TaskId, allClosed: bool): (s': State)
    requires t in s.tasks && s.tasks[t].Disconnecting?
    ensures s'.cfg == s.cfg && Grows(s, s') && KeepsPaused(s, s')
  {
    var sid := s.tasks[t].target;
    var s1 := Note(s, Disconnected(sid, s.tasks[t].handoff, allClosed));
    if allClosed then Issue(s1, t, Resuming(sid, s.tasks[t].handoff, |s.history|), Console, ResumeRpc, sid)
    else Finish(StayPaused(s1, sid), t)
  }

  function Resumed(s: State, t: TaskId, code: Option<ErrorCode>): (s': State)
    requires t in s.tasks && s.tasks[t].Resuming?
    ensures s'.cfg == s.cfg && Grows(s, s')
  {
    var sid := s.tasks[t].target;
    match code
    case Some(c) =>
      var s1 := RpcFailed(s, sid, c);
      if Fatal(c) then At(s1, t, ShuttingDown(None)) else Finish(StayPaused(s1, sid), t)
    case None =>
      var s1 := SetLease(TouchAll(s), sid, Completed);
      var s2 := if sid in s1.sessions
                then s1.(sessions := s1.sessions[sid := s1.sessions[sid].(uncertain := false)]) else s1;
      Finish(Note(s2, Settled(sid, s.tasks[t].handoff)), t)
  }

  function TouchAll(s: State): (s': State)
    ensures s'.cfg == s.cfg && Grows(s, s') && KeepsPaused(s, s')
  {
    s.(sessions := map x | x in s.sessions :: s.sessions[x].(expires :=
         s.now + if s.reader == Some(x) then s.cfg.readerTtl else s.cfg.sessionTtl))
  }

  function CancelBegin(s: State, t: TaskId, sid: Sid, handoff: nat): (s': State)
    ensures s'.cfg == s.cfg && Grows(s, s')
  {
    if !IsHandoff(s, sid, handoff) || !s.leases[sid].state.Active? then Finish(s, t)
    else At(SetLease(s, sid, Cancelled), t, CancelDisconnecting(sid, handoff))
  }

  /** A session that could not be closed stays under private control. */
  function NotClosed(s: State, sid: Sid, code: ErrorCode): (s': State)
    ensures s'.cfg == s.cfg && Grows(s, s') && KeepsPaused(s, s')
    ensures s'.tasks == s.tasks && s'.lock == s.lock
  {
    var s1 := RpcFailed(s, sid, code);
    if sid in s1.sessions then StayPaused(s1, sid) else s1
  }

  function CloseFailed(s: State, t: TaskId, sid: Sid, code: ErrorCode): (s': State)
    ensures s'.cfg == s.cfg && Grows(s, s') && KeepsPaused(s, s')
  {
    if Fatal(code) then At(NotClosed(s, sid, code), t, ShuttingDown(None)) else Finish(NotClosed(s, sid, code), t)
  }

  function CancelClosed(s: State, t: TaskId, code: Option<ErrorCode>): (s': State)
    requires t in s.tasks && s.tasks[t].CancelClosing?
    ensures s'.cfg == s.cfg && Grows(s, s') && KeepsPaused(s, s')
  {
    var sid := s.tasks[t].target;
    match code
    case None => Finish(Forget(s, sid), t)
    case Some(c) => CloseFailed(s, t, sid, c)
  }

  /** Reclaiming marks whatever lease the session has as returning, even a finished one. */
  function ReclaimBegin(s: State, t: TaskId, sid: Sid): (s': State)
    ensures s'.cfg == s.cfg && Grows(s, s') && KeepsPaused(s, s')
  {
    if sid !in s.sessions then Finish(s, t)
    else At(SetLease(s.(navigations := s.navigations - {sid}), sid, Returning), t, ReclaimDisconnecting(sid))
  }

  function ReclaimDisconnected(s: State, t: TaskId, allClosed: bool): (s': State)
    requires t in s.tasks && s.tasks[t].ReclaimDisconnecting?
    ensures s'.cfg == s.cfg && Grows(s, s') && KeepsPaused(s, s')
  {
    var sid := s.tasks[t].target;
    if allClosed then Issue(s, t, ReclaimClosing(sid), Console, CloseRpc, sid)
    else Finish(StayPaused(s, sid), t)
  }

  function ReclaimClosed(s: State, t: TaskId, code: Option<ErrorCode>): (s': State)
    requires t in s.tasks && s.tasks[t].ReclaimClosing?
    ensures s'.cfg == s.cfg && Grows(s, s') && KeepsPaused(s, s')
  {
    var sid := s.tasks[t].target;
    match code
    case None => Finish(Forget(s, sid), t)
    case Some(c) => CloseFailed(s, t, sid, c)
  }

  /** The viewers of the private desktop have been closed, or failed to close in time. */
  function ViewersGone(s: State, t: TaskId, allClosed: bool): (s': State)
    requires t in s.tasks && (s.tasks[t].Disconnecting? || s.tasks[t].CancelDisconnecting? || s.tasks[t].ReclaimDisconnecting?)
    ensures s'.cfg == s.cfg && Grows(s, s')
  {
    var sid := s.tasks[t].target;
    if s.tasks[t].Disconnecting? then CompleteDisconnected(s, t, allClosed)
    else if s.tasks[t].CancelDisconnecting? then
      Issue(s, t, CancelClosing(sid, s.tasks[t].handoff), Console, CloseRpc, sid)
    else ReclaimDisconnected(s, t, allClosed)
  }

  // ---- other commands ---------------------------------------------------------------

  predicate Reapable(s: State, sid: Sid) {
    sid in s.sessions && s.sessions[sid].expires <= s.now && sid !in s.navigations
  }

  /** The sweeper closes one expired session after another; `choice` is the next of them. */
  function ReapNext(s: State, t: TaskId, choice: Sid): (s': State)
    ensures s'.cfg == s.cfg && Grows(s, s') && KeepsPaused(s, s')
  {
    if Reapable(s, choice) then Issue(s, t, Reaping(choice), Sweeper, CloseRpc, choice) else Finish(s, t)
  }

  /** A new session under a fresh identifier; nothing about it is uncertain or revoked. */
  function WithSession(s: State, expires: real, reader: Option<Sid>): (s': State)
    ensures s'.cfg == s.cfg && Grows(s, s') && s'.tasks == s.tasks && s'.lock == s.lock
  {
    s.(minted := s.minted + 1, reader := reader, readerTab := s.readerTab && reader == s.reader, sessions := s.sessions[s.minted := Session(expires, false, 0)])
  }

  /** A pending navigation of the session refuses another one. */
  function BeginNavigation(s: State, t: TaskId, origin: Origin, sid: Sid): (s': State)
    ensures s'.cfg == s.cfg && Grows(s, s') && KeepsPaused(s, s')
  {
    if sid in s.navigations then Finish(s, t) else Issue(s, t, Beginning(origin, sid), origin, NavigationBegin, sid)
  }

  function ReadOn(s: State, t: TaskId, sid: Sid, step: ReadStep): (s': State)
    ensures s'.cfg == s.cfg && Grows(s, s') && KeepsPaused(s, s')
  {
    Issue(s, t, Reading(sid, step), Reader, OtherRpc, sid)
  }

  /** The reader's page exists: what an earlier read left loading is cancelled first. */
  function EndPending(s: State, t: TaskId, sid: Sid): (s': State)
    ensures s'.cfg == s.cfg && Grows(s, s') && KeepsPaused(s, s')
  {
    ReadOn(s, t, sid, if sid in s.navigations then EndsNavigation else CancelsJob)
  }

  /** The reader has one session of its own, opened when it is missing. */
  function BeginRead(s: State, t: TaskId): (s': State)
    ensures s'.cfg == s.cfg && Grows(s, s')
  {
    if ActiveControl(s) then Finish(s, t)
    else if s.reader.Some? && s.reader.value in s.sessions then
      if s.readerTab then EndPending(s, t, s.reader.value) else ReadOn(s, t, s.reader.value, OpensTab)
    else if |s.sessions| >= s.cfg.maxSessions then Finish(s, t)
    else ReadOn(WithSession(s, s.now + s.cfg.readerTtl, Some(s.minted)), t, s.minted, OpensTab)
  }

  /** A lost tab or session does not stop a read from going on to its next command. */
  predicate Tolerated(code: ErrorCode) { code.TabNotFound? || code.SessionExpired? }

  /** The replies on the way to a read's `navigation_begin`. */
  function ReadReplied(s: State, t: TaskId, code: Option<ErrorCode>): (s': State)
    requires t in s.tasks && s.tasks[t].Reading?
    ensures s'.cfg == s.cfg && Grows(s, s') && KeepsPaused(s, s')
  {
    var sid, step := s.tasks[t].target, s.tasks[t].step;
    match code
    case Some(c) =>
      if step.EndsNavigation? && Tolerated(c) then NavigationDropped(RpcFailed(s, sid, c), t, sid, Fatal(c))
      else FailTask(s, t, sid, c)
    case None =>
      match step
      case OpensTab => EndPending(s.(readerTab := true), t, sid)
      case EndsNavigation => NavigationDropped(s, t, sid, false)
      case CancelsJob => ReadOn(s, t, sid, Configures)
      case Configures => BeginNavigation(s, t, Reader, sid)
  }

  function NavigationDropped(s: State, t: TaskId, sid: Sid, workerLost: bool): (s': State)
    ensures s'.cfg == s.cfg && Grows(s, s') && KeepsPaused(s, s')
  {
    if workerLost then At(s, t, ShuttingDown(Some(sid)))
    else ReadOn(Touch(s.(navigations := s.navigations - {sid}), sid), t, sid, CancelsJob)
  }

  /** A lost worker has been shut down; a read that tolerates the loss sends its next command. */
  function ShutDown(s: State, t: TaskId): (s': State)
    requires t in s.tasks && s.tasks[t].ShuttingDown?
    ensures s'.cfg == s.cfg && Grows(s, s') && KeepsPaused(s, s')
  {
    match s.tasks[t].reading
    case None => Finish(s, t)
    case Some(sid) => ReadOn(Touch(s.(navigations := s.navigations - {sid}), sid), t, sid, CancelsJob)
  }

  function BeginOpen(s: State, t: TaskId, url: bool): (s': State)
    ensures s'.cfg == s.cfg && Grows(s, s')
  {
    if ActiveControl(s) || |s.sessions| >= s.cfg.maxSessions then Finish(s, t)
    else Issue(WithSession(s, s.now + s.cfg.sessionTtl, s.reader), t, Opening(s.minted, url), Mcp, OtherRpc, s.minted)
  }

  /** Opening in a session that exists; only with an address does uncertainty refuse. */
  function BeginOpenTab(s: State, t: TaskId, sid: Sid, listFirst: bool, url: bool): (s': State)
    ensures s'.cfg == s.cfg && Grows(s, s') && KeepsPaused(s, s')
  {
    if sid in s.navigations || !SessionOk(s, sid) || ActiveControl(s) || (url && s.sessions[sid].uncertain) then Finish(s, t)
    else Issue(s, t, if listFirst then ListingTabs(sid, url) else Opening(sid, url), Mcp, OtherRpc, sid)
  }

  /** The first stretch of each command once it holds the command lock. `choice` is a session
      picked by the environment where the code searches a dictionary. */
  function Begin(s: State, t: TaskId, c: Command, choice: Sid): (s': State)
    ensures s'.cfg == s.cfg && Longer(s, s') && (!c.Approve? ==> Grows(s, s'))
    ensures !c.Read? && !c.OpenWork? && !c.CancelHandoff? ==> KeepsPaused(s, s')
  {
    match c
    case ActOn(r) => ActBegin(s, t, r)
    case Navigate(sid) =>
      if !SessionOk(s, sid) || ActiveControl(s) || s.sessions[sid].uncertain then Finish(s, t)
      else BeginNavigation(s, t, Mcp, sid)
    case Browse(origin, sid) =>
      if ActiveControl(s) || (!origin.Driver? && !SessionOk(s, sid)) then Finish(s, t)
      else Issue(s, t, Browsing(origin, sid), origin, OtherRpc, sid)
    case Read => BeginRead(s, t)
    case OpenWork(url) => BeginOpen(s, t, url)
    case OpenTab(sid, listFirst, url) => BeginOpenTab(s, t, sid, listFirst, url)
    case CloseWork(sid) =>
      if ActiveControl(s) || sid !in s.sessions then Finish(s, t)
      else Issue(s, t, Closing(sid), Mcp, CloseRpc, sid)
    case Handoff(sid, tab) =>
      if !SessionOk(s, sid) || ActiveControl(s) then Finish(s, t)
      else Issue(s, t, Listing(sid, tab), Mcp, OtherRpc, sid)
    case Sweep =>
      if ActiveControl(s) then Finish(s, t) else ReapNext(s, t, choice)
    case Approve(review, approved) => Finish(ApproveStep(s, review, approved), t)
    case CompleteHandoff(handoff) => CompleteBegin(s, t, choice, handoff)
    case CancelHandoff(handoff) => CancelBegin(s, t, choice, handoff)
    case ReclaimSession(sid) => ReclaimBegin(s, t, sid)
  }

  /** A command of the sweeper was answered: on to the next expired session. */
  function Reaped(s: State, t: TaskId, code: Option<ErrorCode>, choice: Sid): (s': State)
    requires t in s.tasks && s.tasks[t].Reaping?
    ensures s'.cfg == s.cfg && Grows(s, s') && KeepsPaused(s, s')
  {
    var sid := s.tasks[t].target;
    match code
    case Some(c) =>
      if c == SessionExpired(true) then ReapNext(RpcFailed(s, sid, c), t, choice) else FailTask(s, t, sid, c)
    case None => ReapNext(Forget(s, sid), t, choice)
  }

  /** Commands whose failure means nothing beyond what `_rpc` itself does. */
  predicate Ordinary(pc: Pc) {
    pc.Listing? || pc.Focusing? || pc.FollowingUp? || pc.Beginning? || pc.Browsing? || pc.ListingTabs? || pc.Opening? || pc.Closing?
  }

  /** The navigation was sent; it may still be loading. A read touches its session when it ends. */
  function Begun(s: State, t: TaskId, origin: Origin, sid: Sid, pending: bool): (s': State)
    ensures s'.cfg == s.cfg && Grows(s, s') && KeepsPaused(s, s')
  {
    var s1 := if pending then s.(navigations := s.navigations + {sid}) else s;
    Finish(if origin.Reader? then s1 else Touch(s1, sid), t)
  }

  /** What follows an ordinary command. `more` says that a browsing command sends a further one
      under the same lock, that a navigation is pending, or that the session closed. */
  function Succeeded(s: State, t: TaskId, more: bool): (s': State)
    requires t in s.tasks && Ordinary(s.tasks[t])
    ensures s'.cfg == s.cfg && Grows(s, s')
    ensures (s.tasks[t].Listing? ==> !ActiveControl(s)) ==> KeepsPaused(s, s')
  {
    var pc := s.tasks[t];
    match pc
    case Listing(_, _) => StartHandoff(s, t, more)
    case Beginning(origin, sid) => Begun(s, t, origin, sid, more)
    case Browsing(origin, sid) => if more then Issue(s, t, pc, origin, OtherRpc, sid) else Finish(Touch(s, sid), t)
    case ListingTabs(sid, url) => Issue(s, t, Opening(sid, url), Mcp, OtherRpc, sid)
    case Opening(sid, url) => if url then BeginNavigation(s, t, Mcp, sid) else Finish(Touch(s, sid), t)
    case Closing(sid) => Finish(if more then Forget(s, sid) else Touch(s, sid), t)
    case Focusing(_) | FollowingUp(_) => Finish(Touch(s, pc.target), t)
    case _ => s
  }

  /** The reply to any command but `prepare`, `act` and the poll of a completion. */
  function Replied(s: State, t: TaskId, code: Option<ErrorCode>, more: bool, choice: Sid): (s': State)
    requires t in s.tasks
    ensures s'.cfg == s.cfg && Grows(s, s')
    ensures !s.tasks[t].Resuming? && (s.tasks[t].Listing? ==> !ActiveControl(s)) ==> KeepsPaused(s, s')
  {
    var pc := s.tasks[t];
    if Ordinary(pc) then
      (match code case Some(c) => FailTask(s, t, pc.target, c) case None => Succeeded(s, t, more))
    else match pc
      case Reading(_, _) => ReadReplied(s, t, code)
      case Resuming(_, _, _) => Resumed(s, t, code)
      case CancelClosing(_, _) => CancelClosed(s, t, code)
      case ReclaimClosing(_) => ReclaimClosed(s, t, code)
      case Reaping(_) => Reaped(s, t, code, choice)
      case _ => s
  }

  // ---- events -----------------------------------------------------------------------

  datatype Event =
    | Tick(elapsed: real)
    | Arrive(task: TaskId, command: Command)
    | GiveUp(task: TaskId)                                     // the queue wait budget is over
    | Acquire(task: TaskId, choice: Sid)
    | PrepareDone(task: TaskId, prepared: PrepareReply)
    | Input(task: TaskId)
    | ActDone(task: TaskId, transport: Transport, exit: Exit)
    | WaitDone(task: TaskId, waited: WaitReply)
    | Wake(task: TaskId, overdue: bool)
    | ViewersClosed(task: TaskId, allClosed: bool)
    | RpcDone(task: TaskId, code: Option<ErrorCode>, more: bool, choice: Sid)
    | ShutdownDone(task: TaskId)
    | NavigationEnded(sid: Sid)
    | Prune                                                    // browser_status drops expired proposals
    | Cleanup                                                  // the store drops expired rows

  predicate McpCommand(c: Command) {
    c.ActOn? || c.Navigate? || c.Read? || c.OpenWork? || c.OpenTab? || c.CloseWork? || c.Handoff?
    || (c.Browse? && c.origin.Mcp?)
  }

  /** The session has been opened, and it is not the reader's: no caller may name that one. */
  predicate Addressable(s: State, sid: Sid) { sid < s.minted && s.reader != Some(sid) }

  /** The sessions the caller of a command names are work sessions that have been opened. */
  predicate Addresses(s: State, c: Command) {
    match c
    case ActOn(r) => Addressable(s, r.sid)
    case Navigate(sid) => Addressable(s, sid)
    case Browse(origin, sid) => origin.Mcp? ==> Addressable(s, sid)
    case OpenTab(sid, _, _) => Addressable(s, sid)
    case CloseWork(sid) => Addressable(s, sid)
    case Handoff(sid, _) => Addressable(s, sid)
    case _ => true
  }

  /** Which events the environment can produce in a state. */
  predicate Enabled(s: State, e: Event) {
    match e
    case Tick(elapsed) => elapsed >= 0.0
    case Arrive(t, c) => t !in s.tasks && (c.Browse? ==> c.origin.Mcp? || c.origin.Driver? || c.origin.Reader?)
                         && Addresses(s, c)
                         && (McpCommand(c) || c.Sweep? ==> !ActiveControl(s)) && (c.Sweep? ==> s.lock.None?)
    case GiveUp(t) => t in s.tasks && s.tasks[t].Queued?
    case Acquire(t, _) => t in s.tasks && s.tasks[t].Queued? && s.lock.None?
    case PrepareDone(t, _) => t in s.tasks && s.tasks[t].Preparing?
    case Input(t) => t in s.tasks && s.tasks[t].Acting?
    case ActDone(t, transport, exit) =>
      t in s.tasks && s.tasks[t].Acting? && Possible(s.tasks[t].dispatch.sent, transport, exit)
    case WaitDone(t, _) => t in s.tasks && s.tasks[t].Completing?
    case Wake(t, _) => t in s.tasks && s.tasks[t].Sleeping?
    case ViewersClosed(t, _) =>
      t in s.tasks && (s.tasks[t].Disconnecting? || s.tasks[t].CancelDisconnecting? || s.tasks[t].ReclaimDisconnecting?)
    case RpcDone(t, code, _, _) => t in s.tasks && InFlight(s.tasks[t])
                         && !s.tasks[t].Preparing? && !s.tasks[t].Acting? && !s.tasks[t].Completing?
                         && code != Some(ResultUncertain)      // only `act` can have an uncertain result
    case ShutdownDone(t) => t in s.tasks && s.tasks[t].ShuttingDown?
    case NavigationEnded(_) => true
    case Prune => true
    case Cleanup => true
  }

  function Next(s: State, e: Event): (s': State)
    requires Enabled(s, e)
    ensures s'.cfg == s.cfg && Longer(s, s')
    ensures !(e.Acquire? && s.tasks[e.task].command.Approve?) ==> Grows(s, s')
  {
    match e
    case Tick(elapsed) => s.(now := s.now + elapsed)
    case Arrive(t, c) => At(s, t, Queued(c))
    case GiveUp(t) => s.(tasks := map x | x in s.tasks && x != t :: s.tasks[x])
    case Acquire(t, choice) => Begin(s.(lock := Some(t)), t, s.tasks[t].command, choice)
    case PrepareDone(t, reply) => ActPrepared(s, t, reply)
    case Input(t) => InputSent(s, t)
    case ActDone(t, transport, exit) => ActReplied(s, t, transport, exit)
    case WaitDone(t, reply) => WaitReplied(s, t, reply)
    case Wake(t, overdue) =>
      var r := s.tasks[t].request;
      if overdue then FollowUp(SetUncertain(s, r.sid), t, r) else AskCompletion(s, t, r)
    case ViewersClosed(t, allClosed) => ViewersGone(s, t, allClosed)
    case RpcDone(t, code, more, choice) => Replied(s, t, code, more, choice)
    case ShutdownDone(t) => ShutDown(s, t)
    case NavigationEnded(sid) => Touch(s.(navigations := s.navigations - {sid}), sid)
    case Prune => s.(pending := LivePending(s))
    case Cleanup => s.(approvals := Vacuum(s.approvals, s.now), executions := Vacuum(s.executions, s.now))
  }

  /** A run is any sequence of events; an event that is not possible changes nothing. */
  function Run(s: State, events: seq<Event>): (s': State)
    decreases |events|
    ensures s'.cfg == s.cfg && Longer(s, s')
  {
    if events == [] then s
    else
      var before := Run(s, events[..|events| - 1]);
      var e := events[|events| - 1];
      if Enabled(before, e) then Next(before, e) else before
  }
}
