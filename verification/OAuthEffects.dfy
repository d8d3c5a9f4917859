/** What each request brings about: tokens are issued, used, renewed and revoked as asked. */
module OAuthEffects {
  import opened Wrappers
  import opened Store
  import opened OAuth
  import opened OAuthTheorems

  /** The access token is live and belongs to the grant. */
  predicate LiveAccess(s: State, token: Value, g: Value) {
    token in s.access && s.access[token].expires > s.now && s.access[token].value.grant == g
  }

  predicate LiveRefresh(s: State, token: Value, g: Value) {
    token in s.refresh && s.refresh[token].expires > s.now && s.refresh[token].value.grant == g
  }

  predicate LiveRow(s: State, g: Value) { g in s.grants && s.grants[g].expires > s.now }

  /** Nothing but the task's end, and what the other tables say is as before. */
  ghost predicate OnlyEnded(s: State, s': State, t: TaskId) {
    s' == s.(tasks := s.tasks - {t})
  }

  /** The history is only added to and all other requests are where they were. */
  ghost predicate Framed(s: State, s': State, u: TaskId) {
    s.history <= s'.history
    && (s'.tasks == s.tasks - {u} || (u in s'.tasks && s'.tasks == s.tasks[u := s'.tasks[u]]))
  }

  /** The updates all steps are made of. */
  lemma UpdateFrames(s: State, s1: State, u: TaskId)
    requires s1.tasks == s.tasks && s.history <= s1.history
    ensures Framed(s, Finish(s1, u), u) && forall pc :: Framed(s, At(s1, u, pc), u)
    ensures forall o :: s.history <= Note(s1, o).history && Note(s1, o).tasks == s.tasks
    ensures forall o :: Framed(s, Note(Finish(s1, u), o), u)
  {
  }

  lemma IssuingFrame(s: State, u: TaskId, g: Value, ttl: real)
    ensures Framed(s, NewGrant(s, u, g), u) && Framed(s, IssueAccess(s, u, g, ttl), u)
    ensures Framed(s, IssueRefresh(s, u, g, ttl), u)
  {
    hide Get, Put, Delete;
  }

  lemma NotedMove(s: State, s1: State, u: TaskId, pc: Pc, o: Obs)
    requires s1.tasks == s.tasks && s.history <= s1.history
    ensures Framed(s, At(Note(s1, o), u, pc), u)
  {
  }

  lemma RenewFrame(s: State, u: TaskId, token: Value)
    ensures Framed(s, RenewGrant(s, u, token), u)
  {
    hide Get, Put, Delete, Created, Absolute, Lesser, Framed, Finish, At;
    UpdateFrames(s, s, u);
    forall s1: State, pc, o | s1.tasks == s.tasks && s.history <= s1.history ensures Framed(s, At(Note(s1, o), u, pc), u) {
      NotedMove(s, s1, u, pc, o);
    }
  }

  lemma QueryFrame(s: State, u: TaskId, q: Query, p: bool)
    ensures Framed(s, RememberQuery(s, u, q), u) && Framed(s, MintCode(s, u, q, p), u)
  {
    hide Get, Put, Delete, Framed, Finish;
    QueryUpdates(s, u, q);
    UpdateFrames(s, s, u);
  }

  lemma QueryUpdates(s: State, u: TaskId, q: Query)
    ensures var kept := s.(minted := s.minted + 1, nonces := Put(s.nonces, s.now, s.minted, q, 300.0));
      Framed(s, Finish(kept, u), u)
    ensures var issued := s.(minted := s.minted + 1, codes := Put(s.codes, s.now, s.minted, q, 60.0));
      Framed(s, Note(Finish(issued, u), Authorized(s.minted, q)), u)
  {
    hide Put;
  }

  lemma NonceFrame(s: State, u: TaskId, nonce: Value)
    ensures Framed(s, TakeNonce(s, u, nonce), u)
  {
    hide Get, Delete;
  }

  lemma CodeFrame(s: State, u: TaskId, code: Value, verifier: string, redirect: string)
    ensures Framed(s, TakeCode(s, u, code, verifier, redirect), u)
  {
    hide Get, Delete, Redeems;
  }

  lemma LookingFrame(s: State, u: TaskId, token: Value)
    ensures Framed(s, LookUpAccess(s, u, token), u) && Framed(s, LookUpRefresh(s, u, token), u)
    ensures Framed(s, BearerToken(s, u, token), u)
  {
    UpdateFrames(s, s, u);
    hide Get, At, Finish, Framed;
  }

  lemma EndingFrame(s: State, u: TaskId, token: Value, g: Value)
    ensures Framed(s, BearerGrant(s, u, token, g), u) && Framed(s, RevokeGrant(s, u, g), u)
  {
    hide Get, Delete;
  }

  lemma StepFrame(s: State, u: TaskId, p: bool)
    requires u in s.tasks
    ensures Framed(s, Step(s, u, p), u)
  {
    hide Framed, RememberQuery, TakeNonce, MintCode, TakeCode, NewGrant, IssueAccess, IssueRefresh, RenewGrant,
         LookUpAccess, LookUpRefresh, RevokeGrant, BearerToken, BearerGrant;
    match s.tasks[u]
    case PutNonce(q) => QueryFrame(s, u, q, p);
    case PopNonce(nonce) => NonceFrame(s, u, nonce);
    case CheckPassword(q) => QueryFrame(s, u, q, p);
    case PopCode(code, verifier, redirect) => CodeFrame(s, u, code, verifier, redirect);
    case PutGrant(code) => IssuingFrame(s, u, code, 0.0);
    case PutAccess(g, ttl) => IssuingFrame(s, u, g, ttl);
    case PutRefresh(g, ttl) => IssuingFrame(s, u, g, ttl);
    case Renew(token) => RenewFrame(s, u, token);
    case FindAccess(token) => LookingFrame(s, u, token);
    case FindRefresh(token) => LookingFrame(s, u, token);
    case DeleteGrant(g) => EndingFrame(s, u, 0, g);
    case CheckAccess(token) => LookingFrame(s, u, token);
    case CheckGrant(token, g) => EndingFrame(s, u, token, g);
  }

  lemma OthersLeaveTask(s: State, e: Event, t: TaskId)
    requires Enabled(s, e) && t in s.tasks && e != Abandon(t) && !(e.Continue? && e.task == t)
    ensures t in Next(s, e).tasks && Next(s, e).tasks[t] == s.tasks[t]
  {
    if e.Continue? { StepFrame(s, e.task, e.proved); }
    hide Step;
  }

  lemma HistoryGrowsOnly(s: State, e: Event)
    requires Enabled(s, e)
    ensures s.history <= Next(s, e).history
  {
    if e.Continue? { StepFrame(s, e.task, e.proved); }
    hide Step;
  }

  // ---- revocation -------------------------------------------------------------------------------

  /** Whatever the request finds where it looks now leads to this grant: as an access token it is
      live and the grant's or not live at all, and if it comes to the second table it is live there. */
  predicate Resolves(s: State, t: TaskId, token: Value, g: Value) {
    t in s.tasks ==>
      (s.tasks[t] == FindAccess(token) && token in s.access && s.access[token].expires > s.now ==> s.access[token].value.grant == g)
      && (s.tasks[t] == FindRefresh(token) ==> LiveRefresh(s, token, g))
  }

  /** The revocation request is on its way to the grant. */
  predicate Underway(s: State, t: TaskId, token: Value, g: Value) {
    t in s.tasks && s.tasks[t] in {FindAccess(token), FindRefresh(token), DeleteGrant(g)}
  }

  predicate IsRevoked(s: State, g: Value) { Revoked(g) in s.history && g !in s.grants }

  lemma RevokingStep(s: State, t: TaskId, token: Value, g: Value, proved: bool)
    requires Underway(s, t, token, g) && Resolves(s, t, token, g)
    ensures var s' := Next(s, Continue(t, proved)); Underway(s', t, token, g) || (IsRevoked(s', g) && t !in s'.tasks)
  {
    var s' := Next(s, Continue(t, proved));
    if s.tasks[t] == DeleteGrant(g) { assert s'.history[|s.history|] == Revoked(g); }
  }

  lemma RevokedRemains(s: State, e: Event, g: Value)
    requires Inv(s) && Enabled(s, e) && IsRevoked(s, g)
    ensures IsRevoked(Next(s, e), g)
  {
    NextInv(s, e);
    HistoryGrowsOnly(s, e);
    var s' := Next(s, e);
    hide Next, Enabled, CodesOk, RefreshOk, AccessOk, TasksOk, HistoryOk, GrantOk;
    var i :| 0 <= i < |s.history| && s.history[i] == Revoked(g);
    assert s'.history[i] == Revoked(g);
  }

  /** A revocation request that is not abandoned ends with its grant revoked: however its steps
      interleave with refreshing, using and revoking requests, it is either still underway or the
      grant's row is gone. The token may be an access or a refresh token; it only has to be live
      where and when the request looks for it. */
  lemma {:induction false} RevocationRevokes(s: State, cfg: Config, t: TaskId, token: Value, g: Value, events: seq<Event>)
    requires ValidConfig(cfg) && IsRun(s, cfg) && t in s.tasks && s.tasks[t] == FindAccess(token)
    requires forall i :: 0 <= i < |events| ==>
      events[i] != Abandon(t) && (events[i].Continue? && events[i].task == t ==> Resolves(Run(s, events[..i]), t, token, g))
    ensures Underway(Run(s, events), t, token, g) || IsRevoked(Run(s, events), g)
    decreases |events|
  {
    if events != [] {
      var front, e := events[..|events| - 1], events[|events| - 1];
      forall i | 0 <= i < |front| ensures front[..i] == events[..i] && front[i] == events[i] {}
      RevocationRevokes(s, cfg, t, token, g, front);
      var before := Run(s, front);
      IsRunInv(s, cfg);
      RunInv(s, front);
      if Enabled(before, e) {
        if IsRevoked(before, g) {
          RevokedRemains(before, e, g);
        } else if e.Continue? && e.task == t {
          RevokingStep(before, t, token, g, e.proved);
        } else {
          OthersLeaveTask(before, e, t);
        }
      }
    }
  }

  lemma {:induction false} RunConcat(s: State, a: seq<Event>, b: seq<Event>)
    ensures Run(s, a + b) == Run(Run(s, a), b)
    decreases |b|
  {
    if b == [] {
      assert a + b == a;
    } else {
      assert (a + b)[..|a + b| - 1] == a + b[..|b| - 1];
      RunConcat(s, a, b[..|b| - 1]);
    }
  }

  /** And from then on no bearer of the grant succeeds and none of its tokens is refreshed. */
  lemma RevokedIsUseless(s: State, cfg: Config, g: Value, more: seq<Event>, j: nat)
    requires ValidConfig(cfg) && IsRun(s, cfg) && IsRevoked(s, g)
    requires |s.history| <= j < |Run(s, more).history|
    ensures var o := Run(s, more).history[j]; o.BearerOk? || o.RefreshTaken? ==> o.grant != g
  {
    var minted, grants, access, refresh, events :|
      Legacy(minted, grants, access, refresh) && s == Run(Init(cfg, minted, grants, access, refresh), events);
    RunConcat(Init(cfg, minted, grants, access, refresh), events, more);
    assert IsRun(Run(s, more), cfg);
    HistoryExtends(s, more);
    var i :| 0 <= i < |s.history| && s.history[i] == Revoked(g);
    assert Run(s, more).history[i] == Revoked(g);
    if Run(s, more).history[j].BearerOk? || Run(s, more).history[j].RefreshTaken? {
      RevokedForGood(Run(s, more), cfg, i, j);
    }
  }

  lemma {:induction false} HistoryExtends(s: State, events: seq<Event>)
    ensures s.history <= Run(s, events).history
    decreases |events|
  {
    if events != [] {
      HistoryExtends(s, events[..|events| - 1]);
      var before := Run(s, events[..|events| - 1]);
      if Enabled(before, events[|events| - 1]) { HistoryGrowsOnly(before, events[|events| - 1]); }
    }
  }

  /** It takes two steps for a live access token. */
  lemma AccessRevoked(s: State, t: TaskId, token: Value, g: Value, p: bool)
    requires t in s.tasks && s.tasks[t] == FindAccess(token) && LiveAccess(s, token, g)
    ensures Run(s, [Continue(t, p), Continue(t, p)])
            == s.(tasks := s.tasks - {t}, grants := s.grants - {g}, history := s.history + [Revoked(g)])
  {
    var e := Continue(t, p);
    RunTwo(s, e, e);
    hide Run;
    var s1 := Next(s, e);
    assert s1 == At(s, t, DeleteGrant(g)) && s1.tasks - {t} == s.tasks - {t};
    assert Next(s1, e) == RevokeGrant(s1, t, g);
  }

  /** It takes three for a live refresh token that is no access token. */
  lemma RefreshRevoked(s: State, t: TaskId, token: Value, g: Value, p: bool)
    requires t in s.tasks && s.tasks[t] == FindAccess(token) && LiveRefresh(s, token, g)
    requires token !in s.access || s.access[token].expires <= s.now
    ensures Run(s, [Continue(t, p), Continue(t, p), Continue(t, p)])
            == s.(tasks := s.tasks - {t}, grants := s.grants - {g}, history := s.history + [Revoked(g)])
  {
    var e := Continue(t, p);
    RunTwo(s, e, e);
    RunThree(s, e, e, e);
    hide Run;
    var s1 := Next(s, e);
    assert s1 == At(s, t, FindRefresh(token)) && s1.tasks - {t} == s.tasks - {t};
    var s2 := Next(s1, e);
    assert s2 == At(s1, t, DeleteGrant(g)) && s2.tasks - {t} == s.tasks - {t};
    assert Next(s2, e) == RevokeGrant(s2, t, g);
  }

  /** For anything else the request ends and changes nothing. */
  lemma UnknownIgnored(s: State, t: TaskId, token: Value, p: bool)
    requires t in s.tasks && s.tasks[t] == FindAccess(token)
    requires token !in s.access || s.access[token].expires <= s.now
    requires token !in s.refresh || s.refresh[token].expires <= s.now
    ensures OnlyEnded(s, Run(s, [Continue(t, p), Continue(t, p)]), t)
  {
    var e := Continue(t, p);
    RunTwo(s, e, e);
    hide Run;
    var s1 := Next(s, e);
    assert s1 == At(s, t, FindRefresh(token)) && s1.tasks - {t} == s.tasks - {t};
  }

  lemma RunOne(s: State, e: Event)
    ensures Run(s, [e]) == if Enabled(s, e) then Next(s, e) else s
  {
    assert [e][..0] == [];
    assert Run(s, []) == s;
  }

  lemma RunTwo(s: State, e: Event, f: Event)
    ensures Run(s, [e, f]) == Run(Run(s, [e]), [f])
    ensures Run(s, [e]) == if Enabled(s, e) then Next(s, e) else s
    ensures var s1 := Run(s, [e]); Run(s, [e, f]) == if Enabled(s1, f) then Next(s1, f) else s1
  {
    RunConcat(s, [e], [f]);
    assert [e] + [f] == [e, f];
    RunOne(s, e);
    RunOne(Run(s, [e]), f);
  }

  lemma RunThree(s: State, e: Event, f: Event, g: Event)
    ensures var s2 := Run(s, [e, f]); Run(s, [e, f, g]) == if Enabled(s2, g) then Next(s2, g) else s2
  {
    RunConcat(s, [e, f], [g]);
    assert [e, f] + [g] == [e, f, g];
    RunOne(Run(s, [e, f]), g);
  }

  lemma RunFour(s: State, e: Event)
    requires Enabled(s, e) && Enabled(Next(s, e), e)
    requires var s2 := Next(Next(s, e), e); Enabled(s2, e) && Enabled(Next(s2, e), e)
    ensures Run(s, [e, e, e, e]) == var s2 := Next(Next(s, e), e); Next(Next(s2, e), e)
  {
    hide Next, Enabled;
    var s2 := Next(Next(s, e), e);
    RunTwo(s, e, e);
    RunTwo(s2, e, e);
    RunConcat(s, [e, e], [e, e]);
    assert [e, e] + [e, e] == [e, e, e, e];
  }

  // ---- authorizing -----------------------------------------------------------------------------------

  /** A valid request is remembered for five minutes, and once; the administrator's proof turns it
      into a code that lives a minute. */
  lemma AuthorizingSteps(s: State, t: TaskId, proved: bool)
    requires t in s.tasks
    ensures var s' := Next(s, Continue(t, proved));
      match s.tasks[t]
      case PutNonce(q) =>
        t !in s'.tasks && s'.history == s.history
        && if q.resource == s.cfg.resource
           then s'.nonces == s.nonces[s.minted := Row(q, s.now + 300.0)] && s'.minted == s.minted + 1 else s'.nonces == s.nonces
      case PopNonce(nonce) =>
        nonce !in s'.nonces && s'.history == s.history
        && if nonce in s.nonces && s.nonces[nonce].expires > s.now && s.nonces[nonce].value.resource == s.cfg.resource
           then t in s'.tasks && s'.tasks[t] == CheckPassword(s.nonces[nonce].value) else t !in s'.tasks
      case CheckPassword(q) =>
        t !in s'.tasks
        && if proved then s'.codes == s.codes[s.minted := Row(q, s.now + 60.0)] && s'.minted == s.minted + 1
                          && s'.history == s.history + [Authorized(s.minted, q)]
           else s'.codes == s.codes && s'.history == s.history
      case _ => true
  {
  }

  // ---- issuing ----------------------------------------------------------------------------------------

  /** The code is live and the request matches what was authorized. */
  predicate Matches(s: State, code: Value, verifier: string, redirect: string) {
    code in s.codes && s.codes[code].expires > s.now
    && var q := s.codes[code].value;
       q.resource == s.cfg.resource && s.cfg.challengeOf(verifier) == q.challenge && redirect == q.redirect
  }

  /** The first attempt spends the code; it goes on to a grant exactly when it matches. */
  lemma CodeSpent(s: State, t: TaskId, code: Value, verifier: string, redirect: string, p: bool)
    requires t in s.tasks && s.tasks[t] == PopCode(code, verifier, redirect)
    ensures var s' := Next(s, Continue(t, p));
      s'.codes == s.codes - {code} && s'.grants == s.grants && s'.access == s.access && s'.refresh == s.refresh
      && if Matches(s, code, verifier, redirect)
         then t in s'.tasks && s'.tasks[t] == PutGrant(code)
              && s'.history == s.history + [CodeTaken(code, s.codes[code].value, verifier, redirect)]
         else t !in s'.tasks
  {
    hide Redeems;
    if code in s.codes && s.codes[code].expires > s.now { MatchingRedeems(s, code, verifier, redirect); }
    assert Next(s, Continue(t, p)) == TakeCode(s, t, code, verifier, redirect);
  }

  lemma MatchingRedeems(s: State, code: Value, verifier: string, redirect: string)
    requires code in s.codes && s.codes[code].expires > s.now
    ensures Redeems(s.cfg, s.codes[code].value, verifier, redirect) == Matches(s, code, verifier, redirect)
  {
  }

  /** The grant, its access token and its refresh token, written one after the other. */
  lemma IssuingSteps(s: State, t: TaskId, p: bool)
    requires t in s.tasks
    ensures var s' := Next(s, Continue(t, p));
      match s.tasks[t]
      case PutGrant(code) =>
        s'.grants == s.grants[s.minted := Row(Grant(Some(s.now), Some(s.now + s.cfg.grantMaxTtl)), s.now + s.cfg.refreshTtl)]
        && s'.minted == s.minted + 1 && s'.history == s.history + [Dated(s.minted, s.now, Some(code))]
        && t in s'.tasks && s'.tasks[t] == PutAccess(s.minted, s.cfg.refreshTtl)
      case PutAccess(g, ttl) =>
        s'.access == s.access[s.minted := Row(TokenRecord(g, s.cfg.resource), s.now + s.cfg.accessTtl)]
        && s'.minted == s.minted + 1 && s'.grants == s.grants && t in s'.tasks && s'.tasks[t] == PutRefresh(g, ttl)
      case PutRefresh(g, ttl) =>
        s'.refresh == s.refresh[s.minted := Row(TokenRecord(g, s.cfg.resource), s.now + ttl)]
        && s'.minted == s.minted + 1 && s'.grants == s.grants && t !in s'.tasks
      case _ => true
  {
  }

  // ---- refreshing ------------------------------------------------------------------------------------

  /** When the grant must end whatever happens. */
  function Ends(s: State, g: Value): real
    requires g in s.grants
  {
    match s.grants[g].value
    case Grant(_, Some(absolute)) => absolute
    case Grant(Some(created), None) => created + s.cfg.grantMaxTtl
    case Grant(None, None) => s.now + s.cfg.grantMaxTtl
  }

  predicate MayRefresh(s: State, token: Value) {
    token in s.refresh && s.refresh[token].expires > s.now && s.refresh[token].value.resource == s.cfg.resource
    && LiveRow(s, s.refresh[token].value.grant) && Ends(s, s.refresh[token].value.grant) > s.now
  }

  /** A live refresh token of a live grant is spent and its grant lives on, for another refresh
      lifetime but not beyond its end; otherwise nothing changes. */
  lemma Refreshing(s: State, t: TaskId, token: Value, p: bool)
    requires t in s.tasks && s.tasks[t] == Renew(token) && ValidConfig(s.cfg)
    ensures var s' := Next(s, Continue(t, p));
      if MayRefresh(s, token) then
        var g := s.refresh[token].value.grant;
        var until := if s.now + s.cfg.refreshTtl <= Ends(s, g) then s.now + s.cfg.refreshTtl else Ends(s, g);
        s'.refresh == s.refresh - {token} && g in s'.grants && s'.grants[g].expires == until
        && s'.grants[g].value.absolute == Some(Ends(s, g)) && s'.grants[g].value.created.Some?
        && (s.grants[g].value.created.Some? ==> s'.grants[g].value.created == s.grants[g].value.created)
        && s'.grants - {g} == s.grants - {g} && RefreshTaken(token, g) in s'.history
        && t in s'.tasks && s'.tasks[t] == PutAccess(g, until - s.now)
      else OnlyEnded(s, s', t)
  {
    var s' := Next(s, Continue(t, p));
    if MayRefresh(s, token) {
      var g := s.refresh[token].value.grant;
      assert s'.history[|s'.history| - 1] == RefreshTaken(token, g);
    }
  }

  // ---- bearers ---------------------------------------------------------------------------------------

  /** A bearer succeeds exactly with a live token of this server and a live grant. */
  lemma BearerSucceeds(s: State, t: TaskId, token: Value, p: bool)
    requires t in s.tasks && s.tasks[t] == CheckAccess(token)
    ensures var s' := Run(s, [Continue(t, p), Continue(t, p)]);
      if token in s.access && s.access[token].expires > s.now && s.access[token].value.resource == s.cfg.resource
         && LiveRow(s, s.access[token].value.grant)
      then s' == s.(tasks := s.tasks - {t}, history := s.history + [BearerOk(token, s.access[token].value.grant, s.now)])
      else OnlyEnded(s, s', t)
  {
    hide Run, Next;
    var e := Continue(t, p);
    RunTwo(s, e, e);
    BearerLooks(s, t, token, p);
    var s1 := Next(s, e);
    assert s1.tasks - {t} == s.tasks - {t};
    if t in s1.tasks { BearerDecided(s1, t, token, s.access[token].value.grant, p); }
  }

  lemma BearerLooks(s: State, t: TaskId, token: Value, p: bool)
    requires t in s.tasks && s.tasks[t] == CheckAccess(token)
    ensures Next(s, Continue(t, p))
            == if token in s.access && s.access[token].expires > s.now && s.access[token].value.resource == s.cfg.resource
               then At(s, t, CheckGrant(token, s.access[token].value.grant)) else Finish(s, t)
  {
  }

  /** The second half of it, after whatever other requests did in between. */
  lemma BearerDecided(s: State, t: TaskId, token: Value, g: Value, p: bool)
    requires t in s.tasks && s.tasks[t] == CheckGrant(token, g)
    ensures var s' := Next(s, Continue(t, p));
      if LiveRow(s, g) then s' == s.(tasks := s.tasks - {t}, history := s.history + [BearerOk(token, g, s.now)])
      else OnlyEnded(s, s', t)
  {
  }

  /** The two rows an uninterrupted exchange of a code leaves for its bearers. */
  predicate Holds(s: State, token: Value, g: Value, tokenEnd: real, grantEnd: real) {
    token in s.access && s.access[token] == Row(TokenRecord(g, s.cfg.resource), tokenEnd)
    && g in s.grants && s.grants[g].expires == grantEnd
  }

  /** A matching code becomes a grant with tokens of the configured lifetimes. */
  lemma CodeExchanged(s: State, t: TaskId, code: Value, verifier: string, redirect: string, p: bool)
    requires t in s.tasks && s.tasks[t] == PopCode(code, verifier, redirect) && Matches(s, code, verifier, redirect)
    ensures var s' := Run(s, [Continue(t, p), Continue(t, p), Continue(t, p), Continue(t, p)]);
      Holds(s', s.minted + 1, s.minted, s.now + s.cfg.accessTtl, s.now + s.cfg.refreshTtl)
      && s.minted + 2 in s'.refresh
      && s'.refresh[s.minted + 2] == Row(TokenRecord(s.minted, s.cfg.resource), s.now + s.cfg.refreshTtl)
      && code !in s'.codes && s'.now == s.now && s'.cfg == s.cfg && s'.tasks.Keys == s.tasks.Keys - {t}
  {
    hide Run, Matches, Step;
    var e := Continue(t, p);
    GrantStarted(s, t, code, verifier, redirect, p);
    var s2 := Next(Next(s, e), e);
    TokensFollow(s2, t, s.minted, s.cfg.refreshTtl, p);
    RunFour(s, e);
    hide Next, Enabled;
  }

  lemma GrantStarted(s: State, t: TaskId, code: Value, verifier: string, redirect: string, p: bool)
    requires t in s.tasks && s.tasks[t] == PopCode(code, verifier, redirect) && Matches(s, code, verifier, redirect)
    ensures var s1 := Next(s, Continue(t, p));
      Enabled(s1, Continue(t, p))
      && var s2 := Next(s1, Continue(t, p));
         t in s2.tasks && s2.tasks[t] == PutAccess(s.minted, s.cfg.refreshTtl) && s2.minted == s.minted + 1
         && s.minted in s2.grants && s2.grants[s.minted].expires == s.now + s.cfg.refreshTtl
         && code !in s2.codes && s2.now == s.now && s2.cfg == s.cfg && s2.tasks.Keys == s.tasks.Keys
  {
    CodeSpent(s, t, code, verifier, redirect, p);
    hide Matches;
  }

  lemma TokensFollow(s: State, t: TaskId, g: Value, ttl: real, p: bool)
    requires t in s.tasks && s.tasks[t] == PutAccess(g, ttl)
    ensures var s1 := Next(s, Continue(t, p));
      Enabled(s1, Continue(t, p))
      && var s2 := Next(s1, Continue(t, p));
         s.minted in s2.access && s2.access[s.minted] == Row(TokenRecord(g, s.cfg.resource), s.now + s.cfg.accessTtl)
         && s.minted + 1 in s2.refresh && s2.refresh[s.minted + 1] == Row(TokenRecord(g, s.cfg.resource), s.now + ttl)
         && s2.grants == s.grants && s2.codes == s.codes && s2.now == s.now && s2.cfg == s.cfg
         && s2.tasks.Keys == s.tasks.Keys - {t}
  {
  }

  /** Round trip: the token that a code was exchanged for works until it or its grant expires. */
  lemma FreshTokenWorks(s: State, t: TaskId, code: Value, verifier: string, redirect: string, wait: real, u: TaskId, p: bool)
    requires t in s.tasks && s.tasks[t] == PopCode(code, verifier, redirect) && Matches(s, code, verifier, redirect)
    requires 0.0 <= wait < s.cfg.accessTtl && wait < s.cfg.refreshTtl && u !in s.tasks
    ensures var issued := Run(s, [Continue(t, p), Continue(t, p), Continue(t, p), Continue(t, p)]);
      var token := s.minted + 1;
      Run(issued, [Tick(wait), Arrive(u, CheckAccess(token)), Continue(u, p), Continue(u, p)]).history
      == issued.history + [BearerOk(token, s.minted, s.now + wait)]
  {
    CodeExchanged(s, t, code, verifier, redirect, p);
    var issued := Run(s, [Continue(t, p), Continue(t, p), Continue(t, p), Continue(t, p)]);
    TokenWorks(issued, s.minted + 1, s.minted, s.now + s.cfg.accessTtl, s.now + s.cfg.refreshTtl, wait, u, p);
    hide Run;
  }

  lemma TokenWorks(s: State, token: Value, g: Value, tokenEnd: real, grantEnd: real, wait: real, u: TaskId, p: bool)
    requires Holds(s, token, g, tokenEnd, grantEnd) && 0.0 <= wait && s.now + wait < tokenEnd && s.now + wait < grantEnd
    requires u !in s.tasks
    ensures Run(s, [Tick(wait), Arrive(u, CheckAccess(token)), Continue(u, p), Continue(u, p)]).history
            == s.history + [BearerOk(token, g, s.now + wait)]
  {
    var f, a, d := Tick(wait), Arrive(u, CheckAccess(token)), Continue(u, p);
    RunTwo(s, f, a);
    RunConcat(s, [f, a], [d, d]);
    assert [f, a] + [d, d] == [f, a, d, d];
    var asked := Run(s, [f, a]);
    hide Run;
    assert asked == At(s.(now := s.now + wait), u, CheckAccess(token));
    BearerSucceeds(asked, u, token, p);
  }
}
