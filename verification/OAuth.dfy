/**
 The authorization server over the store. A request is a task that does one store operation
 (or one store transaction) per step; steps of concurrent requests interleave in any order, and
 a request may be abandoned between two of them. Minted values are never minted twice.
 */
module OAuth {
  import opened Wrappers
  import opened Store

  type Value = nat
  type TaskId = nat

  /** `challengeOf` is the S256 transformation of a verifier. */
  datatype Config = Config(accessTtl: real, refreshTtl: real, grantMaxTtl: real, resource: nat, challengeOf: string -> string)

  /** The bound `Settings` enforces between the two lifetimes. */
  ghost predicate ValidConfig(c: Config) { 0.0 < c.accessTtl && 0.0 < c.refreshTtl <= c.grantMaxTtl }

  datatype Query = Query(challenge: string, redirect: string, resource: nat)
  datatype TokenRecord = TokenRecord(grant: Value, resource: nat)

  /** Grants from before timestamps were kept have none. */
  datatype Grant = Grant(created: Option<real>, absolute: Option<real>)

  /** Where a request stands: the store operation it does next. */
  datatype Pc =
    | PutNonce(query: Query)
    | PopNonce(nonce: Value)
    | CheckPassword(query: Query)
    | PopCode(code: Value, verifier: string, redirect: string)
    | PutGrant(code: Value)
    | PutAccess(grant: Value, ttl: real)
    | PutRefresh(grant: Value, ttl: real)
    | Renew(token: Value)
    | FindAccess(token: Value)
    | FindRefresh(token: Value)
    | DeleteGrant(grant: Value)
    | CheckAccess(token: Value)
    | CheckGrant(token: Value, grant: Value)

  predicate IsRequest(pc: Pc) {
    pc.PutNonce? || pc.PopNonce? || pc.PopCode? || pc.Renew? || pc.FindAccess? || pc.CheckAccess?
  }

  datatype Obs =
    | Authorized(code: Value, query: Query)
    | CodeTaken(code: Value, query: Query, verifier: string, redirect: string)
    | RefreshTaken(token: Value, grant: Value)
    | Dated(grant: Value, at: real, origin: Option<Value>)     // the grant gets its creation time
    | Revoked(grant: Value)
    | BearerOk(token: Value, grant: Value, at: real)

  datatype State = State(
    cfg: Config, now: real, minted: Value,
    nonces: Table<Value, Query>, codes: Table<Value, Query>, grants: Table<Value, Grant>,
    access: Table<Value, TokenRecord>, refresh: Table<Value, TokenRecord>,
    tasks: map<TaskId, Pc>, history: seq<Obs>)

  /** A server that starts on an older database: live grants without timestamps, with tokens. */
  function Init(cfg: Config, minted: Value, grants: Table<Value, Grant>, access: Table<Value, TokenRecord>,
                refresh: Table<Value, TokenRecord>): State
  {
    State(cfg, 0.0, minted, map[], map[], grants, access, refresh, map[], [])
  }

  function Note(s: State, o: Obs): State { s.(history := s.history + [o]) }
  function At(s: State, t: TaskId, pc: Pc): State { s.(tasks := s.tasks[t := pc]) }
  function Finish(s: State, t: TaskId): State { s.(tasks := s.tasks - {t}) }

  // ---- the steps ----------------------------------------------------------------------------

  /** `/authorize` remembers a valid request under a new nonce. */
  function RememberQuery(s: State, t: TaskId, q: Query): (s': State)
    ensures s'.cfg == s.cfg
  {
    if q.resource == s.cfg.resource then
      Finish(s.(minted := s.minted + 1, nonces := Put(s.nonces, s.now, s.minted, q, 300.0)), t)
    else Finish(s, t)
  }

  function TakeNonce(s: State, t: TaskId, nonce: Value): (s': State)
    ensures s'.cfg == s.cfg
  {
    var q := Get(s.nonces, s.now, nonce);
    var s1 := s.(nonces := Delete(s.nonces, nonce));
    if q.Some? && q.value.resource == s.cfg.resource then At(s1, t, CheckPassword(q.value)) else Finish(s1, t)
  }

  /** The administrator's proof is good or not; a code lives a minute. */
  function MintCode(s: State, t: TaskId, q: Query, proved: bool): (s': State)
    ensures s'.cfg == s.cfg
  {
    if proved then
      Note(Finish(s.(minted := s.minted + 1, codes := Put(s.codes, s.now, s.minted, q, 60.0)), t), Authorized(s.minted, q))
    else Finish(s, t)
  }

  predicate Redeems(cfg: Config, q: Query, verifier: string, redirect: string) {
    q.resource == cfg.resource && cfg.challengeOf(verifier) == q.challenge && redirect == q.redirect
  }

  /** A code is consumed by the first attempt, successful or not. */
  function TakeCode(s: State, t: TaskId, code: Value, verifier: string, redirect: string): (s': State)
    ensures s'.cfg == s.cfg
  {
    var q := Get(s.codes, s.now, code);
    var s1 := s.(codes := Delete(s.codes, code));
    match q
    case None => Finish(s1, t)
    case Some(query) =>
      var s2 := Note(s1, CodeTaken(code, query, verifier, redirect));
      if Redeems(s.cfg, query, verifier, redirect) then At(s2, t, PutGrant(code)) else Finish(s2, t)
  }

  function NewGrant(s: State, t: TaskId, code: Value): (s': State)
    ensures s'.cfg == s.cfg
  {
    var g := s.minted;
    At(Note(s.(minted := s.minted + 1,
               grants := Put(s.grants, s.now, g, Grant(Some(s.now), Some(s.now + s.cfg.grantMaxTtl)), s.cfg.refreshTtl)),
            Dated(g, s.now, Some(code))),
       t, PutAccess(g, s.cfg.refreshTtl))
  }

  function IssueAccess(s: State, t: TaskId, g: Value, ttl: real): (s': State)
    ensures s'.cfg == s.cfg
  {
    At(s.(minted := s.minted + 1,
          access := Put(s.access, s.now, s.minted, TokenRecord(g, s.cfg.resource), s.cfg.accessTtl)),
       t, PutRefresh(g, ttl))
  }

  function IssueRefresh(s: State, t: TaskId, g: Value, ttl: real): (s': State)
    ensures s'.cfg == s.cfg
  {
    Finish(s.(minted := s.minted + 1,
              refresh := Put(s.refresh, s.now, s.minted, TokenRecord(g, s.cfg.resource), ttl)), t)
  }

  function Created(s: State, g: Grant): real { if g.created.Some? then g.created.value else s.now }
  function Absolute(s: State, g: Grant): real {
    if g.absolute.Some? then g.absolute.value else Created(s, g) + s.cfg.grantMaxTtl
  }
  function Lesser(a: real, b: real): real { if a <= b then a else b }

  /** The refreshing transaction: the old token is consumed and its grant renewed together. */
  function RenewGrant(s: State, t: TaskId, token: Value): (s': State)
    ensures s'.cfg == s.cfg
  {
    var q := Get(s.refresh, s.now, token);
    var record := if q.Some? then Get(s.grants, s.now, q.value.grant) else None;
    if q.None? || q.value.resource != s.cfg.resource || record.None? then Finish(s, t)
    else
      var g := q.value.grant;
      var created, absolute := Created(s, record.value), Absolute(s, record.value);
      var remaining := Lesser(s.cfg.refreshTtl, absolute - s.now);
      if remaining <= 0.0 then Finish(s, t)
      else
        var s1 := s.(refresh := Delete(s.refresh, token),
                     grants := Put(s.grants, s.now, g, Grant(Some(created), Some(absolute)), remaining));
        var s2 := if record.value.created.None? then Note(s1, Dated(g, created, None)) else s1;
        At(Note(s2, RefreshTaken(token, g)), t, PutAccess(g, remaining))
  }

  function LookUpAccess(s: State, t: TaskId, token: Value): (s': State)
    ensures s'.cfg == s.cfg
  {
    var q := Get(s.access, s.now, token);
    if q.Some? then At(s, t, DeleteGrant(q.value.grant)) else At(s, t, FindRefresh(token))
  }

  function LookUpRefresh(s: State, t: TaskId, token: Value): (s': State)
    ensures s'.cfg == s.cfg
  {
    var q := Get(s.refresh, s.now, token);
    if q.Some? then At(s, t, DeleteGrant(q.value.grant)) else Finish(s, t)
  }

  function RevokeGrant(s: State, t: TaskId, g: Value): (s': State)
    ensures s'.cfg == s.cfg
  {
    Note(Finish(s.(grants := Delete(s.grants, g)), t), Revoked(g))
  }

  function BearerToken(s: State, t: TaskId, token: Value): (s': State)
    ensures s'.cfg == s.cfg
  {
    var q := Get(s.access, s.now, token);
    if q.Some? && q.value.resource == s.cfg.resource then At(s, t, CheckGrant(token, q.value.grant)) else Finish(s, t)
  }

  function BearerGrant(s: State, t: TaskId, token: Value, g: Value): (s': State)
    ensures s'.cfg == s.cfg
  {
    if Get(s.grants, s.now, g).Some? then Note(Finish(s, t), BearerOk(token, g, s.now)) else Finish(s, t)
  }

  function Step(s: State, t: TaskId, proved: bool): (s': State)
    requires t in s.tasks
    ensures s'.cfg == s.cfg
  {
    match s.tasks[t]
    case PutNonce(q) => RememberQuery(s, t, q)
    case PopNonce(nonce) => TakeNonce(s, t, nonce)
    case CheckPassword(q) => MintCode(s, t, q, proved)
    case PopCode(code, verifier, redirect) => TakeCode(s, t, code, verifier, redirect)
    case PutGrant(code) => NewGrant(s, t, code)
    case PutAccess(g, ttl) => IssueAccess(s, t, g, ttl)
    case PutRefresh(g, ttl) => IssueRefresh(s, t, g, ttl)
    case Renew(token) => RenewGrant(s, t, token)
    case FindAccess(token) => LookUpAccess(s, t, token)
    case FindRefresh(token) => LookUpRefresh(s, t, token)
    case DeleteGrant(g) => RevokeGrant(s, t, g)
    case CheckAccess(token) => BearerToken(s, t, token)
    case CheckGrant(token, g) => BearerGrant(s, t, token, g)
  }

  datatype Event =
    | Tick(elapsed: real)
    | Arrive(task: TaskId, request: Pc)
    | Continue(task: TaskId, proved: bool)
    | Abandon(task: TaskId)
    | Cleanup

  predicate Enabled(s: State, e: Event) {
    match e
    case Tick(elapsed) => elapsed >= 0.0
    case Arrive(t, request) => t !in s.tasks && IsRequest(request)
    case Continue(t, _) => t in s.tasks
    case Abandon(t) => t in s.tasks
    case Cleanup => true
  }

  function Next(s: State, e: Event): (s': State)
    requires Enabled(s, e)
    ensures s'.cfg == s.cfg
  {
    match e
    case Tick(elapsed) => s.(now := s.now + elapsed)
    case Arrive(t, request) => At(s, t, request)
    case Continue(t, proved) => Step(s, t, proved)
    case Abandon(t) => Finish(s, t)
    case Cleanup =>
      s.(nonces := Vacuum(s.nonces, s.now), codes := Vacuum(s.codes, s.now), grants := Vacuum(s.grants, s.now),
         access := Vacuum(s.access, s.now), refresh := Vacuum(s.refresh, s.now))
  }

  function Run(s: State, events: seq<Event>): State
    decreases |events|
  {
    if events == [] then s
    else
      var before := Run(s, events[..|events| - 1]);
      var e := events[|events| - 1];
      if Enabled(before, e) then Next(before, e) else before
  }
}
