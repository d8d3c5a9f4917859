/**
 The authorization server object: its tables, and one method for each stretch of a handler that
 does one store operation or transaction. Every method is proved to take the object from one
 state of the transition system to the next.
 */
module OAuthService {
  import opened Wrappers
  import opened Store
  import opened OAuth

  class Auth {
    const cfg: Config
    var now: real
    var minted: Value
    var nonces: Table<Value, Query>
    var codes: Table<Value, Query>
    var grants: Table<Value, Grant>
    var access: Table<Value, TokenRecord>
    var refresh: Table<Value, TokenRecord>
    var tasks: map<TaskId, Pc>
    var history: seq<Obs>

    function St(): State
      reads this
    {
      State(cfg, now, minted, nonces, codes, grants, access, refresh, tasks, history)
    }

    constructor (cfg: Config, minted: Value, grants: Table<Value, Grant>, access: Table<Value, TokenRecord>,
                 refresh: Table<Value, TokenRecord>)
      ensures St() == Init(cfg, minted, grants, access, refresh)
    {
      this.cfg := cfg;
      now, this.minted := 0.0, minted;
      nonces, codes, this.grants, this.access, this.refresh := map[], map[], grants, access, refresh;
      tasks, history := map[], [];
    }

    method Finish(t: TaskId)
      modifies this`tasks
      ensures St() == OAuth.Finish(old(St()), t)
    {
      tasks := tasks - {t};
    }

    method RememberQuery(t: TaskId, q: Query)
      modifies this
      ensures St() == OAuth.RememberQuery(old(St()), t, q)
    {
      if q.resource == cfg.resource {
        nonces := nonces[minted := Row(q, now + 300.0)];
        minted := minted + 1;
      }
      Finish(t);
    }

    method TakeNonce(t: TaskId, nonce: Value)
      modifies this
      ensures St() == OAuth.TakeNonce(old(St()), t, nonce)
    {
      var q := Get(nonces, now, nonce);
      nonces := map x | x in nonces && x != nonce :: nonces[x];
      if q.None? || q.value.resource != cfg.resource {
        Finish(t);
      } else {
        tasks := tasks[t := CheckPassword(q.value)];
      }
    }

    method MintCode(t: TaskId, q: Query, proved: bool)
      modifies this
      ensures St() == OAuth.MintCode(old(St()), t, q, proved)
    {
      if proved {
        codes := codes[minted := Row(q, now + 60.0)];
        history := history + [Authorized(minted, q)];
        minted := minted + 1;
      }
      Finish(t);
    }

    method TakeCode(t: TaskId, code: Value, verifier: string, redirect: string)
      modifies this
      ensures St() == OAuth.TakeCode(old(St()), t, code, verifier, redirect)
    {
      var q := Get(codes, now, code);
      codes := map x | x in codes && x != code :: codes[x];
      if q.None? {
        Finish(t);
        return;
      }
      history := history + [CodeTaken(code, q.value, verifier, redirect)];
      if q.value.resource != cfg.resource || cfg.challengeOf(verifier) != q.value.challenge || redirect != q.value.redirect {
        Finish(t);
      } else {
        tasks := tasks[t := PutGrant(code)];
      }
    }

    method NewGrant(t: TaskId, code: Value)
      modifies this
      ensures St() == OAuth.NewGrant(old(St()), t, code)
    {
      var g := minted;
      minted := minted + 1;
      grants := grants[g := Row(Grant(Some(now), Some(now + cfg.grantMaxTtl)), now + cfg.refreshTtl)];
      history := history + [Dated(g, now, Some(code))];
      tasks := tasks[t := PutAccess(g, cfg.refreshTtl)];
    }

    method IssueAccess(t: TaskId, g: Value, ttl: real)
      modifies this
      ensures St() == OAuth.IssueAccess(old(St()), t, g, ttl)
    {
      access := access[minted := Row(TokenRecord(g, cfg.resource), now + cfg.accessTtl)];
      minted := minted + 1;
      tasks := tasks[t := PutRefresh(g, ttl)];
    }

    method IssueRefresh(t: TaskId, g: Value, ttl: real)
      modifies this
      ensures St() == OAuth.IssueRefresh(old(St()), t, g, ttl)
    {
      refresh := refresh[minted := Row(TokenRecord(g, cfg.resource), now + ttl)];
      minted := minted + 1;
      Finish(t);
    }

    /** The old refresh token goes and the grant is written back with its new time to live. */
    method Rotate(token: Value, g: Value, v: Grant, ttl: real)
      modifies this`refresh, this`grants
      ensures St() == old(St()).(refresh := Delete(old(refresh), token), grants := Put(old(grants), now, g, v, ttl))
    {
      refresh := map x | x in refresh && x != token :: refresh[x];
      grants := grants[g := Row(v, now + ttl)];
    }

    /** One transaction: nothing of it happens unless the token and its grant are both live and
        some of the absolute lifetime remains. */
    method RenewGrant(t: TaskId, token: Value)
      modifies this
      ensures St() == OAuth.RenewGrant(old(St()), t, token)
    {
      var q := Get(refresh, now, token);
      if q.None? {
        Finish(t);
        return;
      }
      var g := q.value.grant;
      var record := Get(grants, now, g);
      if q.value.resource != cfg.resource || record.None? {
        Finish(t);
        return;
      }
      var created := if record.value.created.Some? then record.value.created.value else now;
      var absolute := if record.value.absolute.Some? then record.value.absolute.value else created + cfg.grantMaxTtl;
      var remaining := Lesser(cfg.refreshTtl, absolute - now);
      if remaining <= 0.0 {
        Finish(t);
        return;
      }
      Rotate(token, g, Grant(Some(created), Some(absolute)), remaining);
      if record.value.created.None? { history := history + [Dated(g, created, None)]; }
      history := history + [RefreshTaken(token, g)];
      tasks := tasks[t := PutAccess(g, remaining)];
    }

    method LookUpAccess(t: TaskId, token: Value)
      modifies this`tasks
      ensures St() == OAuth.LookUpAccess(old(St()), t, token)
    {
      var q := Get(access, now, token);
      tasks := tasks[t := if q.Some? then DeleteGrant(q.value.grant) else FindRefresh(token)];
    }

    method LookUpRefresh(t: TaskId, token: Value)
      modifies this`tasks
      ensures St() == OAuth.LookUpRefresh(old(St()), t, token)
    {
      var q := Get(refresh, now, token);
      if q.Some? { tasks := tasks[t := DeleteGrant(q.value.grant)]; } else { Finish(t); }
    }

    method RevokeGrant(t: TaskId, g: Value)
      modifies this
      ensures St() == OAuth.RevokeGrant(old(St()), t, g)
    {
      grants := map x | x in grants && x != g :: grants[x];
      history := history + [Revoked(g)];
      Finish(t);
    }

    method BearerToken(t: TaskId, token: Value)
      modifies this`tasks
      ensures St() == OAuth.BearerToken(old(St()), t, token)
    {
      var q := Get(access, now, token);
      if q.Some? && q.value.resource == cfg.resource {
        tasks := tasks[t := CheckGrant(token, q.value.grant)];
      } else {
        Finish(t);
      }
    }

    method BearerGrant(t: TaskId, token: Value, g: Value)
      modifies this
      ensures St() == OAuth.BearerGrant(old(St()), t, token, g)
    {
      var live := Get(grants, now, g);
      if live.Some? { history := history + [BearerOk(token, g, now)]; }
      Finish(t);
    }

    method Step(t: TaskId, proved: bool)
      requires t in tasks
      modifies this
      ensures St() == OAuth.Step(old(St()), t, proved)
    {
      hide OAuth.RenewGrant, OAuth.TakeCode, OAuth.NewGrant, OAuth.RememberQuery, OAuth.TakeNonce, OAuth.MintCode,
           OAuth.IssueAccess, OAuth.IssueRefresh, OAuth.RevokeGrant, OAuth.BearerGrant, OAuth.BearerToken;
      match tasks[t] {
        case PutNonce(q) => RememberQuery(t, q);
        case PopNonce(nonce) => TakeNonce(t, nonce);
        case CheckPassword(q) => MintCode(t, q, proved);
        case PopCode(code, verifier, redirect) => TakeCode(t, code, verifier, redirect);
        case PutGrant(code) => NewGrant(t, code);
        case PutAccess(g, ttl) => IssueAccess(t, g, ttl);
        case PutRefresh(g, ttl) => IssueRefresh(t, g, ttl);
        case Renew(token) => RenewGrant(t, token);
        case FindAccess(token) => LookUpAccess(t, token);
        case FindRefresh(token) => LookUpRefresh(t, token);
        case DeleteGrant(g) => RevokeGrant(t, g);
        case CheckAccess(token) => BearerToken(t, token);
        case CheckGrant(token, g) => BearerGrant(t, token, g);
      }
    }

    method Handle(e: Event)
      requires Enabled(St(), e)
      modifies this
      ensures St() == Next(old(St()), e)
    {
      hide OAuth.Step;
      match e {
        case Tick(elapsed) => now := now + elapsed;
        case Arrive(t, request) => tasks := tasks[t := request];
        case Continue(t, proved) => Step(t, proved);
        case Abandon(t) => Finish(t);
        case Cleanup =>
          nonces := map x | x in nonces && nonces[x].expires >= now :: nonces[x];
          codes := map x | x in codes && codes[x].expires >= now :: codes[x];
          grants := map x | x in grants && grants[x].expires >= now :: grants[x];
          access := map x | x in access && access[x].expires >= now :: access[x];
          refresh := map x | x in refresh && refresh[x].expires >= now :: refresh[x];
      }
    }
  }

  /** Serving any sequence of events is a run of the transition system. */
  method Serve(cfg: Config, minted: Value, grants: Table<Value, Grant>, access: Table<Value, TokenRecord>,
               refresh: Table<Value, TokenRecord>, events: seq<Event>) returns (auth: Auth)
    ensures fresh(auth) && auth.St() == Run(Init(cfg, minted, grants, access, refresh), events)
  {
    auth := new Auth(cfg, minted, grants, access, refresh);
    ghost var start := auth.St();
    var i := 0;
    while i < |events|
      invariant 0 <= i <= |events|
      invariant fresh(auth) && auth.St() == Run(start, events[..i])
    {
      assert events[..i + 1][..i] == events[..i];
      if Enabled(auth.St(), events[i]) {
        auth.Handle(events[i]);
      }
      i := i + 1;
    }
    assert events[..|events|] == events;
  }
}
