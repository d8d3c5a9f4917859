/** Single use, revocation and absolute expiry, over every interleaving of requests. */
module OAuthTheorems {
  import opened Wrappers
  import opened Store
  import opened OAuth

  type History = seq<Obs>

  // ---- the invariant, table by table ----------------------------------------------------------

  ghost predicate CodesOk(codes: Table<Value, Query>, h: History, minted: Value) {
    (forall c :: c in codes ==> c < minted && Authorized(c, codes[c].value) in h)
    && (forall i :: 0 <= i < |h| && h[i].CodeTaken? ==> h[i].code !in codes && h[i].code < minted)
  }

  ghost predicate RefreshOk(refresh: Table<Value, TokenRecord>, h: History, minted: Value) {
    (forall r :: r in refresh ==> r < minted && refresh[r].value.grant < minted)
    && (forall i :: 0 <= i < |h| && h[i].RefreshTaken? ==> h[i].token !in refresh && h[i].token < minted)
  }

  ghost predicate AccessOk(access: Table<Value, TokenRecord>, minted: Value) {
    forall a :: a in access ==> a < minted && access[a].value.grant < minted
  }

  /** A grant's row, its timestamps and its recorded creation agree. */
  ghost predicate GrantOk(row: Row<Grant>, g: Value, h: History, max: real) {
    if row.value.created.Some? then
      row.value.absolute == Some(row.value.created.value + max) && row.expires <= row.value.created.value + max
      && forall i :: 0 <= i < |h| && h[i].Dated? && h[i].grant == g ==> h[i].at == row.value.created.value
    else
      row.value.absolute.None? && forall i :: 0 <= i < |h| && h[i].Dated? ==> h[i].grant != g
  }

  ghost predicate GrantsOk(grants: Table<Value, Grant>, h: History, minted: Value, max: real) {
    (forall g :: g in grants ==> g < minted && GrantOk(grants[g], g, h, max))
    && (forall i :: 0 <= i < |h| && (h[i].Revoked? || h[i].Dated?) ==> h[i].grant < minted)
    && (forall i :: 0 <= i < |h| && h[i].Revoked? ==> h[i].grant !in grants)
  }

  /** The code was taken before position n, by a request that matched its authorization. */
  ghost predicate Redeemed(h: History, n: nat, code: Value, cfg: Config) {
    exists i: nat :: i < n <= |h| && h[i].CodeTaken? && h[i].code == code
                     && Redeems(cfg, h[i].query, h[i].verifier, h[i].redirect)
  }

  ghost predicate TaskOk(pc: Pc, h: History, minted: Value, cfg: Config) {
    ((pc.PutAccess? || pc.PutRefresh? || pc.DeleteGrant? || pc.CheckGrant?) ==> pc.grant < minted)
    && (pc.PutGrant? ==> Redeemed(h, |h|, pc.code, cfg))
  }

  /** No grant was issued for the code and no request is about to issue one. */
  ghost predicate Unclaimed(tasks: map<TaskId, Pc>, h: History, code: Value) {
    (forall t :: t in tasks && tasks[t].PutGrant? ==> tasks[t].code != code)
    && forall i :: 0 <= i < |h| && h[i].Dated? ==> h[i].origin != Some(code)
  }

  /** At most one request is about to issue a grant for a code, and none for a code that has its grant. */
  ghost predicate ClaimsOk(tasks: map<TaskId, Pc>, h: History) {
    forall t :: t in tasks && tasks[t].PutGrant? ==> Unclaimed(tasks - {t}, h, tasks[t].code)
  }

  // ---- what the history itself always satisfies -------------------------------------------------

  ghost predicate Once(h: History) {
    (forall i, j :: 0 <= i < j < |h| && h[i].CodeTaken? && h[j].CodeTaken? ==> h[i].code != h[j].code)
    && (forall i, j :: 0 <= i < j < |h| && h[i].RefreshTaken? && h[j].RefreshTaken? ==> h[i].token != h[j].token)
    && (forall i, j :: 0 <= i < j < |h| && h[i].Dated? && h[j].Dated? && h[i].origin.Some? ==> h[i].origin != h[j].origin)
  }

  ghost predicate UsesGrant(o: Obs) { o.BearerOk? || o.RefreshTaken? || o.Dated? }

  /** After a grant is revoked nothing uses it. */
  ghost predicate RevokedStays(h: History) {
    forall i, j :: 0 <= i < j < |h| && h[i].Revoked? && UsesGrant(h[j]) ==> h[i].grant != h[j].grant
  }

  ghost predicate WithinLifetime(h: History, max: real) {
    forall i, j :: 0 <= i < j < |h| && h[i].Dated? && h[j].BearerOk? && h[i].grant == h[j].grant ==> h[j].at < h[i].at + max
  }

  /** A code is taken only if it was authorized, and gives a grant only to a request that matches. */
  ghost predicate Provenance(h: History, cfg: Config) {
    (forall j :: 0 <= j < |h| && h[j].CodeTaken? ==> Authorized(h[j].code, h[j].query) in h[..j])
    && (forall j: nat :: j < |h| && h[j].Dated? && h[j].origin.Some? ==> Redeemed(h, j, h[j].origin.value, cfg))
  }

  ghost predicate HistoryOk(h: History, cfg: Config) {
    Once(h) && RevokedStays(h) && WithinLifetime(h, cfg.grantMaxTtl) && Provenance(h, cfg)
  }

  ghost predicate TasksOk(tasks: map<TaskId, Pc>, h: History, minted: Value, cfg: Config) {
    ClaimsOk(tasks, h) && forall t :: t in tasks ==> TaskOk(tasks[t], h, minted, cfg)
  }

  ghost predicate Inv(s: State) {
    ValidConfig(s.cfg) && CodesOk(s.codes, s.history, s.minted) && RefreshOk(s.refresh, s.history, s.minted)
    && AccessOk(s.access, s.minted) && GrantsOk(s.grants, s.history, s.minted, s.cfg.grantMaxTtl)
    && TasksOk(s.tasks, s.history, s.minted, s.cfg) && HistoryOk(s.history, s.cfg)
  }

  // ---- growing the history ------------------------------------------------------------------------

  lemma CodesGrow(codes: Table<Value, Query>, h: History, minted: Value, o: Obs)
    requires CodesOk(codes, h, minted) && (o.CodeTaken? ==> o.code !in codes && o.code < minted)
    ensures CodesOk(codes, h + [o], minted)
  {
  }

  lemma RefreshGrow(refresh: Table<Value, TokenRecord>, h: History, minted: Value, o: Obs)
    requires RefreshOk(refresh, h, minted) && (o.RefreshTaken? ==> o.token !in refresh && o.token < minted)
    ensures RefreshOk(refresh, h + [o], minted)
  {
  }

  lemma GrantsGrow(grants: Table<Value, Grant>, h: History, minted: Value, max: real, o: Obs)
    requires GrantsOk(grants, h, minted, max)
    requires o.Revoked? ==> o.grant < minted && o.grant !in grants
    requires o.Dated? ==> o.grant < minted && o.grant !in grants
    ensures GrantsOk(grants, h + [o], minted, max)
  {
    forall g | g in grants ensures GrantOk(grants[g], g, h + [o], max) {
      assert GrantOk(grants[g], g, h, max);
    }
  }

  lemma RedeemedGrows(h: History, o: Obs, n: nat, code: Value, cfg: Config)
    requires Redeemed(h, n, code, cfg)
    ensures Redeemed(h + [o], n, code, cfg) && Redeemed(h + [o], |h + [o]|, code, cfg)
  {
    var i: nat :| i < n <= |h| && h[i].CodeTaken? && h[i].code == code && Redeems(cfg, h[i].query, h[i].verifier, h[i].redirect);
    assert (h + [o])[i] == h[i];
  }

  lemma TasksGrow(tasks: map<TaskId, Pc>, h: History, minted: Value, o: Obs, more: Value, cfg: Config)
    requires TasksOk(tasks, h, minted, cfg) && minted <= more
    requires o.Dated? && o.origin.Some? ==> Unclaimed(tasks, h, o.origin.value)
    ensures TasksOk(tasks, h + [o], more, cfg) && TasksOk(tasks, h, more, cfg)
  {
    forall t | t in tasks ensures TaskOk(tasks[t], h + [o], more, cfg) {
      assert TaskOk(tasks[t], h, minted, cfg);
      if tasks[t].PutGrant? { RedeemedGrows(h, o, |h|, tasks[t].code, cfg); }
    }
    forall t | t in tasks && tasks[t].PutGrant? ensures Unclaimed(tasks - {t}, h + [o], tasks[t].code) {
      assert Unclaimed(tasks - {t}, h, tasks[t].code);
    }
  }

  lemma HistoryGrows(h: History, cfg: Config, o: Obs)
    requires HistoryOk(h, cfg)
    requires o.CodeTaken? ==> Authorized(o.code, o.query) in h && forall i :: 0 <= i < |h| && h[i].CodeTaken? ==> h[i].code != o.code
    requires o.RefreshTaken? ==> forall i :: 0 <= i < |h| && h[i].RefreshTaken? ==> h[i].token != o.token
    requires UsesGrant(o) ==> forall i :: 0 <= i < |h| && h[i].Revoked? ==> h[i].grant != o.grant
    requires o.BearerOk? ==> forall i :: 0 <= i < |h| && h[i].Dated? && h[i].grant == o.grant ==> o.at < h[i].at + cfg.grantMaxTtl
    requires o.Dated? && o.origin.Some? ==>
      Redeemed(h, |h|, o.origin.value, cfg) && forall i :: 0 <= i < |h| && h[i].Dated? ==> h[i].origin != o.origin
    ensures HistoryOk(h + [o], cfg)
  {
    var k := h + [o];
    assert Once(k) && RevokedStays(k) && WithinLifetime(k, cfg.grantMaxTtl);
    forall j | 0 <= j < |k| && k[j].CodeTaken? ensures Authorized(k[j].code, k[j].query) in k[..j] {
      if j < |h| { assert k[..j] == h[..j]; } else { assert k[..j] == h; }
    }
    forall j: nat | j < |k| && k[j].Dated? && k[j].origin.Some?
      ensures Redeemed(k, j, k[j].origin.value, cfg)
    {
      RedeemedGrows(h, o, j, k[j].origin.value, cfg);
    }
  }

  // ---- steps that record nothing --------------------------------------------------------------------

  /** Fewer rows, more minted values, the same history, and good tasks. */
  lemma QuietInv(s: State, s': State)
    requires Inv(s) && s'.cfg == s.cfg && s'.history == s.history && s.minted <= s'.minted
    requires CodesOk(s'.codes, s.history, s'.minted) && RefreshOk(s'.refresh, s.history, s'.minted)
    requires AccessOk(s'.access, s'.minted) && TasksOk(s'.tasks, s.history, s'.minted, s.cfg)
    requires forall g :: g in s'.grants ==> g in s.grants && s'.grants[g] == s.grants[g]
    ensures Inv(s')
  {
    hide CodesOk, RefreshOk, AccessOk, TasksOk, HistoryOk;
    forall g | g in s'.grants ensures GrantOk(s'.grants[g], g, s.history, s.cfg.grantMaxTtl) {
      assert GrantOk(s.grants[g], g, s.history, s.cfg.grantMaxTtl);
    }
  }

  /** The task may go on to issue a grant only for a code that nobody else claims. */
  ghost predicate MayMove(s: State, t: TaskId, pc: Pc) {
    TaskOk(pc, s.history, s.minted, s.cfg) && (pc.PutGrant? ==> Unclaimed(s.tasks, s.history, pc.code))
  }

  lemma TasksSet(tasks: map<TaskId, Pc>, t: TaskId, pc: Pc, h: History, minted: Value, cfg: Config)
    requires TasksOk(tasks, h, minted, cfg) && TaskOk(pc, h, minted, cfg) && (pc.PutGrant? ==> Unclaimed(tasks, h, pc.code))
    ensures TasksOk(tasks[t := pc], h, minted, cfg)
  {
    var tasks' := tasks[t := pc];
    forall x | x in tasks' && tasks'[x].PutGrant? ensures Unclaimed(tasks' - {x}, h, tasks'[x].code) {
      if x != t { assert Unclaimed(tasks - {x}, h, tasks[x].code); }
      forall y | y in tasks' - {x} && tasks'[y].PutGrant? ensures tasks'[y].code != tasks'[x].code {
        if x != t && y != t { assert y in tasks - {x}; }
      }
    }
  }

  lemma TasksDrop(tasks: map<TaskId, Pc>, t: TaskId, h: History, minted: Value, cfg: Config)
    requires TasksOk(tasks, h, minted, cfg)
    ensures TasksOk(tasks - {t}, h, minted, cfg)
  {
    forall x | x in tasks - {t} && tasks[x].PutGrant? ensures Unclaimed(tasks - {t} - {x}, h, tasks[x].code) {
      assert Unclaimed(tasks - {x}, h, tasks[x].code);
      forall y | y in tasks - {t} - {x} && tasks[y].PutGrant? ensures tasks[y].code != tasks[x].code {
        assert y in tasks - {x};
      }
    }
  }

  /** The task moves on and nothing else changes. */
  lemma MoveInv(s: State, t: TaskId, pc: Pc)
    requires Inv(s) && MayMove(s, t, pc)
    ensures Inv(At(s, t, pc))
  {
    TasksSet(s.tasks, t, pc, s.history, s.minted, s.cfg);
    hide CodesOk, RefreshOk, AccessOk, TasksOk, HistoryOk, GrantsOk, TaskOk;
  }

  lemma FinishInv(s: State, t: TaskId)
    requires Inv(s)
    ensures Inv(Finish(s, t))
  {
    TasksDrop(s.tasks, t, s.history, s.minted, s.cfg);
    hide CodesOk, RefreshOk, AccessOk, TasksOk, HistoryOk, GrantsOk, TaskOk;
  }

  /** Minting a value and touching only the nonces. */
  lemma NoncesInv(s: State, nonces: Table<Value, Query>, minted: Value)
    requires Inv(s) && s.minted <= minted
    ensures Inv(s.(nonces := nonces, minted := minted))
  {
    TasksGrow(s.tasks, s.history, s.minted, Revoked(0), minted, s.cfg);
    hide TasksOk, HistoryOk;
    QuietInv(s, s.(nonces := nonces, minted := minted));
  }

  /** One more value is minted. */
  lemma MintInv(s: State)
    requires Inv(s)
    ensures Inv(s.(minted := s.minted + 1))
  {
    TasksGrow(s.tasks, s.history, s.minted, Revoked(0), s.minted + 1, s.cfg);
    hide GrantOk, HistoryOk, TasksOk;
  }

  /** What may be recorded next. */
  ghost predicate MayNote(s: State, o: Obs) {
    var h := s.history;
    (o.CodeTaken? ==> o.code !in s.codes && o.code < s.minted && Authorized(o.code, o.query) in h
                      && forall i :: 0 <= i < |h| && h[i].CodeTaken? ==> h[i].code != o.code)
    && (o.RefreshTaken? ==> o.token !in s.refresh && o.token < s.minted
                            && forall i :: 0 <= i < |h| && h[i].RefreshTaken? ==> h[i].token != o.token)
    && (o.Revoked? || o.Dated? ==> o.grant < s.minted && o.grant !in s.grants)
    && (UsesGrant(o) ==> forall i :: 0 <= i < |h| && h[i].Revoked? ==> h[i].grant != o.grant)
    && (o.BearerOk? ==> forall i :: 0 <= i < |h| && h[i].Dated? && h[i].grant == o.grant ==> o.at < h[i].at + s.cfg.grantMaxTtl)
    && (o.Dated? && o.origin.Some? ==> Redeemed(h, |h|, o.origin.value, s.cfg) && Unclaimed(s.tasks, h, o.origin.value))
  }

  lemma NoteInv(s: State, o: Obs)
    requires Inv(s) && MayNote(s, o)
    ensures Inv(Note(s, o))
  {
    CodesGrow(s.codes, s.history, s.minted, o);
    RefreshGrow(s.refresh, s.history, s.minted, o);
    GrantsGrow(s.grants, s.history, s.minted, s.cfg.grantMaxTtl, o);
    HistoryGrows(s.history, s.cfg, o);
    TasksGrow(s.tasks, s.history, s.minted, o, s.minted, s.cfg);
    hide CodesOk, RefreshOk, AccessOk, TasksOk, HistoryOk, GrantsOk, MayNote;
  }

  lemma MintCodeInv(s: State, t: TaskId, q: Query, proved: bool)
    requires Inv(s)
    ensures Inv(MintCode(s, t, q, proved))
  {
    hide Inv, Put, Untaken;
    FinishInv(s, t);
    if proved {
      UntakenCode(s);
      MintInv(Finish(s, t));
      AuthorizeInv(Finish(s, t).(minted := s.minted + 1), s.minted, q);
    }
  }

  /** A value that is not minted yet was never taken. */
  lemma UntakenCode(s: State)
    requires Inv(s)
    ensures Untaken(s.history, s.minted)
  {
    hide RefreshOk, AccessOk, TasksOk, HistoryOk, GrantsOk;
  }

  ghost predicate Untaken(h: History, c: Value) {
    forall i :: 0 <= i < |h| && h[i].CodeTaken? ==> h[i].code != c
  }

  lemma AuthorizeInv(s: State, c: Value, q: Query)
    requires Inv(s) && Untaken(s.history, c) && c < s.minted
    ensures Inv(Note(s.(codes := Put(s.codes, s.now, c, q, 60.0)), Authorized(c, q)))
  {
    var o := Authorized(c, q);
    NoteInv(s, o);
    hide RefreshOk, AccessOk, TasksOk, HistoryOk, GrantsOk;
    AuthorizedCodes(s.codes, s.history, s.minted, c, q, s.now);
    hide CodesOk;
  }

  lemma AuthorizedCodes(codes: Table<Value, Query>, h: History, minted: Value, c: Value, q: Query, now: real)
    requires CodesOk(codes, h, minted) && Untaken(h, c) && c < minted
    ensures CodesOk(Put(codes, now, c, q, 60.0), h + [Authorized(c, q)], minted)
  {
    var k := h + [Authorized(c, q)];
    assert k[|h|] == Authorized(c, q);
  }

  lemma CodeDeleteInv(s: State, code: Value)
    requires Inv(s)
    ensures Inv(s.(codes := Delete(s.codes, code))) && code !in Delete(s.codes, code)
    ensures code in s.codes ==>
      code < s.minted && Authorized(code, s.codes[code].value) in s.history && Untaken(s.history, code)
  {
    hide RefreshOk, AccessOk, TasksOk, HistoryOk, GrantsOk;
  }

  /** A code that was never taken has no grant and no request about to issue one. */
  lemma UntakenIsUnclaimed(s: State, code: Value)
    requires Inv(s) && Untaken(s.history, code)
    ensures Unclaimed(s.tasks, s.history, code)
  {
    hide CodesOk, RefreshOk, AccessOk, GrantsOk, ClaimsOk, Once, RevokedStays, WithinLifetime;
    forall t | t in s.tasks && s.tasks[t].PutGrant? ensures s.tasks[t].code != code {
      assert TaskOk(s.tasks[t], s.history, s.minted, s.cfg);
    }
    forall i: nat | i < |s.history| && s.history[i].Dated? ensures s.history[i].origin != Some(code) {
      assert s.history[i].origin.Some? ==> Redeemed(s.history, i, s.history[i].origin.value, s.cfg);
    }
  }

  lemma TakeCodeInv(s: State, t: TaskId, code: Value, verifier: string, redirect: string)
    requires Inv(s)
    ensures Inv(TakeCode(s, t, code, verifier, redirect))
  {
    var s1 := s.(codes := Delete(s.codes, code));
    CodeDeleteInv(s, code);
    var q := Get(s.codes, s.now, code);
    if q.Some? { UntakenIsUnclaimed(s, code); }
    hide Inv, Delete, Unclaimed;
    FinishInv(s1, t);
    if q.Some? {
      var o := CodeTaken(code, q.value, verifier, redirect);
      NoteInv(s1, o);
      var s2 := Note(s1, o);
      FinishInv(s2, t);
      StillUnclaimed(s1.tasks, s1.history, o, code);
      if Redeems(s.cfg, q.value, verifier, redirect) {
        TakenIs(s1.history, o, s.minted, s.cfg);
        MoveInv(s2, t, PutGrant(code));
      }
    }
  }

  lemma StillUnclaimed(tasks: map<TaskId, Pc>, h: History, o: Obs, code: Value)
    requires Unclaimed(tasks, h, code) && !o.Dated?
    ensures Unclaimed(tasks, h + [o], code)
  {
  }

  lemma TakenIs(h: History, o: Obs, minted: Value, cfg: Config)
    requires o.CodeTaken? && Redeems(cfg, o.query, o.verifier, o.redirect)
    ensures TaskOk(PutGrant(o.code), h + [o], minted, cfg)
  {
    assert (h + [o])[|h|] == o;
  }

  // ---- grants ------------------------------------------------------------------------------------------

  lemma GrantPut(grants: Table<Value, Grant>, h: History, minted: Value, max: real, g: Value, v: Grant, now: real, ttl: real)
    requires GrantsOk(Delete(grants, g), h, minted, max) && g < minted && GrantOk(Row(v, now + ttl), g, h, max)
    requires forall i :: 0 <= i < |h| && h[i].Revoked? ==> h[i].grant != g
    ensures GrantsOk(Put(grants, now, g, v, ttl), h, minted, max)
  {
    hide GrantOk;
    var grants' := Put(grants, now, g, v, ttl);
    forall x | x in grants' ensures x < minted && GrantOk(grants'[x], x, h, max) {
      if x != g { assert x in Delete(grants, g); }
    }
  }

  lemma GrantDelete(grants: Table<Value, Grant>, h: History, minted: Value, max: real, g: Value)
    requires GrantsOk(grants, h, minted, max)
    ensures GrantsOk(Delete(grants, g), h, minted, max)
  {
    hide GrantOk;
  }

  lemma IssueAccessInv(s: State, t: TaskId, g: Value, ttl: real)
    requires Inv(s) && t in s.tasks && s.tasks[t] == PutAccess(g, ttl)
    ensures Inv(IssueAccess(s, t, g, ttl))
  {
    assert TaskOk(s.tasks[t], s.history, s.minted, s.cfg);
    MintInv(s);
    var s1 := s.(minted := s.minted + 1);
    TasksSet(s1.tasks, t, PutRefresh(g, ttl), s1.history, s1.minted, s1.cfg);
    hide CodesOk, RefreshOk, TasksOk, HistoryOk, GrantsOk, TaskOk;
  }

  lemma RefreshPut(refresh: Table<Value, TokenRecord>, h: History, minted: Value, now: real, v: TokenRecord, ttl: real)
    requires RefreshOk(refresh, h, minted) && v.grant < minted
    ensures RefreshOk(Put(refresh, now, minted, v, ttl), h, minted + 1)
  {
  }

  lemma IssueRefreshInv(s: State, t: TaskId, g: Value, ttl: real)
    requires Inv(s) && t in s.tasks && s.tasks[t] == PutRefresh(g, ttl)
    ensures Inv(IssueRefresh(s, t, g, ttl))
  {
    assert TaskOk(s.tasks[t], s.history, s.minted, s.cfg);
    RefreshPut(s.refresh, s.history, s.minted, s.now, TokenRecord(g, s.cfg.resource), ttl);
    MintInv(s);
    var s1 := s.(minted := s.minted + 1);
    TasksDrop(s1.tasks, t, s1.history, s1.minted, s1.cfg);
    hide CodesOk, AccessOk, RefreshOk, TasksOk, HistoryOk, GrantsOk, TaskOk, Put;
  }

  // ---- renewing ------------------------------------------------------------------------------------

  lemma RefreshDelete(refresh: Table<Value, TokenRecord>, h: History, minted: Value, token: Value)
    requires RefreshOk(refresh, h, minted)
    ensures RefreshOk(Delete(refresh, token), h, minted) && token !in Delete(refresh, token)
  {
  }

  /** A live grant may be used: it was not revoked. */
  lemma LiveGrant(s: State, g: Value)
    requires GrantsOk(s.grants, s.history, s.minted, s.cfg.grantMaxTtl) && g in s.grants
    ensures g < s.minted && GrantOk(s.grants[g], g, s.history, s.cfg.grantMaxTtl)
    ensures forall i :: 0 <= i < |s.history| && s.history[i].Revoked? ==> s.history[i].grant != g
  {
  }

  /** The renewed row keeps the grant's creation time and never outlives it by more than the maximum. */
  lemma RenewedRow(row: Row<Grant>, g: Value, h: History, max: real, now: real, refreshTtl: real)
    requires GrantOk(row, g, h, max)
    ensures var created := if row.value.created.Some? then row.value.created.value else now;
      var absolute := if row.value.absolute.Some? then row.value.absolute.value else created + max;
      var k := if row.value.created.None? then h + [Dated(g, created, None)] else h;
      GrantOk(Row(Grant(Some(created), Some(absolute)), now + Lesser(refreshTtl, absolute - now)), g, k, max)
  {
  }

  lemma SetAsideInv(s: State, token: Value, g: Value)
    requires Inv(s)
    ensures Inv(s.(refresh := Delete(s.refresh, token), grants := Delete(s.grants, g)))
  {
    RefreshDelete(s.refresh, s.history, s.minted, token);
    GrantDelete(s.grants, s.history, s.minted, s.cfg.grantMaxTtl, g);
    hide CodesOk, RefreshOk, AccessOk, TasksOk, HistoryOk, GrantsOk;
  }

  lemma PutBackInv(s: State, grants: Table<Value, Grant>, g: Value, v: Grant, ttl: real)
    requires Inv(s) && s.grants == Delete(grants, g) && g < s.minted && GrantOk(Row(v, s.now + ttl), g, s.history, s.cfg.grantMaxTtl)
    requires forall i :: 0 <= i < |s.history| && s.history[i].Revoked? ==> s.history[i].grant != g
    ensures Inv(s.(grants := Put(grants, s.now, g, v, ttl)))
  {
    GrantPut(grants, s.history, s.minted, s.cfg.grantMaxTtl, g, v, s.now, ttl);
    hide CodesOk, RefreshOk, AccessOk, TasksOk, HistoryOk, GrantsOk;
  }

  lemma NotedAgain(row: Row<Grant>, g: Value, h: History, max: real, o: Obs)
    requires GrantOk(row, g, h, max) && !o.Dated? && !o.Revoked?
    requires forall i :: 0 <= i < |h| && h[i].Revoked? ==> h[i].grant != g
    ensures GrantOk(row, g, h + [o], max)
    ensures forall i :: 0 <= i < |h + [o]| && (h + [o])[i].Revoked? ==> (h + [o])[i].grant != g
  {
  }

  lemma UntakenRefresh(s: State, token: Value)
    requires RefreshOk(s.refresh, s.history, s.minted) && token in s.refresh
    ensures token < s.minted && s.refresh[token].value.grant < s.minted
    ensures forall i :: 0 <= i < |s.history| && s.history[i].RefreshTaken? ==> s.history[i].token != token
  {
  }

  lemma NewGrantInv(s: State, t: TaskId, code: Value)
    requires Inv(s) && t in s.tasks && s.tasks[t] == PutGrant(code)
    ensures Inv(NewGrant(s, t, code))
  {
    hide Inv, MayNote, Put, GrantOk, GrantsOk;
    var g := s.minted;
    var v := Grant(Some(s.now), Some(s.now + s.cfg.grantMaxTtl));
    var o := Dated(g, s.now, Some(code));
    UndatedGrant(s, o);
    MintInv(s);
    var s1 := s.(minted := s.minted + 1);
    MoveInv(s1, t, PutAccess(g, s.cfg.refreshTtl));
    var s2 := At(s1, t, PutAccess(g, s.cfg.refreshTtl));
    NewGrantNotes(s, t, code);
    GrantInv(s2, g, v, s.cfg.refreshTtl, o);
  }

  /** A grant's row is written together with the record of its date. */
  lemma GrantInv(s: State, g: Value, v: Grant, ttl: real, o: Obs)
    requires Inv(s) && g !in s.grants && g < s.minted && MayNote(s, o)
    requires var h := s.history + [o];
      GrantOk(Row(v, s.now + ttl), g, h, s.cfg.grantMaxTtl) && forall i :: 0 <= i < |h| && h[i].Revoked? ==> h[i].grant != g
    ensures Inv(Note(s.(grants := Put(s.grants, s.now, g, v, ttl)), o))
  {
    assert Delete(s.grants, g) == s.grants;
    hide Inv, MayNote, Delete, Put, GrantOk, GrantsOk;
    NoteInv(s, o);
    PutBackInv(Note(s, o), s.grants, g, v, ttl);
  }

  lemma NewGrantNotes(s: State, t: TaskId, code: Value)
    requires Inv(s) && t in s.tasks && s.tasks[t] == PutGrant(code)
    ensures s.minted !in s.grants
    ensures MayNote(At(s.(minted := s.minted + 1), t, PutAccess(s.minted, s.cfg.refreshTtl)), Dated(s.minted, s.now, Some(code)))
  {
    assert TaskOk(s.tasks[t], s.history, s.minted, s.cfg);
    var tasks := s.tasks[t := PutAccess(s.minted, s.cfg.refreshTtl)];
    assert Unclaimed(s.tasks - {t}, s.history, code);
    assert Unclaimed(tasks, s.history, code) by {
      forall x | x in tasks && tasks[x].PutGrant? ensures tasks[x].code != code { assert x in s.tasks - {t}; }
    }
    hide CodesOk, RefreshOk, AccessOk, TasksOk, HistoryOk, GrantOk, Unclaimed, Redeemed;
  }

  /** A grant that is minted now has no other date and was never revoked. */
  lemma UndatedGrant(s: State, o: Obs)
    requires Inv(s)
    requires o.Dated? && o.grant == s.minted && o.at == s.now
    ensures var h := s.history + [o];
      GrantOk(Row(Grant(Some(s.now), Some(s.now + s.cfg.grantMaxTtl)), s.now + s.cfg.refreshTtl), s.minted, h, s.cfg.grantMaxTtl)
      && forall i :: 0 <= i < |h| && h[i].Revoked? ==> h[i].grant != s.minted
  {
    hide CodesOk, RefreshOk, AccessOk, TasksOk, HistoryOk;
    assert forall i :: 0 <= i < |s.history| && s.history[i].Dated? ==> s.history[i].grant < s.minted;
    assert forall i :: 0 <= i < |s.history| && s.history[i].Revoked? ==> s.history[i].grant < s.minted;
    hide GrantsOk;
  }

  /** The transaction with the token and the grant's row set aside, then put back renewed. */
  lemma RenewedInv(s: State, t: TaskId, token: Value, dated: Option<Obs>, v: Grant, remaining: real)
    requires Inv(s) && token in s.refresh && s.refresh[token].value.grant in s.grants
    requires var g := s.refresh[token].value.grant;
      (dated.Some? ==> dated.value.Dated? && dated.value.grant == g && dated.value.origin.None?)
      && GrantOk(Row(v, s.now + remaining), g, if dated.Some? then s.history + [dated.value] else s.history, s.cfg.grantMaxTtl)
    ensures var g := s.refresh[token].value.grant;
      var s1 := s.(refresh := Delete(s.refresh, token), grants := Put(s.grants, s.now, g, v, remaining));
      var s2 := if dated.Some? then Note(s1, dated.value) else s1;
      Inv(At(Note(s2, RefreshTaken(token, g)), t, PutAccess(g, remaining)))
  {
    var g := s.refresh[token].value.grant;
    LiveGrant(s, g);
    UntakenRefresh(s, token);
    SetAsideInv(s, token, g);
    var s1 := s.(refresh := Delete(s.refresh, token), grants := Delete(s.grants, g));
    assert g !in s1.grants && token !in s1.refresh;
    hide Inv, GrantOk, Put, Delete;
    var s2 := s1;
    if dated.Some? {
      NoteInv(s1, dated.value);
      s2 := Note(s1, dated.value);
    }
    var o := RefreshTaken(token, g);
    NoteInv(s2, o);
    var s3 := Note(s2, o);
    NotedAgain(Row(v, s.now + remaining), g, s2.history, s.cfg.grantMaxTtl, o);
    PutBackInv(s3, s.grants, g, v, remaining);
    MoveInv(s3.(grants := Put(s.grants, s.now, g, v, remaining)), t, PutAccess(g, remaining));
  }

  /** What the transaction writes back is a good row, given both rows are live. */
  lemma RenewReady(s: State, g: Value)
    requires Inv(s) && g in s.grants
    ensures var v := s.grants[g].value;
      var created, absolute := Created(s, v), Absolute(s, v);
      var h := if v.created.None? then s.history + [Dated(g, created, None)] else s.history;
      GrantOk(Row(Grant(Some(created), Some(absolute)), s.now + Lesser(s.cfg.refreshTtl, absolute - s.now)), g, h, s.cfg.grantMaxTtl)
  {
    LiveGrant(s, g);
    RenewedRow(s.grants[g], g, s.history, s.cfg.grantMaxTtl, s.now, s.cfg.refreshTtl);
    hide Inv, GrantOk, GrantsOk, Lesser;
  }

  lemma RenewInv(s: State, t: TaskId, token: Value)
    requires Inv(s)
    ensures Inv(RenewGrant(s, t, token))
  {
    hide Inv, GrantOk, Put, Delete, Lesser, Created, Absolute;
    FinishInv(s, t);
    var q := Get(s.refresh, s.now, token);
    var record := if q.Some? then Get(s.grants, s.now, q.value.grant) else None;
    if q.Some? && record.Some? {
      var g := q.value.grant;
      var created, absolute := Created(s, record.value), Absolute(s, record.value);
      var remaining := Lesser(s.cfg.refreshTtl, absolute - s.now);
      RenewReady(s, g);
      RenewedInv(s, t, token, if record.value.created.None? then Some(Dated(g, created, None)) else None,
                 Grant(Some(created), Some(absolute)), remaining);
    }
  }

  // ---- revoking and using --------------------------------------------------------------------------

  lemma RevokeInv(s: State, t: TaskId, g: Value)
    requires Inv(s) && t in s.tasks && s.tasks[t] == DeleteGrant(g)
    ensures Inv(RevokeGrant(s, t, g))
  {
    assert TaskOk(s.tasks[t], s.history, s.minted, s.cfg);
    FinishInv(s, t);
    var s1 := Finish(s, t).(grants := Delete(s.grants, g));
    GrantDelete(s.grants, s.history, s.minted, s.cfg.grantMaxTtl, g);
    assert Inv(s1) by { hide CodesOk, RefreshOk, AccessOk, TasksOk, HistoryOk, GrantsOk; }
    hide Inv;
    NoteInv(s1, Revoked(g));
  }

  lemma BearerInv(s: State, t: TaskId, token: Value, g: Value)
    requires Inv(s)
    ensures Inv(BearerGrant(s, t, token, g))
  {
    FinishInv(s, t);
    if Get(s.grants, s.now, g).Some? {
      LiveGrant(s, g);
      hide Inv, GrantsOk;
      NoteInv(Finish(s, t), BearerOk(token, g, s.now));
    }
  }

  lemma TakeNonceInv(s: State, t: TaskId, nonce: Value)
    requires Inv(s)
    ensures Inv(TakeNonce(s, t, nonce))
  {
    var s1 := s.(nonces := Delete(s.nonces, nonce));
    NoncesInv(s, s1.nonces, s.minted);
    var q := Get(s.nonces, s.now, nonce);
    hide Inv;
    FinishInv(s1, t);
    if q.Some? { MoveInv(s1, t, CheckPassword(q.value)); }
  }

  lemma RememberQueryInv(s: State, t: TaskId, q: Query)
    requires Inv(s)
    ensures Inv(RememberQuery(s, t, q))
  {
    hide Inv, Put;
    FinishInv(s, t);
    var nonces := Put(s.nonces, s.now, s.minted, q, 300.0);
    NoncesInv(s, nonces, s.minted + 1);
    FinishInv(s.(nonces := nonces, minted := s.minted + 1), t);
  }

  lemma LookUpInv(s: State, t: TaskId, token: Value)
    requires Inv(s)
    ensures Inv(LookUpAccess(s, t, token)) && Inv(LookUpRefresh(s, t, token)) && Inv(BearerToken(s, t, token))
  {
    FinishInv(s, t);
    MoveInv(s, t, FindRefresh(token));
    if token in s.access {
      assert s.access[token].value.grant < s.minted;
      MoveInv(s, t, DeleteGrant(s.access[token].value.grant));
      MoveInv(s, t, CheckGrant(token, s.access[token].value.grant));
    }
    if token in s.refresh {
      assert s.refresh[token].value.grant < s.minted;
      MoveInv(s, t, DeleteGrant(s.refresh[token].value.grant));
    }
  }

  lemma StepInv(s: State, t: TaskId, proved: bool)
    requires Inv(s) && t in s.tasks
    ensures Inv(Step(s, t, proved))
  {
    hide Inv, RememberQuery, TakeNonce, MintCode, TakeCode, NewGrant, IssueAccess, IssueRefresh, RenewGrant, LookUpAccess,
         LookUpRefresh, RevokeGrant, BearerToken, BearerGrant;
    match s.tasks[t]
    case PutNonce(q) => RememberQueryInv(s, t, q);
    case PopNonce(nonce) => TakeNonceInv(s, t, nonce);
    case CheckPassword(q) => MintCodeInv(s, t, q, proved);
    case PopCode(code, verifier, redirect) => TakeCodeInv(s, t, code, verifier, redirect);
    case PutGrant(code) => NewGrantInv(s, t, code);
    case PutAccess(g, ttl) => IssueAccessInv(s, t, g, ttl);
    case PutRefresh(g, ttl) => IssueRefreshInv(s, t, g, ttl);
    case Renew(token) => RenewInv(s, t, token);
    case FindAccess(token) => LookUpInv(s, t, token);
    case FindRefresh(token) => LookUpInv(s, t, token);
    case DeleteGrant(g) => RevokeInv(s, t, g);
    case CheckAccess(token) => LookUpInv(s, t, token);
    case CheckGrant(token, g) => BearerInv(s, t, token, g);
  }

  lemma CleanupInv(s: State)
    requires Inv(s)
    ensures Inv(Next(s, Cleanup))
  {
    hide HistoryOk, TasksOk;
    QuietInv(s, Next(s, Cleanup));
  }

  lemma NextInv(s: State, e: Event)
    requires Inv(s) && Enabled(s, e)
    ensures Inv(Next(s, e))
  {
    match e
    case Tick(elapsed) => hide CodesOk, RefreshOk, AccessOk, TasksOk, HistoryOk, GrantsOk;
    case Arrive(t, request) => MoveInv(s, t, request);
    case Continue(t, proved) => StepInv(s, t, proved);
    case Abandon(t) => FinishInv(s, t);
    case Cleanup => CleanupInv(s);
  }

  /** The database a server may start on: live values below the next one, grants undated. */
  ghost predicate Legacy(minted: Value, grants: Table<Value, Grant>, access: Table<Value, TokenRecord>,
                         refresh: Table<Value, TokenRecord>)
  {
    (forall g :: g in grants ==> g < minted && grants[g].value == Grant(None, None))
    && (forall a :: a in access ==> a < minted && access[a].value.grant < minted)
    && (forall r :: r in refresh ==> r < minted && refresh[r].value.grant < minted)
  }

  ghost predicate IsRun(s: State, cfg: Config) {
    exists minted, grants, access, refresh, events ::
      Legacy(minted, grants, access, refresh) && s == Run(Init(cfg, minted, grants, access, refresh), events)
  }

  lemma {:induction false} RunInv(s0: State, events: seq<Event>)
    requires Inv(s0)
    ensures Inv(Run(s0, events)) && Run(s0, events).cfg == s0.cfg
    decreases |events|
  {
    if events != [] {
      RunInv(s0, events[..|events| - 1]);
      var before := Run(s0, events[..|events| - 1]);
      hide Inv, Next;
      if Enabled(before, events[|events| - 1]) { NextInv(before, events[|events| - 1]); }
    }
  }

  lemma IsRunInv(s: State, cfg: Config)
    requires ValidConfig(cfg) && IsRun(s, cfg)
    ensures Inv(s) && s.cfg == cfg
  {
    var minted, grants, access, refresh, events :|
      Legacy(minted, grants, access, refresh) && s == Run(Init(cfg, minted, grants, access, refresh), events);
    RunInv(Init(cfg, minted, grants, access, refresh), events);
  }

  // ---- what every run guarantees ---------------------------------------------------------------------

  /** Each code and each refresh token is taken at most once. */
  lemma RedeemedOnce(s: State, cfg: Config, i: nat, j: nat)
    requires ValidConfig(cfg) && IsRun(s, cfg) && i < j < |s.history|
    ensures s.history[i].CodeTaken? && s.history[j].CodeTaken? ==> s.history[i].code != s.history[j].code
    ensures s.history[i].RefreshTaken? && s.history[j].RefreshTaken? ==> s.history[i].token != s.history[j].token
  {
    IsRunInv(s, cfg);
  }

  /** No bearer succeeds and nothing is refreshed after the grant is revoked, however the steps of
      refreshing, using and revoking requests interleave. */
  lemma RevokedForGood(s: State, cfg: Config, i: nat, j: nat)
    requires ValidConfig(cfg) && IsRun(s, cfg) && i < j < |s.history|
    requires s.history[i].Revoked? && (s.history[j].BearerOk? || s.history[j].RefreshTaken?)
    ensures s.history[i].grant != s.history[j].grant
  {
    IsRunInv(s, cfg);
    assert RevokedStays(s.history);
  }

  /** Through any number of refreshes no grant outlives its creation by more than the maximum,
      and no bearer of it succeeds later than that. */
  lemma ExpiresInTime(s: State, cfg: Config, i: nat, j: nat)
    requires ValidConfig(cfg) && IsRun(s, cfg) && i < j < |s.history|
    requires s.history[i].Dated? && s.history[j].BearerOk? && s.history[i].grant == s.history[j].grant
    ensures s.history[j].at < s.history[i].at + cfg.grantMaxTtl
  {
    IsRunInv(s, cfg);
    assert WithinLifetime(s.history, cfg.grantMaxTtl);
  }

  lemma RowExpiresInTime(s: State, cfg: Config, g: Value)
    requires ValidConfig(cfg) && IsRun(s, cfg) && g in s.grants && s.grants[g].value.created.Some?
    ensures s.grants[g].expires <= s.grants[g].value.created.value + cfg.grantMaxTtl
    ensures forall i :: 0 <= i < |s.history| && s.history[i].Dated? && s.history[i].grant == g ==>
      s.history[i].at == s.grants[g].value.created.value
  {
    IsRunInv(s, cfg);
    LiveGrant(s, g);
  }

  /** Every grant issued for a code stems from one authorization that took that very code, with the
      verifier of its challenge, its callback and this server's resource; and no code gives two grants. */
  lemma GrantsStemFromCodes(s: State, cfg: Config, j: nat) returns (i: nat)
    requires ValidConfig(cfg) && IsRun(s, cfg) && j < |s.history| && s.history[j].Dated? && s.history[j].origin.Some?
    ensures i < j && s.history[i].CodeTaken? && s.history[i].code == s.history[j].origin.value
    ensures Authorized(s.history[i].code, s.history[i].query) in s.history[..i]
    ensures var query := s.history[i].query;
      cfg.challengeOf(s.history[i].verifier) == query.challenge && s.history[i].redirect == query.redirect
      && query.resource == cfg.resource
    ensures forall k: nat :: k < |s.history| && s.history[k].Dated? && s.history[k].origin == s.history[j].origin ==> k == j
  {
    IsRunInv(s, cfg);
    assert Provenance(s.history, cfg) && Once(s.history);
    assert Redeemed(s.history, j, s.history[j].origin.value, cfg);
    i :| i < j && s.history[i].CodeTaken? && s.history[i].code == s.history[j].origin.value
         && Redeems(cfg, s.history[i].query, s.history[i].verifier, s.history[i].redirect);
  }
}
